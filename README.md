# BLE peripheral session controllers, modelled in Dafny

Two Zephyr Bluetooth Low Energy peripheral applications, each a single
`main.c`, share one small session core. It keeps the one stored connection
reference, the advertising flag and a little button-derived state, all driven
by callbacks from the Bluetooth stack and the board's button driver.

- `week1/exercises1-4/main.c` is the LED Button Service (LBS) peripheral.
  Button 1 publishes its level. Button 2 toggles advertising, and the flag
  follows only a successful stack call. Button 3 asks the stack to disconnect
  with HCI reason 0x13, "Remote User Terminated Connection" (Bluetooth Core
  Specification, Vol 1, Part F). `main` switches advertising on once every
  initialisation call has succeeded.
- `week1/exercises5-8/main.c` is the remote-service peripheral. On a press
  edge, `button_handler` maps a change mask that is exactly one button's mask
  to that button's index 1..4 (0 otherwise). It counts recognised presses in
  `running_tot` and always sends a notification. `on_data_received` copies the
  written bytes into a NUL-terminated buffer for printing.

Layout:

- `session.dfy`, module `Session`. The shared types and the connect/disconnect
  handlers, which are the same code in both files. Also the lemmas about any
  sequence of link events: what is stored afterwards, and reference accounting.
- `lbs.dfy`, module `Lbs`. The first application. There is one pure step
  function per callback, plus `Run` for a sequence of events. Class `LbsApp`
  has the module statics as fields and one method per callback.
- `remote.dfy`, module `Remote`. The second application, built the same way,
  with class `RemoteApp`.

The calls the callbacks make to the stack or the board library, and the
first advertising start in `main`, are appended in order to the ghost field
`trace` of the application object. These calls are the LED on/off/set calls,
`bt_conn_ref`/`bt_conn_unref`, advertising start/stop (with the error code it
returned), disconnect requests, button-state sends, `set_button_status` and
button notifications. The initialisation calls of `main` before the first
advertising start are not trace entries: only their results appear, as the
fields of `Lbs.InitResults`. Return values from the stack are method
parameters. Examples are the advertising error `advErr`, the initialisation
results of `main`, the `err` of a connection and the notification-send error.

Each class method states its whole new state and trace, and ties them to the
pure step function. Each class also keeps a ghost history: the state it
started from (`origin`) and the callbacks handled since (`events`). Its
invariant `Valid()` says that the fields and the trace are what `Run` makes of
that history, and every callback method keeps `Valid()` and appends its own
event. So a lemma about `Run` is a statement about the object after any
sequence of method calls. `Lbs.LbsApp.AppButtonCb`,
`Lbs.LbsApp.ButtonChanged` and `Remote.RemoteApp.ButtonHandler` state such
facts in their own contracts.

The model follows the code as written, including these behaviours:

- `disconnected` never compares the event's connection with the stored one. It
  clears and releases whatever is stored.
- `connected` overwrites a stored connection without releasing its reference.
- The connection LED is switched off on every disconnection, even a repeated
  one.
- No subscription flags are kept, and `on_notif_changed` stores nothing.
- `on_data_received` checks no length bound and drops nothing.
- `button_handler` notifies even when no connection is stored, with a null
  connection.

## Model

| member | source | states |
|---|---|---|
| `Session.RegistryFollowsLastDecisiveEvent` | week1/exercises1-4/main.c:51-73 | After any sequence of connect/disconnect events, the stored connection is set by the last decisive event. That is the connection of a successful connect if one came last, or null if a disconnect came last. Failed connects decide nothing. |
| `Session.RegistryKeptWithoutDecisiveEvent` | week1/exercises1-4/main.c:51-56 | If every event is a failed connect (err != 0), the stored connection stays what it was. |
| `Session.SecondDisconnectReleasesNothing` | week1/exercises1-4/main.c:64-73 | After a disconnect nothing is stored. A disconnect releases one reference exactly when one was held. A second disconnect only switches the LED off again. |
| `Session.ReferencesBalance` | week1/exercises1-4/main.c:51-73 | Over any sequence of link events, references taken minus released equals the change in what is stored plus the number of connects that overwrote a stored connection. So each such overwrite leaks exactly one reference. |
| `Session.NoLeakWithoutOverwrite` | week1/exercises1-4/main.c:58-72 | When no connect arrives while a connection is stored, no reference leaks. Taken minus released is the change in what is stored. |
| `Lbs.StartupAdvertisesOnlyAfterFullInit` | week1/exercises1-4/main.c:251-317 | Starting from the zero-initialised statics, `main` sets `is_advertising` exactly when these all succeed: LED init, button init, the two pairing registrations (only when security is configured), `bt_enable`, the LBS init and the first advertising start. The first start is attempted exactly when every call before it succeeded. |
| `Lbs.LinkProjection` | week1/exercises1-4/main.c:51-73 | Over any run of callbacks, the stored connection and the reference count evolve exactly as the link events alone would make them. Button and LED-write callbacks never touch them. |
| `Lbs.ApplyProjects` | week1/exercises1-4/main.c:150-198 | One callback of any kind changes the stored connection and the reference count only if it is a link event, and then as the link handler does. |
| `Lbs.ButtonsTakeNoReference` | week1/exercises1-4/main.c:165-198 | `button_changed` never changes `current_conn` and never takes or releases a reference. Button 3 only requests a disconnect. |
| `Lbs.ReferencesBalanceInRun` | week1/exercises1-4/main.c:51-73 | The reference accounting of `Session.ReferencesBalance` holds over any run of this application's callbacks. |
| `Lbs.ApplyConfirms` | week1/exercises1-4/main.c:174-191 | One callback moves `is_advertising` exactly as its own successful advertising start or stop confirms. A failed call, or none, leaves it unchanged. |
| `Lbs.AdvertisingFlagMirrorsStack` | week1/exercises1-4/main.c:174-191 | After any run, `is_advertising` is what the last successful start (true) or stop (false) in the trace made it. With no such call it keeps its initial value. A failed start or stop changes nothing. |
| `Lbs.ButtonReadReportsLastLevel` | week1/exercises1-4/main.c:155-172 | After any run, the value read back by `app_button_cb` is the button-1 level at the last event whose change mask had button 1's bit. Other buttons and events do not affect it. |
| `Lbs.DisconnectRequestedIff` | week1/exercises1-4/main.c:194-198 | `button_changed` issues a disconnect request if and only if button 3's bit changed and a connection is stored. The request names that connection and reason 0x13. |
| `Lbs.NoChangeNoDispatch` | week1/exercises1-4/main.c:165-224 | When none of the bits of buttons 1-3 changed, `button_changed` changes no state and makes no call. This covers a held button and button 4. The button levels and the stack's answer make no difference. |
| `Lbs.ToggleOnBothEdges` | week1/exercises1-4/main.c:174-191 | For any change mask, two different button-level masks give the same advertising flag afterwards and the same advertising start and stop calls. So a press edge and a release edge of button 2 do the same thing. |
| `Lbs.AdvertisingCallGuarded` | week1/exercises1-4/main.c:174-191 | For any change mask and levels, `button_changed` calls advertising stop if and only if button 2's bit changed and advertising is on. It calls start if and only if the bit changed and advertising is off. Either call carries the stack's answer. The flag flips exactly when the bit changed and that answer is 0. |
| `Lbs.ButtonStateSentIff` | week1/exercises1-4/main.c:167-172 | `button_changed` sends a button state if and only if button 1's bit changed. The level sent is button 1's bit in the button levels. |
| `Lbs.LbsApp.constructor` | week1/exercises1-4/main.c:38-40 | The statics start with no connection, advertising off and the button level false. The trace and the callback history are empty. |
| `Lbs.LbsApp.Start` | week1/exercises1-4/main.c:251-317 | `main` reaches its blink loop exactly when initialisation and the first advertising start succeed. It sets the flag only then, and attempts the start only after every earlier init call succeeded. The callback history starts afresh from the state it leaves. |
| `Lbs.LbsApp.Connected` | week1/exercises1-4/main.c:51-62 | Keeps `Valid()` and records the callback. A nonzero `err` changes nothing and calls nothing. On success the connection is stored, one reference is taken on it and the connection LED goes on. Any previously stored connection is overwritten without an unref. |
| `Lbs.LbsApp.Disconnected` | week1/exercises1-4/main.c:64-73 | Keeps `Valid()` and records the callback. The connection LED goes off every time. A stored connection is released (the stored one, not the event's) and cleared. Afterwards nothing is stored. |
| `Lbs.LbsApp.AppLedCb` | week1/exercises1-4/main.c:150-153 | Keeps `Valid()` and records the callback. A write to the LED characteristic sets the user LED to the written value and changes no state. |
| `Lbs.LbsApp.AppButtonCb` | week1/exercises1-4/main.c:155-172 | Returns button 1's level at its last change among the callbacks handled since start-up. If button 1 has not changed since then, it returns the level held at start-up. |
| `Lbs.LbsApp.ButtonChanged` | week1/exercises1-4/main.c:165-198 | Keeps `Valid()` and records the callback. Button 1's bit stores its level. Button 2's bit flips the flag only when the stack call succeeds. Afterwards the flag is what the last successful advertising start or stop since start-up made it. State and trace change as `Lbs.ButtonChangedStep` says. |
| `Lbs.LbsApp.HandleButtons` | week1/exercises1-4/main.c:165-198 | The three blocks of `button_changed`. Button 1's bit publishes its level and stores it. Button 2's bit calls stop if advertising, otherwise start, and flips the flag only on success. Button 3's bit requests a disconnect of the stored connection, if any, without clearing it. Button 4 does nothing. |
| `Remote.ButtonIndex` | week1/exercises5-8/main.c:82-102 | The index is 1..4 exactly when the change mask has a single bit set and that bit is one of bits 0-3. Otherwise it is 0, for example when several buttons changed together. |
| `Remote.ButtonMask` | week1/exercises5-8/main.c:84-99 | Each button's mask DK_BTNn_MSK is a single-button mask, and `ButtonIndex` maps it back to n. |
| `Remote.IndexNamesTheButton` | week1/exercises5-8/main.c:82-102 | A nonzero index n was produced by exactly the mask DK_BTNn_MSK. |
| `Remote.ApplyProjects` | week1/exercises5-8/main.c:34-110 | One callback of any kind changes the stored connection and the reference count only if it is a link event, and then as the link handler does. |
| `Remote.LinkProjection` | week1/exercises5-8/main.c:34-53 | Over any run, the stored connection and the reference count evolve exactly as the link events alone would make them. Button and subscription callbacks never touch them. |
| `Remote.ReferencesBalanceInRun` | week1/exercises5-8/main.c:34-53 | The reference accounting of `Session.ReferencesBalance` holds over any run of this application's callbacks. |
| `Remote.RunningTotCountsSinglePresses` | week1/exercises5-8/main.c:80-102 | After any run, `running_tot` has grown by exactly the number of press edges whose change mask was a single button's mask. |
| `Remote.RunningTotMonotone` | week1/exercises5-8/main.c:13-102 | `running_tot` never decreases and grows by at most one per callback. |
| `Remote.ApplyNotifies` | week1/exercises5-8/main.c:80-109 | One callback sends one button notification if it is a press edge, and none otherwise. |
| `Remote.OneNotificationPerPress` | week1/exercises5-8/main.c:80-109 | Over any run, the number of notifications sent equals the number of press edges, recognised or not. Release edges, link events and subscription changes send none. |
| `Remote.TerminatedPayloadPrints` | week1/exercises5-8/main.c:65-72 | Printing a NUL-terminated copy of a payload with `%s` shows a prefix of the payload, never a byte past it. It shows the whole payload exactly when the payload has no NUL byte. |
| `Remote.RemoteApp.constructor` | week1/exercises5-8/main.c:13-15 | `running_tot` starts at 0 with no stored connection. The trace and the callback history are empty. |
| `Remote.RemoteApp.OnConnected` | week1/exercises5-8/main.c:34-43 | Keeps `Valid()` and records the callback. A nonzero `err` changes nothing. On success the connection is stored with one reference taken and the connection LED on, overwriting any stored connection without an unref. |
| `Remote.RemoteApp.OnDisconnected` | week1/exercises5-8/main.c:45-53 | Keeps `Valid()` and records the callback. The LED goes off every time. A stored connection is released and cleared, so at most one unref happens. Afterwards nothing is stored. |
| `Remote.RemoteApp.OnNotifChanged` | week1/exercises5-8/main.c:55-63 | Keeps `Valid()` and records the callback. Stores nothing and calls nothing, whatever the status. |
| `Remote.RemoteApp.OnDataReceived` | week1/exercises5-8/main.c:65-73 | The buffer has `len + 1` bytes. Bytes `0..len-1` are the input and byte `len` is 0. Its printed form is a prefix of the input, equal to it exactly when the input has no NUL. No bound on `len` is checked. |
| `Remote.RemoteApp.ButtonHandler` | week1/exercises5-8/main.c:76-110 | A release edge (`has_changed & button_state == 0`) changes nothing and calls nothing. A press edge calls `set_button_status(n)` and sends the notification `(current_conn, n, 1)`, where n is the button index or 0. `running_tot` grows by one exactly when n != 0. A send error is only logged. Keeps `Valid()`, so `running_tot` is its boot value plus the single-button presses among all callbacks handled. |

## Left out

- Remote.RemoteApp.ButtonHandler: `running_tot` is an unbounded integer. The C `int` would overflow (undefined behaviour) after 2^31 - 1 counted presses.
- Remote.RemoteApp.OnDataReceived: the variable-length stack buffer of up to 65536 bytes is not bounded by any stack size, and the `%s` print is not modelled beyond the printed prefix.
- Stack and driver internals (`dk_leds_init`, `dk_buttons_init`, `bt_conn_auth_cb_register`, `bt_conn_auth_info_cb_register`, `bt_enable`, `bt_lbs_init`, `bluetooth_init`) are foreign calls. Only their error returns are modelled, as the parameters of `Lbs.LbsApp.Start`; the calls are not trace entries. `bt_conn_ref` is taken to return the connection it was given.
- `settings_load` in the first `main` runs only when settings are configured and its result is ignored, so it is not modelled.
- Advertising and scan-response payloads (`ad`, `sd`) are constant data passed to the stack. They are not modelled.
- The stack may stop advertising by itself when a central connects. That happens inside the stack, so `is_advertising` is compared only with the starts and stops the application itself confirmed.
- Security and pairing callbacks only log, so they are not modelled.
- Logging, `printk` and string formatting are not modelled.
- The blink loops and `k_sleep` in both `main`s are timing and LED I/O. They are not modelled.
- The exercises5-8 `main` and `configure_dk_buttons_leds` only log failures and change no modelled state. They are not modelled.
- Callbacks are modelled as sequential, atomic method calls. Interleaving between interrupt and stack contexts is not modelled.
- The commented-out button-4 block, the second unused `conn_callbacks` table, the empty `settings_runtime_load` (it always returns 0, which is written into `Lbs.LbsApp.Start`) and the pasted header at the end of the first file are dead code. They are not modelled.
- The return values of `bt_lbs_send_button_state`, `bt_conn_disconnect` and `set_button_status` are ignored by the code. They are not modelled.
