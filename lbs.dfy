/** The LED Button Service peripheral (week1/exercises1-4/main.c).

    Module-level state: the stored connection, whether advertising is on, and
    the last published level of button 1. Callbacks: connection lifecycle,
    the LED-write and button-read callbacks of the service, the button-change
    handler of the board library, and the start-up sequence of `main`.
 */
module Lbs {
  import opened Session

  const USER_LED: nat := DK_LED3

  const USER_BUTTON: bv32 := DK_BTN1_MSK
  const TOGGLE_BUTTON: bv32 := DK_BTN2_MSK
  const DISCONNECT_BUTTON: bv32 := DK_BTN3_MSK

  /** The module statics `current_conn`, `is_advertising`, `app_button_state`. */
  datatype LbsState = LbsState(currentConn: Option<Conn>, isAdvertising: bool, appButtonState: bool)

  /** Their values before `main` runs (zero-initialised statics). */
  const Boot := LbsState(None, false, false)

  // ---------------------------------------------------------------------------
  // The button-change handler, block by block

  /** Button 1: publish its level and remember it. */
  function ReportButton(s: LbsState, buttonState: bv32, hasChanged: bv32): Step<LbsState>
  {
    if hasChanged & USER_BUTTON != 0 then
      var level := buttonState & USER_BUTTON != 0;
      Step(s.(appButtonState := level), [SendButtonState(level)])
    else Step(s, [])
  }

  /** Button 2: stop advertising if it is on, start it otherwise; the flag
      follows only when the stack reports success (`advErr == 0`). */
  function ToggleAdvertising(s: LbsState, hasChanged: bv32, advErr: int): Step<LbsState>
  {
    if hasChanged & TOGGLE_BUTTON == 0 then Step(s, [])
    else if s.isAdvertising then
      Step(if advErr == 0 then s.(isAdvertising := false) else s, [AdvStop(advErr)])
    else
      Step(if advErr == 0 then s.(isAdvertising := true) else s, [AdvStart(advErr)])
  }

  /** Button 3: ask the stack to drop the stored connection, if any. */
  function DisconnectOnRequest(s: LbsState, hasChanged: bv32): Step<LbsState>
  {
    if hasChanged & DISCONNECT_BUTTON != 0 && s.currentConn.Some? then
      Step(s, [DisconnectRequest(s.currentConn.value, BT_HCI_ERR_REMOTE_USER_TERM_CONN)])
    else Step(s, [])
  }

  /** `button_changed`: the three blocks in order; button 4 does nothing.
      `advErr` is what the advertising call of button 2 returns. */
  function ButtonChangedStep(s: LbsState, buttonState: bv32, hasChanged: bv32, advErr: int): Step<LbsState>
  {
    var a := ReportButton(s, buttonState, hasChanged);
    var b := ToggleAdvertising(a.next, hasChanged, advErr);
    var c := DisconnectOnRequest(b.next, hasChanged);
    Step(c.next, a.effects + b.effects + c.effects)
  }

  // ---------------------------------------------------------------------------
  // Start-up

  /** What the initialisation calls of `main` return, in call order. */
  datatype InitResults = InitResults(
    leds: int, buttons: int, authCb: int, authInfoCb: int, bt: int, lbs: int, adv: int)

  /** Every initialisation call before the first advertising start succeeded.
      The two pairing registrations are made only when security is configured;
      the device-information settings load always returns 0. */
  predicate InitSucceeded(security: bool, r: InitResults)
  {
    r.leds == 0 && r.buttons == 0 && (security ==> r.authCb == 0 && r.authInfoCb == 0)
    && r.bt == 0 && r.lbs == 0
  }

  /** `main` up to its blink loop: each failing call returns early. */
  function StartupStep(s: LbsState, security: bool, r: InitResults): Step<LbsState>
  {
    if r.leds != 0 then Step(s, [])
    else if r.buttons != 0 then Step(s, [])
    else if security && r.authCb != 0 then Step(s, [])
    else if security && r.authInfoCb != 0 then Step(s, [])
    else if r.bt != 0 then Step(s, [])
    else if r.lbs != 0 then Step(s, [])
    else if r.adv != 0 then Step(s, [AdvStart(r.adv)])
    else Step(s.(isAdvertising := true), [AdvStart(r.adv)])
  }

  /** At start-up advertising is recorded as on exactly when every
      initialisation call and the first advertising start succeed; the start
      is attempted exactly when initialisation succeeded. */
  lemma StartupAdvertisesOnlyAfterFullInit(security: bool, r: InitResults)
    ensures StartupStep(Boot, security, r).next.isAdvertising <==> InitSucceeded(security, r) && r.adv == 0
    ensures StartupStep(Boot, security, r).effects == if InitSucceeded(security, r) then [AdvStart(r.adv)] else []
    ensures StartupStep(Boot, security, r).next.currentConn == None
  {
  }

  // ---------------------------------------------------------------------------
  // Runs of events

  /** The callbacks that change state or call out. */
  datatype Event =
    | Link(e: LinkEvent)
    | ButtonChanged(buttonState: bv32, hasChanged: bv32, advErr: int)
    | LedWrite(on: bool)

  function Apply(s: LbsState, ev: Event): Step<LbsState>
  {
    match ev
    case Link(e) =>
      var t := LinkStep(s.currentConn, e);
      Step(s.(currentConn := t.next), t.effects)
    case ButtonChanged(bs, hc, err) => ButtonChangedStep(s, bs, hc, err)
    case LedWrite(on) => Step(s, [LedSet(USER_LED, on)])
  }

  /** Handling events one after the other. */
  function Run(s: LbsState, evs: seq<Event>): Step<LbsState>
  {
    if evs == [] then Step(s, [])
    else
      var r := Run(s, evs[..|evs| - 1]);
      var t := Apply(r.next, evs[|evs| - 1]);
      Step(t.next, r.effects + t.effects)
  }

  /** The link events of a run, in order. */
  function Links(evs: seq<Event>): seq<LinkEvent>
  {
    if evs == [] then []
    else Links(evs[..|evs| - 1]) + if evs[|evs| - 1].Link? then [evs[|evs| - 1].e] else []
  }

  /** One event, seen from the stored connection and the reference counts:
      only a link event makes a difference, and it makes the difference the
      link handlers alone make. */
  lemma ApplyProjects(s: LbsState, ev: Event)
    ensures Apply(s, ev).next.currentConn
            == if ev.Link? then LinkStep(s.currentConn, ev.e).next else s.currentConn
    ensures NetRefs(Apply(s, ev).effects)
            == if ev.Link? then NetRefs(LinkStep(s.currentConn, ev.e).effects) else 0
  {
    match ev
    case Link(e) =>
    case ButtonChanged(bs, hc, err) =>
      ButtonsTakeNoReference(s, bs, hc, err);
    case LedWrite(on) =>
      RefFreeBalanced(Apply(s, ev).effects);
  }

  /** Only link events touch the stored connection and the reference counts:
      in any run they evolve exactly as the link events alone make them. */
  lemma {:induction false} LinkProjection(s: LbsState, evs: seq<Event>)
    ensures Run(s, evs).next.currentConn == Replay(s.currentConn, Links(evs)).next
    ensures NetRefs(Run(s, evs).effects) == NetRefs(Replay(s.currentConn, Links(evs)).effects)
  {
    if evs != [] {
      var n := |evs| - 1;
      var r := Run(s, evs[..n]);
      var t := Apply(r.next, evs[n]);
      LinkProjection(s, evs[..n]);
      ApplyProjects(r.next, evs[n]);
      NetRefsAppend(r.effects, t.effects);
      var rp := Replay(s.currentConn, Links(evs[..n]));
      if evs[n].Link? {
        assert Links(evs)[..|Links(evs)| - 1] == Links(evs[..n]);
        NetRefsAppend(rp.effects, LinkStep(rp.next, evs[n].e).effects);
      } else {
        assert Links(evs) == Links(evs[..n]) + [] == Links(evs[..n]);
      }
    }
  }

  /** The button handler leaves the stored connection alone and takes or
      releases no reference. */
  lemma ButtonsTakeNoReference(s: LbsState, buttonState: bv32, hasChanged: bv32, advErr: int)
    ensures ButtonChangedStep(s, buttonState, hasChanged, advErr).next.currentConn == s.currentConn
    ensures NetRefs(ButtonChangedStep(s, buttonState, hasChanged, advErr).effects) == 0
  {
    var a := ReportButton(s, buttonState, hasChanged);
    var b := ToggleAdvertising(a.next, hasChanged, advErr);
    var c := DisconnectOnRequest(b.next, hasChanged);
    assert RefFree(a.effects) && RefFree(b.effects) && RefFree(c.effects);
    RefFreeBalanced(a.effects + b.effects + c.effects);
  }

  /** Reference accounting over any run of the application: references taken
      minus released equals the change in what is stored plus the number of
      connections that overwrote a stored one. */
  lemma ReferencesBalanceInRun(s: LbsState, evs: seq<Event>)
    ensures NetRefs(Run(s, evs).effects)
            == Holding(Run(s, evs).next.currentConn) - Holding(s.currentConn)
               + Overwrites(s.currentConn, Links(evs))
  {
    LinkProjection(s, evs);
    ReferencesBalance(s.currentConn, Links(evs));
  }

  /** The advertising state the stack last confirmed in a trace: on after a
      successful start, off after a successful stop, `initial` if neither. */
  function Confirmed(initial: bool, t: seq<Effect>): bool
  {
    if t == [] then initial
    else
      var e := t[|t| - 1];
      if e.AdvStart? && e.err == 0 then true
      else if e.AdvStop? && e.err == 0 then false
      else Confirmed(initial, t[..|t| - 1])
  }

  lemma {:induction false} ConfirmedAppend(initial: bool, a: seq<Effect>, b: seq<Effect>)
    ensures Confirmed(initial, a + b) == Confirmed(Confirmed(initial, a), b)
  {
    if b == [] {
      assert a + b == a;
    } else {
      assert (a + b)[..|a + b| - 1] == a + b[..|b| - 1];
      ConfirmedAppend(initial, a, b[..|b| - 1]);
    }
  }

  /** A trace with no advertising call. */
  predicate AdvFree(t: seq<Effect>)
  {
    forall e :: e in t ==> !e.AdvStart? && !e.AdvStop?
  }

  lemma {:induction false} AdvFreeConfirmsNothing(initial: bool, t: seq<Effect>)
    requires AdvFree(t)
    ensures Confirmed(initial, t) == initial
  {
    if t != [] {
      assert t[|t| - 1] in t;
      assert AdvFree(t[..|t| - 1]) by {
        forall e | e in t[..|t| - 1] ensures e in t { }
      }
      AdvFreeConfirmsNothing(initial, t[..|t| - 1]);
    }
  }

  /** One event moves the flag exactly as its own trace confirms. */
  lemma ApplyConfirms(s: LbsState, ev: Event)
    ensures Apply(s, ev).next.isAdvertising == Confirmed(s.isAdvertising, Apply(s, ev).effects)
  {
    match ev
    case Link(e) =>
      AdvFreeConfirmsNothing(s.isAdvertising, Apply(s, ev).effects);
    case ButtonChanged(bs, hc, err) =>
      var a := ReportButton(s, bs, hc);
      var b := ToggleAdvertising(a.next, hc, err);
      var c := DisconnectOnRequest(b.next, hc);
      ConfirmedAppend(s.isAdvertising, a.effects, b.effects);
      ConfirmedAppend(s.isAdvertising, a.effects + b.effects, c.effects);
      AdvFreeConfirmsNothing(s.isAdvertising, a.effects);
      AdvFreeConfirmsNothing(b.next.isAdvertising, c.effects);
      if b.effects != [] { assert b.effects[..0] == []; }
    case LedWrite(on) =>
      AdvFreeConfirmsNothing(s.isAdvertising, Apply(s, ev).effects);
  }

  /** `is_advertising` never drifts from the stack: after any run it is what
      the last successful advertising start or stop of the run made it (or
      what it was, if there was none). A failed start or stop changes nothing. */
  lemma {:induction false} AdvertisingFlagMirrorsStack(s: LbsState, evs: seq<Event>)
    ensures Run(s, evs).next.isAdvertising == Confirmed(s.isAdvertising, Run(s, evs).effects)
  {
    if evs != [] {
      var n := |evs| - 1;
      var r := Run(s, evs[..n]);
      AdvertisingFlagMirrorsStack(s, evs[..n]);
      ApplyConfirms(r.next, evs[n]);
      ConfirmedAppend(s.isAdvertising, r.effects, Apply(r.next, evs[n]).effects);
    }
  }

  /** The level button 1 last published in a run of events (`initial` if none). */
  function LastLevel(initial: bool, evs: seq<Event>): bool
  {
    if evs == [] then initial
    else
      var ev := evs[|evs| - 1];
      if ev.ButtonChanged? && ev.hasChanged & USER_BUTTON != 0 then ev.buttonState & USER_BUTTON != 0
      else LastLevel(initial, evs[..|evs| - 1])
  }

  /** What the service's button-read callback returns after any run: the level
      of button 1 at its last change, whatever other buttons did. */
  lemma {:induction false} ButtonReadReportsLastLevel(s: LbsState, evs: seq<Event>)
    ensures Run(s, evs).next.appButtonState == LastLevel(s.appButtonState, evs)
  {
    if evs != [] {
      ButtonReadReportsLastLevel(s, evs[..|evs| - 1]);
    }
  }

  /** Button 3 asks for a disconnection exactly when its bit changed and a
      connection is stored; the request names that connection and reason 0x13,
      and it is the only disconnect request the handler makes. */
  lemma DisconnectRequestedIff(s: LbsState, buttonState: bv32, hasChanged: bv32, advErr: int, c: Conn, reason: uint8)
    ensures DisconnectRequest(c, reason) in ButtonChangedStep(s, buttonState, hasChanged, advErr).effects
            <==> hasChanged & DISCONNECT_BUTTON != 0 && s.currentConn == Some(c)
                 && reason == BT_HCI_ERR_REMOTE_USER_TERM_CONN
  {
  }

  /** A held button, or button 4, dispatches nothing: when none of buttons 1-3
      changed, the handler changes no state and calls nothing, whatever the
      button levels and whatever the stack would have answered. */
  lemma NoChangeNoDispatch(s: LbsState, buttonState: bv32, hasChanged: bv32, advErr: int)
    requires hasChanged & (USER_BUTTON | TOGGLE_BUTTON | DISCONNECT_BUTTON) == 0
    ensures ButtonChangedStep(s, buttonState, hasChanged, advErr) == Step(s, [])
  {
  }

  /** Button 2's block calls `bt_le_adv_stop` exactly when its bit changed and
      advertising is on, and `bt_le_adv_start` exactly when its bit changed and
      advertising is off, whatever other bits changed: a start is only tried
      from off and a stop only from on. The flag flips exactly when that call
      succeeds. */
  lemma AdvertisingCallGuarded(s: LbsState, buttonState: bv32, hasChanged: bv32, advErr: int, err: int)
    ensures AdvStop(err) in ButtonChangedStep(s, buttonState, hasChanged, advErr).effects
            <==> hasChanged & TOGGLE_BUTTON != 0 && s.isAdvertising && err == advErr
    ensures AdvStart(err) in ButtonChangedStep(s, buttonState, hasChanged, advErr).effects
            <==> hasChanged & TOGGLE_BUTTON != 0 && !s.isAdvertising && err == advErr
    ensures ButtonChangedStep(s, buttonState, hasChanged, advErr).next.isAdvertising
            == if hasChanged & TOGGLE_BUTTON != 0 && advErr == 0 then !s.isAdvertising else s.isAdvertising
  {
  }

  /** The advertising toggle depends on button 2's change bit, not on the
      button levels: a press edge and a release edge make the same call and
      leave the same flag. */
  lemma ToggleOnBothEdges(s: LbsState, levels1: bv32, levels2: bv32, hasChanged: bv32, advErr: int, err: int)
    ensures ButtonChangedStep(s, levels1, hasChanged, advErr).next.isAdvertising
            == ButtonChangedStep(s, levels2, hasChanged, advErr).next.isAdvertising
    ensures AdvStart(err) in ButtonChangedStep(s, levels1, hasChanged, advErr).effects
            <==> AdvStart(err) in ButtonChangedStep(s, levels2, hasChanged, advErr).effects
    ensures AdvStop(err) in ButtonChangedStep(s, levels1, hasChanged, advErr).effects
            <==> AdvStop(err) in ButtonChangedStep(s, levels2, hasChanged, advErr).effects
  {
  }

  /** Button 1's block sends one button-state value, carrying button 1's new
      level, exactly when button 1's bit changed. */
  lemma ButtonStateSentIff(s: LbsState, buttonState: bv32, hasChanged: bv32, advErr: int, level: bool)
    ensures SendButtonState(level) in ButtonChangedStep(s, buttonState, hasChanged, advErr).effects
            <==> hasChanged & USER_BUTTON != 0 && level == (buttonState & USER_BUTTON != 0)
  {
  }

  // ---------------------------------------------------------------------------
  // The application object

  class LbsApp {
    var currentConn: Option<Conn>
    var isAdvertising: bool
    var appButtonState: bool
    /** Calls made to the stack and the board library, oldest first. */
    ghost var trace: seq<Effect>
    /** The callbacks handled since start-up, the state they started from, and
        the trace as it stood then. */
    ghost var origin: LbsState
    ghost var events: seq<Event>
    ghost var traceStart: seq<Effect>

    function State(): LbsState
      reads this
    {
      LbsState(currentConn, isAdvertising, appButtonState)
    }

    /** The statics and the trace are what handling `events` from `origin`
        makes them, so every lemma about `Run` applies to this object. */
    ghost predicate Valid()
      reads this
    {
      State() == Run(origin, events).next && trace == traceStart + Run(origin, events).effects
    }

    constructor ()
      ensures Valid()
      ensures State() == Boot && trace == [] && events == []
    {
      currentConn := None;
      isAdvertising := false;
      appButtonState := false;
      trace := [];
      origin := Boot;
      events := [];
      traceStart := [];
    }

    /** Records that `ev` has just been handled, given the state and trace
        before it. */
    ghost method Record(ev: Event, s0: LbsState, t0: seq<Effect>)
      requires s0 == Run(origin, events).next && t0 == traceStart + Run(origin, events).effects
      requires State() == Apply(s0, ev).next && trace == t0 + Apply(s0, ev).effects
      modifies this`events
      ensures Valid() && events == old(events) + [ev]
    {
      ghost var evs := events + [ev];
      assert evs[..|evs| - 1] == events;
      events := evs;
    }

    /** `main` up to its blink loop; `running` tells whether it gets there.
        The callbacks are counted from here on. */
    method Start(security: bool, r: InitResults) returns (running: bool)
      requires Valid()
      modifies this
      ensures Valid() && origin == State() && events == [] && traceStart == trace
      ensures running <==> InitSucceeded(security, r) && r.adv == 0
      ensures isAdvertising == (old(isAdvertising) || running)
      ensures currentConn == old(currentConn) && appButtonState == old(appButtonState)
      ensures State() == StartupStep(old(State()), security, r).next
      ensures trace == old(trace) + StartupStep(old(State()), security, r).effects
    {
      running := false;
      if r.leds != 0 { Restart(); return; }
      if r.buttons != 0 { Restart(); return; }
      if security {
        if r.authCb != 0 { Restart(); return; }
        if r.authInfoCb != 0 { Restart(); return; }
      }
      if r.bt != 0 { Restart(); return; }
      // The device-information settings load returns 0 and cannot stop start-up.
      if r.lbs != 0 { Restart(); return; }
      var err := r.adv;
      trace := trace + [AdvStart(err)];
      if err != 0 { Restart(); return; }
      isAdvertising := true;
      running := true;
      Restart();
    }

    /** Starts the history afresh from the current state. */
    ghost method Restart()
      modifies this`origin, this`events, this`traceStart
      ensures Valid() && origin == State() && events == [] && traceStart == trace
    {
      origin, events, traceStart := State(), [], trace;
    }

    /** `connected`. */
    method Connected(conn: Conn, err: uint8)
      requires Valid()
      modifies this
      ensures Valid() && origin == old(origin) && events == old(events) + [Link(LinkEvent.Connected(conn, err))]
      ensures err != 0 ==> State() == old(State()) && trace == old(trace)
      ensures err == 0 ==> currentConn == Some(conn)
                           && trace == old(trace) + [ConnRef(conn), LedOn(CON_STATUS_LED)]
      ensures isAdvertising == old(isAdvertising) && appButtonState == old(appButtonState)
      ensures State() == Apply(old(State()), Link(LinkEvent.Connected(conn, err))).next
      ensures trace == old(trace) + Apply(old(State()), Link(LinkEvent.Connected(conn, err))).effects
    {
      ghost var s0, t0 := State(), trace;
      if err == 0 {
        currentConn := Some(conn);
        trace := trace + [ConnRef(conn)];
        trace := trace + [LedOn(CON_STATUS_LED)];
      }
      Record(Link(LinkEvent.Connected(conn, err)), s0, t0);
    }

    /** `disconnected`: `conn` and `reason` are only logged. */
    method Disconnected(conn: Conn, reason: uint8)
      requires Valid()
      modifies this
      ensures Valid() && origin == old(origin) && events == old(events) + [Link(LinkEvent.Disconnected(conn, reason))]
      ensures currentConn == None
      ensures trace == old(trace) + [LedOff(CON_STATUS_LED)]
                       + if old(currentConn).Some? then [ConnUnref(old(currentConn).value)] else []
      ensures isAdvertising == old(isAdvertising) && appButtonState == old(appButtonState)
      ensures State() == Apply(old(State()), Link(LinkEvent.Disconnected(conn, reason))).next
      ensures trace == old(trace) + Apply(old(State()), Link(LinkEvent.Disconnected(conn, reason))).effects
    {
      ghost var s0, t0 := State(), trace;
      trace := trace + [LedOff(CON_STATUS_LED)];
      if currentConn.Some? {
        trace := trace + [ConnUnref(currentConn.value)];
        currentConn := None;
      }
      Record(Link(LinkEvent.Disconnected(conn, reason)), s0, t0);
    }

    /** `app_led_cb`: the service's LED characteristic was written. */
    method AppLedCb(ledState: bool)
      requires Valid()
      modifies this`trace, this`events
      ensures Valid() && events == old(events) + [LedWrite(ledState)]
      ensures trace == old(trace) + [LedSet(USER_LED, ledState)]
      ensures State() == Apply(State(), LedWrite(ledState)).next
    {
      ghost var s0, t0 := State(), trace;
      trace := trace + [LedSet(USER_LED, ledState)];
      Record(LedWrite(ledState), s0, t0);
    }

    /** `app_button_cb`: the service reads the button level. It is button 1's
        level at its last change since start-up (false if it has not changed
        since boot). */
    method AppButtonCb() returns (pressed: bool)
      requires Valid()
      ensures pressed == LastLevel(origin.appButtonState, events)
    {
      pressed := appButtonState;
      ButtonReadReportsLastLevel(origin, events);
    }

    /** `button_changed`. `advErr` is what `bt_le_adv_stop` or
        `bt_le_adv_start` returns when button 2 changed. */
    method ButtonChanged(buttonState: bv32, hasChanged: bv32, advErr: int)
      requires Valid()
      modifies this`appButtonState, this`isAdvertising, this`trace, this`events
      ensures Valid() && events == old(events) + [Event.ButtonChanged(buttonState, hasChanged, advErr)]
      ensures currentConn == old(currentConn)
      ensures appButtonState == if hasChanged & USER_BUTTON != 0 then buttonState & USER_BUTTON != 0
                                else old(appButtonState)
      ensures isAdvertising == if hasChanged & TOGGLE_BUTTON != 0 && advErr == 0 then !old(isAdvertising)
                               else old(isAdvertising)
      ensures isAdvertising == Confirmed(origin.isAdvertising, Run(origin, events).effects)
      ensures State() == ButtonChangedStep(old(State()), buttonState, hasChanged, advErr).next
      ensures trace == old(trace) + ButtonChangedStep(old(State()), buttonState, hasChanged, advErr).effects
    {
      ghost var s0, t0 := State(), trace;
      HandleButtons(buttonState, hasChanged, advErr);
      Record(Event.ButtonChanged(buttonState, hasChanged, advErr), s0, t0);
      AdvertisingFlagMirrorsStack(origin, events);
    }

    /** The three blocks of `button_changed`, one per button it reacts to. */
    method HandleButtons(buttonState: bv32, hasChanged: bv32, advErr: int)
      modifies this`appButtonState, this`isAdvertising, this`trace
      ensures State() == ButtonChangedStep(old(State()), buttonState, hasChanged, advErr).next
      ensures trace == old(trace) + ButtonChangedStep(old(State()), buttonState, hasChanged, advErr).effects
    {
      ghost var t0 := trace;
      ghost var a := ReportButton(State(), buttonState, hasChanged);
      ghost var b := ToggleAdvertising(a.next, hasChanged, advErr);
      ghost var c := DisconnectOnRequest(b.next, hasChanged);
      if hasChanged & USER_BUTTON != 0 {
        var userButtonState := buttonState & USER_BUTTON;
        trace := trace + [SendButtonState(userButtonState != 0)];
        appButtonState := userButtonState != 0;
      }
      assert State() == a.next && trace == t0 + a.effects;
      if hasChanged & TOGGLE_BUTTON != 0 {
        if isAdvertising {
          var err := advErr;
          trace := trace + [AdvStop(err)];
          if err == 0 {
            isAdvertising := false;
          }
        } else {
          var err := advErr;
          trace := trace + [AdvStart(err)];
          if err == 0 {
            isAdvertising := true;
          }
        }
      }
      assert State() == b.next && trace == t0 + a.effects + b.effects;
      if hasChanged & DISCONNECT_BUTTON != 0 {
        if currentConn.Some? {
          trace := trace + [DisconnectRequest(currentConn.value, BT_HCI_ERR_REMOTE_USER_TERM_CONN)];
        }
      }
      assert State() == c.next && trace == t0 + a.effects + b.effects + c.effects;
    }
  }
}
