/** The remote-service peripheral (week1/exercises5-8/main.c).

    Module-level state: the stored connection and the running total of
    recognised single-button presses. Callbacks: connection lifecycle, the
    remote service's subscription-change and data-write callbacks, and the
    button handler of the board library.
 */
module Remote {
  import opened Session

  /** The global `running_tot` and the static `current_conn`. */
  datatype RemoteState = RemoteState(currentConn: Option<Conn>, runningTot: int)

  /** Their values before `main` runs. */
  const Boot := RemoteState(None, 0)

  /** The remote service's subscription status values. */
  datatype NotificationsStatus = NotificationsEnabled | NotificationsDisabled

  // ---------------------------------------------------------------------------
  // Change mask to button index

  /** A change mask with exactly one bit set, that bit being one of the four
      buttons' (bits 0 to 3). */
  predicate SingleButton(mask: bv32)
  {
    mask != 0 && mask & (mask - 1) == 0 && mask & 0xF == mask
  }

  /** The `switch` of `button_handler`: 1 to 4 when the change mask is exactly
      one button's mask, 0 for any other mask. */
  function ButtonIndex(hasChanged: bv32): (n: nat)
    ensures n <= 4
    ensures n != 0 <==> SingleButton(hasChanged)
  {
    if hasChanged == DK_BTN1_MSK then 1
    else if hasChanged == DK_BTN2_MSK then 2
    else if hasChanged == DK_BTN3_MSK then 3
    else if hasChanged == DK_BTN4_MSK then 4
    else 0
  }

  /** The change mask of button `n` alone (DK_BTNn_MSK); `ButtonIndex` inverts it. */
  function ButtonMask(n: nat): (mask: bv32)
    requires 1 <= n <= 4
    ensures SingleButton(mask)
    ensures ButtonIndex(mask) == n
  {
    (1 as bv32) << (n - 1)
  }

  /** A nonzero index names the button whose mask was given. */
  lemma IndexNamesTheButton(hasChanged: bv32)
    requires ButtonIndex(hasChanged) != 0
    ensures ButtonMask(ButtonIndex(hasChanged)) == hasChanged
  {
  }

  // ---------------------------------------------------------------------------
  // The button handler

  /** A press edge: some button whose bit changed is now down. */
  predicate PressEdge(buttonState: bv32, hasChanged: bv32)
  {
    hasChanged & buttonState != 0
  }

  /** `button_handler`: on a press edge, count a recognised single button,
      report the index (0 when unrecognised) and notify it as pressed on the
      stored connection, even when there is none. Release edges do nothing. */
  function ButtonHandlerStep(s: RemoteState, buttonState: bv32, hasChanged: bv32): Step<RemoteState>
  {
    if !PressEdge(buttonState, hasChanged) then Step(s, [])
    else
      var n := ButtonIndex(hasChanged);
      Step(s.(runningTot := s.runningTot + if n != 0 then 1 else 0),
           [SetButtonStatus(n), ButtonNotification(s.currentConn, n, 1)])
  }

  // ---------------------------------------------------------------------------
  // Runs of events

  /** The callbacks that can change state or call out (`on_data_received`
      does neither: see `RemoteApp.OnDataReceived`). */
  datatype Event =
    | Link(e: LinkEvent)
    | Buttons(buttonState: bv32, hasChanged: bv32)
    | NotifChanged(status: NotificationsStatus)

  function Apply(s: RemoteState, ev: Event): Step<RemoteState>
  {
    match ev
    case Link(e) =>
      var t := LinkStep(s.currentConn, e);
      Step(s.(currentConn := t.next), t.effects)
    case Buttons(bs, hc) => ButtonHandlerStep(s, bs, hc)
    case NotifChanged(_) => Step(s, [])
  }

  /** Handling events one after the other. */
  function Run(s: RemoteState, evs: seq<Event>): Step<RemoteState>
  {
    if evs == [] then Step(s, [])
    else
      var r := Run(s, evs[..|evs| - 1]);
      var t := Apply(r.next, evs[|evs| - 1]);
      Step(t.next, r.effects + t.effects)
  }

  /** The link events of a run, in order. */
  function Links(evs: seq<Event>): seq<LinkEvent>
  {
    if evs == [] then []
    else Links(evs[..|evs| - 1]) + if evs[|evs| - 1].Link? then [evs[|evs| - 1].e] else []
  }

  /** One event, seen from the stored connection and the reference counts. */
  lemma ApplyProjects(s: RemoteState, ev: Event)
    ensures Apply(s, ev).next.currentConn
            == if ev.Link? then LinkStep(s.currentConn, ev.e).next else s.currentConn
    ensures NetRefs(Apply(s, ev).effects)
            == if ev.Link? then NetRefs(LinkStep(s.currentConn, ev.e).effects) else 0
  {
    if !ev.Link? {
      RefFreeBalanced(Apply(s, ev).effects);
    }
  }

  /** Only link events touch the stored connection and the reference counts:
      in any run they evolve exactly as the link events alone make them. */
  lemma {:induction false} LinkProjection(s: RemoteState, evs: seq<Event>)
    ensures Run(s, evs).next.currentConn == Replay(s.currentConn, Links(evs)).next
    ensures NetRefs(Run(s, evs).effects) == NetRefs(Replay(s.currentConn, Links(evs)).effects)
  {
    if evs != [] {
      var n := |evs| - 1;
      var r := Run(s, evs[..n]);
      var t := Apply(r.next, evs[n]);
      LinkProjection(s, evs[..n]);
      ApplyProjects(r.next, evs[n]);
      NetRefsAppend(r.effects, t.effects);
      var rp := Replay(s.currentConn, Links(evs[..n]));
      if evs[n].Link? {
        assert Links(evs)[..|Links(evs)| - 1] == Links(evs[..n]);
        NetRefsAppend(rp.effects, LinkStep(rp.next, evs[n].e).effects);
      } else {
        assert Links(evs) == Links(evs[..n]) + [] == Links(evs[..n]);
      }
    }
  }

  /** Reference accounting over any run of the application (as for the LED
      Button Service application). */
  lemma ReferencesBalanceInRun(s: RemoteState, evs: seq<Event>)
    ensures NetRefs(Run(s, evs).effects)
            == Holding(Run(s, evs).next.currentConn) - Holding(s.currentConn)
               + Overwrites(s.currentConn, Links(evs))
  {
    LinkProjection(s, evs);
    ReferencesBalance(s.currentConn, Links(evs));
  }

  /** Number of press edges in a run whose change mask is a single button. */
  function CountedPresses(evs: seq<Event>): nat
  {
    if evs == [] then 0
    else
      var ev := evs[|evs| - 1];
      CountedPresses(evs[..|evs| - 1])
        + if ev.Buttons? && PressEdge(ev.buttonState, ev.hasChanged) && SingleButton(ev.hasChanged)
          then 1 else 0
  }

  /** Number of press edges in a run, whatever their change mask. */
  function PressEdges(evs: seq<Event>): nat
  {
    if evs == [] then 0
    else
      var ev := evs[|evs| - 1];
      PressEdges(evs[..|evs| - 1]) + if ev.Buttons? && PressEdge(ev.buttonState, ev.hasChanged) then 1 else 0
  }

  /** Number of button notifications in a trace. */
  function Notifications(t: seq<Effect>): nat
  {
    if t == [] then 0
    else Notifications(t[..|t| - 1]) + if t[|t| - 1].ButtonNotification? then 1 else 0
  }

  lemma {:induction false} NotificationsAppend(a: seq<Effect>, b: seq<Effect>)
    ensures Notifications(a + b) == Notifications(a) + Notifications(b)
  {
    if b == [] {
      assert a + b == a;
    } else {
      assert (a + b)[..|a + b| - 1] == a + b[..|b| - 1];
      NotificationsAppend(a, b[..|b| - 1]);
    }
  }

  /** `running_tot` counts exactly the press edges on a single button, over
      any run; release edges, unrecognised masks, link and subscription
      events leave it alone. */
  lemma {:induction false} RunningTotCountsSinglePresses(s: RemoteState, evs: seq<Event>)
    ensures Run(s, evs).next.runningTot == s.runningTot + CountedPresses(evs)
  {
    if evs != [] {
      RunningTotCountsSinglePresses(s, evs[..|evs| - 1]);
    }
  }

  /** Hence `running_tot` never decreases and grows by at most one per event. */
  lemma {:induction false} RunningTotMonotone(s: RemoteState, evs: seq<Event>)
    ensures s.runningTot <= Run(s, evs).next.runningTot <= s.runningTot + |evs|
  {
    RunningTotCountsSinglePresses(s, evs);
    CountedPressesBounded(evs);
  }

  lemma {:induction false} CountedPressesBounded(evs: seq<Event>)
    ensures CountedPresses(evs) <= PressEdges(evs) <= |evs|
  {
    if evs != [] {
      CountedPressesBounded(evs[..|evs| - 1]);
    }
  }

  lemma {:induction false} NoNotificationIn(t: seq<Effect>)
    requires forall e :: e in t ==> !e.ButtonNotification?
    ensures Notifications(t) == 0
  {
    if t != [] {
      assert t[|t| - 1] in t;
      assert forall e :: e in t[..|t| - 1] ==> e in t;
      NoNotificationIn(t[..|t| - 1]);
    }
  }

  /** One event sends one notification if it is a press edge, none otherwise. */
  lemma ApplyNotifies(s: RemoteState, ev: Event)
    ensures Notifications(Apply(s, ev).effects)
            == if ev.Buttons? && PressEdge(ev.buttonState, ev.hasChanged) then 1 else 0
  {
    var t := Apply(s, ev).effects;
    if ev.Buttons? && PressEdge(ev.buttonState, ev.hasChanged) {
      var n := ButtonIndex(ev.hasChanged);
      assert t == [SetButtonStatus(n), ButtonNotification(s.currentConn, n, 1)];
      assert t[..1] == [SetButtonStatus(n)] && t[..1][..0] == [];
      assert Notifications(t[..1]) == 0;
    } else {
      NoNotificationIn(t);
    }
  }

  /** Every press edge, recognised or not, sends exactly one notification, and
      nothing else does. */
  lemma {:induction false} OneNotificationPerPress(s: RemoteState, evs: seq<Event>)
    ensures Notifications(Run(s, evs).effects) == PressEdges(evs)
  {
    if evs != [] {
      var n := |evs| - 1;
      var r := Run(s, evs[..n]);
      OneNotificationPerPress(s, evs[..n]);
      ApplyNotifies(r.next, evs[n]);
      NotificationsAppend(r.effects, Apply(r.next, evs[n]).effects);
    }
  }

  // ---------------------------------------------------------------------------
  // What the received data looks like when printed

  /** The bytes a `%s` conversion prints: everything before the first NUL. */
  function CString(b: seq<uint8>): seq<uint8>
  {
    if b == [] || b[0] == 0 then [] else [b[0]] + CString(b[1..])
  }

  /** Printing a NUL-terminated copy of a payload shows a prefix of the
      payload, never a byte past it; it shows the whole payload exactly when
      the payload holds no NUL byte. */
  lemma {:induction false} TerminatedPayloadPrints(data: seq<uint8>)
    ensures CString(data + [0]) <= data
    ensures CString(data + [0]) == data <==> 0 !in data
  {
    if data != [] {
      assert (data + [0])[1..] == data[1..] + [0];
      TerminatedPayloadPrints(data[1..]);
      if data[0] != 0 {
        assert 0 in data <==> 0 in data[1..] by {
          assert data == [data[0]] + data[1..];
        }
      }
    } else {
      assert [] + [0] == [0 as uint8];
    }
  }

  // ---------------------------------------------------------------------------
  // The application object

  class RemoteApp {
    var currentConn: Option<Conn>
    var runningTot: int
    /** Calls made to the stack and the board library, oldest first. */
    ghost var trace: seq<Effect>
    /** The callbacks handled since boot, and the state before the first. */
    ghost var origin: RemoteState
    ghost var events: seq<Event>

    function State(): RemoteState
      reads this
    {
      RemoteState(currentConn, runningTot)
    }

    /** The statics and the trace are what handling `events` from `origin`
        makes them, so every lemma about `Run` applies to this object. */
    ghost predicate Valid()
      reads this
    {
      State() == Run(origin, events).next && trace == Run(origin, events).effects
    }

    constructor ()
      ensures Valid()
      ensures State() == Boot && trace == [] && origin == Boot && events == []
    {
      currentConn := None;
      runningTot := 0;
      trace := [];
      origin := Boot;
      events := [];
    }

    /** Records that `ev` has just been handled, given the state and trace
        before it. */
    ghost method Record(ev: Event, s0: RemoteState, t0: seq<Effect>)
      requires s0 == Run(origin, events).next && t0 == Run(origin, events).effects
      requires State() == Apply(s0, ev).next && trace == t0 + Apply(s0, ev).effects
      modifies this`events
      ensures Valid() && events == old(events) + [ev]
    {
      ghost var evs := events + [ev];
      assert evs[..|evs| - 1] == events;
      events := evs;
    }

    /** `on_connected`. */
    method OnConnected(conn: Conn, err: uint8)
      requires Valid()
      modifies this
      ensures Valid() && origin == old(origin) && events == old(events) + [Link(LinkEvent.Connected(conn, err))]
      ensures err != 0 ==> State() == old(State()) && trace == old(trace)
      ensures err == 0 ==> currentConn == Some(conn)
                           && trace == old(trace) + [ConnRef(conn), LedOn(CON_STATUS_LED)]
      ensures runningTot == old(runningTot)
      ensures State() == Apply(old(State()), Link(LinkEvent.Connected(conn, err))).next
      ensures trace == old(trace) + Apply(old(State()), Link(LinkEvent.Connected(conn, err))).effects
    {
      ghost var s0, t0 := State(), trace;
      if err == 0 {
        currentConn := Some(conn);
        trace := trace + [ConnRef(conn)];
        trace := trace + [LedOn(CON_STATUS_LED)];
      }
      Record(Link(LinkEvent.Connected(conn, err)), s0, t0);
    }

    /** `on_disconnected`: `conn` and `reason` are only logged. */
    method OnDisconnected(conn: Conn, reason: uint8)
      requires Valid()
      modifies this
      ensures Valid() && origin == old(origin) && events == old(events) + [Link(LinkEvent.Disconnected(conn, reason))]
      ensures currentConn == None
      ensures trace == old(trace) + [LedOff(CON_STATUS_LED)]
                       + if old(currentConn).Some? then [ConnUnref(old(currentConn).value)] else []
      ensures runningTot == old(runningTot)
      ensures State() == Apply(old(State()), Link(LinkEvent.Disconnected(conn, reason))).next
      ensures trace == old(trace) + Apply(old(State()), Link(LinkEvent.Disconnected(conn, reason))).effects
    {
      ghost var s0, t0 := State(), trace;
      trace := trace + [LedOff(CON_STATUS_LED)];
      if currentConn.Some? {
        trace := trace + [ConnUnref(currentConn.value)];
        currentConn := None;
      }
      Record(Link(LinkEvent.Disconnected(conn, reason)), s0, t0);
    }

    /** `on_notif_changed`: the status is only logged; nothing is stored and
        nothing is called. */
    method OnNotifChanged(status: NotificationsStatus)
      requires Valid()
      modifies this`events
      ensures Valid() && events == old(events) + [NotifChanged(status)]
      ensures State() == Apply(State(), NotifChanged(status)).next && Apply(State(), NotifChanged(status)).effects == []
    {
      Record(NotifChanged(status), State(), trace);
    }

    /** `on_data_received`: copy the first `len` bytes of `data` into a local
        buffer of `len + 1` bytes and terminate it with a NUL for printing.
        `len` is not checked against any bound. Returns the buffer. */
    method OnDataReceived(conn: Conn, data: seq<uint8>, len: uint16) returns (text: seq<uint8>)
      requires len as int <= |data|
      ensures |text| == len as int + 1
      ensures text[..len] == data[..len] && text[len] == 0
      ensures CString(text) <= data[..len]
      ensures CString(text) == data[..len] <==> 0 !in data[..len]
    {
      var tempStr := new uint8[len as int + 1];
      forall i | 0 <= i < len as int {
        tempStr[i] := data[i];
      }
      tempStr[len] := 0;
      text := tempStr[..];
      assert text == data[..len] + [0];
      TerminatedPayloadPrints(data[..len]);
    }

    /** `button_handler`. `sendErr` is what the notification send returns;
        it is only logged. */
    method ButtonHandler(buttonState: bv32, hasChanged: bv32, sendErr: int)
      requires Valid()
      modifies this
      ensures Valid() && origin == old(origin) && events == old(events) + [Buttons(buttonState, hasChanged)]
      ensures currentConn == old(currentConn)
      ensures !PressEdge(buttonState, hasChanged) ==> runningTot == old(runningTot) && trace == old(trace)
      ensures PressEdge(buttonState, hasChanged) ==>
                var n := ButtonIndex(hasChanged);
                runningTot == old(runningTot) + (if SingleButton(hasChanged) then 1 else 0)
                && trace == old(trace) + [SetButtonStatus(n), ButtonNotification(currentConn, n, 1)]
      ensures runningTot == origin.runningTot + CountedPresses(events)
      ensures State() == ButtonHandlerStep(old(State()), buttonState, hasChanged).next
      ensures trace == old(trace) + ButtonHandlerStep(old(State()), buttonState, hasChanged).effects
    {
      ghost var s0, t0 := State(), trace;
      var buttonPressed: nat := 0;
      if hasChanged & buttonState != 0 {
        if hasChanged == DK_BTN1_MSK {
          buttonPressed := 1;
          runningTot := runningTot + 1;
        } else if hasChanged == DK_BTN2_MSK {
          buttonPressed := 2;
          runningTot := runningTot + 1;
        } else if hasChanged == DK_BTN3_MSK {
          buttonPressed := 3;
          runningTot := runningTot + 1;
        } else if hasChanged == DK_BTN4_MSK {
          buttonPressed := 4;
          runningTot := runningTot + 1;
        }
        trace := trace + [SetButtonStatus(buttonPressed)];
        trace := trace + [ButtonNotification(currentConn, buttonPressed, 1)];
      }
      Record(Buttons(buttonState, hasChanged), s0, t0);
      RunningTotCountsSinglePresses(origin, events);
    }
  }
}
