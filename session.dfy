/** Types and handlers shared by both peripheral applications.

    Both applications keep one module-level connection reference and handle the
    stack's "connected" and "disconnected" callbacks with the same code: on a
    successful connection they take a reference and turn the connection LED on;
    on any disconnection they turn the LED off and release the stored reference,
    if there is one. That logic is defined once here, as a function over the
    stored reference, together with what it promises over any sequence of
    link events.

    Calls out of the application (LEDs, reference counting, advertising,
    notifications, disconnect requests) are recorded as `Effect`s, in order.
 */
module Session {

  datatype Option<T> = None | Some(value: T)

  /** An opaque connection object handed out by the Bluetooth stack. */
  datatype Conn = Conn(handle: nat)

  /** C `uint8_t` and `uint16_t`. */
  newtype uint8 = x: int | 0 <= x < 0x100
  newtype uint16 = x: int | 0 <= x < 0x1_0000

  /** LED indices of the development-kit library (DK_LEDn is index n-1). */
  const DK_LED2: nat := 1
  const DK_LED3: nat := 2

  /** The connection-status LED of both applications. */
  const CON_STATUS_LED: nat := DK_LED2

  /** Button masks of the development-kit library (DK_BTNn_MSK is bit n-1). */
  const DK_BTN1_MSK: bv32 := 1
  const DK_BTN2_MSK: bv32 := 2
  const DK_BTN3_MSK: bv32 := 4
  const DK_BTN4_MSK: bv32 := 8

  /** HCI error code 0x13, "Remote User Terminated Connection"
      (Bluetooth Core Specification, Vol 1, Part F). */
  const BT_HCI_ERR_REMOTE_USER_TERM_CONN: uint8 := 0x13

  /** One call from the application into the stack or the board library.
      Where the application looks at the call's return value, the value is
      part of the record. */
  datatype Effect =
    | LedOn(led: nat)
    | LedOff(led: nat)
    | LedSet(led: nat, on: bool)
    | ConnRef(conn: Conn)
    | ConnUnref(conn: Conn)
    | AdvStart(err: int)
    | AdvStop(err: int)
    | DisconnectRequest(conn: Conn, reason: uint8)
    | SendButtonState(level: bool)
    | SetButtonStatus(button: nat)
    | ButtonNotification(to: Option<Conn>, index: nat, state: nat)

  /** The outcome of handling one event: the new state and the calls made. */
  datatype Step<S> = Step(next: S, effects: seq<Effect>)

  /** The two link-lifecycle callbacks of the stack, with their arguments. */
  datatype LinkEvent =
    | Connected(conn: Conn, err: uint8)
    | Disconnected(conn: Conn, reason: uint8)

  /** The connection callbacks of both applications, over the stored reference.
      A failed connection is ignored. A successful one stores the new connection
      (overwriting, without releasing, any stored one). A disconnection of any
      connection clears the stored one, releasing it when there is one; the
      handle in the event is never compared with the stored one. */
  function LinkStep(held: Option<Conn>, e: LinkEvent): Step<Option<Conn>>
  {
    match e
    case Connected(c, err) =>
      if err != 0 then Step(held, [])
      else Step(Some(c), [ConnRef(c), LedOn(CON_STATUS_LED)])
    case Disconnected(_, _) =>
      Step(None, [LedOff(CON_STATUS_LED)] + if held.Some? then [ConnUnref(held.value)] else [])
  }

  /** Handling a sequence of link events one after the other. */
  function Replay(held: Option<Conn>, les: seq<LinkEvent>): Step<Option<Conn>>
  {
    if les == [] then Step(held, [])
    else
      var r := Replay(held, les[..|les| - 1]);
      var t := LinkStep(r.next, les[|les| - 1]);
      Step(t.next, r.effects + t.effects)
  }

  /** A link event that decides what is stored afterwards: a disconnection or a
      successful connection. A failed connection decides nothing. */
  predicate Decisive(e: LinkEvent)
  {
    e.Disconnected? || e.err == 0
  }

  /** Number of references a stored value stands for. */
  function Holding(held: Option<Conn>): nat
  {
    if held.Some? then 1 else 0
  }

  /** References taken minus references released in a trace. */
  function NetRefs(t: seq<Effect>): int
  {
    if t == [] then 0
    else
      var e := t[|t| - 1];
      NetRefs(t[..|t| - 1]) + (if e.ConnRef? then 1 else if e.ConnUnref? then -1 else 0)
  }

  /** Number of successful connections that arrive while a connection is
      already stored (each overwrites the stored reference). */
  function Overwrites(held: Option<Conn>, les: seq<LinkEvent>): nat
  {
    if les == [] then 0
    else
      var e := les[|les| - 1];
      Overwrites(held, les[..|les| - 1])
        + if e.Connected? && e.err == 0 && Replay(held, les[..|les| - 1]).next.Some? then 1 else 0
  }

  lemma {:induction false} NetRefsAppend(a: seq<Effect>, b: seq<Effect>)
    ensures NetRefs(a + b) == NetRefs(a) + NetRefs(b)
  {
    if b == [] {
      assert a + b == a;
    } else {
      assert (a + b)[..|a + b| - 1] == a + b[..|b| - 1];
      NetRefsAppend(a, b[..|b| - 1]);
    }
  }

  /** Event `i` is the last decisive event of `les`. */
  predicate LastDecisiveAt(les: seq<LinkEvent>, i: int)
  {
    0 <= i < |les| && Decisive(les[i]) && forall j :: i < j < |les| ==> !Decisive(les[j])
  }

  /** A trace that takes and releases no reference. */
  predicate RefFree(t: seq<Effect>)
  {
    forall e :: e in t ==> !e.ConnRef? && !e.ConnUnref?
  }

  lemma {:induction false} RefFreeBalanced(t: seq<Effect>)
    requires RefFree(t)
    ensures NetRefs(t) == 0
  {
    if t != [] {
      assert t[|t| - 1] in t;
      assert RefFree(t[..|t| - 1]) by {
        forall e | e in t[..|t| - 1] ensures e in t { }
      }
      RefFreeBalanced(t[..|t| - 1]);
    }
  }

  /** The stored reference after any sequence of link events is decided by the
      last decisive event: the connection of a successful connection if that
      came last, nothing if a disconnection came last. */
  lemma {:induction false} RegistryFollowsLastDecisiveEvent(held: Option<Conn>, les: seq<LinkEvent>, i: int)
    requires LastDecisiveAt(les, i)
    ensures Replay(held, les).next == if les[i].Connected? then Some(les[i].conn) else None
  {
    var n := |les| - 1;
    if i < n {
      var pre := les[..n];
      assert !Decisive(les[n]);
      assert LastDecisiveAt(pre, i) by {
        assert forall j :: i < j < |pre| ==> pre[j] == les[j];
      }
      RegistryFollowsLastDecisiveEvent(held, pre, i);
    }
  }

  /** With no decisive event, the stored reference is the initial one. */
  lemma {:induction false} RegistryKeptWithoutDecisiveEvent(held: Option<Conn>, les: seq<LinkEvent>)
    requires forall j :: 0 <= j < |les| ==> !Decisive(les[j])
    ensures Replay(held, les).next == held
  {
    if les != [] {
      var pre := les[..|les| - 1];
      assert forall j :: 0 <= j < |pre| ==> pre[j] == les[j];
      RegistryKeptWithoutDecisiveEvent(held, pre);
    }
  }

  /** Disconnection is idempotent: after one the stored reference is cleared,
      and a second one releases nothing more (it only turns the LED off again). */
  lemma SecondDisconnectReleasesNothing(held: Option<Conn>, c1: Conn, r1: uint8, c2: Conn, r2: uint8)
    ensures Replay(held, [Disconnected(c1, r1)]).next == None
    ensures Replay(held, [Disconnected(c1, r1), Disconnected(c2, r2)]).next == None
    ensures Replay(held, [Disconnected(c1, r1), Disconnected(c2, r2)]).effects
            == Replay(held, [Disconnected(c1, r1)]).effects + [LedOff(CON_STATUS_LED)]
    ensures NetRefs(Replay(held, [Disconnected(c1, r1)]).effects) == 0 - Holding(held) as int
  {
    var one := [Disconnected(c1, r1)];
    var two := [Disconnected(c1, r1), Disconnected(c2, r2)];
    assert two[..1] == one && one[..0] == [];
    ReferencesBalance(held, one);
  }

  /** Reference accounting: every reference the handlers take is either still
      stored or was leaked by a connection arriving while another one was
      stored; every other reference has been released. */
  lemma {:induction false} ReferencesBalance(held: Option<Conn>, les: seq<LinkEvent>)
    ensures NetRefs(Replay(held, les).effects)
            == Holding(Replay(held, les).next) - Holding(held) + Overwrites(held, les)
  {
    if les != [] {
      var n := |les| - 1;
      var r := Replay(held, les[..n]);
      var t := LinkStep(r.next, les[n]);
      ReferencesBalance(held, les[..n]);
      NetRefsAppend(r.effects, t.effects);
      match les[n]
      case Connected(c, err) =>
        if err == 0 {
          assert t.effects == [ConnRef(c)] + [LedOn(CON_STATUS_LED)];
          NetRefsAppend([ConnRef(c)], [LedOn(CON_STATUS_LED)]);
          assert NetRefs([ConnRef(c)]) == 1 by { assert [ConnRef(c)][..0] == []; }
          assert NetRefs([LedOn(CON_STATUS_LED)]) == 0 by { assert [LedOn(CON_STATUS_LED)][..0] == []; }
        }
      case Disconnected(_, _) =>
        var off := [LedOff(CON_STATUS_LED)];
        assert NetRefs(off) == 0 by { assert off[..0] == []; }
        if r.next.Some? {
          var un := [ConnUnref(r.next.value)];
          NetRefsAppend(off, un);
          assert NetRefs(un) == -1 by { assert un[..0] == []; }
        } else {
          assert t.effects == off + [];
        }
    }
  }

  /** Under the stack's single-connection ordering (no connection arrives while
      one is stored) no reference leaks: at the end exactly the stored
      connection, if any, holds a reference beyond what was held at the start. */
  lemma NoLeakWithoutOverwrite(held: Option<Conn>, les: seq<LinkEvent>)
    requires Overwrites(held, les) == 0
    ensures NetRefs(Replay(held, les).effects) == Holding(Replay(held, les).next) - Holding(held)
  {
    ReferencesBalance(held, les);
  }
}
