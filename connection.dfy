/**
  The connection manager of the TCP transport, as a value-level state machine.

  A `Conn` holds everything the socket wrapper keeps about its newest transport
  session: the `connected` flag, whether a socket handle exists, the single
  "next message" slot, the log of values handed to the connection-state
  callback, and the state of the current connect attempt (its
  "already resolved" flag and the promise `connect()` returned for it).
  Every transport event, and every caller operation that changes state, is an
  `Event`; `Apply` gives its effect and `Run` folds a sequence of them.
 */
module Connection {

  newtype byte = x: int | 0 <= x < 256

  /** An inbound or outbound payload, treated as opaque bytes. */
  type Bytes = seq<byte>

  datatype Option<T> = None | Some(value: T)

  /** Rejection reason of a connect attempt whose socket closed before it was established. */
  const UnableToConnect: string := "Unable to connect to device. Are you on the same WiFi network?"

  /** Failure reason of a send while no socket handle exists. */
  const NotRunning: string := "Socket isn't running, please call connect()"

  /** The state of a promise handed to a caller. */
  datatype Promise = Unsettled | Fulfilled | Rejected(reason: string)

  /** Outcome of an operation that either completes or fails with a reason. */
  datatype Status = Done | Failed(reason: string)

  /** A promise settles once: resolving or rejecting it again has no effect. */
  function Settle(p: Promise, v: Promise): (r: Promise)
  {
    if p.Unsettled? then v else p
  }

  datatype Conn = Conn(
    connected: bool,          // the `connected` field
    hasSocket: bool,          // whether `this.socket` is set
    nextMessage: Option<Bytes>,
    notified: seq<bool>,      // every value passed to the user's state callback, in order
    attemptResolved: bool,    // `connectPromiseResolved` of the newest attempt
    attempt: Promise          // the promise `connect()` returned for the newest attempt
  )

  /** A freshly constructed socket wrapper: not connected, no socket, nothing received. */
  const Initial: Conn := Conn(false, false, None, [], false, Unsettled)

  datatype Event =
    | ConnectCall             // `connect()` is called
    | ConnectCallback         // the transport reports the session established
    | Data(payload: Bytes)    // the transport delivers an inbound payload
    | Error                   // the transport reports an error
    | SocketTimeout           // the transport reports an idle timeout
    | Close                   // the transport reports the session closed
    | ClearMessage            // a request cycle empties the slot once its write completed

  /** `connected` always equals the last value sent to the state callback (false before any). */
  predicate Consistent(s: Conn)
  {
    s.connected == (|s.notified| > 0 && s.notified[|s.notified| - 1])
  }

  /** The wrapper installed by the constructor: record the new state, then forward it once. */
  function Notify(s: Conn, b: bool): (r: Conn)
    ensures r.connected == b && r.notified == s.notified + [b]
    ensures Consistent(r)
    ensures r.(connected := s.connected, notified := s.notified) == s
  {
    s.(connected := b, notified := s.notified + [b])
  }

  /** The effect of one event on the connection state. */
  function Apply(s: Conn, e: Event): (r: Conn)
    ensures Consistent(s) ==> Consistent(r)
    // only the connect callback and a close change the connected flag, and each notifies once
    ensures r.connected == (if e.ConnectCallback? then true else if e.Close? then false else s.connected)
    ensures r.notified == s.notified + (if e.ConnectCallback? then [true] else if e.Close? then [false] else [])
    // a handle appears when connect() starts an attempt, and nothing ever removes it
    ensures r.hasSocket == (s.hasSocket || (e.ConnectCall? && !s.connected))
    // an inbound payload replaces the slot whatever it held; only a cycle clears it
    ensures r.nextMessage == (if e.Data? then Some(e.payload) else if e.ClearMessage? then None else s.nextMessage)
    // connect() while connected, an error and a timeout change nothing
    ensures (e.ConnectCall? && s.connected) || e.Error? || e.SocketTimeout? ==> r == s
  {
    match e
    case ConnectCall =>
      if s.connected then s
      else s.(hasSocket := true, attemptResolved := false, attempt := Unsettled)
    case ConnectCallback =>
      Notify(s, true).(attemptResolved := true, attempt := Settle(s.attempt, Fulfilled))
    case Data(p) => s.(nextMessage := Some(p))
    case Error => s
    case SocketTimeout => s
    case Close =>
      var rejected := if s.attemptResolved then s else s.(attempt := Settle(s.attempt, Rejected(UnableToConnect)));
      Notify(rejected, false)
    case ClearMessage => s.(nextMessage := None)
  }

  /** The state after a sequence of events. */
  function Run(s: Conn, es: seq<Event>): (r: Conn)
    ensures Consistent(s) ==> Consistent(r)
    ensures s.hasSocket ==> r.hasSocket
    ensures |r.notified| >= |s.notified| && r.notified[..|s.notified|] == s.notified
    decreases |es|
  {
    if es == [] then s else Run(Apply(s, es[0]), es[1..])
  }

  /** `send` succeeds exactly when a socket handle exists, whatever `connected` says. */
  function SendStatus(s: Conn): (r: Status)
    ensures r.Failed? <==> !s.hasSocket
    ensures r.Failed? ==> r.reason == NotRunning
  {
    if s.hasSocket then Done else Failed(NotRunning)
  }

  /** `disconnect` ends the transport only while connected with a socket; it never fails. */
  function DisconnectEnds(s: Conn): (r: bool)
  {
    s.connected && s.hasSocket
  }

  lemma {:induction false} RunAppend(s: Conn, a: seq<Event>, b: seq<Event>)
    ensures Run(s, a + b) == Run(Run(s, a), b)
    decreases |a|
  {
    if a == [] {
      assert a + b == b;
    } else {
      assert (a + b)[0] == a[0];
      assert (a + b)[1..] == a[1..] + b;
      RunAppend(Apply(s, a[0]), a[1..], b);
    }
  }

  /** Splits a run at position `i`, isolating the event found there. */
  lemma RunAround(s: Conn, es: seq<Event>, i: nat)
    requires i < |es|
    ensures Run(s, es) == Run(Apply(Run(s, es[..i]), es[i]), es[i + 1..])
  {
    assert es == es[..i] + ([es[i]] + es[i + 1..]);
    RunAppend(s, es[..i], [es[i]] + es[i + 1..]);
    RunAppend(Run(s, es[..i]), [es[i]], es[i + 1..]);
    assert ([es[i]] + es[i + 1..])[1..] == es[i + 1..];
  }

  lemma {:induction false} SlotUntouched(s: Conn, es: seq<Event>)
    requires forall j :: 0 <= j < |es| ==> !es[j].Data? && !es[j].ClearMessage?
    ensures Run(s, es).nextMessage == s.nextMessage
    decreases |es|
  {
    if es != [] {
      SlotUntouched(Apply(s, es[0]), es[1..]);
    }
  }

  /** The slot holds the payload of the last inbound event, not a concatenation of them. */
  lemma LastPayloadWins(s: Conn, es: seq<Event>, i: nat)
    requires i < |es| && es[i].Data?
    requires forall j :: i < j < |es| ==> !es[j].Data? && !es[j].ClearMessage?
    ensures Run(s, es).nextMessage == Some(es[i].payload)
  {
    RunAround(s, es, i);
    var rest := es[i + 1..];
    assert forall j :: 0 <= j < |rest| ==> rest[j] == es[i + 1 + j];
    SlotUntouched(Apply(Run(s, es[..i]), es[i]), rest);
  }

  lemma {:induction false} FlagUntouched(s: Conn, es: seq<Event>)
    requires forall j :: 0 <= j < |es| ==> !es[j].ConnectCallback? && !es[j].Close?
    ensures Run(s, es).connected == s.connected
    decreases |es|
  {
    if es != [] {
      FlagUntouched(Apply(s, es[0]), es[1..]);
    }
  }

  /** `connected` is decided by the last connect callback or close; nothing else flips it. */
  lemma LastTransitionWins(s: Conn, es: seq<Event>, i: nat)
    requires i < |es| && (es[i].ConnectCallback? || es[i].Close?)
    requires forall j :: i < j < |es| ==> !es[j].ConnectCallback? && !es[j].Close?
    ensures Run(s, es).connected == es[i].ConnectCallback?
  {
    RunAround(s, es, i);
    var rest := es[i + 1..];
    assert forall j :: 0 <= j < |rest| ==> rest[j] == es[i + 1 + j];
    FlagUntouched(Apply(Run(s, es[..i]), es[i]), rest);
  }

  /** How a connect attempt ends, read off the events that follow it: the first
      connect callback fulfils it, the first close rejects it, otherwise it is pending. */
  function AttemptFate(es: seq<Event>): (r: Promise)
    decreases |es|
  {
    if es == [] then Unsettled
    else if es[0].ConnectCallback? then Fulfilled
    else if es[0].Close? then Rejected(UnableToConnect)
    else AttemptFate(es[1..])
  }

  lemma {:induction false} SettledAttemptStays(s: Conn, es: seq<Event>)
    requires !s.attempt.Unsettled?
    requires forall j :: 0 <= j < |es| ==> !es[j].ConnectCall?
    ensures Run(s, es).attempt == s.attempt
    decreases |es|
  {
    if es != [] {
      SettledAttemptStays(Apply(s, es[0]), es[1..]);
    }
  }

  /** A connect attempt rejects with `UnableToConnect` exactly when its socket closes
      before the connect callback, and is fulfilled exactly when the callback comes first. */
  lemma {:induction false} AttemptSettledByFirstTransition(s: Conn, es: seq<Event>)
    requires s.attempt.Unsettled? && !s.attemptResolved
    requires forall j :: 0 <= j < |es| ==> !es[j].ConnectCall?
    ensures Run(s, es).attempt == AttemptFate(es)
    decreases |es|
  {
    if es != [] {
      var next := Apply(s, es[0]);
      if es[0].ConnectCallback? || es[0].Close? {
        SettledAttemptStays(next, es[1..]);
      } else {
        AttemptSettledByFirstTransition(next, es[1..]);
      }
    }
  }

  /** Once a connect attempt has started, no later close makes `send` fail: the handle stays. */
  lemma {:induction false} SendSurvivesClose(s: Conn, es: seq<Event>)
    requires !s.connected
    ensures SendStatus(Run(Apply(s, ConnectCall), es)) == Done
    ensures !Run(Apply(s, ConnectCall), es + [Close]).connected
    ensures SendStatus(Run(Apply(s, ConnectCall), es + [Close])) == Done
  {
    RunAppend(Apply(s, ConnectCall), es, [Close]);
  }

  /** While an attempt is still connecting, `disconnect` ends nothing; the attempt can
      still connect afterwards, and only then would `disconnect` end the transport. */
  lemma {:induction false} DisconnectWhileConnectingEndsNothing(s: Conn, es: seq<Event>)
    requires !s.connected
    requires forall j :: 0 <= j < |es| ==> !es[j].ConnectCallback? && !es[j].Close?
    ensures var t := Run(Apply(s, ConnectCall), es);
      t.hasSocket && !DisconnectEnds(t) &&
      Apply(t, ConnectCallback).connected && DisconnectEnds(Apply(t, ConnectCallback))
  {
    FlagUntouched(Apply(s, ConnectCall), es);
  }

  /** Once an attempt has started, `disconnect` ends the transport exactly when the last
      connect callback or close was a connect callback: after a close it ends nothing,
      although the handle is kept. */
  lemma DisconnectEndsAfterLastTransition(s: Conn, es: seq<Event>, i: nat)
    requires !s.connected
    requires i < |es| && (es[i].ConnectCallback? || es[i].Close?)
    requires forall j :: i < j < |es| ==> !es[j].ConnectCallback? && !es[j].Close?
    ensures var t := Run(Apply(s, ConnectCall), es);
      t.hasSocket && (DisconnectEnds(t) <==> es[i].ConnectCallback?)
  {
    LastTransitionWins(Apply(s, ConnectCall), es, i);
  }
}
