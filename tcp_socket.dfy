/**
  The socket wrapper as an object whose event handlers update its fields in place.

  Each handler the wrapper attaches to its socket, and each public operation,
  is a method; each state-changing method is specified by the matching
  `Connection.Apply` step on the abstract state `State()` (the handler wrapper
  by `Connection.Notify`). A request cycle's
  poll loop is a `PendingRequest` object with one `Tick` per interval.
  Only the newest socket is modelled: the handlers of a socket replaced by a
  later `Connect` are taken to fire no more.
 */
module TcpSockets {
  import opened Connection
  import opened Polling

  class TcpSocket {
    var connected: bool
    var hasSocket: bool
    var nextMessage: Option<Bytes>
    /** `connectPromiseResolved` of the newest connect attempt. */
    var connectPromiseResolved: bool
    /** The promise `Connect` handed out for the newest attempt, settled by the handlers. */
    var connectPromise: Promise
    /** Every value passed to the user's connection-state callback, in order. */
    ghost var notified: seq<bool>

    ghost function State(): (r: Conn)
      reads this
    {
      Conn(connected, hasSocket, nextMessage, notified, connectPromiseResolved, connectPromise)
    }

    ghost predicate Valid()
      reads this
    {
      Consistent(State())
    }

    constructor ()
      ensures Valid() && State() == Initial
    {
      connected := false;
      hasSocket := false;
      nextMessage := None;
      connectPromiseResolved := false;
      connectPromise := Unsettled;
      notified := [];
    }

    /** The wrapper around the user's callback: sets `connected`, then forwards the value. */
    method ConnectionChanged(b: bool)
      modifies this
      ensures State() == Notify(old(State()), b)
    {
      connected := b;
      notified := notified + [b];
    }

    /** `connect()`: resolves at once when connected, otherwise opens a new socket and
        starts a new attempt. `p` is the state of the returned promise at the moment
        `Connect` returns; the handlers later settle the attempt in `connectPromise`. */
    method Connect() returns (p: Promise)
      requires Valid()
      modifies this
      ensures Valid() && State() == Apply(old(State()), ConnectCall)
      ensures p == if old(connected) then Fulfilled else connectPromise
      ensures !old(connected) ==> p.Unsettled?
    {
      if connected {
        return Fulfilled;
      }
      connectPromiseResolved := false;
      connectPromise := Unsettled;
      hasSocket := true;
      p := connectPromise;
    }

    /** The connect callback: notify `true`, mark the attempt resolved, fulfil its promise. */
    method OnConnect()
      requires Valid()
      modifies this
      ensures Valid() && State() == Apply(old(State()), ConnectCallback)
    {
      ConnectionChanged(true);
      connectPromiseResolved := true;
      connectPromise := Settle(connectPromise, Fulfilled);
    }

    /** The `data` handler: the payload replaces whatever the slot held. */
    method OnData(data: Bytes)
      requires Valid()
      modifies this
      ensures Valid() && State() == Apply(old(State()), Data(data))
    {
      nextMessage := Some(data);
    }

    /** The `error` handler changes nothing (it modifies no field); it logs the error
        only once the attempt has resolved. */
    method OnError() returns (logged: bool)
      ensures logged <==> connectPromiseResolved
    {
      logged := connectPromiseResolved;
    }

    /** The `timeout` handler always logs a warning and modifies no field. */
    method OnSocketTimeout() returns (logged: bool)
      ensures logged
    {
      logged := true;
    }

    /** The `close` handler: reject a still-unresolved attempt, then notify `false`.
        The socket handle is kept. */
    method OnClose()
      requires Valid()
      modifies this
      ensures Valid() && State() == Apply(old(State()), Close)
    {
      if !connectPromiseResolved {
        connectPromise := Settle(connectPromise, Rejected(UnableToConnect));
      }
      ConnectionChanged(false);
    }

    /** `disconnect()`: ends the socket when connected with one, otherwise resolves at once.
        It never fails; the close that ending causes arrives later through `OnClose`. */
    method Disconnect() returns (ended: bool)
      ensures ended == DisconnectEnds(State())
    {
      ended := connected && hasSocket;
    }

    /** `send(message)`: fails when there is no socket handle; otherwise the write is
        issued and completes without touching the modelled state. */
    method Send(message: Bytes) returns (st: Status)
      ensures st == SendStatus(State())
    {
      if hasSocket {
        st := Done;
      } else {
        st := Failed(NotRunning);
      }
    }

    /** After a cycle's write completed: empty the slot and start the cycle's poll loop. */
    method BeginWait() returns (req: PendingRequest)
      requires Valid()
      modifies this
      ensures Valid() && State() == Apply(old(State()), ClearMessage)
      ensures fresh(req) && req.Snapshot() == Start
    {
      nextMessage := None;
      req := new PendingRequest();
    }
  }

  /** The local state of one cycle's interval loop: its counter and what it settled on. */
  class PendingRequest {
    var attempts: nat
    var outcome: Outcome

    ghost function Snapshot(): (r: Cycle)
      reads this
    {
      Cycle(attempts, outcome)
    }

    constructor ()
      ensures Snapshot() == Start
    {
      attempts := 0;
      outcome := Pending;
    }

    /** One interval: check the slot, then the flag, then compare-and-increment the counter. */
    method Tick(sock: TcpSocket)
      modifies this
      ensures Snapshot() == Step(old(Snapshot()), ViewOf(sock.State()))
    {
      if !outcome.Pending? {
        return;
      }
      if sock.nextMessage.Some? {
        outcome := Resolved(sock.nextMessage.value);
      } else if !sock.connected {
        outcome := Closed;
      } else {
        var before := attempts;
        attempts := attempts + 1;
        if before > Budget {
          outcome := TimedOut;
        }
      }
    }
  }

  /** Runs a started cycle's interval loop while no transport event arrives, until it
      settles: a present message or a lost connection settles it on the first poll,
      otherwise it times out on poll `Budget + 2`. */
  method AwaitWithoutEvents(sock: TcpSocket, req: PendingRequest) returns (polls: nat)
    requires req.Snapshot() == Start
    modifies req
    ensures req.Snapshot() == Ticks(Start, Repeat(ViewOf(sock.State()), polls))
    ensures polls == if sock.nextMessage.Some? || !sock.connected then 1 else Budget + 2
    ensures req.Snapshot() == Verdict(ViewOf(sock.State()), polls - 1)
  {
    ghost var v := ViewOf(sock.State());
    polls := 0;
    while req.outcome.Pending?
      invariant polls <= Budget + 2
      invariant req.Snapshot() == Ticks(Start, Repeat(v, polls))
      invariant req.outcome.Pending? ==> req.attempts == polls <= Budget + 1
      invariant req.outcome.Pending? && polls > 0 ==> v == View(None, true)
      invariant !req.outcome.Pending? ==>
        polls == (if Decisive(v, 0) then 1 else Budget + 2) && req.Snapshot() == Verdict(v, polls - 1)
      decreases Budget + 2 - polls
    {
      req.Tick(sock);
      assert Repeat(v, polls + 1) == Repeat(v, polls) + [v];
      TicksSnoc(Start, Repeat(v, polls), v);
      polls := polls + 1;
    }
  }

  /** Connecting twice while connected resolves both calls with a single handshake. */
  method ConnectTwice(sock: TcpSocket) returns (first: Promise, second: Promise)
    requires sock.Valid() && !sock.connected
    modifies sock
    ensures second == Fulfilled
    ensures sock.Valid() && sock.State() ==
      Apply(Apply(Apply(old(sock.State()), ConnectCall), ConnectCallback), ConnectCall)
    ensures sock.connected && sock.connectPromise == Fulfilled && sock.notified == old(sock.notified) + [true]
  {
    first := sock.Connect();
    sock.OnConnect();
    second := sock.Connect();
  }

  /** One whole `sendWaitForResponse` cycle during which no transport event arrives:
      send, clear the slot once the write completed, then poll until settled. Without a
      handle it rejects with the send's reason and touches nothing; with one, the slot
      is cleared, so it can only fail: with the closed reason on poll 1 when disconnected,
      with the timeout reason on poll `Budget + 2` when connected. */
  method SendWaitForResponseWithoutEvents(sock: TcpSocket, message: Bytes) returns (r: Response, polls: nat)
    requires sock.Valid()
    modifies sock
    ensures sock.Valid()
    ensures !old(sock.hasSocket) ==> r == Failure(NotRunning) && polls == 0 && sock.State() == old(sock.State())
    ensures old(sock.hasSocket) ==> sock.State() == Apply(old(sock.State()), ClearMessage)
    ensures old(sock.hasSocket) && !old(sock.connected) ==> r == Failure(ClosedReason) && polls == 1
    ensures old(sock.hasSocket) && old(sock.connected) ==> r == Failure(TimeoutReason) && polls == Budget + 2
  {
    var sent := sock.Send(message);
    if sent.Failed? {
      return Failure(sent.reason), 0;
    }
    var req := sock.BeginWait();
    polls := AwaitWithoutEvents(sock, req);
    var settled := CycleResponse(sent, Cycle(req.attempts, req.outcome));
    r := settled.value;
  }
}
