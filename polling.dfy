/**
  The wait-for-response part of a request cycle.

  After its write completes, a cycle empties the message slot and then polls
  the connection every interval. A `View` is what one poll sees of the
  connection (the slot and the `connected` flag); `Step` is one poll and
  `Ticks` a sequence of them. The local counter `attempts` is compared with
  the budget `TimeoutMs / IntervalMs` BEFORE it is incremented, so a quiet,
  connected cycle times out on poll number `Budget + 2`.
 */
module Polling {
  import opened Connection

  const TimeoutMs: nat := 10000
  const IntervalMs: nat := 10

  /** The value `attempts` is compared against on each poll. */
  const Budget: nat := TimeoutMs / IntervalMs

  const ClosedReason: string := "Socket closed without sending response"
  const TimeoutReason: string := "Response timeout exceeded"

  datatype Outcome = Pending | Resolved(msg: Bytes) | Closed | TimedOut

  /** The local state of one cycle's poll loop. */
  datatype Cycle = Cycle(attempts: nat, outcome: Outcome)

  /** What one poll observes of the connection. */
  datatype View = View(message: Option<Bytes>, connected: bool)

  /** A cycle whose poll loop has just been started. */
  const Start: Cycle := Cycle(0, Pending)

  function ViewOf(s: Conn): (v: View)
  {
    View(s.nextMessage, s.connected)
  }

  /** What `sendWaitForResponse` settles with: the reply, or a rejection reason. */
  datatype Response = Answer(msg: Bytes) | Failure(reason: string)

  /** The caller-visible result of a cycle whose send returned `sent` and whose poll
      loop is at `c`: a failed send rejects at once with its reason and no polling; after a
      successful send the cycle answers with the message it resolved with, rejects with
      the reason of its failure, or is still unsettled. */
  function CycleResponse(sent: Status, c: Cycle): (r: Option<Response>)
    ensures sent.Failed? ==> r == Some(Failure(sent.reason))
    ensures sent.Done? ==> (r.None? <==> c.outcome.Pending?)
    ensures sent.Done? && c.outcome.Resolved? ==> r == Some(Answer(c.outcome.msg))
    ensures sent.Done? && c.outcome.Closed? ==> r == Some(Failure(ClosedReason))
    ensures sent.Done? && c.outcome.TimedOut? ==> r == Some(Failure(TimeoutReason))
  {
    if sent.Failed? then Some(Failure(sent.reason))
    else match c.outcome
      case Pending => None
      case Resolved(m) => Some(Answer(m))
      case Closed => Some(Failure(ClosedReason))
      case TimedOut => Some(Failure(TimeoutReason))
  }

  /** One poll: a present message wins, then a lost connection, then the timeout check. */
  function Step(c: Cycle, v: View): (r: Cycle)
    // a settled cycle has cleared its interval: later polls change nothing
    ensures !c.outcome.Pending? ==> r == c
    ensures c.outcome.Pending? && v.message.Some? ==> r == Cycle(c.attempts, Resolved(v.message.value))
    ensures c.outcome.Pending? && v.message.None? && !v.connected ==> r == Cycle(c.attempts, Closed)
    // only a poll that reaches the comparison advances the counter, even the one that times out
    ensures c.outcome.Pending? && v.message.None? && v.connected ==>
      r.attempts == c.attempts + 1 && (r.outcome.TimedOut? <==> c.attempts > Budget) && !r.outcome.Resolved? && !r.outcome.Closed?
  {
    if !c.outcome.Pending? then c
    else if v.message.Some? then c.(outcome := Resolved(v.message.value))
    else if !v.connected then c.(outcome := Closed)
    else if c.attempts > Budget then Cycle(c.attempts + 1, TimedOut)
    else Cycle(c.attempts + 1, Pending)
  }

  /** The cycle after polling once per view in `vs`. */
  function Ticks(c: Cycle, vs: seq<View>): (r: Cycle)
    // each poll adds at most one attempt; a cycle still pending has counted every poll
    ensures c.attempts <= r.attempts <= c.attempts + |vs|
    ensures r.outcome.Pending? ==> r.attempts == c.attempts + |vs|
    decreases |vs|
  {
    if vs == [] then c else Ticks(Step(c, vs[0]), vs[1..])
  }

  /** `n` polls that all see the same connection state. */
  function Repeat(v: View, n: nat): (vs: seq<View>)
    ensures |vs| == n && forall j :: 0 <= j < n ==> vs[j] == v
  {
    seq(n, _ => v)
  }

  /** A poll of a pending cycle whose counter is `k` settles it. */
  predicate Decisive(v: View, k: nat)
  {
    v.message.Some? || !v.connected || k > Budget
  }

  /** The settled cycle a decisive poll produces, by the priority order. */
  function Verdict(v: View, k: nat): (r: Cycle)
  {
    if v.message.Some? then Cycle(k, Resolved(v.message.value))
    else if !v.connected then Cycle(k, Closed)
    else Cycle(k + 1, TimedOut)
  }

  lemma {:induction false} TicksSnoc(c: Cycle, vs: seq<View>, v: View)
    ensures Ticks(c, vs + [v]) == Step(Ticks(c, vs), v)
    decreases |vs|
  {
    if vs == [] {
      assert vs + [v] == [v];
    } else {
      assert (vs + [v])[0] == vs[0];
      assert (vs + [v])[1..] == vs[1..] + [v];
      TicksSnoc(Step(c, vs[0]), vs[1..], v);
    }
  }

  /** Once settled, a cycle's outcome never changes. */
  lemma {:induction false} SettledIsFinal(c: Cycle, vs: seq<View>)
    requires !c.outcome.Pending?
    ensures Ticks(c, vs) == c
    decreases |vs|
  {
    if vs != [] {
      SettledIsFinal(Step(c, vs[0]), vs[1..]);
    }
  }

  /** Polls that see nothing decisive leave the cycle pending, one attempt per poll. */
  lemma {:induction false} QuietPollsStayPending(k: nat, vs: seq<View>)
    requires forall j :: 0 <= j < |vs| ==> !Decisive(vs[j], k + j)
    ensures Ticks(Cycle(k, Pending), vs) == Cycle(k + |vs|, Pending)
    decreases |vs|
  {
    if vs != [] {
      assert !Decisive(vs[0], k + 0);
      var rest := vs[1..];
      assert forall j :: 0 <= j < |rest| ==> rest[j] == vs[j + 1];
      QuietPollsStayPending(k + 1, rest);
    }
  }

  /** The first decisive poll settles the cycle, by the priority order, for good. */
  lemma {:induction false} FirstDecisivePollSettles(k: nat, vs: seq<View>, i: nat)
    requires i < |vs| && Decisive(vs[i], k + i)
    requires forall j :: 0 <= j < i ==> !Decisive(vs[j], k + j)
    ensures Ticks(Cycle(k, Pending), vs) == Verdict(vs[i], k + i)
    decreases i
  {
    var next := Step(Cycle(k, Pending), vs[0]);
    if i == 0 {
      assert next == Verdict(vs[0], k);
      SettledIsFinal(next, vs[1..]);
    } else {
      assert !Decisive(vs[0], k + 0);
      var rest := vs[1..];
      assert forall j :: 0 <= j < |rest| ==> rest[j] == vs[j + 1];
      FirstDecisivePollSettles(k + 1, rest, i - 1);
    }
  }

  /** While connected and silent, polls 1 .. Budget + 1 stay pending and poll Budget + 2
      fails with a timeout; no later poll changes that. */
  lemma TimeoutOnPollAfterBudgetPlusOne(n: nat)
    ensures Ticks(Start, Repeat(View(None, true), n)) ==
      if n <= Budget + 1 then Cycle(n, Pending) else Cycle(Budget + 2, TimedOut)
  {
    var vs := Repeat(View(None, true), n);
    if n <= Budget + 1 {
      QuietPollsStayPending(0, vs);
    } else {
      FirstDecisivePollSettles(0, vs, Budget + 1);
    }
  }

  /** A payload that arrives while the request is still being written is overwritten by
      the slot clearing: a connected, otherwise silent cycle then times out instead of
      resolving with it. */
  lemma PayloadDuringWriteIsLost(s: Conn, p: Bytes)
    requires s.connected
    ensures var waiting := Apply(Apply(s, Data(p)), ClearMessage);
      waiting.nextMessage == None &&
      Ticks(Start, Repeat(ViewOf(waiting), Budget + 2)) == Cycle(Budget + 2, TimedOut)
  {
    TimeoutOnPollAfterBudgetPlusOne(Budget + 2);
  }

  /** A connection lost mid-cycle fails a silent cycle on the next poll with `Closed`,
      however many polls it has already waited. */
  lemma CloseFailsWaitingCycle(s: Conn, n: nat)
    requires s.connected && s.nextMessage.None? && n <= Budget + 1
    ensures var dropped := Apply(s, Close);
      Ticks(Start, Repeat(ViewOf(s), n) + [ViewOf(dropped)]) == Cycle(n, Closed)
  {
    TimeoutOnPollAfterBudgetPlusOne(n);
    TicksSnoc(Start, Repeat(ViewOf(s), n), ViewOf(Apply(s, Close)));
  }

  /** A cycle started after the connection dropped passes `send`, because the handle is
      kept, clears the slot and then fails on its first poll with the closed-connection
      reason, never with the not-running one. */
  lemma CycleAfterCloseFailsClosed(s: Conn, es: seq<Event>)
    requires !s.connected
    ensures var dropped := Run(Apply(s, ConnectCall), es + [Close]);
      SendStatus(dropped) == Done &&
      CycleResponse(SendStatus(dropped), Ticks(Start, [ViewOf(Apply(dropped, ClearMessage))]))
        == Some(Failure(ClosedReason))
  {
    SendSurvivesClose(s, es);
  }

  /** Whatever the polls see, a cycle that is still pending has counted at most
      `Budget + 1` attempts. */
  lemma {:induction false} PendingWithinBudget(k: nat, vs: seq<View>)
    requires k <= Budget + 1
    ensures var r := Ticks(Cycle(k, Pending), vs); r.outcome.Pending? ==> r.attempts <= Budget + 1
    decreases |vs|
  {
    if vs != [] {
      var next := Step(Cycle(k, Pending), vs[0]);
      if next.outcome.Pending? {
        PendingWithinBudget(k + 1, vs[1..]);
      } else {
        SettledIsFinal(next, vs[1..]);
      }
    }
  }

  /** Any `Budget + 2` polls settle a cycle, whatever arrives between them. */
  lemma BudgetPlusTwoPollsSettle(vs: seq<View>)
    requires |vs| >= Budget + 2
    ensures !Ticks(Start, vs).outcome.Pending?
  {
    PendingWithinBudget(0, vs);
  }

  /** A reply that arrives while a silent cycle waits resolves it with that reply on the
      next poll, however many polls it has already waited. */
  lemma ReplyResolvesWaitingCycle(s: Conn, n: nat, p: Bytes)
    requires s.connected && s.nextMessage.None? && n <= Budget + 1
    ensures Ticks(Start, Repeat(ViewOf(s), n) + [ViewOf(Apply(s, Data(p)))]) == Cycle(n, Resolved(p))
  {
    TimeoutOnPollAfterBudgetPlusOne(n);
    TicksSnoc(Start, Repeat(ViewOf(s), n), ViewOf(Apply(s, Data(p))));
  }
}
