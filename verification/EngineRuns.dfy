/** What holds over whole runs of the engine, for every interleaving of its threads and environment. */
module EngineRuns {
  import opened Core
  import opened Packet
  import opened QueueModel
  import opened QueueFacts
  import opened Rules
  import opened Engine
  import opened EngineShape
  import opened EngineFates
  import opened EngineOrder
  import opened EngineTiming
  import opened EngineCounters
  import opened EngineProgress

  // ---------------------------------------------------------------- the invariant

  ghost predicate Orders(s: State) {
    SentKnown(s) && forall f :: FlowOrder(s, f)
  }

  ghost predicate Books(s: State) {
    OwesKnown(s) && forall a :: BytesAt(s, a)
  }

  ghost predicate Times(s: State) {
    AllTimely(s.sh) && ReleasesDone(s) && WakesInTime(s) && DrainReadsDue(s) && ParksEmpty(s)
  }

  ghost predicate Inv(s: State) {
    && Shape(s)
    && Conserved(s)
    && CountersMatch(s)
    && Exits(s)
    && Orders(s)
    && Times(s)
    && SendsUnblocked(s)
    && Books(s)
    && SnapCoherent(s)
  }

  lemma InitConserved(s: State)
    requires Init(s)
    ensures Conserved(s) && CountersMatch(s) && Exits(s)
  {
    assert forall reason :: CountedAt(s, reason);
  }

  lemma InitOrders(s: State)
    requires Init(s)
    ensures Orders(s) && Times(s) && SendsUnblocked(s)
  {
  }

  lemma InitBooks(s: State)
    requires Init(s)
    ensures Books(s) && SnapCoherent(s)
  {
  }

  lemma InitInv(s: State)
    requires Init(s)
    ensures Inv(s)
  {
    InitShape(s);
    InitConserved(s);
    InitOrders(s);
    InitBooks(s);
  }

  lemma OrdersKept(s: State, a: Action)
    requires Shape(s) && Orders(s) && Enabled(s, a)
    ensures Orders(Do(s, a))
  {
    SentKnownKept(s, a);
    forall f ensures FlowOrder(Do(s, a), f) {
      assert FlowOrder(s, f);
      FlowOrderKept(s, a, f);
    }
    hide Shape, SentKnown, FlowOrder;
  }

  lemma BooksKept(s: State, a: Action)
    requires Shape(s) && SentKnown(s) && Books(s) && Enabled(s, a)
    ensures Books(Do(s, a))
  {
    OwesKnownKept(s, a);
    forall i | 0 <= i < |s.sh.log.sent| ensures s.sh.log.sent[i] < |s.sh.log.captured| {
      assert s.sh.log.sent[i] in s.sh.log.sent;
    }
    forall acc ensures BytesAt(Do(s, a), acc) {
      assert BytesAt(s, acc);
      BytesAtKept(s, a, acc);
    }
    hide Shape, SentKnown, OwesKnown, BytesAt;
  }

  lemma TimesKept(s: State, a: Action)
    requires Shape(s) && Times(s) && Enabled(s, a)
    ensures Times(Do(s, a))
  {
    hide Shape, SharedShape, AllTimely, OfferCurrent, EditFollows, NothingWithheld, WakesInTime, DrainReadsDue,
      ParksEmpty, EventOf;
    EventFits(s, a);
    assert SharedShape(s.sh) by { ShapeShared(s); }
    if EventOf(s, a).Queued? { QueuedDelayCurrent(s, a); }
    AllTimelyKept(s.sh, EventOf(s, a));
    ReleasesDoneKept(s, a);
    WakesInTimeKept(s, a);
    DrainReadsDueKept(s, a);
    ParksEmptyKept(s, a);
    hide ReleasesDone, QueueAfter;
  }

  lemma ShapeShared(s: State)
    requires Shape(s)
    ensures SharedShape(s.sh)
  {
  }

  lemma InvKept(s: State, a: Action)
    requires Inv(s) && Enabled(s, a)
    ensures Inv(Do(s, a))
  {
    hide Shape, Conserved, CountersMatch, Exits, Times, SendsUnblocked, SnapCoherent, SentKnown, FlowOrder,
      OwesKnown, BytesAt, Do;
    ShapeKept(s, a);
    ConservedKept(s, a);
    CountersKept(s, a);
    ExitsKept(s, a);
    OrdersKept(s, a);
    TimesKept(s, a);
    SendsUnblockedKept(s, a);
    BooksKept(s, a);
    SnapCoherentKept(s, a);
  }

  /** Every state of every run satisfies the whole invariant. */
  lemma {:induction false} RunInv(states: seq<State>, actions: seq<Action>, i: nat)
    requires IsRun(states, actions) && i < |states|
    ensures Inv(states[i])
  {
    hide Inv, Do, Enabled;
    if i == 0 {
      InitInv(states[0]);
    } else {
      RunInv(states, actions, i - 1);
      var k := i - 1;
      assert states[k + 1] == Do(states[k], actions[k]);
      InvKept(states[i - 1], actions[i - 1]);
    }
  }

  // ---------------------------------------------------------------- order

  lemma StepOf(states: seq<State>, actions: seq<Action>, i: nat)
    requires IsRun(states, actions) && i < |actions|
    ensures Enabled(states[i], actions[i]) && states[i + 1] == Do(states[i], actions[i])
  {
    hide Do, Enabled, Init;
  }

  /** The history only grows. */
  lemma {:induction false} LogGrows(states: seq<State>, actions: seq<Action>, i: nat, j: nat)
    requires IsRun(states, actions) && i <= j < |states|
    ensures states[i].sh.log.captured <= states[j].sh.log.captured
    ensures states[i].sh.log.sent <= states[j].sh.log.sent
    ensures states[i].sh.log.dropped <= states[j].sh.log.dropped
    decreases j
  {
    if i < j {
      LogGrows(states, actions, i, j - 1);
      StepOf(states, actions, j - 1);
      LogGrowsBy(states[j - 1], actions[j - 1]);
      hide Do, Enabled;
    }
    hide IsRun;
  }

  lemma LogGrowsBy(s: State, a: Action)
    requires Enabled(s, a)
    ensures s.sh.log.captured <= Do(s, a).sh.log.captured
    ensures s.sh.log.sent <= Do(s, a).sh.log.sent
    ensures s.sh.log.dropped <= Do(s, a).sh.log.dropped
  {
    hide QueueAfter, CountersAfter, LedgerAfter, EventOf;
  }

  /** In every run, the parsed non-loopback packets of one flow are sent in the order of their capture. */
  lemma SendsFollowCapture(states: seq<State>, actions: seq<Action>, i: nat, f: FlowKey, j: nat, k: nat)
    requires IsRun(states, actions) && i < |states|
    requires var log := states[i].sh.log;
      j < k < |log.sent| && OfFlow(log, log.sent[j], f) && OfFlow(log, log.sent[k], f)
    ensures states[i].sh.log.sent[j] < states[i].sh.log.sent[k]
  {
    RunInv(states, actions, i);
    assert FlowOrder(states[i], f);
    hide IsRun, Shape, Times, Books;
  }

  /** A direct send never overtakes: no packet of the flow is queued or popped and unfinished. */
  lemma DirectSendIsAlone(states: seq<State>, actions: seq<Action>, i: nat)
    requires IsRun(states, actions) && i < |actions|
    requires Enabled(states[i], actions[i]) && actions[i].RecvStep? && EventOf(states[i], actions[i]).Sent?
    ensures var s := states[i];
      && s.recv.Sending? && s.recv.id < |s.sh.log.captured| && EventOf(s, actions[i]).id == s.recv.id
      && (Hand(s).flow.Some? && !Hand(s).address.loopback ==> !HasFlow(s.sh.queue, Hand(s).flow.value))
  {
    var s := states[i];
    RunInv(states, actions, i);
    SenderIdFits(s);
    assert s.recv.Sending? && s.recv.stage.AtIo?;
    assert Hand(s).address.capture == s.recv.id;
    if Hand(s).flow.Some? && !Hand(s).address.loopback {
      assert FlowOrder(s, Hand(s).flow.value);
      assert OfFlow(s.sh.log, s.recv.id, Hand(s).flow.value);
    }
    hide IsRun, Times, Books, HasFlow;
  }

  // ---------------------------------------------------------------- conservation

  /**
   At every moment each captured packet is in exactly one place: sent, dropped, queued, or in the
   hand of one worker. Nothing else is in any of these places.
   */
  lemma OnePlace(states: seq<State>, actions: seq<Action>, i: nat, x: nat)
    requires IsRun(states, actions) && i < |states|
    ensures var s := states[i];
      SentCount(s.sh.log.sent, x) + DropCount(s.sh.log.dropped, x) + Total(IdOnes(x), s.sh.queue.queued)
        + Bit(InRecvHand(s.recv, x)) + Bit(InSenderHand(s.send, x)) == if x < |s.sh.log.captured| then 1 else 0
  {
    RunInv(states, actions, i);
    assert ConservedAt(states[i], x);
    hide IsRun, Shape, Times, Books, Orders;
  }

  function DropIds(drops: seq<Drop>): seq<nat> {
    seq(|drops|, i requires 0 <= i < |drops| => drops[i].id)
  }

  lemma {:induction false} SentCountConcat(a: seq<nat>, b: seq<nat>, x: nat)
    ensures SentCount(a + b, x) == SentCount(a, x) + SentCount(b, x)
  {
    if b == [] {
      assert a + b == a;
    } else {
      assert (a + b)[..|a + b| - 1] == a + b[..|b| - 1];
      SentCountConcat(a, b[..|b| - 1], x);
    }
  }

  lemma {:induction false} DropCountIsSentCount(drops: seq<Drop>, x: nat)
    ensures DropCount(drops, x) == SentCount(DropIds(drops), x)
  {
    if drops != [] {
      DropCountIsSentCount(drops[..|drops| - 1], x);
      assert DropIds(drops)[..|drops| - 1] == DropIds(drops[..|drops| - 1]);
    }
  }

  lemma {:induction false} CountedOccurs(ids: seq<nat>, x: nat) returns (at: nat)
    requires SentCount(ids, x) > 0
    ensures at < |ids| && ids[at] == x
  {
    if ids[|ids| - 1] == x { at := |ids| - 1; } else { at := CountedOccurs(ids[..|ids| - 1], x); }
  }

  lemma LastCounts(ids: seq<nat>)
    requires ids != []
    ensures SentCount(ids, ids[|ids| - 1]) > 0
  {
  }

  /** A list holding each number below `n` exactly once has length `n`. */
  lemma {:induction false} EachOnce(ids: seq<nat>, n: nat)
    requires forall x: nat :: SentCount(ids, x) == if x < n then 1 else 0
    ensures |ids| == n
    decreases n
  {
    if n == 0 {
      if ids != [] { LastCounts(ids); }
    } else {
      assert SentCount(ids, n - 1) == 1;
      var at := CountedOccurs(ids, n - 1);
      var rest := ids[..at] + ids[at + 1..];
      forall x: nat ensures SentCount(rest, x) == if x < n - 1 then 1 else 0 {
        assert SentCount(ids, x) == if x < n then 1 else 0;
        assert ids == ids[..at] + ([ids[at]] + ids[at + 1..]);
        SentCountConcat(ids[..at], [ids[at]] + ids[at + 1..], x);
        SentCountConcat([ids[at]], ids[at + 1..], x);
        SentCountConcat(ids[..at], ids[at + 1..], x);
        assert SentCount([ids[at]], x) == Bit(x == n - 1);
      }
      EachOnce(rest, n - 1);
    }
  }

  /**
   Once `stop` has returned the queue is empty and every captured packet was either sent once or
   dropped once, also when the sender panicked in the middle of a send. The counters agree: captured
   is sent plus dropped, and unless the engine failed nothing was dropped for shutdown.
   */
  lemma StoppedAccountsForAll(states: seq<State>, actions: seq<Action>, i: nat)
    requires IsRun(states, actions) && i < |states| && states[i].stop.Stopped?
    ensures var sh := states[i].sh;
      && sh.queue.queued == [] && sh.queue.inFlight == []
      && (forall x: nat ::
        SentCount(sh.log.sent, x) + DropCount(sh.log.dropped, x) == if x < |sh.log.captured| then 1 else 0)
      && |sh.log.captured| == |sh.log.sent| + sh.counters.dropped
      && sh.counters.processed == |sh.log.captured|
      && (!sh.aborted ==> sh.counters.shutdown == 0)
  {
    var s := states[i];
    var sh := s.sh;
    RunInv(states, actions, i);
    StoppedIsIdle(s);
    forall x: nat ensures SentCount(sh.log.sent, x) + DropCount(sh.log.dropped, x)
      == if x < |sh.log.captured| then 1 else 0 {
      assert ConservedAt(s, x);
    }
    forall x: nat ensures SentCount(sh.log.sent + DropIds(sh.log.dropped), x)
      == if x < |sh.log.captured| then 1 else 0 {
      SentCountConcat(sh.log.sent, DropIds(sh.log.dropped), x);
      DropCountIsSentCount(sh.log.dropped, x);
      assert SentCount(sh.log.sent, x) + DropCount(sh.log.dropped, x) == if x < |sh.log.captured| then 1 else 0;
    }
    EachOnce(sh.log.sent + DropIds(sh.log.dropped), |sh.log.captured|);
    hide IsRun, Shape, Times, Books, Orders;
  }

  lemma StoppedIsIdle(s: State)
    requires Inv(s) && s.stop.Stopped?
    ensures s.recv.RecvExited? && s.send.SendExited? && s.sh.queue.queued == [] && s.sh.queue.inFlight == []
    ensures s.sh.counters.processed == |s.sh.log.captured| && s.sh.counters.dropped == |s.sh.log.dropped|
    ensures !s.sh.aborted ==> s.sh.counters.shutdown == 0
  {
    hide Conserved, Times, Books, Orders, SharedShape, Exclusive;
  }

  /** Order, tails and all four quotas of the queue hold at every moment. */
  lemma QuotasHold(states: seq<State>, actions: seq<Action>, i: nat)
    requires IsRun(states, actions) && i < |states|
    ensures Valid(states[i].sh.queue, states[i].sh.clock)
  {
    RunInv(states, actions, i);
    hide IsRun, Times, Books, Orders;
  }

  // ---------------------------------------------------------------- wake-up

  /**
   A parked, un-notified sender without a timeout has an empty queue and a running receiver. With a
   timeout it wakes at the earliest queued deadline, later only by the time between its clock
   reading and the start of its wait.
   */
  lemma NoLostWakeUp(states: seq<State>, actions: seq<Action>, i: nat)
    requires IsRun(states, actions) && i < |states|
    requires states[i].send.Parked? && !states[i].send.notified
    ensures var s := states[i];
      && s.send.readAt <= s.send.parkedAt <= s.sh.clock
      && (s.send.wakeAt.None? ==> s.sh.queue.queued == [] && !s.sh.recvDone)
      && (s.send.wakeAt.Some? ==>
           && s.sh.queue.queued != []
           && (forall k :: 0 <= k < |s.sh.queue.queued| ==>
                 s.send.wakeAt.value <= s.sh.queue.queued[k].deadline + (s.send.parkedAt - s.send.readAt)))
  {
    RunInv(states, actions, i);
    var q := states[i].sh.queue;
    if q.queued != [] { LeastIndexIsLeast(q.queued); }
    hide IsRun, Books, Orders, AllTimely, ReleasesDone;
  }

  /** The timeout ends no later than every queued deadline exactly when no time passed before the wait. */
  lemma WakesByEveryDeadline(states: seq<State>, actions: seq<Action>, i: nat)
    requires IsRun(states, actions) && i < |states|
    requires states[i].send.Parked? && !states[i].send.notified && states[i].send.wakeAt.Some?
    ensures var s := states[i];
      (forall k :: 0 <= k < |s.sh.queue.queued| ==> s.send.wakeAt.value <= s.sh.queue.queued[k].deadline)
        <==> s.send.parkedAt == s.send.readAt
  {
    RunInv(states, actions, i);
    var q := states[i].sh.queue;
    LeastIndexIsLeast(q.queued);
    assert states[i].send.wakeAt.value <= q.queued[LeastIndex(q.queued)].deadline <==>
      states[i].send.parkedAt == states[i].send.readAt;
    hide IsRun, Books, Orders, AllTimely, ReleasesDone;
  }

  lemma RunExtends(states: seq<State>, actions: seq<Action>, a: Action)
    requires IsRun(states, actions) && Enabled(states[|actions|], a)
    ensures IsRun(states + [Do(states[|actions|], a)], actions + [a])
  {
    hide Do, Enabled, Init;
  }

  /** A clock that moves between reading the time and waiting makes the sender oversleep by as much. */
  lemma TimeBeforeWaitIsOverslept(states: seq<State>, actions: seq<Action>, ms: nat)
    requires IsRun(states, actions)
    requires var s := states[|actions|];
      s.send.Popping? && s.send.now == s.sh.clock && s.sh.queue.queued != [] && Due(s.sh.queue, s.send.now).None?
    ensures var s := states[|actions|];
      && Enabled(s, Tick(ms)) && Enabled(Do(s, Tick(ms)), SendStep(Ok))
      && var t := Do(s, Tick(ms));
         var u := Do(t, SendStep(Ok));
         && IsRun(states + [t] + [u], actions + [Tick(ms)] + [SendStep(Ok)])
         && u.send.Parked? && NextDeadline(u.sh.queue).Some?
         && u.send.wakeAt == Some(NextDeadline(u.sh.queue).value + ms)
  {
    var s := states[|actions|];
    ParksLate(s, ms);
    RunExtends(states, actions, Tick(ms));
    RunExtends(states + [Do(s, Tick(ms))], actions + [Tick(ms)], SendStep(Ok));
    hide Do, Enabled, IsRun;
  }

  lemma ParksLate(s: State, ms: nat)
    requires s.send.Popping? && s.send.now == s.sh.clock && s.sh.queue.queued != [] && Due(s.sh.queue, s.send.now).None?
    ensures Enabled(s, Tick(ms)) && Enabled(Do(s, Tick(ms)), SendStep(Ok))
    ensures var u := Do(Do(s, Tick(ms)), SendStep(Ok));
      u.send.Parked? && NextDeadline(u.sh.queue).Some? && u.send.wakeAt == Some(NextDeadline(u.sh.queue).value + ms)
  {
  }

  // ---------------------------------------------------------------- counters

  /** Every snapshot ever taken has no more drops than reasons and no more losses than eligible packets. */
  lemma SnapshotsAreCoherent(states: seq<State>, actions: seq<Action>, i: nat, k: nat)
    requires IsRun(states, actions) && i < |states| && k < |states[i].sh.log.snapshots|
    ensures Coherent(states[i].sh.log.snapshots[k])
  {
    RunInv(states, actions, i);
    hide IsRun, Shape, Times, Books, Orders;
  }

  /**
   Bytes are counted once: what all snapshots have reported, what the next one would report and what
   a worker is about to credit add up to the charged bytes of all successful sends.
   */
  lemma BytesCountedOnce(states: seq<State>, actions: seq<Action>, i: nat, a: Account)
    requires IsRun(states, actions) && i < |states|
    ensures var s := states[i];
      Balance(s.sh.log.reported, a) + Balance(s.sh.ledger, a) + RecvOwes(s, a) + SenderOwes(s, a)
        == Charged(s.sh.log.captured, s.sh.log.sent, a)
  {
    RunInv(states, actions, i);
    assert BytesAt(states[i], a);
    hide IsRun, Shape, Times, Orders;
  }

  /** What happens to the counters is nothing but what happened to packets. */
  lemma CountersRecount(states: seq<State>, actions: seq<Action>, i: nat)
    requires IsRun(states, actions) && i < |states|
    ensures var s := states[i];
      && s.sh.counters.dropped == |s.sh.log.dropped|
      && s.sh.counters.processed + Bit(s.recv.Counting?) == |s.sh.log.captured|
      && forall reason :: s.sh.counters.Of(reason)
           == ReasonCount(s.sh.log.dropped, reason)
              + Bit(RecvBetween(s.recv, reason)) + Bit(SenderBetween(s.send, reason))
  {
    RunInv(states, actions, i);
    var s := states[i];
    forall reason ensures s.sh.counters.Of(reason)
        == ReasonCount(s.sh.log.dropped, reason)
           + Bit(RecvBetween(s.recv, reason)) + Bit(SenderBetween(s.send, reason)) {
      assert CountedAt(s, reason);
    }
    hide IsRun, Shape, Times, Orders, Books;
  }
}
