/** What the counters count, and what a snapshot reports of them while the workers go on counting. */
module EngineSnapshots {
  import opened Core
  import opened Packet
  import opened QueueModel
  import opened QueueFacts
  import opened Rules
  import opened Engine
  import opened EngineShape
  import opened EngineFates
  import opened EngineCounters
  import opened EngineRuns

  // ---------------------------------------------------------------- counters that are no drops

  /** How many of the first `n` steps sampled a packet for loss. */
  function Samplings(states: seq<State>, actions: seq<Action>, n: nat): nat
    requires n <= |states| && n <= |actions|
  {
    if n == 0 then 0
    else Samplings(states, actions, n - 1) + Bit(actions[n - 1].RecvStep? && states[n - 1].recv.Eligible?)
  }

  /** How many of the first `n` steps made the queue longer. */
  function Queuings(states: seq<State>, actions: seq<Action>, n: nat): nat
    requires n < |states| && n <= |actions|
  {
    if n == 0 then 0
    else Queuings(states, actions, n - 1) + Bit(|states[n].sh.queue.queued| > |states[n - 1].sh.queue.queued|)
  }

  lemma SamplingCounts(s: State, a: Action)
    requires Enabled(s, a)
    ensures Do(s, a).sh.counters.eligible == s.sh.counters.eligible + Bit(a.RecvStep? && s.recv.Eligible?)
  {
    if !a.RecvStep? { OthersEvents(s, a); }
    hide QueueAfter, LogAfter, LedgerAfter, MustQueue, Admits;
  }

  lemma QueueGrows(sh: Shared, ev: Event)
    requires Possible(sh, ev)
    ensures |QueueAfter(sh, ev).queued| > |sh.queue.queued| <==> ev.Queued?
    ensures CountersAfter(sh, ev).delayed == sh.counters.delayed + Bit(ev.Queued?)
  {
  }

  lemma QueuingCounts(s: State, a: Action)
    requires Enabled(s, a)
    ensures Do(s, a).sh.counters.delayed
      == s.sh.counters.delayed + Bit(|Do(s, a).sh.queue.queued| > |s.sh.queue.queued|)
  {
    QueueGrows(s.sh, EventOf(s, a));
    hide QueueAfter, CountersAfter, LogAfter, LedgerAfter, EventOf;
  }

  lemma CountersAtFirst(states: seq<State>, actions: seq<Action>)
    requires IsRun(states, actions)
    ensures |states| == |actions| + 1 && states[0].sh.counters == ZERO
  {
    hide Do, Enabled;
  }

  /** `packets_eligible` counts the packets handed to the sampler, `packets_delayed` those put into the queue. */
  lemma {:induction false} EligibleAndDelayed(states: seq<State>, actions: seq<Action>, i: nat)
    requires IsRun(states, actions) && i < |states|
    ensures states[i].sh.counters.eligible == Samplings(states, actions, i)
    ensures states[i].sh.counters.delayed == Queuings(states, actions, i)
  {
    CountersAtFirst(states, actions);
    if i > 0 {
      EligibleAndDelayed(states, actions, i - 1);
      StepOf(states, actions, i - 1);
      hide IsRun, Do, Enabled;
      SamplingCounts(states[i - 1], actions[i - 1]);
      QueuingCounts(states[i - 1], actions[i - 1]);
    }
  }

  // ---------------------------------------------------------------- snapshots

  /** No counter of `a` is above that of `b`. */
  predicate Below(a: Counters, b: Counters) {
    && a.processed <= b.processed && a.dropped <= b.dropped && a.blocked <= b.blocked && a.loss <= b.loss
    && a.rate <= b.rate && a.eligible <= b.eligible && a.delayed <= b.delayed && a.overflow <= b.overflow
    && a.sendFailed <= b.sendFailed && a.shutdown <= b.shutdown
  }

  /** The counters loaded by the first `k` loads are no lower than at the start and no higher than now. */
  predicate LoadedBetween(start: Counters, k: nat, got: Counters, now: Counters) {
    && (k > 2 ==> start.processed <= got.processed <= now.processed)
    && (k > 3 ==> start.dropped <= got.dropped <= now.dropped)
    && (k > 4 ==> start.blocked <= got.blocked <= now.blocked)
    && (k > 5 ==> start.loss <= got.loss <= now.loss)
    && (k > 6 ==> start.rate <= got.rate <= now.rate)
    && (k > 7 ==> start.eligible <= got.eligible <= now.eligible)
    && (k > 8 ==> start.delayed <= got.delayed <= now.delayed)
    && (k > 9 ==> start.overflow <= got.overflow <= now.overflow)
    && (k > 10 ==> start.sendFailed <= got.sendFailed <= now.sendFailed)
    && (k > 11 ==> start.shutdown <= got.shutdown <= now.shutdown)
  }

  lemma CountersOnlyGrow(s: State, a: Action)
    requires Enabled(s, a)
    ensures Below(s.sh.counters, Do(s, a).sh.counters)
    ensures a.SnapStep? ==> Do(s, a).sh.counters == s.sh.counters
  {
    SnapEvents(s, a);
    hide EventOf, QueueAfter, LogAfter, LedgerAfter;
  }

  lemma NextLoad(start: Counters, k: nat, got: Counters, now: Counters)
    requires LoadedBetween(start, k, got, now) && Below(start, now)
    ensures LoadedBetween(start, k + 1, Loaded(now, k, got), now)
  {
  }

  lemma SnapMoves(s: State, a: Action)
    requires Enabled(s, a) && !s.snap.NoSnap? && Do(s, a).snap.Loading?
    ensures Do(s, a).snap == s.snap || Do(s, a).snap == Loading(0, ZERO)
      || (a.SnapStep? && s.snap.Loading?
          && Do(s, a).snap == Loading(s.snap.k + 1, Loaded(s.sh.counters, s.snap.k, s.snap.got)))
  {
    hide Apply, SendAfter, Loaded;
  }

  /** The counters have not fallen since the start, and what has been loaded lies in between. */
  predicate OnTheWay(start: Counters, s: State) {
    Below(start, s.sh.counters)
    && (s.snap.Loading? ==> LoadedBetween(start, s.snap.k, s.snap.got, s.sh.counters))
  }

  lemma LoadStep(s: State, a: Action, start: Counters)
    requires Enabled(s, a) && !s.snap.NoSnap? && OnTheWay(start, s)
    ensures OnTheWay(start, Do(s, a))
  {
    CountersOnlyGrow(s, a);
    if Do(s, a).snap.Loading? {
      SnapMoves(s, a);
      if s.snap.Loading? { NextLoad(start, s.snap.k, s.snap.got, s.sh.counters); }
    }
    hide Do, Enabled, Loaded;
  }

  lemma SnapStarts(s: State, a: Action)
    requires Enabled(s, a) && a.StartSnapshot?
    ensures OnTheWay(s.sh.counters, Do(s, a))
  {
    CountersOnlyGrow(s, a);
    assert Do(s, a).snap.SnapStarting?;
    hide Apply;
  }

  lemma {:induction false} LoadsBetween(states: seq<State>, actions: seq<Action>, start: nat, j: nat)
    requires IsRun(states, actions) && start < j < |states| && actions[start].StartSnapshot?
    requires forall k :: start < k <= j ==> !states[k].snap.NoSnap?
    ensures OnTheWay(states[start].sh.counters, states[j])
    decreases j
  {
    CountersAtFirst(states, actions);
    hide *;
    var i := j - 1;
    StepOf(states, actions, i);
    if i == start {
      SnapStarts(states[start], actions[start]);
    } else {
      LoadsBetween(states, actions, start, i);
      LoadStep(states[i], actions[i], states[start].sh.counters);
    }
  }

  /**
   A snapshot reports for every counter a value it had while the snapshot was taken: no lower than when
   it started and no higher than when it ended.
   */
  lemma SnapshotIsBetween(states: seq<State>, actions: seq<Action>, start: nat, end: nat)
    requires IsRun(states, actions) && start < end < |actions| && actions[start].StartSnapshot?
    requires forall k :: start < k <= end ==> !states[k].snap.NoSnap?
    requires states[end + 1].snap.NoSnap?
    ensures var was, now := states[end].sh.log.snapshots, states[end + 1].sh.log.snapshots;
      && |now| == |was| + 1 && now[..|was|] == was
      && Below(states[start].sh.counters, now[|was|]) && Below(now[|was|], states[end].sh.counters)
  {
    LoadsBetween(states, actions, start, end);
    LoadsLeft(states, actions, end);
    StepOf(states, actions, end);
    SnapEnds(states[end], actions[end]);
    hide IsRun, Do, Enabled;
  }

  lemma LoadsLeft(states: seq<State>, actions: seq<Action>, i: nat)
    requires IsRun(states, actions) && i < |states| && states[i].snap.Loading?
    ensures states[i].snap.k <= LOADS
  {
    RunInv(states, actions, i);
    hide IsRun, Shape, Times, Books, Orders, Exits, CountersMatch, Conserved;
  }

  lemma SnapEnds(s: State, a: Action)
    requires Enabled(s, a) && !s.snap.NoSnap? && Do(s, a).snap.NoSnap?
    ensures s.snap.Loading? && s.snap.k >= LOADS
    ensures s.snap.k == LOADS ==> Do(s, a).sh.log.snapshots == s.sh.log.snapshots + [s.snap.got]
  {
    hide QueueAfter, CountersAfter, LedgerAfter;
  }

  // ---------------------------------------------------------------- reported bytes

  /** Bytes reported for the account so far, and those waiting for the next snapshot. */
  function Known(sh: Shared, a: Account): nat {
    Balance(sh.log.reported, a) + Balance(sh.ledger, a)
  }

  lemma KnownGrows(s: State, a: Action, acc: Account)
    requires Enabled(s, a)
    ensures Known(s.sh, acc) <= Known(Do(s, a).sh, acc)
    ensures Balance(s.sh.log.reported, acc) <= Balance(Do(s, a).sh.log.reported, acc)
  {
    BalanceAfter(s.sh, EventOf(s, a), acc);
    ReportedGrows(s.sh, EventOf(s, a), acc);
    hide EventOf, QueueAfter, CountersAfter, ReportedAfter, LedgerAfter;
  }

  lemma ReportedGrows(sh: Shared, ev: Event, acc: Account)
    ensures Balance(sh.log.reported, acc) <= Balance(ReportedAfter(sh, ev), acc)
  {
  }

  /** The snapshot is past the step that reports this account. */
  predicate PastReport(pc: SnapPc, acc: Account) {
    match acc
    case Process(_, _) => pc.SnapWaiting? || pc.Loading?
    case Everyone(Download) => pc.Loading? && pc.k > 0
    case Everyone(Upload) => pc.Loading? && pc.k > 1
  }

  lemma ReportStep(s: State, a: Action, acc: Account, start: nat)
    requires Enabled(s, a) && start <= Known(s.sh, acc)
    requires PastReport(s.snap, acc) ==> start <= Balance(s.sh.log.reported, acc)
    ensures start <= Known(Do(s, a).sh, acc)
    ensures PastReport(Do(s, a).snap, acc) ==> start <= Balance(Do(s, a).sh.log.reported, acc)
  {
    KnownGrows(s, a, acc);
    if PastReport(Do(s, a).snap, acc) && !PastReport(s.snap, acc) { ReportsNow(s, a, acc); }
    hide Do, Enabled, Known, PastReport;
  }

  lemma ReportsNow(s: State, a: Action, acc: Account)
    requires Enabled(s, a) && PastReport(Do(s, a).snap, acc) && !PastReport(s.snap, acc)
    ensures Balance(Do(s, a).sh.log.reported, acc) == Known(s.sh, acc)
  {
    hide QueueAfter, CountersAfter;
  }

  lemma {:induction false} ReportedSince(states: seq<State>, actions: seq<Action>, start: nat, j: nat, acc: Account)
    requires IsRun(states, actions) && start < j < |states| && actions[start].StartSnapshot?
    ensures Known(states[start].sh, acc) <= Known(states[j].sh, acc)
    ensures PastReport(states[j].snap, acc) ==> Known(states[start].sh, acc) <= Balance(states[j].sh.log.reported, acc)
    decreases j
  {
    CountersAtFirst(states, actions);
    hide *;
    var i := j - 1;
    StepOf(states, actions, i);
    if i == start {
      StartsUnreported(states[i], actions[i], acc);
    } else {
      ReportedSince(states, actions, start, i, acc);
    }
    ReportStep(states[i], actions[i], acc, Known(states[start].sh, acc));
  }

  lemma StartsUnreported(s: State, a: Action, acc: Account)
    requires Enabled(s, a) && a.StartSnapshot?
    ensures !PastReport(s.snap, acc)
  {
  }

  /** When a snapshot is done, every byte credited to any account before it started has been reported. */
  lemma SnapshotReportsAll(states: seq<State>, actions: seq<Action>, start: nat, end: nat, acc: Account)
    requires IsRun(states, actions) && start < end < |actions| && actions[start].StartSnapshot?
    requires forall k :: start < k <= end ==> !states[k].snap.NoSnap?
    requires states[end + 1].snap.NoSnap?
    ensures Balance(states[start].sh.log.reported, acc) + Balance(states[start].sh.ledger, acc)
      <= Balance(states[end + 1].sh.log.reported, acc)
  {
    CountersAtFirst(states, actions);
    hide IsRun;
    ReportedSince(states, actions, start, end, acc);
    StepOf(states, actions, end);
    SnapEnds(states[end], actions[end]);
    KnownGrows(states[end], actions[end], acc);
    hide Do, Enabled;
  }
}
