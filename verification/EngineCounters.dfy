/** Snapshots taken while both workers run: coherent packet counters, and no byte lost or counted twice. */
module EngineCounters {
  import opened Core
  import opened Packet
  import opened QueueModel
  import opened Rules
  import opened Engine
  import opened EngineShape
  import opened EngineFates
  import opened EngineTiming

  // ---------------------------------------------------------------- bytes

  /** What a successful send of `c` adds to the account. */
  function Share(c: Capture, a: Account): nat {
    match a
    case Everyone(d) => if c.direction == d then c.chargeLen else 0
    case Process(pid, d) => if c.direction == d && c.pid == Some(pid) then c.chargeLen else 0
  }

  function ShareOf(captured: seq<Capture>, id: nat, a: Account): nat {
    if id < |captured| then Share(captured[id], a) else 0
  }

  /** The charged bytes of all successful sends. */
  function Charged(captured: seq<Capture>, sent: seq<nat>, a: Account): nat {
    if sent == [] then 0
    else Charged(captured, sent[..|sent| - 1], a) + ShareOf(captured, sent[|sent| - 1], a)
  }

  /** Bytes of a send that has succeeded but is not yet credited. */
  function Outstanding(captured: seq<Capture>, id: nat, stage: SendStage, a: Account): nat {
    match stage
    case CreditProcess => ShareOf(captured, id, a)
    case CreditAll => if a.Everyone? then ShareOf(captured, id, a) else 0
    case _ => 0
  }

  function RecvOwes(s: State, a: Account): nat {
    if s.recv.Sending? then Outstanding(s.sh.log.captured, s.recv.id, s.recv.stage, a) else 0
  }

  function SenderOwes(s: State, a: Account): nat {
    if s.send.InSend? then Outstanding(s.sh.log.captured, s.send.id, s.send.stage, a) else 0
  }

  /** Reported by snapshots + not yet reported + being credited = charged by successful sends. */
  ghost predicate BytesAt(s: State, a: Account) {
    Balance(s.sh.log.reported, a) + Balance(s.sh.ledger, a) + RecvOwes(s, a) + SenderOwes(s, a)
      == Charged(s.sh.log.captured, s.sh.log.sent, a)
  }

  lemma {:induction false} ChargedStable(captured: seq<Capture>, more: seq<Capture>, sent: seq<nat>, a: Account)
    requires captured <= more && forall i :: 0 <= i < |sent| ==> sent[i] < |captured|
    ensures Charged(captured, sent, a) == Charged(more, sent, a)
  {
    if sent != [] { ChargedStable(captured, more, sent[..|sent| - 1], a); }
  }

  lemma ChargedAfter(sh: Shared, ev: Event, a: Account)
    requires Possible(sh, ev) && forall i :: 0 <= i < |sh.log.sent| ==> sh.log.sent[i] < |sh.log.captured|
    ensures var log := LogAfter(sh, ev);
      Charged(log.captured, log.sent, a)
        == Charged(sh.log.captured, sh.log.sent, a) + if ev.Sent? then ShareOf(sh.log.captured, ev.id, a) else 0
  {
    var log := LogAfter(sh, ev);
    ChargedStable(sh.log.captured, log.captured, sh.log.sent, a);
    if ev.Sent? { assert (sh.log.sent + [ev.id])[..|sh.log.sent|] == sh.log.sent; }
  }

  lemma BalanceAfter(sh: Shared, ev: Event, a: Account)
    ensures Balance(ReportedAfter(sh, ev), a) + Balance(LedgerAfter(sh.ledger, ev), a)
         == Balance(sh.log.reported, a) + Balance(sh.ledger, a)
            + if ev.Credited? && ev.account == a then ev.bytes else 0
  {
  }

  /** A stage that owes bytes belongs to a captured packet that was charged to a process if at all. */
  ghost predicate OwesKnown(s: State) {
    && (s.recv.Sending? ==>
      s.recv.id < |s.sh.log.captured| && (s.recv.stage.CreditProcess? ==> s.sh.log.captured[s.recv.id].pid.Some?))
    && (s.send.InSend? ==>
      s.send.id < |s.sh.log.captured| && (s.send.stage.CreditProcess? ==> s.sh.log.captured[s.send.id].pid.Some?))
  }

  lemma RecvPays(s: State, input: Input, a: Account)
    requires Captures(s.sh) && OwesKnown(s) && RecvEnabled(s, input)
    ensures var ev := RecvEvent(s, input);
      var next := NextRecv(s, input);
      (if next.Sending? then Outstanding(s.sh.log.captured, next.id, next.stage, a) else 0)
          + (if ev.Credited? && ev.account == a then ev.bytes else 0)
        == RecvOwes(s, a) + if ev.Sent? then ShareOf(s.sh.log.captured, ev.id, a) else 0
  {
    if HasId(s.recv) { assert Hand(s).address.capture == s.recv.id; }
    hide Captures, Admits, MustQueue, BlockedNow;
  }

  lemma SenderPays(s: State, io: IoResult, a: Account)
    requires Captures(s.sh) && OwesKnown(s) && SenderEnabled(s)
    ensures var ev := SenderEvent(s, io);
      var next := NextSend(s, io);
      (if next.InSend? then Outstanding(s.sh.log.captured, next.id, next.stage, a) else 0)
          + (if ev.Credited? && ev.account == a then ev.bytes else 0)
        == SenderOwes(s, a) + if ev.Sent? then ShareOf(s.sh.log.captured, ev.id, a) else 0
  {
    if SenderHasId(s.send) { assert s.sh.log.captured[s.send.id].address.capture == s.send.id; }
    hide Captures, Due, CanFinish, BlockedNow;
  }

  lemma RecvOwesKnown(s: State, a: Action)
    requires Shape(s) && OwesKnown(s) && Enabled(s, a) && Do(s, a).recv.Sending?
    ensures var r := Do(s, a).recv;
      r.id < |s.sh.log.captured| && (r.stage.CreditProcess? ==> s.sh.log.captured[r.id].pid.Some?)
  {
    hide SharedShape, Exclusive, Joined, InFlightIsSenders, Apply, SendAfter, EventOf, BlockedNow;
  }

  /** A send goes on with its packet, and credits a process only if there is one. */
  lemma SenderCredits(s: State, a: Action)
    requires Enabled(s, a) && s.send.InSend? && s.send.id < |s.sh.log.captured| && Do(s, a).send.InSend?
    ensures Do(s, a).send.id == s.send.id
    ensures Do(s, a).send.stage.CreditProcess? ==>
      s.send.stage.CreditProcess? || s.sh.log.captured[s.send.id].pid.Some?
  {
    hide Apply, EventOf, BlockedNow;
  }

  lemma SenderOwesKnown(s: State, a: Action)
    requires Shape(s) && OwesKnown(s) && Enabled(s, a) && Do(s, a).send.InSend?
    ensures var r := Do(s, a).send;
      r.id < |s.sh.log.captured| && (r.stage.CreditProcess? ==> s.sh.log.captured[r.id].pid.Some?)
  {
    hide Shape, Enabled, Do;
    if s.send.InSend? { SenderCredits(s, a); } else { PoppedKnown(s, a); }
  }

  lemma OwesKnownKept(s: State, a: Action)
    requires Shape(s) && OwesKnown(s) && Enabled(s, a)
    ensures OwesKnown(Do(s, a))
  {
    CapturedGrows(s, a);
    if Do(s, a).recv.Sending? { RecvOwesKnown(s, a); }
    if Do(s, a).send.InSend? { SenderOwesKnown(s, a); }
    hide Shape, Do, Enabled;
  }

  lemma PoppedKnown(s: State, a: Action)
    requires Shape(s) && Enabled(s, a) && Do(s, a).send.InSend? && !s.send.InSend?
    ensures Do(s, a).send.id < |s.sh.log.captured| && Do(s, a).send.stage.WantGate?
  {
    assert s.send.Popping? && Due(s.sh.queue, s.send.now).Some?;
    var e := s.sh.queue.queued[LeastIndex(s.sh.queue.queued)];
    assert Genuine(s.sh.log, e.packet);
  }

  lemma OutstandingStable(captured: seq<Capture>, more: seq<Capture>, id: nat, stage: SendStage, a: Account)
    requires captured <= more && id < |captured|
    ensures Outstanding(captured, id, stage, a) == Outstanding(more, id, stage, a)
  {
  }

  lemma RecvOwesKept(s: State, a: Action, acc: Account)
    requires Shape(s) && OwesKnown(s) && Enabled(s, a)
    ensures var t := Do(s, a);
      RecvOwes(t, acc) ==
        if t.recv.Sending? then Outstanding(s.sh.log.captured, t.recv.id, t.recv.stage, acc) else 0
  {
    var t := Do(s, a);
    assert s.sh.log.captured <= t.sh.log.captured;
    OwesKnownKept(s, a);
    if t.recv.Sending? {
      assert t.recv.id < |s.sh.log.captured|;
      OutstandingStable(s.sh.log.captured, t.sh.log.captured, t.recv.id, t.recv.stage, acc);
    }
    hide Shape, OwesKnown, EventOf, QueueAfter, CountersAfter, LogAfter, LedgerAfter;
  }

  lemma SenderOwesKept(s: State, a: Action, acc: Account)
    requires Shape(s) && OwesKnown(s) && Enabled(s, a)
    ensures var t := Do(s, a);
      SenderOwes(t, acc) ==
        if t.send.InSend? then Outstanding(s.sh.log.captured, t.send.id, t.send.stage, acc) else 0
  {
    var t := Do(s, a);
    assert s.sh.log.captured <= t.sh.log.captured;
    if t.send.InSend? {
      if s.send.InSend? {
        assert t.send.id == s.send.id;
      } else {
        PoppedKnown(s, a);
      }
      OutstandingStable(s.sh.log.captured, t.sh.log.captured, t.send.id, t.send.stage, acc);
    }
    hide Shape, OwesKnown, EventOf, QueueAfter, CountersAfter, LogAfter, LedgerAfter;
  }

  /** How a step moves what the two workers owe the account. */
  lemma OwesAfter(s: State, a: Action, acc: Account)
    requires Shape(s) && OwesKnown(s) && Enabled(s, a)
    ensures var t := Do(s, a);
      var ev := EventOf(s, a);
      RecvOwes(t, acc) + SenderOwes(t, acc) + (if ev.Credited? && ev.account == acc then ev.bytes else 0)
        == RecvOwes(s, acc) + SenderOwes(s, acc) + if ev.Sent? then ShareOf(s.sh.log.captured, ev.id, acc) else 0
  {
    RecvOwesKept(s, a, acc);
    SenderOwesKept(s, a, acc);
    if a.RecvStep? {
      RecvPays(s, a.input, acc);
      assert Do(s, a).recv == NextRecv(s, a.input);
    } else if a.SendStep? {
      SenderPays(s, a.io, acc);
      assert Do(s, a).send == NextSend(s, a.io);
    } else {
      NobodyPays(s, a);
    }
    hide Shape, OwesKnown, QueueAfter, CountersAfter, LogAfter, LedgerAfter, RecvEvent, SenderEvent, NextRecv,
      NextSend;
  }

  lemma NobodyPays(s: State, a: Action)
    requires Enabled(s, a) && !a.RecvStep? && !a.SendStep?
    ensures !EventOf(s, a).Credited? && !EventOf(s, a).Sent?
    ensures Do(s, a).recv == s.recv
    ensures s.send.InSend? && Do(s, a).send != s.send ==> s.send.stage.AtIo? && Do(s, a).send.Unwinding?
    ensures Do(s, a).send.InSend? ==> Do(s, a).send == s.send
  {
  }

  lemma BytesAtKept(s: State, a: Action, acc: Account)
    requires Shape(s) && OwesKnown(s) && BytesAt(s, acc) && Enabled(s, a)
    requires forall i :: 0 <= i < |s.sh.log.sent| ==> s.sh.log.sent[i] < |s.sh.log.captured|
    ensures BytesAt(Do(s, a), acc)
  {
    OwesAfter(s, a, acc);
    ChargedAfter(s.sh, EventOf(s, a), acc);
    BalanceAfter(s.sh, EventOf(s, a), acc);
    hide Shape, OwesKnown, EventOf, RecvOwes, SenderOwes, Charged, ReportedAfter, LedgerAfter, QueueAfter,
      CountersAfter;
  }

  // ---------------------------------------------------------------- packet counters

  function ReasonSum(c: Counters): nat {
    c.blocked + c.loss + c.rate + c.overflow + c.sendFailed + c.shutdown
  }

  predicate Coherent(c: Counters) {
    c.dropped <= ReasonSum(c) && c.loss <= c.eligible
  }

  /** What the snapshot will hold at least: the values loaded so far, completed by the current ones. */
  function Completed(k: nat, got: Counters, c: Counters): Counters {
    Counters(
      got.processed, got.dropped,
      if k > 4 then got.blocked else c.blocked,
      if k > 5 then got.loss else c.loss,
      if k > 6 then got.rate else c.rate,
      if k > 7 then got.eligible else c.eligible,
      got.delayed,
      if k > 9 then got.overflow else c.overflow,
      if k > 10 then got.sendFailed else c.sendFailed,
      if k > 11 then got.shutdown else c.shutdown)
  }

  ghost predicate SnapCoherent(s: State) {
    && (s.snap.Loading? ==>
         && s.snap.k <= LOADS
         && var seen := Completed(s.snap.k, s.snap.got, s.sh.counters);
           (s.snap.k > 3 ==> seen.dropped <= ReasonSum(seen)) && (s.snap.k > 5 ==> seen.loss <= seen.eligible))
    && (forall i :: 0 <= i < |s.sh.log.snapshots| ==> Coherent(s.sh.log.snapshots[i]))
  }

  lemma {:induction false} ReasonsPartition(drops: seq<Drop>)
    ensures |drops| == ReasonCount(drops, Block) + ReasonCount(drops, Loss) + ReasonCount(drops, Rate)
      + ReasonCount(drops, Overflow) + ReasonCount(drops, SendFailure) + ReasonCount(drops, Shutdown)
  {
    if drops != [] { ReasonsPartition(drops[..|drops| - 1]); }
  }

  /** At every moment the drop counter is at most the sum of the six reason counters. */
  lemma LiveCoherent(s: State)
    requires CountersMatch(s)
    ensures Coherent(s.sh.counters)
  {
    ReasonsPartition(s.sh.log.dropped);
    assert CountedAt(s, Block) && CountedAt(s, Loss) && CountedAt(s, Rate);
    assert CountedAt(s, Overflow) && CountedAt(s, SendFailure) && CountedAt(s, Shutdown);
  }

  lemma CountersGrow(sh: Shared, ev: Event)
    ensures var c, d := sh.counters, CountersAfter(sh, ev);
      && c.blocked <= d.blocked && c.loss <= d.loss && c.rate <= d.rate && c.eligible <= d.eligible
      && c.overflow <= d.overflow && c.sendFailed <= d.sendFailed && c.shutdown <= d.shutdown
  {
  }

  lemma LoadingStep(c: Counters, k: nat, got: Counters)
    requires k < LOADS && Coherent(c)
    requires var seen := Completed(k, got, c);
      (k > 3 ==> seen.dropped <= ReasonSum(seen)) && (k > 5 ==> seen.loss <= seen.eligible)
    ensures var seen := Completed(k + 1, Loaded(c, k, got), c);
      (k + 1 > 3 ==> seen.dropped <= ReasonSum(seen)) && (k + 1 > 5 ==> seen.loss <= seen.eligible)
  {
  }

  lemma SnapCoherentKept(s: State, a: Action)
    requires SnapCoherent(s) && CountersMatch(s) && Enabled(s, a)
    ensures SnapCoherent(Do(s, a))
  {
    var ev := EventOf(s, a);
    var t := Do(s, a);
    hide EventOf, QueueAfter, CountersAfter, LedgerAfter, CountersMatch, Loaded;
    LiveCoherent(s);
    CountersGrow(s.sh, ev);
    assert t.sh.log.snapshots == s.sh.log.snapshots + (if ev.Snapped? then [ev.got] else []);
    hide LogAfter;
    SnapEvents(s, a);
    if t.snap.Loading? && s.snap.Loading? && t.snap != s.snap {
      LoadingStep(s.sh.counters, s.snap.k, s.snap.got);
      assert t.sh.counters == s.sh.counters;
    }
  }

  lemma SnapEvents(s: State, a: Action)
    requires Enabled(s, a)
    ensures var ev := EventOf(s, a);
      && (ev.Snapped? ==> s.snap == Loading(LOADS, ev.got))
      && (a.SnapStep? ==> CountersAfter(s.sh, ev) == s.sh.counters)
      && (Do(s, a).snap != s.snap && Do(s, a).snap.Loading? ==> a.SnapStep?)
  {
    hide QueueAfter, LogAfter, LedgerAfter;
  }
}
