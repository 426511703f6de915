/** Conservation: every captured packet is sent, dropped and counted, queued, or in one worker's hand. */
module EngineFates {
  import opened Core
  import opened Packet
  import opened QueueModel
  import opened QueueFacts
  import opened Rules
  import opened Engine
  import opened EngineShape

  function Bit(b: bool): nat {
    if b then 1 else 0
  }

  function IdOnes(x: nat): Weight { (p: PendingPacket) => if Id(p) == x then 1 else 0 }

  function SentCount(sent: seq<nat>, x: nat): nat {
    if sent == [] then 0 else SentCount(sent[..|sent| - 1], x) + Bit(sent[|sent| - 1] == x)
  }

  function DropCount(drops: seq<Drop>, x: nat): nat {
    if drops == [] then 0 else DropCount(drops[..|drops| - 1], x) + Bit(drops[|drops| - 1].id == x)
  }

  /** How often packet `x` has met its fate or waits in the queue. */
  ghost function SettledAt(sh: Shared, x: nat): nat {
    SentCount(sh.log.sent, x) + DropCount(sh.log.dropped, x) + Total(IdOnes(x), sh.queue.queued)
  }

  predicate Undecided(stage: SendStage) {
    stage.WantGate? || stage.CheckAbort? || stage.CheckBlock? || stage.AtIo? || stage.CountReason? || stage.CountDrop?
  }

  predicate InRecvHand(pc: RecvPc, x: nat) {
    HasId(pc) && (pc.Sending? ==> Undecided(pc.stage)) && pc.id == x
  }

  predicate InSenderHand(pc: SendPc, x: nat) {
    (pc.Unwinding? || pc.WantingDiscard? || pc.Discarding? || (pc.InSend? && Undecided(pc.stage))) && pc.id == x
  }

  /** Packet `x` is in exactly one place, exactly once, if it was captured, and nowhere otherwise. */
  ghost predicate ConservedAt(s: State, x: nat) {
    Bit(x < |s.sh.log.captured|) == SettledAt(s.sh, x) + Bit(InRecvHand(s.recv, x)) + Bit(InSenderHand(s.send, x))
  }

  ghost predicate Conserved(s: State) {
    forall x: nat :: ConservedAt(s, x)
  }

  // ---------------------------------------------------------------- events

  /** `x` gains a place by this event: it is queued, sent or dropped. */
  predicate Gains(sh: Shared, ev: Event, x: nat) {
    match ev
    case Queued(id, _) => id == x
    case Overflowed(id) => id == x
    case Sent(id) => id == x
    case Dropped(id, _) => id == x
    case Discards => |sh.queue.inFlight| == 1 && Id(sh.queue.inFlight[0].packet) == x
    case _ => false
  }

  predicate Taken(sh: Shared, ev: Event, x: nat) {
    ev.Popped? && Due(sh.queue, ev.now).Some? && Id(Due(sh.queue, ev.now).value.packet) == x
  }

  lemma {:induction false} DropCountConcat(a: seq<Drop>, b: seq<Drop>, x: nat)
    ensures DropCount(a + b, x) == DropCount(a, x) + DropCount(b, x)
  {
    if b == [] {
      assert a + b == a;
    } else {
      assert (a + b)[..|a + b| - 1] == a + b[..|b| - 1];
      DropCountConcat(a, b[..|b| - 1], x);
    }
  }

  lemma {:induction false} DropCountOfEntries(drops: seq<Drop>, entries: seq<Entry>, x: nat)
    requires |drops| == |entries| && forall i :: 0 <= i < |drops| ==> drops[i].id == Id(entries[i].packet)
    ensures DropCount(drops, x) == Total(IdOnes(x), entries)
  {
    if drops != [] {
      DropCountOfEntries(drops[..|drops| - 1], entries[..|entries| - 1], x);
    }
  }

  lemma DiscardedCount(q: Queue, x: nat)
    ensures DropCount(Discarded(q), x) == Total(IdOnes(x), q.queued) + Total(IdOnes(x), q.inFlight)
  {
    var n := |q.queued|;
    var d := Discarded(q);
    assert d == d[..n] + d[n..];
    DropCountConcat(d[..n], d[n..], x);
    DropCountOfEntries(d[..n], q.queued, x);
    DropCountOfEntries(d[n..], q.inFlight, x);
  }

  lemma QueuedCount(sh: Shared, ev: Event, x: nat)
    requires Possible(sh, ev)
    requires ev.Queued? ==> sh.log.captured[ev.id].address.capture == ev.id
    ensures Total(IdOnes(x), QueueAfter(sh, ev).queued) + Bit(Taken(sh, ev, x))
      == (if ev.Discards? then 0 else Total(IdOnes(x), sh.queue.queued)) + Bit(ev.Queued? && ev.id == x)
  {
    match ev
    case Queued(id, delay) =>
      TotalAppend(IdOnes(x), sh.queue.queued, QueueAfter(sh, ev).queued[|sh.queue.queued|]);
    case Popped(now) =>
      if Due(sh.queue, now).Some? { TotalRemove(IdOnes(x), sh.queue.queued, LeastIndex(sh.queue.queued)); }
    case Frees =>
      ReleaseKeepsPackets(sh.queue, sh.clock, Freed(sh.rules));
      TotalSamePackets(IdOnes(x), sh.queue.queued, QueueAfter(sh, ev).queued);
    case Drains =>
      ReleaseKeepsPackets(sh.queue, sh.clock, All());
      TotalSamePackets(IdOnes(x), sh.queue.queued, QueueAfter(sh, ev).queued);
    case _ =>
  }

  lemma DroppedCount(sh: Shared, ev: Event, x: nat)
    ensures DropCount(DroppedAfter(sh, ev), x) == DropCount(sh.log.dropped, x)
      + (if ev.Discards? then Total(IdOnes(x), sh.queue.queued) + Total(IdOnes(x), sh.queue.inFlight)
         else Bit((ev.Dropped? || ev.Overflowed?) && ev.id == x))
  {
    match ev
    case Discards =>
      DiscardedCount(sh.queue, x);
      DropCountConcat(sh.log.dropped, Discarded(sh.queue), x);
    case _ =>
  }

  lemma SettledAfter(sh: Shared, ev: Event, x: nat)
    requires Possible(sh, ev) && |sh.queue.inFlight| <= 1
    requires ev.Queued? ==> sh.log.captured[ev.id].address.capture == ev.id
    ensures SettledAt(Apply(sh, ev), x) + Bit(Taken(sh, ev, x)) == SettledAt(sh, x) + Bit(Gains(sh, ev, x))
  {
    QueuedCount(sh, ev, x);
    DroppedCount(sh, ev, x);
    assert SentCount(Apply(sh, ev).log.sent, x) == SentCount(sh.log.sent, x) + Bit(ev.Sent? && ev.id == x);
    hide QueueAfter, DroppedAfter, Total;
    if ev.Discards? {
      InFlightCount(sh.queue, x);
    }
  }

  lemma InFlightCount(q: Queue, x: nat)
    requires |q.inFlight| <= 1
    ensures Total(IdOnes(x), q.inFlight) == Bit(|q.inFlight| == 1 && Id(q.inFlight[0].packet) == x)
  {
  }

  // ---------------------------------------------------------------- program points

  lemma RecvBalance(s: State, input: Input, x: nat)
    requires Captures(s.sh) && RecvEnabled(s, input)
    requires HasId(s.recv) ==> s.recv.id < |s.sh.log.captured|
    ensures var ev := RecvEvent(s, input);
      && Bit(InRecvHand(NextRecv(s, input), x)) + Bit(Gains(s.sh, ev, x))
           == Bit(InRecvHand(s.recv, x)) + Bit(ev.Captured? && x == |s.sh.log.captured|)
      && !Taken(s.sh, ev, x)
  {
    if HasId(s.recv) { assert Hand(s).address.capture == s.recv.id; }
    hide Captures, Admits, MustQueue;
  }

  lemma SenderBalance(s: State, io: IoResult, x: nat)
    requires Captures(s.sh) && InFlightIsSenders(s) && SenderEnabled(s)
    ensures var ev := SenderEvent(s, io);
      Bit(InSenderHand(NextSend(s, io), x)) + Bit(Gains(s.sh, ev, x))
        == Bit(InSenderHand(s.send, x)) + Bit(Taken(s.sh, ev, x))
  {
    if SenderHasId(s.send) { assert s.sh.log.captured[s.send.id].address.capture == s.send.id; }
    hide Captures, Due, Park, CanFinish;
  }

  lemma OthersBalance(s: State, a: Action, x: nat)
    requires InFlightIsSenders(s) && Joined(s) && Enabled(s, a) && !a.RecvStep? && !a.SendStep?
    ensures !Gains(s.sh, EventOf(s, a), x) && !Taken(s.sh, EventOf(s, a), x)
    ensures InSenderHand(SendAfter(s, a), x) == InSenderHand(s.send, x)
    ensures !EventOf(s, a).Captured?
  {
    NotSendersEvents(s, a);
  }

  lemma ConservedMeans(s: State, x: nat)
    ensures ConservedAt(s, x) <==>
      Bit(x < |s.sh.log.captured|) == SettledAt(s.sh, x) + Bit(InRecvHand(s.recv, x)) + Bit(InSenderHand(s.send, x))
  {
  }

  lemma OneMoreBit(x: nat, n: nat, m: nat, more: bool)
    requires m == n + if more then 1 else 0
    ensures Bit(x < m) == Bit(x < n) + Bit(more && x == n)
  {
  }

  lemma RecvShape(s: State)
    requires Shape(s)
    ensures Captures(s.sh) && |s.sh.queue.inFlight| <= 1 && (HasId(s.recv) ==> s.recv.id < |s.sh.log.captured|)
  {
    hide SharedShape, Exclusive;
    assert SharedShape(s.sh) ==> Captures(s.sh) by { SharedCaptures(s.sh); }
  }

  lemma SharedCaptures(sh: Shared)
    ensures SharedShape(sh) ==> Captures(sh)
  {
    hide Captures;
  }

  lemma ConservedByRecv(s: State, input: Input, x: nat)
    requires Shape(s) && ConservedAt(s, x) && Enabled(s, RecvStep(input))
    ensures ConservedAt(Do(s, RecvStep(input)), x)
  {
    assert RecvEnabled(s, input);
    hide *;
    RecvShape(s);
    RecvDoes(s, input);
    var ev := RecvEvent(s, input);
    QueuedIsOwn(s.sh, ev);
    SettledAfter(s.sh, ev, x);
    RecvBalance(s, input, x);
    CaptureExtends(s.sh, ev);
    RecvLeavesSender(s, input, x);
    ConservedMeans(s, x);
    OneMoreBit(x, |s.sh.log.captured|, |Do(s, RecvStep(input)).sh.log.captured|, ev.Captured?);
    ConservedMeans(Do(s, RecvStep(input)), x);
  }

  lemma RecvLeavesSender(s: State, input: Input, x: nat)
    requires Enabled(s, RecvStep(input))
    ensures InSenderHand(Do(s, RecvStep(input)).send, x) == InSenderHand(s.send, x)
  {
    hide Apply, NextRecv, EventOf, RecvEnabled;
  }

  lemma ConservedBySender(s: State, io: IoResult, x: nat)
    requires Shape(s) && ConservedAt(s, x) && Enabled(s, SendStep(io))
    ensures ConservedAt(Do(s, SendStep(io)), x)
  {
    var ev := SenderEvent(s, io);
    assert EventOf(s, SendStep(io)) == ev;
    SenderSteps(s, io);
    SettledAfter(s.sh, ev, x);
    SenderBalance(s, io, x);
    hide Shape, SenderEvent, SettledAt, InRecvHand, InSenderHand, Gains, Taken;
  }

  lemma SenderSteps(s: State, io: IoResult)
    requires SenderEnabled(s)
    ensures var ev := SenderEvent(s, io); !ev.Queued? && !ev.Captured?
  {
  }

  lemma ConservedByOthers(s: State, a: Action, x: nat)
    requires Shape(s) && ConservedAt(s, x) && Enabled(s, a) && !a.RecvStep? && !a.SendStep?
    ensures ConservedAt(Do(s, a), x)
  {
    var ev := EventOf(s, a);
    OthersEvents(s, a);
    SettledAfter(s.sh, ev, x);
    OthersBalance(s, a, x);
    hide Shape, EventOf, SettledAt, InRecvHand, InSenderHand, Gains, Taken;
  }

  lemma ConservedKept(s: State, a: Action)
    requires Shape(s) && Conserved(s) && Enabled(s, a)
    ensures Conserved(Do(s, a))
  {
    forall x: nat ensures ConservedAt(Do(s, a), x) {
      assert ConservedAt(s, x);
      if a.RecvStep? { ConservedByRecv(s, a.input, x); }
      else if a.SendStep? { ConservedBySender(s, a.io, x); }
      else { ConservedByOthers(s, a, x); }
    }
  }

  lemma QueuedIsOwn(sh: Shared, ev: Event)
    requires Captures(sh) && Possible(sh, ev)
    ensures ev.Queued? ==> sh.log.captured[ev.id].address.capture == ev.id
  {
  }

  // ---------------------------------------------------------------- counters

  function ReasonCount(drops: seq<Drop>, reason: Reason): nat {
    if drops == [] then 0
    else ReasonCount(drops[..|drops| - 1], reason) + Bit(drops[|drops| - 1].reason == reason)
  }

  /** The worker has counted the reason of a drop but not yet the drop itself. */
  predicate RecvBetween(pc: RecvPc, reason: Reason) {
    (pc.Dropping? && pc.counted && pc.reason == reason)
      || (pc.Sending? && pc.stage.CountDrop? && pc.stage.reason == reason)
  }

  predicate SenderBetween(pc: SendPc, reason: Reason) {
    pc.InSend? && pc.stage.CountDrop? && pc.stage.reason == reason
  }

  /** The counter of each reason is the number of packets dropped for it, give or take those being counted. */
  ghost predicate CountedAt(s: State, reason: Reason) {
    s.sh.counters.Of(reason)
      == ReasonCount(s.sh.log.dropped, reason) + Bit(RecvBetween(s.recv, reason)) + Bit(SenderBetween(s.send, reason))
  }

  /** `send` drops only blocked, failed and shut-down packets. */
  predicate SendReason(stage: SendStage) {
    stage.CountReason? || stage.CountDrop? ==>
      stage.reason.Block? || stage.reason.SendFailure? || stage.reason.Shutdown?
  }

  ghost predicate SendReasons(s: State) {
    (s.recv.Sending? ==> SendReason(s.recv.stage)) && (s.send.InSend? ==> SendReason(s.send.stage))
  }

  ghost predicate CountersMatch(s: State) {
    && SendReasons(s)
    && s.sh.counters.dropped == |s.sh.log.dropped|
    && s.sh.counters.processed + Bit(s.recv.Counting?) == |s.sh.log.captured|
    && s.sh.counters.loss + Bit(s.recv.Dropping? && s.recv.reason.Loss? && !s.recv.counted) <= s.sh.counters.eligible
    && (forall reason :: CountedAt(s, reason))
  }

  lemma {:induction false} ReasonCountConcat(a: seq<Drop>, b: seq<Drop>, reason: Reason)
    ensures ReasonCount(a + b, reason) == ReasonCount(a, reason) + ReasonCount(b, reason)
  {
    if b == [] {
      assert a + b == a;
    } else {
      assert (a + b)[..|a + b| - 1] == a + b[..|b| - 1];
      ReasonCountConcat(a, b[..|b| - 1], reason);
    }
  }

  lemma {:induction false} AllShutdown(drops: seq<Drop>, reason: Reason)
    requires forall i :: 0 <= i < |drops| ==> drops[i].reason == Shutdown
    ensures ReasonCount(drops, reason) == if reason == Shutdown then |drops| else 0
  {
    if drops != [] { AllShutdown(drops[..|drops| - 1], reason); }
  }

  lemma ReasonCountAppend(drops: seq<Drop>, d: Drop, reason: Reason)
    ensures ReasonCount(drops + [d], reason) == ReasonCount(drops, reason) + Bit(d.reason == reason)
  {
    assert (drops + [d])[..|drops|] == drops;
  }

  /** How an event moves the counter of `reason` against the log. */
  lemma CounterMoves(sh: Shared, ev: Event, reason: Reason)
    ensures CountersAfter(sh, ev).Of(reason) + ReasonCount(sh.log.dropped, reason)
         == sh.counters.Of(reason) + ReasonCount(DroppedAfter(sh, ev), reason)
            + Bit(ev.Counted? && ev.reason == reason) - Bit(ev.Dropped? && ev.reason == reason)
  {
    hide ReasonCount;
    match ev
    case Discards => DiscardMoves(sh, reason);
    case Dropped(id, r) => ReasonCountAppend(sh.log.dropped, Drop(id, r), reason);
    case Overflowed(id) => ReasonCountAppend(sh.log.dropped, Drop(id, Overflow), reason);
    case _ =>
  }

  lemma DiscardMoves(sh: Shared, reason: Reason)
    ensures CountersAfter(sh, Discards).Of(reason) + ReasonCount(sh.log.dropped, reason)
         == sh.counters.Of(reason) + ReasonCount(DroppedAfter(sh, Discards), reason)
  {
    hide ReasonCount;
    ReasonCountConcat(sh.log.dropped, Discarded(sh.queue), reason);
    AllShutdown(Discarded(sh.queue), reason);
  }

  lemma DroppedMoves(sh: Shared, ev: Event)
    ensures CountersAfter(sh, ev).dropped - sh.counters.dropped == |DroppedAfter(sh, ev)| - |sh.log.dropped|
  {
  }

  lemma RecvCounts(s: State, input: Input, reason: Reason)
    requires RecvEnabled(s, input)
    ensures var ev := RecvEvent(s, input);
      Bit(RecvBetween(NextRecv(s, input), reason)) + Bit(ev.Dropped? && ev.reason == reason)
        == Bit(RecvBetween(s.recv, reason)) + Bit(ev.Counted? && ev.reason == reason)
  {
    hide Admits, MustQueue;
  }

  lemma SenderCounts(s: State, io: IoResult, reason: Reason)
    requires SenderEnabled(s)
    ensures var ev := SenderEvent(s, io);
      Bit(SenderBetween(NextSend(s, io), reason)) + Bit(ev.Dropped? && ev.reason == reason)
        == Bit(SenderBetween(s.send, reason)) + Bit(ev.Counted? && ev.reason == reason)
  {
    hide Due, CanFinish;
  }

  lemma OthersCount(s: State, a: Action, reason: Reason)
    requires Enabled(s, a) && !a.RecvStep? && !a.SendStep?
    ensures !EventOf(s, a).Counted? && !EventOf(s, a).Dropped?
    ensures SenderBetween(SendAfter(s, a), reason) == SenderBetween(s.send, reason)
  {
  }

  lemma CountedAtKept(s: State, a: Action, reason: Reason)
    requires CountedAt(s, reason) && Enabled(s, a)
    ensures CountedAt(Do(s, a), reason)
  {
    CounterMoves(s.sh, EventOf(s, a), reason);
    BetweenMoves(s, a, reason);
    hide EventOf, RecvBetween, SenderBetween, CountersAfter, DroppedAfter, ReasonCount, QueueAfter, LedgerAfter,
      SendAfter, NextRecv;
  }

  lemma BetweenMoves(s: State, a: Action, reason: Reason)
    requires Enabled(s, a)
    ensures var ev := EventOf(s, a);
      var t := Do(s, a);
      Bit(RecvBetween(t.recv, reason)) + Bit(SenderBetween(t.send, reason)) + Bit(ev.Dropped? && ev.reason == reason)
        == Bit(RecvBetween(s.recv, reason)) + Bit(SenderBetween(s.send, reason))
           + Bit(ev.Counted? && ev.reason == reason)
  {
    if a.RecvStep? {
      RecvCounts(s, a.input, reason);
      assert SenderBetween(Signal(s.send, EventOf(s, a)), reason) == SenderBetween(s.send, reason);
    } else if a.SendStep? {
      SenderCounts(s, a.io, reason);
    } else {
      OthersCount(s, a, reason);
    }
    hide RecvEvent, SenderEvent, NextRecv, NextSend, RecvBetween, SenderBetween, Apply;
  }

  lemma LossMoves(sh: Shared, ev: Event)
    ensures CountersAfter(sh, ev).loss == sh.counters.loss + Bit(ev == Counted(Loss))
    ensures CountersAfter(sh, ev).eligible == sh.counters.eligible + Bit(ev.CountedEligible?)
  {
  }

  lemma EligibleKept(s: State, a: Action)
    requires CountersMatch(s) && Enabled(s, a)
    ensures var t := Do(s, a);
      t.sh.counters.loss + Bit(t.recv.Dropping? && t.recv.reason.Loss? && !t.recv.counted) <= t.sh.counters.eligible
  {
    hide RecvEvent, EventOf, NextRecv, CountersAfter, CountedAt, QueueAfter, LogAfter, LedgerAfter, RecvEnabled;
    var ev := EventOf(s, a);
    LossOnlyInReceiver(s, a);
    LossMoves(s.sh, ev);
    if a.RecvStep? {
      LossCounts(s, a.input);
      assert ev == RecvEvent(s, a.input) by { RecvEmits(s, a.input); }
    }
  }

  lemma RecvEmits(s: State, input: Input)
    requires Enabled(s, RecvStep(input))
    ensures EventOf(s, RecvStep(input)) == RecvEvent(s, input)
  {
    hide RecvEvent;
  }

  lemma LossOnlyInReceiver(s: State, a: Action)
    requires SendReasons(s) && Enabled(s, a)
    ensures var ev := EventOf(s, a);
      && (ev.CountedEligible? ==> a.RecvStep?)
      && (ev.Counted? && ev.reason.Loss? ==> a.RecvStep? && s.recv.Dropping? && s.recv.reason.Loss? && !s.recv.counted)
  {
  }

  lemma LossCounts(s: State, input: Input)
    requires SendReasons(s) && RecvEnabled(s, input)
    ensures var n := NextRecv(s, input);
      Bit(n.Dropping? && n.reason.Loss? && !n.counted)
        <= Bit(s.recv.Dropping? && s.recv.reason.Loss? && !s.recv.counted) - Bit(RecvEvent(s, input) == Counted(Loss))
           + Bit(RecvEvent(s, input).CountedEligible?)
  {
  }

  lemma SendReasonsKept(s: State, a: Action)
    requires SendReasons(s) && Enabled(s, a)
    ensures SendReasons(Do(s, a))
  {
    hide EventOf;
  }

  lemma ProcessedKept(s: State, a: Action)
    requires s.sh.counters.processed + Bit(s.recv.Counting?) == |s.sh.log.captured| && Enabled(s, a)
    ensures var t := Do(s, a); t.sh.counters.processed + Bit(t.recv.Counting?) == |t.sh.log.captured|
  {
    if !a.RecvStep? { OthersEvents(s, a); }
    ProcessedMoves(s.sh, EventOf(s, a));
  }

  lemma ProcessedMoves(sh: Shared, ev: Event)
    requires Possible(sh, ev)
    ensures CountersAfter(sh, ev).processed == sh.counters.processed + Bit(ev.CountedProcessed?)
    ensures |LogAfter(sh, ev).captured| == |sh.log.captured| + Bit(ev.Captured?)
  {
  }

  lemma CountersKept(s: State, a: Action)
    requires CountersMatch(s) && Enabled(s, a)
    ensures CountersMatch(Do(s, a))
  {
    SendReasonsKept(s, a);
    ProcessedKept(s, a);
    EligibleKept(s, a);
    DroppedMoves(s.sh, EventOf(s, a));
    forall reason ensures CountedAt(Do(s, a), reason) {
      assert CountedAt(s, reason);
      CountedAtKept(s, a, reason);
    }
    hide SendReasons, CountedAt, EventOf, CountersAfter, DroppedAfter;
  }

  // ---------------------------------------------------------------- how runs end

  predicate AfterAbort(pc: SendPc) {
    (pc.Unwinding? && !pc.fail.SetAborted?) || pc.WantingDiscard? || pc.Discarding?
  }

  predicate ShutdownStage(stage: SendStage) {
    (stage.CountReason? || stage.CountDrop?) && stage.reason.Shutdown?
  }

  predicate DroppingForShutdown(s: State) {
    || (s.recv.Dropping? && s.recv.reason.Shutdown?)
    || (s.recv.Sending? && ShutdownStage(s.recv.stage))
    || (s.send.InSend? && ShutdownStage(s.send.stage))
  }

  /** Without an abort nothing is dropped for shutdown, and the sender leaves only an empty queue behind. */
  ghost predicate Exits(s: State) {
    && (AfterAbort(s.send) ==> s.sh.aborted)
    && (!s.sh.aborted ==> s.sh.counters.shutdown == 0 && !DroppingForShutdown(s))
    && (!s.sh.aborted && s.send.SendExited? ==> s.sh.recvDone && s.sh.queue.queued == [])
    && (s.stop.Stopped? ==> s.sh.queue.queued == [])
  }

  lemma QueuedStaysEmpty(sh: Shared, ev: Event)
    requires sh.queue.queued == [] && Possible(sh, ev) && !ev.Queued?
    ensures QueueAfter(sh, ev).queued == []
  {
  }

  lemma ShutdownMoves(sh: Shared, ev: Event)
    ensures CountersAfter(sh, ev).shutdown == sh.counters.shutdown + Bit(ev == Counted(Shutdown))
      + if ev.Discards? then |sh.queue.queued| + |sh.queue.inFlight| else 0
  {
  }

  lemma AfterAbortKept(s: State, a: Action)
    requires (AfterAbort(s.send) ==> s.sh.aborted) && Enabled(s, a)
    ensures AfterAbort(Do(s, a).send) ==> Do(s, a).sh.aborted
  {
    hide QueueAfter, CountersAfter, LogAfter, LedgerAfter;
  }

  lemma NotDroppingKept(s: State, a: Action)
    requires !s.sh.aborted && !DroppingForShutdown(s) && Enabled(s, a)
    ensures !DroppingForShutdown(Do(s, a))
    ensures EventOf(s, a) != Counted(Shutdown)
  {
    hide QueueAfter, CountersAfter, LogAfter, LedgerAfter;
  }

  lemma DiscardsNothing(s: State, a: Action)
    requires Shape(s) && Exits(s) && !s.sh.aborted && Enabled(s, a) && EventOf(s, a).Discards?
    ensures s.sh.queue.queued == [] && s.sh.queue.inFlight == []
  {
    if !a.SendStep? { NotSendersEvents(s, a); }
    hide QueueShape, Captures, InHand, Exclusive;
  }

  lemma NoShutdownKept(s: State, a: Action)
    requires Shape(s) && Exits(s) && Enabled(s, a)
    ensures var t := Do(s, a); !t.sh.aborted ==> t.sh.counters.shutdown == 0 && !DroppingForShutdown(t)
  {
    if !s.sh.aborted {
      var ev := EventOf(s, a);
      ShutdownMoves(s.sh, ev);
      NotDroppingKept(s, a);
      if ev.Discards? { DiscardsNothing(s, a); }
    }
    hide Shape, Exits, EventOf, DroppingForShutdown, QueueAfter, CountersAfter, LogAfter;
  }

  lemma ExitKept(s: State, a: Action)
    requires Shape(s) && Exits(s) && Enabled(s, a)
    ensures var t := Do(s, a); !t.sh.aborted && t.send.SendExited? ==> t.sh.recvDone && t.sh.queue.queued == []
  {
    var ev := EventOf(s, a);
    if s.sh.queue.queued == [] && !ev.Queued? { QueuedStaysEmpty(s.sh, ev); }
    if ev.Queued? { assert !s.sh.recvDone by { OnlyRunningQueues(s, a); } }
    if Do(s, a).send.SendExited? { SenderExitStep(s, a); }
    hide QueueShape, Captures, InHand, Exclusive, QueueAfter, CountersAfter, LogAfter, EventOf, NextSend,
      NextRecv;
  }

  lemma OnlyRunningQueues(s: State, a: Action)
    requires Enabled(s, a) && EventOf(s, a).Queued?
    ensures !s.recv.RecvExited?
  {
    if !a.RecvStep? { OthersEvents(s, a); }
  }

  lemma SenderExitStep(s: State, a: Action)
    requires Enabled(s, a) && Do(s, a).send.SendExited?
    requires AfterAbort(s.send) ==> s.sh.aborted
    ensures s.send.SendExited? || s.sh.aborted || (s.sh.recvDone && s.sh.queue.queued == [] && EventOf(s, a) == Quiet)
  {
    hide QueueAfter, CountersAfter, LogAfter, LedgerAfter;
  }

  lemma StoppedKept(s: State, a: Action)
    requires Shape(s) && Exits(s) && Enabled(s, a)
    ensures Do(s, a).stop.Stopped? ==> Do(s, a).sh.queue.queued == []
  {
    var ev := EventOf(s, a);
    if s.stop.Stopped? {
      assert s.recv.RecvExited? && s.sh.queue.queued == [];
      if ev.Queued? { OnlyRunningQueues(s, a); } else { QueuedStaysEmpty(s.sh, ev); }
    }
    hide QueueShape, Captures, InHand, Exclusive, CountersAfter, LogAfter, RecvEvent, SenderEvent, NextRecv,
      NextSend;
  }

  lemma ExitsKept(s: State, a: Action)
    requires Shape(s) && Exits(s) && Enabled(s, a)
    ensures Exits(Do(s, a))
  {
    AfterAbortKept(s, a);
    NoShutdownKept(s, a);
    ExitKept(s, a);
    StoppedKept(s, a);
    hide Do, Shape, AfterAbort, DroppingForShutdown;
  }
}
