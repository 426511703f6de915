/** Whole runs of the delay queue under a clock that never goes back. */
module QueueRuns {
  import opened Core
  import opened Packet
  import opened QueueModel
  import opened QueueFacts

  datatype Op =
    | Put(packet: PendingPacket, deadline: nat)
    | Pop(now: nat)
    | Done(packet: PendingPacket)
    | ReleaseMatching(now: nat, sel: Selection)

  function After(q: Queue, op: Op): Queue
    requires op.Done? ==> IsInFlight(q, op.packet)
  {
    match op
    case Put(p, deadline) => Enqueue(q, p, deadline)
    case Pop(now) => PopDue(q, now)
    case Done(p) => Finish(q, p)
    case ReleaseMatching(now, sel) => Release(q, now, sel)
  }

  function ClockAfter(clock: nat, op: Op): nat {
    match op
    case Pop(now) => now
    case ReleaseMatching(now, _) => now
    case _ => clock
  }

  /** The calls the engine makes: time never goes back, and only popped packets are finished. */
  ghost predicate Callable(q: Queue, clock: nat, op: Op) {
    match op
    case Put(_, _) => true
    case Pop(now) => clock <= now
    case Done(p) => IsInFlight(q, p)
    case ReleaseMatching(now, _) => clock <= now
  }

  ghost predicate IsRun(q: Queue, clock: nat, ops: seq<Op>)
    decreases |ops|
  {
    ops != [] ==> Callable(q, clock, ops[0]) && IsRun(After(q, ops[0]), ClockAfter(clock, ops[0]), ops[1..])
  }

  ghost function Final(q: Queue, clock: nat, ops: seq<Op>): Queue
    requires IsRun(q, clock, ops)
    decreases |ops|
  {
    if ops == [] then q else Final(After(q, ops[0]), ClockAfter(clock, ops[0]), ops[1..])
  }

  ghost function FinalClock(clock: nat, ops: seq<Op>): nat
    decreases |ops|
  {
    if ops == [] then clock else FinalClock(ClockAfter(clock, ops[0]), ops[1..])
  }

  /** The entries handed out, in the order they were handed out. */
  ghost function Popped(q: Queue, clock: nat, ops: seq<Op>): seq<Entry>
    requires IsRun(q, clock, ops)
    decreases |ops|
  {
    if ops == [] then []
    else
      var rest := Popped(After(q, ops[0]), ClockAfter(clock, ops[0]), ops[1..]);
      if ops[0].Pop? && Due(q, ops[0].now).Some? then [Due(q, ops[0].now).value] + rest else rest
  }

  lemma StepValid(q: Queue, clock: nat, op: Op)
    requires Valid(q, clock) && Callable(q, clock, op)
    ensures Valid(After(q, op), ClockAfter(clock, op))
  {
    match op
    case Put(p, deadline) => EnqueueValid(q, p, deadline, clock);
    case Pop(now) => PopValid(q, now, clock);
    case Done(p) => FinishKeeps(q, p);
    case ReleaseMatching(now, sel) =>
      LaterClock(q, clock, now);
      ReleaseKeeps(q, now, sel);
  }

  /** Order, tails and all four quotas hold in every reachable queue. */
  lemma {:induction false} RunValid(q: Queue, clock: nat, ops: seq<Op>)
    requires Valid(q, clock) && IsRun(q, clock, ops)
    ensures Valid(Final(q, clock, ops), FinalClock(clock, ops))
    decreases |ops|
  {
    if ops != [] {
      StepValid(q, clock, ops[0]);
      RunValid(After(q, ops[0]), ClockAfter(clock, ops[0]), ops[1..]);
    }
  }

  // ---------------------------------------------------------------- where popped entries come from

  /** `x` is queued, at deadline `due`. */
  ghost predicate QueuedAt(q: Queue, x: Entry, due: nat) {
    exists i :: 0 <= i < |q.queued| && q.queued[i] == x.(deadline := due)
  }

  /** `x` is queued, at some deadline. */
  ghost predicate QueuedIn(q: Queue, x: Entry) {
    exists i :: 0 <= i < |q.queued| && q.queued[i].packet == x.packet && q.queued[i].sequence == x.sequence
  }

  /** `x` is queued or will get a later sequence number than anything queued now. */
  ghost predicate Known(q: Queue, x: Entry) {
    x.sequence >= q.nextSequence || QueuedIn(q, x)
  }

  /** The position in `ops` of the call that hands out the `k`-th entry. */
  ghost function PopIndex(q: Queue, clock: nat, ops: seq<Op>, k: nat): (at: nat)
    requires IsRun(q, clock, ops) && k < |Popped(q, clock, ops)|
    ensures at < |ops| && ops[at].Pop?
    decreases |ops|
  {
    var r, t := After(q, ops[0]), ClockAfter(clock, ops[0]);
    if ops[0].Pop? && Due(q, ops[0].now).Some? then
      if k == 0 then 0 else 1 + PopIndex(r, t, ops[1..], k - 1)
    else 1 + PopIndex(r, t, ops[1..], k)
  }

  lemma PoppedSteps(q: Queue, clock: nat, ops: seq<Op>)
    requires IsRun(q, clock, ops) && Popped(q, clock, ops) != []
    ensures ops != [] && (ops[0].Done? ==> IsInFlight(q, ops[0].packet)) && Callable(q, clock, ops[0])
    ensures var r, t := After(q, ops[0]), ClockAfter(clock, ops[0]);
      && IsRun(r, t, ops[1..])
      && Popped(q, clock, ops)
        == (if HandsOut(q, ops[0]) then [Due(q, ops[0].now).value] else []) + Popped(r, t, ops[1..])
  {
    hide Due, After;
  }

  /** The call hands out an entry. */
  predicate HandsOut(q: Queue, op: Op) {
    op.Pop? && Due(q, op.now).Some?
  }

  /** One call of a run and what is left of it, seen from the `k`-th entry handed out. */
  lemma RestOfRun(q: Queue, clock: nat, ops: seq<Op>, k: nat)
    requires Valid(q, clock) && IsRun(q, clock, ops) && k < |Popped(q, clock, ops)|
    requires HandsOut(q, ops[0]) ==> k > 0
    ensures ops != [] && (ops[0].Done? ==> IsInFlight(q, ops[0].packet)) && Callable(q, clock, ops[0])
    ensures var r, t := After(q, ops[0]), ClockAfter(clock, ops[0]);
      var m := if HandsOut(q, ops[0]) then k - 1 else k;
      && Valid(r, t) && IsRun(r, t, ops[1..]) && m < |Popped(r, t, ops[1..])|
      && Popped(q, clock, ops)[k] == Popped(r, t, ops[1..])[m]
      && PopIndex(q, clock, ops, k) == 1 + PopIndex(r, t, ops[1..], m)
  {
    PoppedSteps(q, clock, ops);
    StepValid(q, clock, ops[0]);
    hide Valid, Due, After, Callable;
  }

  lemma FirstPopped(q: Queue, clock: nat, ops: seq<Op>)
    requires IsRun(q, clock, ops) && ops != [] && HandsOut(q, ops[0])
    ensures |Popped(q, clock, ops)| > 0 && Popped(q, clock, ops)[0] == Due(q, ops[0].now).value
    ensures PopIndex(q, clock, ops, 0) == 0
  {
  }

  lemma KnownBefore(q: Queue, clock: nat, op: Op, x: Entry)
    requires Valid(q, clock) && Callable(q, clock, op) && Known(After(q, op), x)
    ensures Known(q, x)
  {
    var r := After(q, op);
    if x.sequence < r.nextSequence {
      var i :| 0 <= i < |r.queued| && r.queued[i].packet == x.packet && r.queued[i].sequence == x.sequence;
      match op
      case Put(p, deadline) =>
      case Pop(now) =>
        if Due(q, now).Some? {
          RemoveAt(q.queued, LeastIndex(q.queued), i);
        }
      case Done(p) =>
      case ReleaseMatching(now, sel) =>
        ReleaseKeepsPackets(q, now, sel);
        assert q.queued[i].packet == x.packet;
    }
  }

  lemma DueIsQueued(q: Queue, clock: nat, now: nat)
    requires Valid(q, clock) && Due(q, now).Some?
    ensures QueuedAt(q, Due(q, now).value, Due(q, now).value.deadline) && QueuedIn(q, Due(q, now).value)
  {
    DueIsLeast(q, now);
    hide Valid;
  }

  /** Whatever is popped later is queued now or is captured later. */
  lemma {:induction false} PoppedWasQueued(q: Queue, clock: nat, ops: seq<Op>, k: nat)
    requires Valid(q, clock) && IsRun(q, clock, ops) && k < |Popped(q, clock, ops)|
    ensures Known(q, Popped(q, clock, ops)[k])
    decreases |ops|
  {
    assert ops != [];
    hide Valid, Due, After, Callable, IsRun, Popped, Known, PopIndex, QueuedIn;
    if HandsOut(q, ops[0]) && k == 0 {
      FirstPopped(q, clock, ops);
      DueIsQueued(q, clock, ops[0].now);
      QueuedIsKnown(q, Due(q, ops[0].now).value);
    } else {
      RestOfRun(q, clock, ops, k);
      var m := if HandsOut(q, ops[0]) then k - 1 else k;
      PoppedWasQueued(After(q, ops[0]), ClockAfter(clock, ops[0]), ops[1..], m);
      KnownBefore(q, clock, ops[0], Popped(q, clock, ops)[k]);
    }
  }

  lemma QueuedIsKnown(q: Queue, x: Entry)
    requires QueuedIn(q, x)
    ensures Known(q, x)
  {
  }

  // ---------------------------------------------------------------- what moves a deadline

  /** The call releases `x` at the instant `at`. */
  predicate ReleasesAt(op: Op, x: Entry, at: nat) {
    op.ReleaseMatching? && op.now == at && op.sel(x.packet)
  }

  /** Only a release moves the deadline of a queued entry, and lowers it only by selecting it. */
  lemma DeadlineMoves(q: Queue, clock: nat, op: Op, x: Entry, due: nat) returns (later: nat)
    requires Valid(q, clock) && Callable(q, clock, op) && QueuedAt(q, x, due) && QueuedIn(After(q, op), x)
    ensures QueuedAt(After(q, op), x, later)
    ensures later != due ==> op.ReleaseMatching?
    ensures later < due ==> op.ReleaseMatching? && op.sel(x.packet) && op.now <= later
  {
    var r := After(q, op);
    var i :| 0 <= i < |q.queued| && q.queued[i] == x.(deadline := due);
    var j :| 0 <= j < |r.queued| && r.queued[j].packet == x.packet && r.queued[j].sequence == x.sequence;
    later := r.queued[j].deadline;
    assert r.queued[j] == x.(deadline := later);
    if op.ReleaseMatching? {
      ReleaseKeepsPackets(q, op.now, op.sel);
      assert i == j;
      ReleaseClosedForm(q, op.now, op.sel, i);
    } else {
      EntriesStay(q, clock, op, j, i);
    }
  }

  lemma EntriesStay(q: Queue, clock: nat, op: Op, j: nat, i: nat)
    requires Valid(q, clock) && Callable(q, clock, op) && !op.ReleaseMatching?
    requires j < |After(q, op).queued| && i < |q.queued| && After(q, op).queued[j].sequence == q.queued[i].sequence
    ensures After(q, op).queued[j] == q.queued[i]
  {
    if op.Pop? && Due(q, op.now).Some? {
      RemoveAt(q.queued, LeastIndex(q.queued), j);
    }
  }

  /** An entry still to be handed out keeps its place while the calls before it are made. */
  lemma StillQueued(q: Queue, clock: nat, ops: seq<Op>, k: nat)
    requires Valid(q, clock) && IsRun(q, clock, ops) && k < |Popped(q, clock, ops)|
    requires HandsOut(q, ops[0]) ==> k > 0
    requires QueuedIn(q, Popped(q, clock, ops)[k])
    ensures ops[0].Done? ==> IsInFlight(q, ops[0].packet)
    ensures QueuedIn(After(q, ops[0]), Popped(q, clock, ops)[k])
  {
    RestOfRun(q, clock, ops, k);
    var r, t := After(q, ops[0]), ClockAfter(clock, ops[0]);
    PoppedWasQueued(r, t, ops[1..], if HandsOut(q, ops[0]) then k - 1 else k);
    SequencesGrow(q, clock, ops[0], Popped(q, clock, ops)[k]);
    hide Valid, Due, After, Callable, IsRun, Popped, PopIndex, QueuedIn;
  }

  lemma SequencesGrow(q: Queue, clock: nat, op: Op, x: Entry)
    requires Valid(q, clock) && Callable(q, clock, op) && QueuedIn(q, x)
    ensures x.sequence < q.nextSequence <= After(q, op).nextSequence
  {
  }

  /** If an entry is handed out at another deadline than it has now, a release comes before. */
  lemma {:induction false} MovedByRelease(q: Queue, clock: nat, ops: seq<Op>, k: nat, due: nat)
    requires Valid(q, clock) && IsRun(q, clock, ops) && k < |Popped(q, clock, ops)|
    requires QueuedAt(q, Popped(q, clock, ops)[k], due) && due != Popped(q, clock, ops)[k].deadline
    ensures exists j :: 0 <= j < PopIndex(q, clock, ops, k) && ops[j].ReleaseMatching?
    decreases |ops|
  {
    var x := Popped(q, clock, ops)[k];
    assert ops != [];
    AtIsIn(q, x, due);
    hide Valid, Due, After, Callable, IsRun, Popped, PopIndex, QueuedIn, QueuedAt;
    NotHandedOutYet(q, clock, ops, k, due);
    RestOfRun(q, clock, ops, k);
    StillQueued(q, clock, ops, k);
    var later := DeadlineMoves(q, clock, ops[0], x, due);
    if !ops[0].ReleaseMatching? {
      var m := if HandsOut(q, ops[0]) then k - 1 else k;
      var r, t := After(q, ops[0]), ClockAfter(clock, ops[0]);
      MovedByRelease(r, t, ops[1..], m, later);
      var j :| 0 <= j < PopIndex(r, t, ops[1..], m) && ops[1..][j].ReleaseMatching?;
      assert ops[j + 1].ReleaseMatching?;
    }
  }

  lemma AtIsIn(q: Queue, x: Entry, due: nat)
    requires QueuedAt(q, x, due)
    ensures QueuedIn(q, x)
  {
  }

  /** An entry whose deadline is still to move is not the one handed out by the first call. */
  lemma NotHandedOutYet(q: Queue, clock: nat, ops: seq<Op>, k: nat, due: nat)
    requires Valid(q, clock) && IsRun(q, clock, ops) && k < |Popped(q, clock, ops)|
    requires QueuedAt(q, Popped(q, clock, ops)[k], due) && due != Popped(q, clock, ops)[k].deadline
    ensures ops != [] && (HandsOut(q, ops[0]) ==> k > 0)
  {
    if HandsOut(q, ops[0]) && k == 0 {
      FirstPopped(q, clock, ops);
      DueIsQueued(q, clock, ops[0].now);
      OneDeadline(q, clock, Popped(q, clock, ops)[k], due, Popped(q, clock, ops)[k].deadline);
    }
    hide Valid, Due, QueuedAt;
  }

  lemma OneDeadline(q: Queue, clock: nat, x: Entry, a: nat, b: nat)
    requires Valid(q, clock) && QueuedAt(q, x, a) && QueuedAt(q, x, b)
    ensures a == b
  {
    var i :| 0 <= i < |q.queued| && q.queued[i] == x.(deadline := a);
    var j :| 0 <= j < |q.queued| && q.queued[j] == x.(deadline := b);
    assert i == j;
  }

  lemma NotOver(q: Queue, clock: nat, ops: seq<Op>)
    requires IsRun(q, clock, ops) && Popped(q, clock, ops) != []
    ensures ops != []
  {
  }

  lemma IsReleaseAt(op: Op, x: Entry, at: nat)
    requires op.ReleaseMatching? && op.now == at && op.sel(x.packet)
    ensures ReleasesAt(op, x, at)
  {
  }

  lemma ClockMoves(q: Queue, clock: nat, op: Op)
    requires Callable(q, clock, op)
    ensures clock <= ClockAfter(clock, op)
    ensures op.ReleaseMatching? ==> clock <= op.now
  {
  }

  /**
   An entry queued beyond the clock and handed out at a deadline the clock has already reached was
   selected by a release at exactly that instant, and the clock did not move in between.
   */
  lemma {:induction false} LoweredByRelease(q: Queue, clock: nat, ops: seq<Op>, k: nat, due: nat) returns (at: nat)
    requires Valid(q, clock) && IsRun(q, clock, ops) && k < |Popped(q, clock, ops)|
    requires var x := Popped(q, clock, ops)[k]; QueuedAt(q, x, due) && x.deadline < due && x.deadline <= clock
    ensures var x := Popped(q, clock, ops)[k];
      at < PopIndex(q, clock, ops, k) && ReleasesAt(ops[at], x, x.deadline) && clock == x.deadline
    decreases |ops|
  {
    hide *;
    var x := Popped(q, clock, ops)[k];
    AtIsIn(q, x, due);
    NotHandedOutYet(q, clock, ops, k, due);
    RestOfRun(q, clock, ops, k);
    StillQueued(q, clock, ops, k);
    var later := DeadlineMoves(q, clock, ops[0], x, due);
    ClockMoves(q, clock, ops[0]);
    if later <= x.deadline {
      at := 0;
      IsReleaseAt(ops[0], x, x.deadline);
    } else {
      var m := if HandsOut(q, ops[0]) then k - 1 else k;
      var rest := LoweredByRelease(After(q, ops[0]), ClockAfter(clock, ops[0]), ops[1..], m, later);
      at := rest + 1;
    }
  }

  // ---------------------------------------------------------------- order

  /** What is known when an entry is handed out before `b`. */
  lemma PopPrecedes(q: Queue, clock: nat, now: nat, b: Entry)
    requires Valid(q, clock) && clock <= now && Due(q, now).Some? && Known(PopDue(q, now), b)
    ensures var a := Due(q, now).value;
      && a.deadline <= now
      && (a.sequence < b.sequence
          || (a.packet.flow != b.packet.flow && exists due :: QueuedAt(PopDue(q, now), b, due) && a.deadline < due))
  {
    var r := PopDue(q, now);
    DueIsLeast(q, now);
    var at := LeastIndex(q.queued);
    if b.sequence < r.nextSequence {
      var i :| 0 <= i < |r.queued| && r.queued[i].packet == b.packet && r.queued[i].sequence == b.sequence;
      RemoveAt(q.queued, at, i);
      var w := if i < at then i else i + 1;
      assert QueuedAt(r, b, r.queued[i].deadline);
      if b.packet.flow == q.queued[at].packet.flow { PopTakesFlowHead(q, now, w); }
    }
  }

  /** Both entries were handed out at their common deadline, and between them a release selected the later one. */
  ghost predicate ReleasedBetween(q: Queue, clock: nat, ops: seq<Op>, i: nat, k: nat)
    requires IsRun(q, clock, ops) && i < |Popped(q, clock, ops)| && k < |Popped(q, clock, ops)|
  {
    var b := Popped(q, clock, ops)[k];
    && ops[PopIndex(q, clock, ops, i)].now == b.deadline
    && exists j :: PopIndex(q, clock, ops, i) < j < PopIndex(q, clock, ops, k) && ReleasesAt(ops[j], b, b.deadline)
  }

  /**
   The `i`-th and the `k`-th entry are in capture order if they share a flow. If they share a deadline
   they are, too, unless the release described by `ReleasedBetween` was made.
   */
  ghost predicate CaptureOrder(q: Queue, clock: nat, ops: seq<Op>, i: nat, k: nat)
    requires IsRun(q, clock, ops) && i < |Popped(q, clock, ops)| && k < |Popped(q, clock, ops)|
  {
    var a, b := Popped(q, clock, ops)[i], Popped(q, clock, ops)[k];
    && (a.packet.flow == b.packet.flow ==> a.sequence < b.sequence)
    && (a.deadline == b.deadline ==> a.sequence < b.sequence || ReleasedBetween(q, clock, ops, i, k))
  }

  lemma PopStep(q: Queue, clock: nat, op: Op)
    requires Callable(q, clock, op) && op.Pop?
    ensures clock <= op.now && After(q, op) == PopDue(q, op.now) && ClockAfter(clock, op) == op.now
  {
  }

  /** The first entry handed out against any later one. */
  lemma FirstInOrder(q: Queue, clock: nat, ops: seq<Op>, k: nat)
    requires Valid(q, clock) && IsRun(q, clock, ops) && 0 < k < |Popped(q, clock, ops)|
    requires HandsOut(q, ops[0])
    ensures CaptureOrder(q, clock, ops, 0, k)
  {
    hide Valid, Due, After, IsRun, Popped, PopIndex, Known, QueuedAt, PopDue, Callable, ReleasesAt, QueuedIn;
    RestOfRun(q, clock, ops, k);
    FirstPopped(q, clock, ops);
    PopStep(q, clock, ops[0]);
    var r, t := After(q, ops[0]), ClockAfter(clock, ops[0]);
    PoppedWasQueued(r, t, ops[1..], k - 1);
    var a, b := Due(q, ops[0].now).value, Popped(q, clock, ops)[k];
    PopPrecedes(q, clock, ops[0].now, b);
    if a.sequence >= b.sequence && a.deadline == b.deadline {
      var due :| QueuedAt(r, b, due) && a.deadline < due;
      var at := LoweredByRelease(r, t, ops[1..], k - 1, due);
      var j := at + 1;
      assert ops[1..][at] == ops[j];
    }
  }

  /** Order among later entries is order in the rest of the run. */
  lemma LaterInOrder(q: Queue, clock: nat, ops: seq<Op>, i: nat, k: nat)
    requires Valid(q, clock) && IsRun(q, clock, ops) && i < k < |Popped(q, clock, ops)|
    requires ops != [] && (ops[0].Done? ==> IsInFlight(q, ops[0].packet)) && (HandsOut(q, ops[0]) ==> i > 0)
    requires var r, t := After(q, ops[0]), ClockAfter(clock, ops[0]);
      var first := if HandsOut(q, ops[0]) then 1 else 0;
      && IsRun(r, t, ops[1..]) && k - first < |Popped(r, t, ops[1..])|
      && CaptureOrder(r, t, ops[1..], i - first, k - first)
    ensures CaptureOrder(q, clock, ops, i, k)
  {
    hide Valid, Due, After, IsRun, Popped, PopIndex, ReleasesAt;
    RestOfRun(q, clock, ops, i);
    RestOfRun(q, clock, ops, k);
    var r, t := After(q, ops[0]), ClockAfter(clock, ops[0]);
    var first := if HandsOut(q, ops[0]) then 1 else 0;
    var b := Popped(q, clock, ops)[k];
    var from, to := PopIndex(r, t, ops[1..], i - first), PopIndex(r, t, ops[1..], k - first);
    assert ops[1..][from] == ops[from + 1];
    if at :| from < at < to && ReleasesAt(ops[1..][at], b, b.deadline) {
      var j := at + 1;
      assert ops[1..][at] == ops[j];
    }
  }

  /**
   Over any run with any releases, each flow is handed out in capture order. Entries sharing a
   deadline are handed out in capture order whatever their flow, unless the first left the queue
   exactly at that deadline and a release at the same instant then selected the second.
   */
  lemma {:induction false} PopsFollowCapture(q: Queue, clock: nat, ops: seq<Op>, i: nat, k: nat)
    requires Valid(q, clock) && IsRun(q, clock, ops) && i < k < |Popped(q, clock, ops)|
    ensures CaptureOrder(q, clock, ops, i, k)
    decreases |ops|
  {
    hide *;
    NotOver(q, clock, ops);
    if HandsOut(q, ops[0]) && i == 0 {
      FirstInOrder(q, clock, ops, k);
    } else {
      RestOfRun(q, clock, ops, i);
      RestOfRun(q, clock, ops, k);
      var first := if HandsOut(q, ops[0]) then 1 else 0;
      PopsFollowCapture(After(q, ops[0]), ClockAfter(clock, ops[0]), ops[1..], i - first, k - first);
      LaterInOrder(q, clock, ops, i, k);
    }
  }

  // ---------------------------------------------------------------- the exception occurs

  lemma RunBefore(q: Queue, clock: nat, op: Op, rest: seq<Op>)
    requires Callable(q, clock, op) && IsRun(After(q, op), ClockAfter(clock, op), rest)
    ensures IsRun(q, clock, [op] + rest)
    ensures Popped(q, clock, [op] + rest)
      == (if HandsOut(q, op) then [Due(q, op.now).value] else []) + Popped(After(q, op), ClockAfter(clock, op), rest)
  {
    assert ([op] + rest)[0] == op && ([op] + rest)[1..] == rest;
  }

  /** Two packets of different flows in the queue, the later captured one due first. */
  function Crossed(limits: Limits, a: PendingPacket, b: PendingPacket, due: nat, late: nat): Queue {
    Empty(limits).(queued := [Entry(b, late, 0), Entry(a, due, 1)], nextSequence := 2)
  }

  lemma Crosses(limits: Limits, a: PendingPacket, b: PendingPacket, due: nat, late: nat)
    requires a.flow != b.flow && Admits(Empty(limits), b) && Admits(Enqueue(Empty(limits), b, late), a)
    ensures Enqueue(Enqueue(Empty(limits), b, late), a, due) == Crossed(limits, a, b, due, late)
  {
    var q := Enqueue(Empty(limits), b, late);
    assert q.queued == [Entry(b, late, 0)];
    assert LastDeadline(q.queued[..0], a.flow).None?;
  }

  lemma LaterLeaves(limits: Limits, a: PendingPacket, b: PendingPacket, due: nat, late: nat)
    requires due < late
    ensures var q := Crossed(limits, a, b, due, late);
      && Due(q, due) == Some(Entry(a, due, 1))
      && PopDue(q, due).queued == [Entry(b, late, 0)] && PopDue(q, due).inFlightTail == map[a.flow := due]
  {
    var q := Crossed(limits, a, b, due, late);
    assert q.queued[..1] == [Entry(b, late, 0)];
    assert LeastIndex(q.queued) == 1;
  }

  lemma EarlierReleased(q: Queue, b: PendingPacket, due: nat, late: nat, sel: Selection)
    requires q.queued == [Entry(b, late, 0)] && b.flow !in q.inFlightTail && sel(b)
    ensures Release(q, due, sel).queued == [Entry(b, due, 0)]
    ensures Due(Release(q, due, sel), due) == Some(Entry(b, due, 0))
  {
    var r := Release(q, due, sel).queued;
    assert r[0] == Released(q, 0, due, sel);
    assert q.queued[..1][..0] == [];
    assert LatestWish(q.queued[..1], b.flow, None, due, sel) == Some(due);
  }

  /**
   A release can reverse packets of different flows at one deadline: `b` is captured first but due
   later, `a` leaves at its deadline, and a release at the same instant makes `b` due at it, too.
   */
  lemma ReleaseReverses(limits: Limits, a: PendingPacket, b: PendingPacket, due: nat, late: nat, sel: Selection)
    requires a.flow != b.flow && due < late && sel(b)
    requires Admits(Empty(limits), b) && Admits(Enqueue(Empty(limits), b, late), a)
    ensures var ops :=
        [Put(b, late)] + ([Put(a, due)] + ([Pop(due)] + ([ReleaseMatching(due, sel)] + ([Pop(due)] + []))));
      && IsRun(Empty(limits), 0, ops)
      && Popped(Empty(limits), 0, ops) == [Entry(a, due, 1), Entry(b, due, 0)]
  {
    hide Due, PopDue, Enqueue, Release, Admits, IsRun, Popped;
    Crosses(limits, a, b, due, late);
    LaterLeaves(limits, a, b, due, late);
    var q0 := Empty(limits);
    var q1 := Enqueue(q0, b, late);
    var q2 := Crossed(limits, a, b, due, late);
    var q3 := PopDue(q2, due);
    var q4 := Release(q3, due, sel);
    EarlierReleased(q3, b, due, late, sel);
    NothingPopped(PopDue(q4, due), due);
    RunBefore(q4, due, Pop(due), []);
    RunBefore(q3, due, ReleaseMatching(due, sel), [Pop(due)] + []);
    RunBefore(q2, 0, Pop(due), [ReleaseMatching(due, sel)] + ([Pop(due)] + []));
    RunBefore(q1, 0, Put(a, due), [Pop(due)] + ([ReleaseMatching(due, sel)] + ([Pop(due)] + [])));
    RunBefore(q0, 0, Put(b, late), [Put(a, due)] + ([Pop(due)] + ([ReleaseMatching(due, sel)] + ([Pop(due)] + []))));
  }

  lemma NothingPopped(q: Queue, clock: nat)
    ensures IsRun(q, clock, []) && Popped(q, clock, []) == []
  {
  }

  lemma BothAdmitted(limits: Limits, a: PendingPacket, b: PendingPacket, late: nat)
    requires limits.packets >= 2 && limits.pidPackets >= 2
    requires |a.bytes| + |b.bytes| <= limits.bytes && |a.bytes| + |b.bytes| <= limits.pidBytes
    ensures Admits(Empty(limits), b) && Admits(Enqueue(Empty(limits), b, late), a)
  {
    forall w: Weight ensures Load(w, Enqueue(Empty(limits), b, late)) == w(b) || !Admits(Empty(limits), b) {
      EnqueueLoad(Empty(limits), b, late, w);
    }
  }

  /** Such a run: deadlines 10 and 5, a pop, a release and a pop, all at time 5. */
  lemma ReversedRun() returns (ops: seq<Op>)
    ensures IsRun(Empty(DEFAULT_LIMITS), 0, ops) && |Popped(Empty(DEFAULT_LIMITS), 0, ops)| == 2
    ensures var popped := Popped(Empty(DEFAULT_LIMITS), 0, ops);
      popped[0].deadline == popped[1].deadline && popped[0].sequence > popped[1].sequence
  {
    hide Admits, Enqueue, IsRun, Popped;
    var first := FlowKey(V4([10, 0, 0, 1]), V4([10, 0, 0, 2]), Udp, 1000, 53);
    var second := FlowKey(V4([10, 0, 0, 1]), V4([10, 0, 0, 2]), Udp, 2000, 53);
    var a := PendingPacket([], Address(1, true, false, false), None, Upload, 0, first);
    var b := PendingPacket([], Address(0, true, false, false), None, Upload, 0, second);
    assert first.sourcePort != second.sourcePort;
    BothAdmitted(DEFAULT_LIMITS, a, b, 10);
    ReleaseReverses(DEFAULT_LIMITS, a, b, 5, 10, (p: PendingPacket) => true);
    var release := ReleaseMatching(5, (p: PendingPacket) => true);
    ops := [Put(b, 10)] + ([Put(a, 5)] + ([Pop(5)] + ([release] + ([Pop(5)] + []))));
  }
}
