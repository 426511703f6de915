/**
 Outside a drain: a packet that is due when the sender reads the clock gets its turn after a bounded
 number of sender steps. A release gives overdue packets the time of the release and so changes the
 order; the bound is counted between releases.
 */
module EngineTurns {
  import opened Core
  import opened Packet
  import opened QueueModel
  import opened QueueFacts
  import opened Rules
  import opened Engine
  import opened EngineShape
  import opened EngineFates
  import opened EngineTiming
  import opened EngineProgress
  import opened EngineRuns

  /** The queued entries that go before `e`. */
  ghost function AheadOf(q: Queue, e: Entry): set<Entry> {
    set x | x in q.queued && Before(x, e)
  }

  /** The packet in the receive worker's hand may still be queued before `e`. */
  ghost function Incoming(s: State, e: Entry): nat {
    Bit(HasId(s.recv) && s.recv.id < |s.sh.log.captured| && Hand(s).receivedAt < e.deadline)
  }

  /** What the sender has to do before it takes `e`. */
  ghost function TurnMeasure(s: State, e: Entry): nat {
    PER_QUEUED * (|AheadOf(s.sh.queue, e)| + Incoming(s, e)) + SendRank(s.send)
  }

  /** `e` is queued and due, and the sender is at work or has read the clock late enough to see it due. */
  ghost predicate Awaits(s: State, e: Entry) {
    && e in s.sh.queue.queued && e.deadline <= s.sh.clock
    && !s.send.Parked? && (s.send.Popping? ==> e.deadline <= s.send.now)
  }

  /** The event neither changes deadlines nor hands out or discards `e`. */
  predicate LeavesQueued(sh: Shared, ev: Event, e: Entry) {
    !ev.Frees? && !ev.Drains? && !ev.Discards? && (ev.Popped? ==> Due(sh.queue, ev.now) != Some(e))
  }

  /** A packet is queued that was captured before `e` was due. */
  predicate QueuedEarly(sh: Shared, ev: Event, e: Entry) {
    ev.Queued? && ev.id < |sh.log.captured| && sh.log.captured[ev.id].receivedAt < e.deadline
  }

  // ---------------------------------------------------------------- the entries ahead

  lemma EnqueueAhead(q: Queue, p: PendingPacket, deadline: nat, e: Entry)
    requires Sequenced(q.queued, q.nextSequence) && e in q.queued
    ensures var r := Enqueue(q, p, deadline);
      e in r.queued && |AheadOf(r, e)| <= |AheadOf(q, e)| + if deadline < e.deadline then 1 else 0
  {
    var r := Enqueue(q, p, deadline);
    if Admits(q, p) {
      var x := r.queued[|q.queued|];
      assert AheadOf(r, e) == AheadOf(q, e) + if Before(x, e) then {x} else {};
    }
  }

  lemma {:induction false} Smaller(a: set<Entry>, b: set<Entry>)
    requires a <= b
    ensures |a| <= |b|
  {
    if a != {} {
      var x :| x in a;
      Smaller(a - {x}, b - {x});
    }
  }

  /** A pop takes one entry and leaves the others. */
  lemma PopLeaves(q: Queue, now: nat, x: Entry)
    requires Sequenced(q.queued, q.nextSequence) && Due(q, now).Some?
    ensures Due(q, now).value in q.queued
    ensures x in PopDue(q, now).queued <==> x in q.queued && x != Due(q, now).value
  {
    var r, at := PopDue(q, now), LeastIndex(q.queued);
    if x in q.queued && x != q.queued[at] {
      var i :| 0 <= i < |q.queued| && q.queued[i] == x;
      RemoveAt(q.queued, at, if i < at then i else i - 1);
    }
    if x in r.queued {
      var k :| 0 <= k < |r.queued| && r.queued[k] == x;
      RemoveAt(q.queued, at, k);
    }
  }

  lemma LeastIsAhead(q: Queue, now: nat, e: Entry)
    requires Sequenced(q.queued, q.nextSequence) && e in q.queued
    requires Due(q, now).Some? && Due(q, now) != Some(e)
    ensures Before(Due(q, now).value, e)
  {
    DueIsLeast(q, now);
    var i :| 0 <= i < |q.queued| && q.queued[i] == e;
  }

  lemma PopAhead(q: Queue, now: nat, e: Entry)
    requires Sequenced(q.queued, q.nextSequence) && e in q.queued
    requires Due(q, now).Some? && Due(q, now) != Some(e)
    ensures var r := PopDue(q, now); e in r.queued && |AheadOf(r, e)| + 1 <= |AheadOf(q, e)|
  {
    hide Sequenced, Due, PopDue, Before;
    var r, x := PopDue(q, now), Due(q, now).value;
    PopLeaves(q, now, e);
    LeastIsAhead(q, now, e);
    forall y | y in AheadOf(r, e) ensures y in AheadOf(q, e) && y != x { PopLeaves(q, now, y); }
    Smaller(AheadOf(r, e), AheadOf(q, e) - {x});
  }

  lemma ShapeSequenced(sh: Shared)
    requires SharedShape(sh)
    ensures Sequenced(sh.queue.queued, sh.queue.nextSequence)
  {
    hide Captures, QueueGenuine, WithinLimits, TailsPast, Sequenced;
  }

  lemma QueuedAhead(sh: Shared, ev: Event, e: Entry)
    requires SharedShape(sh) && Possible(sh, ev) && ev.Queued? && e in sh.queue.queued
    ensures var q := QueueAfter(sh, ev);
      e in q.queued && |AheadOf(q, e)| <= |AheadOf(sh.queue, e)| + Bit(QueuedEarly(sh, ev, e))
  {
    hide SharedShape, Sequenced, AheadOf, Enqueue, Admits;
    ShapeSequenced(sh);
    var c := sh.log.captured[ev.id];
    EnqueueAhead(sh.queue, Pending(c), if sh.draining then c.receivedAt else c.receivedAt + ev.delay, e);
  }

  lemma PoppedAhead(sh: Shared, now: nat, e: Entry)
    requires SharedShape(sh) && e in sh.queue.queued && Due(sh.queue, now) != Some(e)
    ensures var q := PopDue(sh.queue, now);
      && e in q.queued
      && |AheadOf(q, e)| + Bit(Due(sh.queue, now).Some?) <= |AheadOf(sh.queue, e)|
  {
    assert Sequenced(sh.queue.queued, sh.queue.nextSequence);
    hide SharedShape, Sequenced, AheadOf, Due, PopDue;
    if Due(sh.queue, now).Some? { PopAhead(sh.queue, now, e); } else { NotDue(sh.queue, now); }
  }

  /** An event leaves `e` queued, and only an early packet gets before it. */
  lemma AheadAfter(sh: Shared, ev: Event, e: Entry)
    requires SharedShape(sh) && Possible(sh, ev) && e in sh.queue.queued && LeavesQueued(sh, ev, e)
    ensures var q := QueueAfter(sh, ev);
      && e in q.queued
      && |AheadOf(q, e)| + Bit(ev.Popped? && Due(sh.queue, ev.now).Some?)
           <= |AheadOf(sh.queue, e)| + Bit(QueuedEarly(sh, ev, e))
  {
    if ev.Popped? { assert QueueAfter(sh, ev) == PopDue(sh.queue, ev.now); }
    hide SharedShape, AheadOf, Due, PopDue, Possible, QueueAfter;
    if ev.Queued? {
      QueuedAhead(sh, ev, e);
    } else if ev.Popped? {
      PoppedAhead(sh, ev.now, e);
    } else {
      OthersKeepQueued(sh, ev);
      SameAhead(sh.queue, QueueAfter(sh, ev), e);
    }
  }

  lemma OthersKeepQueued(sh: Shared, ev: Event)
    requires Possible(sh, ev) && !ev.Queued? && !ev.Popped? && !ev.Frees? && !ev.Drains? && !ev.Discards?
    ensures QueueAfter(sh, ev).queued == sh.queue.queued
  {
  }

  lemma NotDue(q: Queue, now: nat)
    requires Due(q, now).None?
    ensures PopDue(q, now) == q
  {
  }

  lemma SameAhead(q: Queue, r: Queue, e: Entry)
    requires q.queued == r.queued
    ensures AheadOf(q, e) == AheadOf(r, e)
  {
  }

  // ---------------------------------------------------------------- the packet in hand

  lemma RecvIncoming(s: State, input: Input, e: Entry)
    requires Shape(s) && Enabled(s, RecvStep(input)) && e.deadline <= s.sh.clock
    ensures Incoming(Do(s, RecvStep(input)), e) + Bit(QueuedEarly(s.sh, RecvEvent(s, input), e)) <= Incoming(s, e)
  {
    assert InHand(s);
    RecvDoes(s, input);
    RecvTakes(s, input);
    HandMoves(s, input);
    CaptureExtends(s.sh, RecvEvent(s, input));
    CapturedGrows(s, RecvStep(input));
    hide Shape, Do, Enabled, Apply, RecvEvent, NextRecv;
  }

  lemma HandMoves(s: State, input: Input)
    requires RecvEnabled(s, input)
    ensures var ev := RecvEvent(s, input);
      && (ev.Queued? ==> HasId(s.recv) && ev.id == s.recv.id && !HasId(NextRecv(s, input)))
      && (ev.Captured? ==> Apply(s.sh, ev).log.captured == s.sh.log.captured + [ev.capture]
                           && ev.capture.receivedAt == s.sh.clock)
  {
    hide Admits, MustQueue, BlockedNow, QueueAfter, CountersAfter, LedgerAfter;
  }

  lemma OthersIncoming(s: State, a: Action, e: Entry)
    requires Enabled(s, a) && !a.RecvStep?
    ensures Incoming(Do(s, a), e) <= Incoming(s, e) && !EventOf(s, a).Queued?
  {
    OthersEvents(s, a);
    SameHand(s, a);
    hide Do, Enabled, EventOf;
  }

  lemma SameHand(s: State, a: Action)
    requires Enabled(s, a) && !a.RecvStep? && !EventOf(s, a).Captured?
    ensures Do(s, a).recv == s.recv && Do(s, a).sh.log.captured == s.sh.log.captured
  {
    hide EventOf, QueueAfter, CountersAfter, LedgerAfter, SendAfter;
  }

  // ---------------------------------------------------------------- one step

  /** The sender parks only when nothing is due at its clock reading. */
  lemma ParksOnlyIdle(s: State, a: Action)
    requires Enabled(s, a) && !s.send.Parked? && Do(s, a).send.Parked?
    ensures s.send.Popping? && Due(s.sh.queue, s.send.now).None?
  {
    hide Apply, Due, EventOf, CanFinish, NextStage, Park;
  }

  lemma ReadsClock(s: State, a: Action)
    requires Enabled(s, a) && Do(s, a).send.Popping?
    ensures Do(s, a).send == s.send || Do(s, a).send.now == s.sh.clock
  {
    hide Apply, Due, EventOf, CanFinish, NextStage, NextDeadline;
  }

  /** The sender keeps at work while something is due at its clock reading. */
  lemma SenderStaysAwake(s: State, a: Action, e: Entry)
    requires Awaits(s, e) && Shape(s) && Enabled(s, a)
    ensures !Do(s, a).send.Parked?
    ensures Do(s, a).send.Popping? ==> e.deadline <= Do(s, a).send.now
    ensures s.send.Popping? ==> Due(s.sh.queue, s.send.now).Some?
  {
    hide Shape, Enabled, Do, Due;
    if s.send.Popping? { SeenDue(s, e); }
    if Do(s, a).send.Parked? { ParksOnlyIdle(s, a); }
    if Do(s, a).send.Popping? { ReadsClock(s, a); }
  }

  lemma SeenDue(s: State, e: Entry)
    requires Shape(s) && Awaits(s, e) && s.send.Popping?
    ensures Due(s.sh.queue, s.send.now).Some?
  {
    DueIsLeast(s.sh.queue, s.send.now);
    var i :| 0 <= i < |s.sh.queue.queued| && s.sh.queue.queued[i] == e;
  }

  lemma SenderRankFalls(s: State, a: Action)
    requires Shape(s) && Enabled(s, a) && !s.send.Parked?
    requires s.send.Popping? ==> Due(s.sh.queue, s.send.now).Some?
    ensures var ev := EventOf(s, a);
      SendRank(Do(s, a).send) + Bit(a.SendStep?)
        <= SendRank(s.send) + PER_QUEUED * Bit(ev.Popped? && Due(s.sh.queue, ev.now).Some?)
  {
    if a.SendStep? {
      SenderDoes(s, a.io);
      SenderUses(s, a.io);
      assert EventOf(s, a) == SenderEvent(s, a.io);
    } else if a.SendPanics? {
      SenderWakes(s, a);
    } else {
      assert Do(s, a).send == s.send;
    }
    hide Shape, Due, Apply, SendRank, SenderEvent, NextSend, EventOf;
  }

  /** Each sender step brings the turn of `e` nearer, and no other step but a release puts it off. */
  lemma TurnStep(s: State, a: Action, e: Entry)
    requires Shape(s) && Awaits(s, e) && Enabled(s, a) && LeavesQueued(s.sh, EventOf(s, a), e)
    ensures Awaits(Do(s, a), e)
    ensures TurnMeasure(Do(s, a), e) + Bit(a.SendStep?) <= TurnMeasure(s, e)
  {
    hide *;
    TurnKnown(s, a, e);
    AheadAfter(s.sh, EventOf(s, a), e);
    SenderStaysAwake(s, a, e);
    ClockForward(s, a);
    SenderRankFalls(s, a);
    if a.RecvStep? {
      RecvIncoming(s, a.input, e);
      RecvEmits(s, a.input);
    } else {
      OthersIncoming(s, a, e);
      NotQueuedEarly(s.sh, EventOf(s, a), e);
    }
    TurnMeans(s, e);
    TurnMeans(Do(s, a), e);
  }

  lemma TurnKnown(s: State, a: Action, e: Entry)
    requires Shape(s) && Awaits(s, e) && Enabled(s, a)
    ensures SharedShape(s.sh) && Possible(s.sh, EventOf(s, a)) && Do(s, a).sh.queue == QueueAfter(s.sh, EventOf(s, a))
    ensures e in s.sh.queue.queued && e.deadline <= s.sh.clock && !s.send.Parked?
  {
    hide SharedShape, Exclusive, EventOf, QueueAfter, CountersAfter, LogAfter, LedgerAfter;
  }

  lemma NotQueuedEarly(sh: Shared, ev: Event, e: Entry)
    requires !ev.Queued?
    ensures Bit(QueuedEarly(sh, ev, e)) == 0
  {
  }

  lemma TurnMeans(s: State, e: Entry)
    ensures TurnMeasure(s, e) == 20 * |AheadOf(s.sh.queue, e)| + 20 * Incoming(s, e) + SendRank(s.send)
    ensures PER_QUEUED == 20
    ensures Awaits(s, e) <==> (
      && e in s.sh.queue.queued && e.deadline <= s.sh.clock
      && !s.send.Parked? && (s.send.Popping? ==> e.deadline <= s.send.now))
  {
  }

  // ---------------------------------------------------------------- whole runs

  /** The sender's steps from state `i` up to state `j`. */
  ghost function SenderSteps(actions: seq<Action>, i: nat, j: nat): nat
    requires i <= j <= |actions|
    decreases j
  {
    if i == j then 0 else SenderSteps(actions, i, j - 1) + Bit(actions[j - 1].SendStep?)
  }

  /** Between the two states `e` is not handed out, and nothing is released or discarded. */
  ghost predicate Untaken(states: seq<State>, actions: seq<Action>, i: nat, j: nat, e: Entry)
    requires i <= j <= |actions| <= |states|
  {
    forall m :: i <= m < j ==>
      Enabled(states[m], actions[m]) && LeavesQueued(states[m].sh, EventOf(states[m], actions[m]), e)
  }

  lemma {:induction false} TurnComesNearer(states: seq<State>, actions: seq<Action>, i: nat, j: nat, e: Entry)
    requires IsRun(states, actions) && i <= j <= |actions|
    requires Awaits(states[i], e) && Untaken(states, actions, i, j, e)
    ensures Awaits(states[j], e)
    ensures SenderSteps(actions, i, j) + TurnMeasure(states[j], e) <= TurnMeasure(states[i], e)
    decreases j
  {
    hide Inv, Do, Enabled, Awaits, TurnMeasure, LeavesQueued, EventOf, Shape;
    if i < j {
      TurnComesNearer(states, actions, i, j - 1, e);
      RunInv(states, actions, j - 1);
      StepOf(states, actions, j - 1);
      ShapeOf(states[j - 1]);
      TurnStep(states[j - 1], actions[j - 1], e);
    }
    hide IsRun;
  }

  lemma ShapeOf(s: State)
    requires Inv(s)
    ensures Shape(s)
  {
    hide Shape;
  }

  /**
   A packet that is due when the sender reads the clock is handed out before the sender has taken
   more than 20 steps for each packet queued before it, 20 for the one packet that may be about to be
   queued, and 2 of its own; in any run, as long as nothing is released or discarded.
   */
  lemma DuePacketGetsItsTurn(states: seq<State>, actions: seq<Action>, i: nat, j: nat, e: Entry)
    requires IsRun(states, actions) && i <= j <= |actions|
    requires states[i].send.Popping? && e in states[i].sh.queue.queued && e.deadline <= states[i].send.now
    requires Untaken(states, actions, i, j, e)
    ensures SenderSteps(actions, i, j) <= 20 * |AheadOf(states[i].sh.queue, e)| + 20 * Incoming(states[i], e) + 2
  {
    hide Inv, Untaken, Shape, Awaits, TurnMeasure, Enabled, Do;
    RunInv(states, actions, i);
    ShapeOf(states[i]);
    ClockRead(states[i]);
    TurnMeans(states[i], e);
    TurnComesNearer(states, actions, i, j, e);
    hide IsRun;
  }

  lemma ClockRead(s: State)
    requires Shape(s) && s.send.Popping?
    ensures s.send.now <= s.sh.clock
  {
  }

  // ---------------------------------------------------------------- and the turn comes

  /** The next step towards the turn: holders of locks first, then the sender. */
  function NextTurn(s: State): Action {
    if s.snap.Loading? then SnapStep
    else if SenderHoldsQueue(s.send) then SendStep(Ok)
    else if EditHoldsGate(s.edit) then EditStep
    else if RecvHoldsGate(s.recv) then RecvStep(Verdict(true, Ok))
    else SendStep(Ok)
  }

  /** The sender on its way to a due packet waits only for lock holders that can step, never for the driver. */
  lemma TurnNeverStuck(states: seq<State>, actions: seq<Action>, i: nat, e: Entry)
    requires IsRun(states, actions) && i < |states| && Awaits(states[i], e) && !states[i].send.SendExited?
    ensures Enabled(states[i], NextTurn(states[i])) && Works(states[i], NextTurn(states[i]))
  {
    RunInv(states, actions, i);
    ShapeOf(states[i]);
    hide Inv, IsRun;
    TurnCanBeTaken(states[i]);
  }

  lemma TurnCanBeTaken(s: State)
    requires Shape(s) && !s.send.Parked? && !s.send.SendExited?
    ensures Enabled(s, NextTurn(s)) && Works(s, NextTurn(s))
  {
    SenderIdFits(s);
    if s.send.Finishing? { FinishFinds(s); }
    hide SharedShape, InHand, CanFinish;
  }
}
