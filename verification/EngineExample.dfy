/** Concrete runs: a sender that oversleeps, and an edit that moves the deadline of a packet it does not release. */
module EngineExample {
  import opened Core
  import opened Packet
  import opened QueueModel
  import opened QueueFacts
  import opened Rules
  import opened Engine
  import opened EngineTiming
  import opened EngineRuns

  const FLOW := FlowKey(V4([10, 0, 0, 1]), V4([10, 0, 0, 2]), Udp, 5000, 53)

  /** A packet of the flow whose process has not been found yet, and one whose process has. */
  const UNKNOWN := Capture([], Address(0, true, false, false), 0, None, Upload, 0, Some(FLOW))
  const KNOWN := Capture([], Address(1, true, false, false), 0, Some(7), Upload, 0, Some(FLOW))

  /** All uploads are delayed by 100 ms, those of process 7 by 50 ms. */
  const TABLES := Tables(
    map[7 := DEFAULT_RULE.(uploadDelay := Some(50))], DEFAULT_RULE.(uploadDelay := Some(100)), 0)

  function Idle(): Shared {
    Shared(0, Empty(DEFAULT_LIMITS), false, false, false, false, Io(false, false, 0), TABLES, ZERO, map[],
           Log([], [], [], map[], {}, map[], []))
  }

  function At(sh: Shared, recv: RecvPc, send: SendPc, edit: EditPc): State {
    State(sh, recv, send, edit, NoSnap, NotStopping)
  }

  // ---------------------------------------------------------------- steps of a run

  ghost predicate Reaches(states: seq<State>, actions: seq<Action>, s: State) {
    IsRun(states, actions) && states[|actions|] == s
  }

  lemma Then(states: seq<State>, actions: seq<Action>, s: State, a: Action, next: State)
      returns (longer: seq<State>, more: seq<Action>)
    requires Reaches(states, actions, s) && Enabled(s, a) && Do(s, a) == next
    ensures Reaches(longer, more, next)
    ensures longer == states + [next] && more == actions + [a]
  {
    RunExtends(states, actions, a);
    longer, more := states + [next], actions + [a];
  }

  lemma Starts() returns (states: seq<State>, actions: seq<Action>)
    ensures Reaches(states, actions, At(Idle(), Receiving, Acquiring, NoEdit))
  {
    states, actions := [At(Idle(), Receiving, Acquiring, NoEdit)], [];
    assert Init(states[0]);
    hide Init;
  }

  /** The receive worker takes a step that leaves the shared data alone. */
  lemma Passes(sh: Shared, pc: RecvPc, next: RecvPc, states: seq<State>, actions: seq<Action>)
      returns (longer: seq<State>, more: seq<Action>)
    requires Reaches(states, actions, At(sh, pc, Acquiring, NoEdit))
    requires var s := At(sh, pc, Acquiring, NoEdit);
      && RecvEnabled(s, Verdict(false, Ok)) && RecvEvent(s, Verdict(false, Ok)).Quiet?
      && NextRecv(s, Verdict(false, Ok)) == next
    ensures Reaches(longer, more, At(sh, next, Acquiring, NoEdit))
  {
    var s := At(sh, pc, Acquiring, NoEdit);
    QuietApply(sh);
    assert Do(s, RecvStep(Verdict(false, Ok))) == At(sh, next, Acquiring, NoEdit);
    hide Reaches, RecvEnabled, RecvEvent, NextRecv, Apply, Do;
    longer, more := Then(states, actions, s, RecvStep(Verdict(false, Ok)), At(sh, next, Acquiring, NoEdit));
  }

  /** A parsed external packet that nothing blocks, samples for loss or charges. */
  predicate Plain(sh: Shared, c: Capture) {
    && CaptureFits(sh, c) && c.flow.Some? && !c.address.loopback && c.chargeLen == 0
    && !sh.aborted && !sh.io.shutdown && !sh.io.closed
    && !sh.rules.BlocksAll() && !sh.rules.BlocksProcess(c.pid)
    && sh.rules.ProcessLoss(c.pid, c.direction).None? && sh.rules.global.Loss(c.direction).None?
  }

  function Arriving(sh: Shared, c: Capture): Shared {
    sh.(log := sh.log.(captured := sh.log.captured + [c]))
  }

  function Counted(sh: Shared, c: Capture): Shared {
    Arriving(sh, c).(counters := sh.counters.(processed := sh.counters.processed + 1))
  }

  lemma Offers(sh: Shared, c: Capture, states: seq<State>, actions: seq<Action>)
      returns (longer: seq<State>, more: seq<Action>)
    requires Reaches(states, actions, At(sh, Receiving, Acquiring, NoEdit)) && Plain(sh, c)
    ensures Reaches(longer, more, At(Arriving(sh, c), Counting(|sh.log.captured|), Acquiring, NoEdit))
  {
    hide Reaches;
    var offered := sh.(io := sh.io.(backlog := sh.io.backlog + 1));
    longer, more := Then(states, actions, At(sh, Receiving, Acquiring, NoEdit), DriverQueues,
                         At(offered, Receiving, Acquiring, NoEdit));
    longer, more := Then(longer, more, At(offered, Receiving, Acquiring, NoEdit), RecvStep(Arrived(c)),
                         At(Arriving(sh, c), Counting(|sh.log.captured|), Acquiring, NoEdit));
  }

  lemma Arrives(sh: Shared, c: Capture, states: seq<State>, actions: seq<Action>)
      returns (longer: seq<State>, more: seq<Action>)
    requires Reaches(states, actions, At(sh, Receiving, Acquiring, NoEdit)) && Plain(sh, c)
    ensures Reaches(longer, more, At(Counted(sh, c), CheckingAbort(|sh.log.captured|), Acquiring, NoEdit))
  {
    hide Reaches;
    var id := |sh.log.captured|;
    longer, more := Offers(sh, c, states, actions);
    longer, more := Then(longer, more, At(Arriving(sh, c), Counting(id), Acquiring, NoEdit),
                         RecvStep(Verdict(false, Ok)),
                         At(Counted(sh, c), CheckingAbort(id), Acquiring, NoEdit));
  }

  /** From its arrival the packet is taken past all checks to the delay stage. */
  lemma Travels(sh: Shared, c: Capture, states: seq<State>, actions: seq<Action>)
      returns (longer: seq<State>, more: seq<Action>)
    requires Reaches(states, actions, At(sh, Receiving, Acquiring, NoEdit)) && Plain(sh, c)
    ensures Reaches(longer, more,
      At(Counted(sh, c), Offering(|sh.log.captured|, sh.rules.EffectiveDelay(c.pid, c.direction)), Acquiring, NoEdit))
  {
    hide Reaches, IsRun;
    var id, now := |sh.log.captured|, Counted(sh, c);
    longer, more := Arrives(sh, c, states, actions);
    longer, more := Passes(now, CheckingAbort(id), CheckingGlobal(id), longer, more);
    longer, more := Passes(now, CheckingGlobal(id), CheckingProcess(id), longer, more);
    longer, more := Passes(now, CheckingProcess(id), Sampling(id), longer, more);
    longer, more := Passes(now, Sampling(id), SamplingGlobal(id), longer, more);
    longer, more := Passes(now, SamplingGlobal(id), LimitingGlobal(id), longer, more);
    longer, more := Passes(now, LimitingGlobal(id), LimitingProcess(id), longer, more);
    longer, more := Passes(now, LimitingProcess(id), WantingGate(id), longer, more);
    longer, more := Passes(now, WantingGate(id), Gated(id), longer, more);
    longer, more := Passes(now, Gated(id), Offering(id, sh.rules.EffectiveDelay(c.pid, c.direction)), longer, more);
  }

  /** What is shared once the packet has been queued, if there is room for it. */
  function Waiting(sh: Shared, c: Capture): Shared {
    if c.flow.Some? && Admits(sh.queue, Pending(c)) then
      Apply(Counted(sh, c), Queued(|sh.log.captured|, sh.rules.EffectiveDelay(c.pid, c.direction)))
    else sh
  }

  lemma Waits(sh: Shared, c: Capture, states: seq<State>, actions: seq<Action>)
      returns (longer: seq<State>, more: seq<Action>)
    requires Reaches(states, actions, At(sh, Receiving, Acquiring, NoEdit)) && Plain(sh, c)
    requires sh.rules.EffectiveDelay(c.pid, c.direction) > 0 && Admits(sh.queue, Pending(c))
    ensures Reaches(longer, more, At(Waiting(sh, c), Receiving, Acquiring, NoEdit))
  {
    hide Reaches, Enqueue, Admits, HasFlow;
    var id, now := |sh.log.captured|, Counted(sh, c);
    longer, more := Travels(sh, c, states, actions);
    var s := At(now, Offering(id, sh.rules.EffectiveDelay(c.pid, c.direction)), Acquiring, NoEdit);
    longer, more := Then(longer, more, s, RecvStep(Verdict(false, Ok)),
      At(Waiting(sh, c), Receiving, Acquiring, NoEdit));
  }

  // ---------------------------------------------------------------- oversleeping

  lemma FirstIsAdmitted(limits: Limits, p: PendingPacket, deadline: nat)
    requires limits.packets > 0 && limits.pidPackets > 0 && |p.bytes| <= limits.bytes && |p.bytes| <= limits.pidBytes
    ensures Admits(Empty(limits), p)
    ensures Enqueue(Empty(limits), p, deadline) == Empty(limits).(queued := [Entry(p, deadline, 0)], nextSequence := 1)
  {
  }

  lemma WaitingFacts(sh: Shared, c: Capture)
    requires c.flow.Some? && Admits(sh.queue, Pending(c)) && !sh.draining
    ensures var t := Waiting(sh, c);
      && t.clock == sh.clock && t.rules == sh.rules && t.io == sh.io
      && t.draining == sh.draining && t.aborted == sh.aborted
      && t.log.captured == sh.log.captured + [c]
      && t.queue == Enqueue(sh.queue, Pending(c), c.receivedAt + sh.rules.EffectiveDelay(c.pid, c.direction))
  {
    hide Admits, Enqueue;
  }

  /** A run has just queued the packets `captured`, at time zero. */
  predicate JustQueued(sh: Shared, captured: seq<Capture>, queued: seq<Entry>) {
    && sh.clock == 0 && sh.rules == TABLES && !sh.draining && !sh.aborted && sh.io == Io(false, false, 0)
    && sh.log.captured == captured
    && sh.queue == Empty(DEFAULT_LIMITS).(queued := queued, nextSequence := |queued|)
  }

  lemma FirstIsPlain(sh: Shared)
    requires sh == Idle()
    ensures Plain(sh, UNKNOWN) && sh.rules.EffectiveDelay(None, Upload) == 100
  {
  }

  lemma IdleFacts()
    ensures var sh := Idle();
      && sh.queue == Empty(DEFAULT_LIMITS) && sh.clock == 0 && sh.rules == TABLES && !sh.draining && !sh.aborted
      && sh.io == Io(false, false, 0) && sh.log.captured == []
    ensures DEFAULT_LIMITS.packets >= 2 && DEFAULT_LIMITS.pidPackets >= 2
    ensures UNKNOWN.flow.Some? && |Pending(UNKNOWN).bytes| == 0 && UNKNOWN.receivedAt == 0
    ensures UNKNOWN.pid == None && UNKNOWN.direction == Upload
  {
  }

  lemma AreJustQueued(sh: Shared, captured: seq<Capture>, queued: seq<Entry>)
    requires sh.clock == 0 && sh.rules == TABLES && !sh.draining && !sh.aborted && sh.io == Io(false, false, 0)
    requires sh.log.captured == captured
    requires sh.queue == Empty(DEFAULT_LIMITS).(queued := queued, nextSequence := |queued|)
    ensures JustQueued(sh, captured, queued)
  {
  }

  lemma FirstQueued(p: PendingPacket)
    requires p == Pending(UNKNOWN)
    ensures Admits(Idle().queue, p) && JustQueued(Waiting(Idle(), UNKNOWN), [UNKNOWN], [Entry(p, 100, 0)])
  {
    hide *;
    IdleFacts();
    FirstIsPlain(Idle());
    FirstIsAdmitted(DEFAULT_LIMITS, p, 100);
    WaitingFacts(Idle(), UNKNOWN);
    AreJustQueued(Waiting(Idle(), UNKNOWN), [UNKNOWN], [Entry(p, 100, 0)]);
  }

  /** The first packet waits for 100 ms. */
  lemma FirstWaits() returns (states: seq<State>, actions: seq<Action>, sh: Shared)
    ensures Reaches(states, actions, At(sh, Receiving, Acquiring, NoEdit))
    ensures JustQueued(sh, [UNKNOWN], [Entry(Pending(UNKNOWN), 100, 0)])
  {
    hide Reaches, Admits, Enqueue, Idle, Plain, JustQueued, Waiting;
    FirstIsPlain(Idle());
    FirstQueued(Pending(UNKNOWN));
    states, actions := Starts();
    states, actions := Waits(Idle(), UNKNOWN, states, actions);
    sh := Waiting(Idle(), UNKNOWN);
  }

  /** The sender takes the queue lock and reads the clock. */
  lemma Reads(sh: Shared, states: seq<State>, actions: seq<Action>)
      returns (longer: seq<State>, more: seq<Action>)
    requires Reaches(states, actions, At(sh, Receiving, Acquiring, NoEdit))
    ensures Reaches(longer, more, At(sh, Receiving, Popping(sh.clock), NoEdit))
  {
    hide Reaches;
    QuietApply(sh);
    longer, more := Then(states, actions, At(sh, Receiving, Acquiring, NoEdit), SendStep(Ok),
                         At(sh, Receiving, Looping, NoEdit));
    longer, more := Then(longer, more, At(sh, Receiving, Looping, NoEdit), SendStep(Ok),
                         At(sh, Receiving, Popping(sh.clock), NoEdit));
  }

  /** Some run ends with the sender parked beyond the deadline of a queued packet. */
  lemma Oversleeps() returns (states: seq<State>, actions: seq<Action>)
    ensures IsRun(states, actions)
    ensures var s := states[|actions|];
      && s.send.Parked? && !s.send.notified && s.send.wakeAt.Some?
      && |s.sh.queue.queued| == 1 && s.sh.queue.queued[0].deadline < s.send.wakeAt.value
  {
    var sh;
    states, actions, sh := FirstWaits();
    states, actions := Reads(sh, states, actions);
    hide IsRun;
    ParksAfter(sh, states, actions);
    var t := Do(states[|actions|], Tick(1));
    states, actions := states + [t] + [Do(t, SendStep(Ok))], actions + [Tick(1)] + [SendStep(Ok)];
  }

  lemma ParksAfter(sh: Shared, states: seq<State>, actions: seq<Action>)
    requires Reaches(states, actions, At(sh, Receiving, Popping(sh.clock), NoEdit))
    requires |sh.queue.queued| == 1 && sh.queue.queued[0].deadline > sh.clock
    ensures var t := Do(states[|actions|], Tick(1));
      && Enabled(t, SendStep(Ok))
      && IsRun(states + [t] + [Do(t, SendStep(Ok))], actions + [Tick(1)] + [SendStep(Ok)])
      && var u := Do(t, SendStep(Ok));
         && u.send.Parked? && !u.send.notified && u.sh.queue == sh.queue
         && u.send.wakeAt == Some(sh.queue.queued[0].deadline + 1)
  {
    TimeBeforeWaitIsOverslept(states, actions, 1);
    hide IsRun;
  }

  // ---------------------------------------------------------------- a deadline moved by somebody else's edit

  lemma SecondIsAdmitted(q: Queue, limits: Limits, a: PendingPacket, b: PendingPacket, due: nat, deadline: nat)
    requires limits.packets >= 2 && limits.pidPackets >= 2
    requires |a.bytes| + |b.bytes| <= limits.bytes && |a.bytes| + |b.bytes| <= limits.pidBytes
    requires q == Empty(limits).(queued := [Entry(a, due, 0)], nextSequence := 1)
    requires a.flow == b.flow && deadline <= due
    ensures Admits(q, b)
    ensures Enqueue(q, b, deadline)
      == Empty(limits).(queued := [Entry(a, due, 0), Entry(b, due, 1)], nextSequence := 2)
  {
    assert q.queued[..0] == [];
    forall w: Weight ensures Load(w, q) == w(a) { assert Total(w, q.queued[..0]) == 0; }
  }

  lemma SecondQueued(sh: Shared, a: PendingPacket, b: PendingPacket)
    requires a == Pending(UNKNOWN) && b == Pending(KNOWN) && JustQueued(sh, [UNKNOWN], [Entry(a, 100, 0)])
    ensures Plain(sh, KNOWN) && sh.rules.EffectiveDelay(Some(7), Upload) == 50
    ensures Admits(sh.queue, b)
    ensures JustQueued(Waiting(sh, KNOWN), [UNKNOWN, KNOWN], [Entry(a, 100, 0), Entry(b, 100, 1)])
  {
    SecondIsAdmitted(sh.queue, sh.queue.limits, a, b, 100, 50);
    hide Admits, Enqueue;
    WaitingFacts(sh, KNOWN);
  }

  /** Both packets wait in one flow, the second for the first. */
  lemma BothWait() returns (states: seq<State>, actions: seq<Action>, sh: Shared)
    ensures Reaches(states, actions, At(sh, Receiving, Acquiring, NoEdit))
    ensures JustQueued(sh, [UNKNOWN, KNOWN], [Entry(Pending(UNKNOWN), 100, 0), Entry(Pending(KNOWN), 100, 1)])
  {
    hide Reaches, Admits, Enqueue, Plain, JustQueued, Waiting;
    states, actions, sh := FirstWaits();
    SecondQueued(sh, Pending(UNKNOWN), Pending(KNOWN));
    states, actions := Waits(sh, KNOWN, states, actions);
    sh := Waiting(sh, KNOWN);
  }

  const LIFT := SetGlobalRule(DEFAULT_RULE)

  /** At time 150 an edit that lifts the global delay is asked for. */
  lemma EditCalled(sh: Shared, states: seq<State>, actions: seq<Action>)
      returns (longer: seq<State>, more: seq<Action>)
    requires Reaches(states, actions, At(sh, Receiving, Acquiring, NoEdit))
    ensures Reaches(longer, more, At(sh.(clock := sh.clock + 150), Receiving, Acquiring, EditWaiting(LIFT)))
  {
    hide Reaches;
    var later := sh.(clock := sh.clock + 150);
    longer, more := Then(states, actions, At(sh, Receiving, Acquiring, NoEdit), Tick(150),
                         At(later, Receiving, Acquiring, NoEdit));
    longer, more := Then(longer, more, At(later, Receiving, Acquiring, NoEdit), StartEdit(LIFT),
                         At(later, Receiving, Acquiring, EditWaiting(LIFT)));
  }

  /** It takes the gate. */
  lemma EditStarts(sh: Shared, states: seq<State>, actions: seq<Action>)
      returns (longer: seq<State>, more: seq<Action>)
    requires Reaches(states, actions, At(sh, Receiving, Acquiring, EditWaiting(LIFT)))
    ensures Reaches(longer, more, At(sh, Receiving, Acquiring, Editing(sh.rules, LIFT, EditsOf(LIFT))))
  {
    hide Reaches;
    QuietApply(sh);
    longer, more := Then(states, actions, At(sh, Receiving, Acquiring, EditWaiting(LIFT)), EditStep,
                         At(sh, Receiving, Acquiring, Editing(sh.rules, LIFT, EditsOf(LIFT))));
  }

  /** It writes the tables and, the revision having moved, is about to release what it frees. */
  lemma EditWrites(sh: Shared, states: seq<State>, actions: seq<Action>)
      returns (longer: seq<State>, more: seq<Action>)
    requires Reaches(states, actions, At(sh, Receiving, Acquiring, Editing(sh.rules, LIFT, EditsOf(LIFT))))
    requires sh.rules.global.uploadDelay.Some?
    ensures Reaches(longer, more, At(sh.(rules := AfterEdit(sh.rules, SetGlobal(DEFAULT_RULE))), Receiving, Acquiring,
                                     Releasing(sh.rules)))
  {
    hide Reaches;
    var after := sh.(rules := AfterEdit(sh.rules, SetGlobal(DEFAULT_RULE)));
    assert EditsOf(LIFT) == [SetGlobal(DEFAULT_RULE)] && EditsOf(LIFT)[1..] == [];
    QuietApply(after);
    longer, more := Then(states, actions,
                         At(sh, Receiving, Acquiring, Editing(sh.rules, LIFT, EditsOf(LIFT))), EditStep,
                         At(after, Receiving, Acquiring, Editing(sh.rules, LIFT, [])));
    longer, more := Then(longer, more, At(after, Receiving, Acquiring, Editing(sh.rules, LIFT, [])), EditStep,
                         At(after, Receiving, Acquiring, Releasing(sh.rules)));
  }

  lemma Lifts() returns (states: seq<State>, actions: seq<Action>, sh: Shared)
    ensures Reaches(states, actions, At(sh, Receiving, Acquiring, Releasing(TABLES)))
    ensures sh.clock == 150 && sh.rules == Tables(TABLES.process, DEFAULT_RULE, 1)
    ensures sh.queue == Empty(DEFAULT_LIMITS).(
      queued := [Entry(Pending(UNKNOWN), 100, 0), Entry(Pending(KNOWN), 100, 1)], nextSequence := 2)
  {
    hide Reaches;
    states, actions, sh := BothWait();
    states, actions := EditCalled(sh, states, actions);
    sh := sh.(clock := sh.clock + 150);
    states, actions := EditStarts(sh, states, actions);
    states, actions := EditWrites(sh, states, actions);
    sh := sh.(rules := AfterEdit(sh.rules, SetGlobal(DEFAULT_RULE)));
  }

  /** The second packet is not released, but comes behind one that is. */
  lemma SecondMoves(q: Queue, a: PendingPacket, b: PendingPacket, sel: Selection)
    requires q.queued == [Entry(a, 100, 0), Entry(b, 100, 1)] && q.inFlightTail == map[]
    requires a.flow == b.flow && sel(a) && !sel(b)
    ensures var r := Release(q, 150, sel).queued;
      |r| == 2 && r[1].packet == b && r[1].deadline == 150
  {
    ReleaseClosedForm(q, 150, sel, 1);
    assert Wish(q.queued[0], 150, sel) == 150;
  }

  lemma OnlyFirstFreed(t: Tables)
    requires t == Tables(TABLES.process, DEFAULT_RULE, 1)
    ensures Freed(t)(Pending(UNKNOWN)) && !Freed(t)(Pending(KNOWN))
    ensures t.EffectiveDelay(Some(7), Upload) == 50 == TABLES.EffectiveDelay(Some(7), Upload)
  {
  }

  lemma Releases(sh: Shared)
    ensures var s := At(sh, Receiving, Acquiring, Releasing(TABLES));
      Enabled(s, EditStep) && Do(s, EditStep) == At(Apply(sh, Frees), Receiving, Acquiring, NoEdit)
    ensures Apply(sh, Frees).queue == Release(sh.queue, sh.clock, Freed(sh.rules))
  {
    hide Release, Freed;
  }

  /**
   Some run ends with a release that moves the deadline of a packet whose delay the edit leaves at
   50 ms. Attribution has changed inside the flow: the packet ahead has no process and is released.
   */
  lemma EditMovesKeptDeadline() returns (states: seq<State>, actions: seq<Action>)
    ensures IsRun(states, actions) && actions != []
    ensures var s, t := states[|actions| - 1], states[|actions|];
      && actions[|actions| - 1] == EditStep && s.edit.Releasing?
      && |s.sh.queue.queued| == 2 && |t.sh.queue.queued| == 2
      && var ahead, kept := s.sh.queue.queued[0], s.sh.queue.queued[1];
         && kept.packet.flow == ahead.packet.flow && kept.packet.pid != ahead.packet.pid
         && Freed(s.sh.rules)(ahead.packet) && !Freed(s.sh.rules)(kept.packet)
         && s.sh.rules.EffectiveDelay(kept.packet.pid, Upload) == 50
         && s.edit.before.EffectiveDelay(kept.packet.pid, Upload) == 50
         && kept.deadline < t.sh.queue.queued[1].deadline == s.sh.clock && t.sh.queue.queued[1].packet == kept.packet
  {
    var sh;
    states, actions, sh := Lifts();
    var s := At(sh, Receiving, Acquiring, Releasing(TABLES));
    OnlyFirstFreed(sh.rules);
    SecondMoves(sh.queue, Pending(UNKNOWN), Pending(KNOWN), Freed(sh.rules));
    hide Release, Freed, Tables.EffectiveDelay, Do, Enabled, IsRun;
    var t := At(Apply(sh, Frees), Receiving, Acquiring, NoEdit);
    Releases(sh);
    states, actions := Then(states, actions, s, EditStep, t);
  }
}
