/**
 Draining terminates without waiting: once packets are due at once and the driver hands over only
 its backlog, every step of a worker, an edit, a snapshot or a stop uses up a measure, and until
 both workers have exited and the stop has returned some such step can be taken.
 */
module EngineProgress {
  import opened Core
  import opened Packet
  import opened QueueModel
  import opened QueueFacts
  import opened Rules
  import opened Engine
  import opened EngineShape
  import opened EngineFates
  import opened EngineTiming

  /** Draining, with a driver that accepts nothing new. */
  predicate DrainPhase(s: State) {
    s.sh.draining && (s.sh.io.shutdown || s.sh.io.closed)
  }

  /** A parked sender that nobody has notified found the draining queue empty. */
  ghost predicate ParksEmpty(s: State) {
    s.send.Parked? && !s.send.notified && s.sh.draining ==> s.sh.queue.queued == []
  }

  /** Draining is announced to a parked sender. */
  lemma DrainingAnnounced(s: State, a: Action)
    requires Enabled(s, a) && s.send.Parked? && Do(s, a).send.Parked? && !Do(s, a).send.notified
    ensures Do(s, a).sh.draining == s.sh.draining
  {
    assert !EventOf(s, a).Drains?;
    hide EventOf, QueueAfter, CountersAfter, LogAfter, LedgerAfter;
  }

  lemma ParksEmptyKept(s: State, a: Action)
    requires Shape(s) && DrainReadsDue(s) && ParksEmpty(s) && Enabled(s, a)
    ensures ParksEmpty(Do(s, a))
  {
    hide Shape, DrainReadsDue, Enabled, Do, Due;
    var t := Do(s, a);
    if t.send.Parked? && !t.send.notified && t.sh.draining {
      if s.send.Parked? {
        ParkedUndisturbed(s, a);
        DrainingAnnounced(s, a);
      } else {
        ParksNow(s, a);
        if s.sh.queue.queued != [] { PopsInDrain(s); }
      }
    }
  }

  /** In a drain the sender never finds a queued packet that is not yet due. */
  lemma PopsInDrain(s: State)
    requires Shape(s) && DrainReadsDue(s) && s.sh.draining && s.send.Popping? && s.sh.queue.queued != []
    ensures Due(s.sh.queue, s.send.now).Some?
  {
    DueIsLeast(s.sh.queue, s.send.now);
    assert s.sh.queue.queued[0].deadline <= s.send.now;
  }

  // ---------------------------------------------------------------- the measure

  const SIGNAL := 4
  const PER_QUEUED := 20
  const PER_BACKLOG := 37

  function FailRank(f: FailStage): nat {
    match f
    case SetAborted => SIGNAL + 4
    case SetStopping => SIGNAL + 3
    case CloseIo => SIGNAL + 2
    case DrainQueue => SIGNAL + 1
    case Failed => 0
  }

  function StageRank(stage: SendStage): nat {
    match stage
    case WantGate => 14
    case CheckAbort => 13
    case CheckBlock => 12
    case AtIo => 11
    case CountReason(_, _) => 10
    case CountDrop(_, _) => 9
    case Failing(f) => FailRank(f)
    case CreditProcess => 2
    case CreditAll => 1
    case Returned => 0
  }

  function RecvRank(pc: RecvPc): nat {
    match pc
    case Counting(_) => 51
    case CheckingAbort(_) => 50
    case CheckingGlobal(_) => 49
    case CheckingProcess(_) => 48
    case Sampling(_) => 47
    case SamplingGlobal(_) => 46
    case Eligible(_, _) => 45
    case LimitingGlobal(_) => 44
    case LimitingProcess(_) => 43
    case WantingGate(_) => 42
    case Gated(_) => 41
    case Offering(_, _) => 40
    case Sending(_, stage) => 15 + StageRank(stage)
    case Dropping(_, _, counted, _) => if counted then 16 else 17
    case Receiving => 15
    case ErrorSeen(_) => 14
    case RecvFailing(f) => 5 + FailRank(f)
    case RecvFinishing => 5
    case RecvExited => 0
  }

  function SendRank(pc: SendPc): nat {
    match pc
    case InSend(_, stage) => 6 + StageRank(stage)
    case Finishing(_) => 6
    case Parked(_, _, _, notified) => if notified then 5 else 1
    case Acquiring => 4
    case Looping => 3
    case Popping(_) => 2
    case Unwinding(_, f) => 2 + FailRank(f)
    case WantingDiscard(_) => 2
    case Discarding(_) => 1
    case SendExited => 0
  }

  function EditRank(pc: EditPc): nat {
    match pc
    case NoEdit => 0
    case EditWaiting(command) => 7 + |EditsOf(command)|
    case Editing(_, _, rest) => 6 + |rest|
    case Releasing(_) => 5
  }

  function SnapRank(pc: SnapPc): nat {
    match pc
    case NoSnap => 0
    case SnapStarting => 15
    case SnapWaiting => 14
    case Loading(k, _) => 1 + if k < LOADS then LOADS - k else 0
  }

  function StopRank(pc: StopPc): nat {
    match pc
    case NotStopping => 0
    case Swapping => 23
    case StopDraining(_) => 22
    case ShuttingDown => 17
    case StopFailing(f) => 8 + FailRank(f)
    case JoiningRecv => 8
    case JoiningSend => 7
    case Closing => 6
    case StopDiscarding => 5
    case Stopped => 0
  }

  /** Backlog and queue, weighted by the longest path of one packet, and all program points. */
  function Measure(s: State): nat {
    PER_BACKLOG * s.sh.io.backlog + PER_QUEUED * |s.sh.queue.queued|
    + RecvRank(s.recv) + SendRank(s.send) + EditRank(s.edit) + SnapRank(s.snap) + StopRank(s.stop)
  }

  /** Steps of the engine's own threads; a wake-up counts when somebody asked for it. */
  predicate Works(s: State, a: Action) {
    match a
    case RecvStep(_) => true
    case SendStep(_) => true
    case SendPanics => true
    case Wake => s.send.Parked? && s.send.notified
    case EditStep => true
    case SnapStep => true
    case StopStep(_) => true
    case _ => false
  }

  /** What the environment adds: new calls from the UI and spurious or timed-out wake-ups. */
  function Cost(s: State, a: Action): nat {
    match a
    case StartEdit(command) => EditRank(EditWaiting(command))
    case StartSnapshot => 15
    case StartStop => 23
    case Wake => if s.send.Parked? && s.send.notified then 0 else 3
    case _ => 0
  }

  lemma DrainGoesOn(s: State, a: Action)
    requires DrainPhase(s) && Enabled(s, a)
    ensures DrainPhase(Do(s, a)) && !a.DriverQueues?
  {
    hide QueueAfter, CountersAfter, LogAfter, LedgerAfter;
  }

  lemma QueueLength(sh: Shared, ev: Event)
    requires Possible(sh, ev)
    ensures |QueueAfter(sh, ev).queued| + Bit(ev.Popped? && Due(sh.queue, ev.now).Some?)
      <= |sh.queue.queued| + Bit(ev.Queued?)
  {
  }

  lemma SignalRank(pc: SendPc, ev: Event)
    ensures SendRank(Signal(pc, ev)) <= SendRank(pc) + if Notifies(ev) then SIGNAL else 0
  {
  }

  lemma StageUses(sh: Shared, c: Capture, stage: SendStage, io: IoResult)
    requires !stage.Returned? && stage != Failing(Failed)
    ensures StageRank(NextStage(sh, c, stage, io)) + (if Notifies(SendEvent(c, stage, io)) then SIGNAL else 0) + 1
      <= StageRank(stage)
    ensures var ev := SendEvent(c, stage, io); !ev.Queued? && !ev.Captured? && !ev.Popped? && !ev.DriverQueued?
  {
    hide BlockedNow;
  }

  lemma RecvUses(s: State, input: Input)
    requires StagesRunning(s) && RecvEnabled(s, input)
    ensures var ev := RecvEvent(s, input);
      RecvRank(NextRecv(s, input)) + PER_QUEUED * Bit(ev.Queued?) + (if Notifies(ev) then SIGNAL else 0) + 1
        <= RecvRank(s.recv) + PER_BACKLOG * Bit(ev.Captured?)
  {
    if s.recv.Sending? { StageUses(s.sh, Hand(s), s.recv.stage, input.io); }
    assert StageRank(WantGate) == 14 && StageRank(Returned) == 0;
    hide Admits, MustQueue, NextStage, SendEvent, StageRank;
  }

  lemma RecvPopsNothing(s: State, input: Input)
    requires RecvEnabled(s, input)
    ensures !RecvEvent(s, input).Popped? && !RecvEvent(s, input).DriverQueued?
  {
    hide Admits, MustQueue, NextStage;
  }

  /** A sender that finds something due works off its rank, and at most a packet's worth comes with the pop. */
  lemma SenderUses(s: State, io: IoResult)
    requires SenderEnabled(s) && StagesRunning(s)
    requires s.send.Popping? && s.sh.queue.queued != [] ==> Due(s.sh.queue, s.send.now).Some?
    ensures var ev := SenderEvent(s, io);
      SendRank(NextSend(s, io)) + 1 <= SendRank(s.send) + PER_QUEUED * Bit(ev.Popped? && Due(s.sh.queue, ev.now).Some?)
  {
    if s.send.Popping? && s.sh.queue.queued == [] { assert Due(s.sh.queue, s.send.now).None?; }
    hide BlockedNow, Due, CanFinish, StagesRunning;
  }

  lemma SenderAddsNothing(s: State, io: IoResult)
    requires SenderEnabled(s)
    ensures var ev := SenderEvent(s, io); !ev.Queued? && !ev.Captured? && !ev.DriverQueued?
  {
  }

  lemma OthersKeepQueue(s: State, a: Action)
    requires Shape(s) && Enabled(s, a) && !a.RecvStep? && !a.SendStep? && !a.DriverQueues?
    ensures var ev := EventOf(s, a); !ev.Queued? && !ev.Captured? && !ev.DriverQueued? && !ev.Popped?
  {
    NotSendersEvents(s, a);
    OthersEvents(s, a);
  }

  lemma SenderWakes(s: State, a: Action)
    requires Enabled(s, a) && (a.SendPanics? || a.Wake?)
    ensures SendRank(SendAfter(s, a)) + Bit(Works(s, a)) <= SendRank(s.send) + Cost(s, a)
  {
  }

  lemma StopUses(s: State, ok: bool)
    requires Enabled(s, StopStep(ok)) && Exclusive(s)
    ensures StopRank(NextStop(s, ok)) + 1 + (if Notifies(StopEvent(s, ok)) then SIGNAL else 0) <= StopRank(s.stop)
  {
  }

  lemma UiUses(s: State, a: Action)
    requires Enabled(s, a) && (a.EditStep? || a.SnapStep?)
    ensures a.EditStep? ==>
      EditRank(NextEdit(s)) + 1 + (if Notifies(EditEvent(s)) then SIGNAL else 0) <= EditRank(s.edit)
    ensures a.SnapStep? ==> SnapRank(NextSnap(s)) + 1 <= SnapRank(s.snap) && !Notifies(SnapEvent(s))
  {
  }

  lemma OthersUse(s: State, a: Action)
    requires Shape(s) && Enabled(s, a) && !a.RecvStep? && !a.SendStep?
    ensures var t := Do(s, a);
      SendRank(t.send) + EditRank(t.edit) + SnapRank(t.snap) + StopRank(t.stop) + Bit(Works(s, a))
        <= SendRank(s.send) + EditRank(s.edit) + SnapRank(s.snap) + StopRank(s.stop) + Cost(s, a)
  {
    SignalRank(s.send, EventOf(s, a));
    if a.SendPanics? || a.Wake? { SenderWakes(s, a); }
    if a.EditStep? || a.SnapStep? { UiUses(s, a); }
    if a.StopStep? { StopUses(s, a.shutdownOk); }
    hide Shape, Signal, QueueAfter, CountersAfter, LogAfter, LedgerAfter, NextStop, StopEvent, NextEdit,
      EditEvent, NextSnap, SnapEvent, SendRank, SnapRank, StopRank;
  }

  lemma MeasureMoves(s: State, a: Action)
    requires Enabled(s, a)
    ensures var ev := EventOf(s, a);
      var t := Do(s, a);
      && t.sh.io.backlog == s.sh.io.backlog + Bit(ev.DriverQueued?) - Bit(ev.Captured?)
      && |t.sh.queue.queued| + Bit(ev.Popped? && Due(s.sh.queue, ev.now).Some?) <= |s.sh.queue.queued| + Bit(ev.Queued?)
  {
    QueueLength(s.sh, EventOf(s, a));
    hide QueueAfter, CountersAfter, LogAfter, LedgerAfter, EventOf;
  }

  /** Every step of the engine's threads in a drain uses up the measure; the environment can add to it. */
  lemma DrainStep(s: State, a: Action)
    requires Shape(s) && DrainReadsDue(s) && DrainPhase(s) && Enabled(s, a)
    ensures Measure(Do(s, a)) + Bit(Works(s, a)) <= Measure(s) + Cost(s, a)
  {
    MeasureMoves(s, a);
    DrainGoesOn(s, a);
    if a.RecvStep? {
      RecvUses(s, a.input);
      RecvPopsNothing(s, a.input);
      SignalRank(s.send, RecvEvent(s, a.input));
    } else if a.SendStep? {
      if s.send.Popping? && s.sh.queue.queued != [] { PopsInDrain(s); }
      SenderUses(s, a.io);
      SenderAddsNothing(s, a.io);
    } else {
      OthersUse(s, a);
      OthersKeepQueue(s, a);
    }
    hide Shape, DrainReadsDue, RecvEvent, SenderEvent, NextRecv, NextSend, RecvRank, SendRank, EditRank,
      SnapRank, StopRank, QueueAfter, CountersAfter, LogAfter, LedgerAfter, Signal;
  }

  // ---------------------------------------------------------------- no deadlock

  predicate AllFinished(s: State) {
    s.recv.RecvExited? && s.send.SendExited? && (s.stop.NotStopping? || s.stop.Stopped?)
  }

  /** A step that can be taken next, holders of locks first. */
  function NextWork(s: State): Action {
    if s.snap.Loading? then SnapStep
    else if SenderHoldsQueue(s.send) then SendStep(Ok)
    else if EditHoldsGate(s.edit) then EditStep
    else if SenderHoldsGate(s.send) then SendStep(Ok)
    else if s.recv.Receiving? then RecvStep(RecvError(true))
    else if !s.recv.RecvExited? then RecvStep(Verdict(true, Ok))
    else if s.send.Parked? then Wake
    else if !s.send.SendExited? then SendStep(Ok)
    else StopStep(true)
  }

  /** `finish` always finds the packet it was called for. */
  lemma FinishFinds(s: State)
    requires Shape(s) && s.send.Finishing?
    ensures CanFinish(s.sh, s.send.id)
  {
    var e := s.sh.queue.inFlight[0];
    assert Genuine(s.sh.log, e.packet);
  }

  /** Between two locks nobody waits for ever: until everything has finished, some thread can step. */
  lemma DrainNeverStuck(s: State)
    requires Shape(s) && ParksEmpty(s) && WakesInTime(s) && DrainPhase(s) && !AllFinished(s)
    ensures Enabled(s, NextWork(s)) && Works(s, NextWork(s))
  {
    SenderIdFits(s);
    if s.send.Finishing? { FinishFinds(s); }
    hide SharedShape, InHand, CanFinish;
  }
}
