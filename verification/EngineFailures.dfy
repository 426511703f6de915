/** What makes the engine fail, and what a failure or a stop brings about, however the threads interleave. */
module EngineFailures {
  import opened Core
  import opened Packet
  import opened QueueModel
  import opened QueueFacts
  import opened Rules
  import opened Engine
  import opened EngineShape
  import opened EngineFates
  import opened EngineTiming
  import opened EngineRuns
  import opened EnginePromises
  import opened EngineVerdicts
  import opened EngineChecks

  // ---------------------------------------------------------------- causes

  /**
   This step seals the failure: a receive error other than the cancellation of an orderly stop, a fatal
   send error, a panic in a send, or a receive shutdown that fails.
   */
  predicate Fails(s: State, a: Action) {
    match a
    case RecvStep(input) =>
      || (s.recv.ErrorSeen? && !(s.sh.stopping && s.recv.cancelled))
      || (s.recv.Sending? && s.recv.stage.AtIo? && input.Verdict? && input.io.Fatal?)
    case SendStep(io) => s.send.InSend? && s.send.stage.AtIo? && io.Fatal?
    case SendPanics => true
    case StopStep(ok) => s.stop.ShuttingDown? && !ok
    case _ => false
  }

  predicate StageFails(stage: SendStage) {
    (stage.CountReason? && stage.fatal) || (stage.CountDrop? && stage.fatal) || stage == Failing(SetAborted)
  }

  predicate RecvFails(pc: RecvPc) {
    pc == RecvFailing(SetAborted) || (pc.Sending? && StageFails(pc.stage))
  }

  predicate SendFails(pc: SendPc) {
    (pc.Unwinding? && pc.fail.SetAborted?) || (pc.InSend? && StageFails(pc.stage))
  }

  /** Aborted, or a thread is on its way to saying so. */
  predicate Failed(s: State) {
    s.sh.aborted || RecvFails(s.recv) || SendFails(s.send) || s.stop == StopFailing(SetAborted)
  }

  lemma StageFailsNext(sh: Shared, c: Capture, stage: SendStage, io: IoResult)
    ensures StageFails(NextStage(sh, c, stage, io)) || SendEvent(c, stage, io).Aborts? <==>
      StageFails(stage) || (stage.AtIo? && io.Fatal?)
  {
    hide BlockedNow;
  }

  lemma RecvFailsNext(s: State, input: Input)
    requires RecvEnabled(s, input)
    ensures RecvFails(NextRecv(s, input)) || RecvEvent(s, input).Aborts? <==>
      RecvFails(s.recv) || Fails(s, RecvStep(input))
  {
    if s.recv.Sending? { StageFailsNext(s.sh, Hand(s), s.recv.stage, input.io); }
    hide NextStage, SendEvent, MustQueue, Admits;
  }

  lemma SendFailsNext(s: State, io: IoResult)
    requires SenderEnabled(s)
    ensures SendFails(NextSend(s, io)) || SenderEvent(s, io).Aborts? <==> SendFails(s.send) || Fails(s, SendStep(io))
  {
    if s.send.InSend? { StageFailsNext(s.sh, s.sh.log.captured[s.send.id], s.send.stage, io); }
    hide NextStage, SendEvent, Due, CanFinish, Park;
  }

  lemma OthersFail(s: State, a: Action)
    requires Enabled(s, a) && !a.RecvStep? && !a.SendStep?
    ensures (SendFails(SendAfter(s, a)) || (a.StopStep? && NextStop(s, a.shutdownOk) == StopFailing(SetAborted))
      || EventOf(s, a).Aborts?) <==>
      (SendFails(s.send) || (a.StopStep? && s.stop == StopFailing(SetAborted)) || Fails(s, a))
  {
  }

  lemma FailStep(s: State, a: Action)
    requires Enabled(s, a)
    ensures Failed(Do(s, a)) <==> Failed(s) || Fails(s, a)
  {
    DoParts(s, a);
    StopOfDo(s, a);
    hide Do, NextRecv, NextSend, RecvEvent, SenderEvent, RecvFails, SendFails, Fails, SendAfter, NextStop, StopEvent;
    if a.RecvStep? {
      RecvFailsNext(s, a.input);
      RecvLeavesFailing(s, a.input);
    } else if a.SendStep? {
      SendFailsNext(s, a.io);
    } else {
      OthersFail(s, a);
    }
  }

  lemma StopOfDo(s: State, a: Action)
    requires Enabled(s, a)
    ensures var t := Do(s, a);
      && t.sh.aborted == (s.sh.aborted || EventOf(s, a).Aborts?)
      && t.stop == if a.StartStop? then Swapping else if a.StopStep? then NextStop(s, a.shutdownOk) else s.stop
    ensures a.StartStop? ==> s.stop.NotStopping?
  {
    hide QueueAfter, CountersAfter, LogAfter, LedgerAfter, EventOf;
  }

  lemma RecvLeavesFailing(s: State, input: Input)
    requires Enabled(s, RecvStep(input))
    ensures SendFails(SendAfter(s, RecvStep(input))) <==> SendFails(s.send)
  {
    hide RecvEvent;
  }

  lemma {:induction false} FailedHasCause(states: seq<State>, actions: seq<Action>, j: nat) returns (i: nat)
    requires IsRun(states, actions) && j < |states| && Failed(states[j])
    ensures i < j && Enabled(states[i], actions[i]) && Fails(states[i], actions[i])
    decreases j
  {
    NotFailedAtFirst(states, actions, j);
    i := j - 1;
    StepOf(states, actions, i);
    FailStep(states[i], actions[i]);
    hide IsRun, Failed, Fails, Do, Enabled;
    if Failed(states[i]) { i := FailedHasCause(states, actions, i); }
  }

  lemma NotFailedAtFirst(states: seq<State>, actions: seq<Action>, j: nat)
    requires IsRun(states, actions) && j < |states| && Failed(states[j])
    ensures j > 0
  {
    hide Do, Enabled;
  }

  /** The engine is aborted only after one of the four failures; an orderly stop alone never aborts it. */
  lemma AbortHasCause(states: seq<State>, actions: seq<Action>, j: nat) returns (i: nat)
    requires IsRun(states, actions) && j < |states| && states[j].sh.aborted
    ensures i < j && Enabled(states[i], actions[i]) && Fails(states[i], actions[i])
  {
    hide IsRun, Fails, Enabled;
    i := FailedHasCause(states, actions, j);
  }

  lemma {:induction false} FailedLasts(states: seq<State>, actions: seq<Action>, i: nat, j: nat)
    requires IsRun(states, actions) && i <= j < |states| && Failed(states[i])
    ensures Failed(states[j])
    decreases j
  {
    hide Do, Enabled, Failed, Fails;
    if i < j {
      FailedLasts(states, actions, i, j - 1);
      StepOf(states, actions, j - 1);
      FailStep(states[j - 1], actions[j - 1]);
    }
    hide IsRun;
  }

  /** Each of them aborts the engine, as soon as no thread is on its way to saying so any more. */
  lemma FailureAborts(states: seq<State>, actions: seq<Action>, i: nat, j: nat)
    requires IsRun(states, actions) && i < |actions| && i < j < |states|
    requires Enabled(states[i], actions[i]) && Fails(states[i], actions[i])
    ensures var t := states[j];
      t.sh.aborted || RecvFails(t.recv) || SendFails(t.send) || t.stop == StopFailing(SetAborted)
  {
    StepOf(states, actions, i);
    FailStep(states[i], actions[i]);
    FailedLasts(states, actions, i + 1, j);
    hide IsRun, Fails, Do, Enabled;
  }

  // ---------------------------------------------------------------- what a failure brings about

  /** A thread is in the middle of `fail`, past storing the abort. */
  predicate Midway(f: FailStage) {
    f.SetStopping? || f.CloseIo? || f.DrainQueue?
  }

  predicate SomeoneMidway(s: State) {
    || (s.recv.RecvFailing? && Midway(s.recv.fail))
    || (s.recv.Sending? && s.recv.stage.Failing? && Midway(s.recv.stage.fail))
    || (s.send.InSend? && s.send.stage.Failing? && Midway(s.send.stage.fail))
    || (s.send.Unwinding? && Midway(s.send.fail))
    || (s.stop.StopFailing? && Midway(s.stop.fail))
  }

  /** What has been done by the stage of `fail` a thread is at. */
  predicate DoneBy(sh: Shared, f: FailStage) {
    && (!f.SetAborted? ==> sh.aborted)
    && (f.CloseIo? || f.DrainQueue? ==> sh.stopping)
    && (f.DrainQueue? ==> sh.io.closed)
  }

  predicate StagesDone(s: State) {
    && (s.recv.RecvFailing? ==> DoneBy(s.sh, s.recv.fail))
    && (s.recv.Sending? && s.recv.stage.Failing? ==> DoneBy(s.sh, s.recv.stage.fail))
    && (s.send.InSend? && s.send.stage.Failing? ==> DoneBy(s.sh, s.send.stage.fail))
    && (s.send.Unwinding? ==> DoneBy(s.sh, s.send.fail))
    && (s.stop.StopFailing? ==> DoneBy(s.sh, s.stop.fail))
  }

  predicate StopUnderWay(pc: StopPc) {
    !pc.NotStopping? && !pc.Swapping?
  }

  predicate AfterShutdown(pc: StopPc) {
    pc.JoiningRecv? || pc.JoiningSend? || pc.Closing? || pc.StopDiscarding? || pc.Stopped?
  }

  /** What the flags say about failures and the stop. */
  predicate FlagsFit(s: State) {
    && StagesDone(s)
    && (s.sh.aborted && !SomeoneMidway(s) ==> s.sh.stopping && s.sh.io.closed && s.sh.draining)
    && (s.sh.stopping ==> s.sh.aborted || StopUnderWay(s.stop))
    && (StopUnderWay(s.stop) ==> s.sh.stopping)
    && (StopUnderWay(s.stop) && !s.stop.StopDraining? ==> s.sh.draining)
    && (s.stop.StopDraining? && s.stop.already ==> s.sh.aborted)
    && (AfterShutdown(s.stop) ==> s.sh.io.shutdown || s.sh.aborted)
    && (s.stop.StopDiscarding? || s.stop.Stopped? ==> s.sh.io.closed)
  }

  /** The flags are only ever set. */
  predicate MoreFlags(a: Shared, b: Shared) {
    && (a.aborted ==> b.aborted) && (a.stopping ==> b.stopping) && (a.draining ==> b.draining)
    && (a.io.closed ==> b.io.closed) && (a.io.shutdown ==> b.io.shutdown)
  }

  lemma FlagsGrow(sh: Shared, ev: Event)
    requires Possible(sh, ev)
    ensures var r := Apply(sh, ev);
      && r.aborted == (sh.aborted || ev.Aborts?) && r.stopping == (sh.stopping || ev.Stops?)
      && r.draining == (sh.draining || ev.Drains?) && r.io.closed == (sh.io.closed || ev.Closes?)
      && r.io.shutdown == (sh.io.shutdown || ev.Shuts?)
  {
    hide QueueAfter, CountersAfter, LogAfter, LedgerAfter;
  }

  lemma StagesDoneKept(s: State, a: Action)
    requires StagesDone(s) && Enabled(s, a)
    ensures StagesDone(Do(s, a))
  {
    hide *;
    if a.RecvStep? {
      RecvStagesDone(s, a.input);
    } else if a.SendStep? {
      SendStagesDone(s, a.io);
    } else {
      OtherStagesDone(s, a);
    }
  }

  lemma RecvStagesDone(s: State, input: Input)
    requires StagesDone(s) && Enabled(s, RecvStep(input))
    ensures StagesDone(Do(s, RecvStep(input)))
  {
    hide Apply, NextRecv, RecvEvent, NextStage, SendEvent, DoneBy, Do, Possible;
    RecvDoes(s, input);
    var ev := RecvEvent(s, input);
    FlagsGrow(s.sh, ev);
    RecvLeaves(s, input);
    RecvFailsOn(s, input);
    if s.recv.Sending? { StageDone(s.sh, Apply(s.sh, ev), Hand(s), s.recv.stage, input.io); }
    if s.recv.RecvFailing? { FailDone(s.sh, Apply(s.sh, ev), s.recv.fail); }
    KeepsDone(s.sh, Apply(s.sh, ev));
    NothingYet(Apply(s.sh, ev));
  }

  /** How the receive worker comes to a stage of `fail`. */
  lemma RecvFailsOn(s: State, input: Input)
    requires RecvEnabled(s, input)
    ensures var n, ev := NextRecv(s, input), RecvEvent(s, input);
      && (n.RecvFailing? ==>
           n.fail.SetAborted? || (s.recv.RecvFailing? && n.fail == NextFail(s.recv.fail) && !n.fail.Failed?))
      && (s.recv.RecvFailing? ==> ev == FailEvent(s.recv.fail))
      && (s.recv.Sending? ==> input.Verdict? && ev == SendEvent(Hand(s), s.recv.stage, input.io))
      && (n.Sending? && n.stage.Failing? ==>
           s.recv.Sending? && n.stage == NextStage(s.sh, Hand(s), s.recv.stage, input.io))
  {
    hide NextStage, SendEvent, MustQueue, Admits;
  }

  lemma NothingYet(sh: Shared)
    ensures DoneBy(sh, SetAborted)
  {
  }

  lemma RecvLeaves(s: State, input: Input)
    requires Enabled(s, RecvStep(input))
    ensures var t := Do(s, RecvStep(input));
      && t.stop == s.stop
      && (t.send.Unwinding? ==> t.send == s.send) && (t.send.InSend? ==> t.send == s.send)
  {
    hide Apply, EventOf, NextRecv;
  }

  lemma OtherStagesDone(s: State, a: Action)
    requires StagesDone(s) && Enabled(s, a) && !a.RecvStep? && !a.SendStep?
    ensures StagesDone(Do(s, a))
  {
    FlagsGrow(s.sh, EventOf(s, a));
    hide Apply;
  }

  lemma SendStagesDone(s: State, io: IoResult)
    requires StagesDone(s) && Enabled(s, SendStep(io))
    ensures StagesDone(Do(s, SendStep(io)))
  {
    var ev := SenderEvent(s, io);
    SenderDoes(s, io);
    FlagsGrow(s.sh, ev);
    if s.send.InSend? { StageDone(s.sh, Apply(s.sh, ev), s.sh.log.captured[s.send.id], s.send.stage, io); }
    SendLeaves(s, io);
    hide Apply, Due, BlockedNow, Park, NextStage, SendEvent, DoneBy, CanFinish;
    if s.send.Unwinding? { FailDone(s.sh, Apply(s.sh, ev), s.send.fail); }
    KeepsDone(s.sh, Apply(s.sh, ev));
  }

  /** What one step of `fail` does is done at the next. */
  lemma FailDone(sh: Shared, after: Shared, f: FailStage)
    requires DoneBy(sh, f) && MoreFlags(sh, after)
    requires var ev := FailEvent(f);
      (ev.Aborts? ==> after.aborted) && (ev.Stops? ==> after.stopping) && (ev.Closes? ==> after.io.closed)
    ensures !NextFail(f).Failed? ==> DoneBy(after, NextFail(f))
  {
  }

  lemma StageDone(sh: Shared, after: Shared, c: Capture, stage: SendStage, io: IoResult)
    requires (stage.Failing? ==> DoneBy(sh, stage.fail)) && MoreFlags(sh, after)
    requires var ev := SendEvent(c, stage, io);
      (ev.Aborts? ==> after.aborted) && (ev.Stops? ==> after.stopping) && (ev.Closes? ==> after.io.closed)
    ensures NextStage(sh, c, stage, io).Failing? ==> DoneBy(after, NextStage(sh, c, stage, io).fail)
  {
    hide BlockedNow;
  }

  lemma KeepsDone(sh: Shared, after: Shared)
    requires MoreFlags(sh, after)
    ensures forall f :: DoneBy(sh, f) ==> DoneBy(after, f)
  {
  }

  lemma SendLeaves(s: State, io: IoResult)
    requires Enabled(s, SendStep(io))
    ensures var t := Do(s, SendStep(io)); t.recv == s.recv && t.stop == s.stop
  {
    hide Apply, EventOf, NextSend;
  }

  lemma SharedOfDo(s: State, a: Action)
    requires Enabled(s, a)
    ensures Do(s, a).sh == Apply(s.sh, EventOf(s, a))
  {
    hide Apply, EventOf;
  }

  /** A thread that leaves `fail` has just set draining; one that enters its middle has just stored the abort. */
  lemma MidwayMoves(s: State, a: Action)
    requires StagesRunning(s) && StagesDone(s) && Enabled(s, a)
    ensures SomeoneMidway(s) && !SomeoneMidway(Do(s, a)) ==>
      EventOf(s, a).Drains? && s.sh.stopping && s.sh.io.closed
    ensures EventOf(s, a).Aborts? ==> SomeoneMidway(Do(s, a))
  {
    hide Apply, MustQueue, BlockedNow, Due, Park, CanFinish;
  }

  lemma AbortCarriedOut(s: State, a: Action)
    requires StagesRunning(s) && FlagsFit(s) && Enabled(s, a)
    ensures var t := Do(s, a); t.sh.aborted && !SomeoneMidway(t) ==> t.sh.stopping && t.sh.io.closed && t.sh.draining
  {
    MidwayMoves(s, a);
    FlagsGrow(s.sh, EventOf(s, a));
    SharedOfDo(s, a);
    hide Apply, Do, EventOf, StagesDone, SomeoneMidway, StagesRunning;
  }

  /** `stopping` is set by a stop past its first step, or by a failure. */
  lemma StoppingMoves(s: State, a: Action)
    requires StagesDone(s) && Enabled(s, a)
    ensures EventOf(s, a).Stops? ==> s.sh.aborted || (a.StopStep? && s.stop.Swapping?)
    ensures var n := Do(s, a).stop;
      && (StopUnderWay(s.stop) ==> StopUnderWay(n))
      && (StopUnderWay(n) && !StopUnderWay(s.stop) ==>
           a.StopStep? && s.stop.Swapping? && EventOf(s, a).Stops? && n == StopDraining(s.sh.stopping))
      && (StopUnderWay(n) && !n.StopDraining? ==>
           (StopUnderWay(s.stop) && !s.stop.StopDraining?) || EventOf(s, a).Drains?)
      && (AfterShutdown(n) && !AfterShutdown(s.stop) ==>
           || (s.stop.StopDraining? && s.stop.already)
           || EventOf(s, a).Shuts?
           || s.stop.StopFailing?)
      && (n.StopDiscarding? || n.Stopped? ==> s.stop.StopDiscarding? || s.stop.Stopped? || EventOf(s, a).Closes?)
      && (n.StopDraining? && s.stop.StopDraining? ==> n == s.stop)
  {
    hide Apply;
  }

  lemma StopKept(s: State, a: Action)
    requires StagesRunning(s) && FlagsFit(s) && Enabled(s, a)
    ensures var t := Do(s, a);
      && (t.sh.stopping ==> t.sh.aborted || StopUnderWay(t.stop))
      && (StopUnderWay(t.stop) ==> t.sh.stopping)
      && (StopUnderWay(t.stop) && !t.stop.StopDraining? ==> t.sh.draining)
      && (t.stop.StopDraining? && t.stop.already ==> t.sh.aborted)
      && (AfterShutdown(t.stop) ==> t.sh.io.shutdown || t.sh.aborted)
      && (t.stop.StopDiscarding? || t.stop.Stopped? ==> t.sh.io.closed)
  {
    StoppingMoves(s, a);
    FlagsGrow(s.sh, EventOf(s, a));
    SharedOfDo(s, a);
    StopFailedAborts(s);
    hide Apply, Do, EventOf, StagesDone, SomeoneMidway, StagesRunning;
  }

  lemma StopFailedAborts(s: State)
    requires StagesDone(s)
    ensures s.stop.StopFailing? && !s.stop.fail.SetAborted? ==> s.sh.aborted
  {
  }

  lemma FlagsFitKept(s: State, a: Action)
    requires StagesRunning(s) && FlagsFit(s) && Enabled(s, a)
    ensures FlagsFit(Do(s, a))
  {
    StagesDoneKept(s, a);
    AbortCarriedOut(s, a);
    StopKept(s, a);
    hide Do, Enabled, StagesDone, SomeoneMidway, StagesRunning;
  }

  lemma FlagsFitAtFirst(s: State)
    requires Init(s)
    ensures FlagsFit(s)
  {
  }

  lemma {:induction false} RunFlags(states: seq<State>, actions: seq<Action>, i: nat)
    requires IsRun(states, actions) && i < |states|
    ensures FlagsFit(states[i])
  {
    hide FlagsFit, Do, Enabled, Inv, Init;
    if i == 0 {
      FlagsFitAtFirst(states[0]);
    } else {
      RunFlags(states, actions, i - 1);
      StepOf(states, actions, i - 1);
      RunningStages(states, actions, i - 1);
      FlagsFitKept(states[i - 1], actions[i - 1]);
    }
  }

  lemma RunningStages(states: seq<State>, actions: seq<Action>, i: nat)
    requires IsRun(states, actions) && i < |states|
    ensures StagesRunning(states[i])
  {
    RunInv(states, actions, i);
    InvShape(states[i]);
    hide IsRun, Inv, OfferCurrent, AllTimely, SharedShape, LocksHeldOnce, StagesRunning;
  }

  /**
   Once the engine is aborted and no thread is in the middle of `fail`, it is stopping, the driver handle
   is closed and everything queued is due at once; a failed engine never just goes on.
   */
  lemma FailureIsComplete(states: seq<State>, actions: seq<Action>, i: nat)
    requires IsRun(states, actions) && i < |states| && states[i].sh.aborted && !SomeoneMidway(states[i])
    ensures states[i].sh.stopping && states[i].sh.io.closed && states[i].sh.draining
  {
    RunFlags(states, actions, i);
    hide IsRun, StagesDone, SomeoneMidway;
  }

  /**
   While a stop waits for the workers, new packets are due at once and the driver has been told to hand
   over no more, by the stop itself or by a failure; after the stop its handle is closed.
   */
  lemma StopTellsEveryone(states: seq<State>, actions: seq<Action>, i: nat)
    requires IsRun(states, actions) && i < |states| && AfterShutdown(states[i].stop)
    ensures states[i].sh.stopping && states[i].sh.draining
    ensures states[i].sh.io.shutdown || states[i].sh.aborted
    ensures states[i].stop.Stopped? ==> states[i].sh.io.closed
  {
    RunFlags(states, actions, i);
    hide IsRun, StagesDone, SomeoneMidway;
  }

  /** The stop has found a failure under way and leaves the driver to it. */
  predicate LeavesDriver(pc: StopPc) {
    (pc.StopDraining? && pc.already) || AfterShutdown(pc)
  }

  lemma LeavesItAlone(s: State, a: Action)
    requires Enabled(s, a) && LeavesDriver(s.stop)
    ensures LeavesDriver(Do(s, a).stop) && !EventOf(s, a).Shuts?
  {
    hide Apply;
  }

  /** A stop that finds `stopping` already set leaves the receive side of the driver alone, for good. */
  lemma {:induction false} StopAsksOnce(states: seq<State>, actions: seq<Action>, i: nat, j: nat)
    requires IsRun(states, actions) && i < j < |states|
    requires actions[i].StopStep? && states[i].stop.Swapping? && states[i].sh.stopping
    ensures LeavesDriver(states[j].stop) && states[j].sh.io.shutdown == states[i].sh.io.shutdown
    decreases j
  {
    assert |states| == |actions| + 1;
    var k := j - 1;
    StepOf(states, actions, k);
    SharedOfDo(states[k], actions[k]);
    FlagsGrow(states[k].sh, EventOf(states[k], actions[k]));
    if k == i {
      SwapFinds(states[i], actions[i]);
    } else {
      StopAsksOnce(states, actions, i, k);
      LeavesItAlone(states[k], actions[k]);
    }
    hide IsRun, Do, Enabled, EventOf, Apply;
  }

  lemma SwapFinds(s: State, a: Action)
    requires Enabled(s, a) && a.StopStep? && s.stop.Swapping?
    ensures Do(s, a).stop == StopDraining(s.sh.stopping) && EventOf(s, a).Stops?
  {
    hide Apply;
  }

  /** One that finds it unset shuts the receive side down, and a shutdown that fails is a failure. */
  lemma ShutsOrFails(s: State, ok: bool)
    requires Enabled(s, StopStep(ok))
    ensures s.stop == StopDraining(false) ==> Do(s, StopStep(ok)).stop.ShuttingDown?
    ensures s.stop.ShuttingDown? ==>
      if ok then Do(s, StopStep(ok)).sh.io.shutdown && Do(s, StopStep(ok)).stop.JoiningRecv?
      else Do(s, StopStep(ok)).stop == StopFailing(SetAborted)
  {
    hide QueueAfter, CountersAfter, LogAfter, LedgerAfter;
  }

  // ---------------------------------------------------------------- no sends after a failure

  predicate PastAbortCheck(stage: SendStage) {
    stage.CheckBlock? || stage.AtIo?
  }

  /** A worker has made the last abort check for packet `id` and is about to call the driver. */
  predicate AtDriver(s: State, id: nat) {
    || (s.recv.Sending? && s.recv.id == id && PastAbortCheck(s.recv.stage))
    || (s.send.InSend? && s.send.id == id && PastAbortCheck(s.send.stage))
  }

  lemma WasAtDriver(s: State, a: Action, id: nat)
    requires Enabled(s, a) && s.sh.aborted && AtDriver(Do(s, a), id)
    ensures AtDriver(s, id)
  {
    hide Apply, EventOf, MustQueue, Due, BlockedNow;
  }

  lemma {:induction false} StaysAborted(states: seq<State>, actions: seq<Action>, i: nat, j: nat)
    requires IsRun(states, actions) && i <= j < |states| && states[i].sh.aborted
    ensures states[j].sh.aborted
    decreases j
  {
    if i < j {
      StaysAborted(states, actions, i, j - 1);
      StepOf(states, actions, j - 1);
      StopOfDo(states[j - 1], actions[j - 1]);
      hide Do, Enabled;
    }
    hide IsRun;
  }

  lemma {:induction false} AtDriverBefore(states: seq<State>, actions: seq<Action>, i: nat, k: nat, id: nat)
    requires IsRun(states, actions) && i <= k < |states| && states[i].sh.aborted && AtDriver(states[k], id)
    ensures AtDriver(states[i], id)
    decreases k
  {
    assert |states| == |actions| + 1;
    hide *;
    if i < k {
      var m := k - 1;
      StaysAborted(states, actions, i, m);
      StepOf(states, actions, m);
      WasAtDriver(states[m], actions[m], id);
      AtDriverBefore(states, actions, i, m, id);
    }
  }

  predicate SeesError(pc: RecvPc) {
    pc.ErrorSeen? || pc.RecvFailing?
  }

  lemma AbortedLeaves(s: State, a: Action)
    requires Enabled(s, a) && s.sh.aborted && !SeesError(s.recv)
    ensures !SeesError(Do(s, a).recv)
  {
    hide Apply, EventOf, MustQueue, NextStage;
  }

  /** A receive error after an abort is no new failure: the worker just ends. */
  lemma {:induction false} AbortedReceiverEnds(states: seq<State>, actions: seq<Action>, i: nat, j: nat)
    requires IsRun(states, actions) && i <= j < |states| && states[i].sh.aborted && !SeesError(states[i].recv)
    ensures !SeesError(states[j].recv)
    decreases j
  {
    assert |states| == |actions| + 1;
    hide *;
    if i < j {
      var m := j - 1;
      AbortedReceiverEnds(states, actions, i, m);
      StaysAborted(states, actions, i, m);
      StepOf(states, actions, m);
      AbortedLeaves(states[m], actions[m]);
    }
  }

  /** After an abort nothing is sent but what a worker had past its last abort check at that moment. */
  lemma AbortStopsSends(states: seq<State>, actions: seq<Action>, i: nat, j: nat, id: nat)
    requires IsRun(states, actions) && i <= j < |states| && states[i].sh.aborted
    requires id in states[j].sh.log.sent && id !in states[i].sh.log.sent
    ensures AtDriver(states[i], id)
  {
    var k := SentAt(states, actions, j, id);
    if k < i { SentByThen(states, actions, k, i, id); }
    SentFromDriver(states, actions, k, id);
    hide *;
    AtDriverBefore(states, actions, i, k, id);
  }

  lemma SentByThen(states: seq<State>, actions: seq<Action>, k: nat, i: nat, id: nat)
    requires IsRun(states, actions) && k < i < |states| && Enabled(states[k], actions[k])
    requires EventOf(states[k], actions[k]) == Sent(id)
    ensures id in states[i].sh.log.sent
  {
    StepOf(states, actions, k);
    SentIsLogged(states[k], actions[k], id);
    LogGrows(states, actions, k + 1, i);
    hide IsRun, Do, Enabled, EventOf;
  }

  lemma SentIsLogged(s: State, a: Action, id: nat)
    requires Enabled(s, a) && EventOf(s, a) == Sent(id)
    ensures id in Do(s, a).sh.log.sent
  {
    assert Do(s, a).sh.log.sent == s.sh.log.sent + [id] by { hide QueueAfter, CountersAfter, LedgerAfter, EventOf; }
    hide Do, EventOf, Enabled;
  }

  lemma SentFromDriver(states: seq<State>, actions: seq<Action>, k: nat, id: nat)
    requires IsRun(states, actions) && k < |actions| && Enabled(states[k], actions[k])
    requires EventOf(states[k], actions[k]) == Sent(id)
    ensures AtDriver(states[k], id)
  {
    RunInv(states, actions, k);
    InvShape(states[k]);
    hide IsRun, Inv, Enabled, EventOf, OfferCurrent, AllTimely, Shape;
    SendsItsOwn(states[k], actions[k], id);
  }
}
