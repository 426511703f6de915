/** How runs end: draining makes everything due, and then both workers and the stop come to an end. */
module EngineDrain {
  import opened Core
  import opened Packet
  import opened QueueModel
  import opened QueueFacts
  import opened Rules
  import opened Engine
  import opened EngineShape
  import opened EngineFates
  import opened EngineTiming
  import opened EngineProgress
  import opened EngineRuns

  /** Once draining is set, everything queued now or later is due at once. */
  lemma DrainingIsDue(states: seq<State>, actions: seq<Action>, i: nat, k: nat)
    requires IsRun(states, actions) && i < |states| && states[i].sh.draining && k < |states[i].sh.queue.queued|
    ensures states[i].sh.queue.queued[k].deadline <= states[i].sh.clock
  {
    RunInv(states, actions, i);
    assert Timely(states[i].sh, states[i].sh.queue.queued[k]);
    hide IsRun, Orders, Books, ReleasesDone;
  }

  /**
   A draining sender never waits for a deadline: it is notified, or has nothing to send and a receiver
   to wait for.
   */
  lemma DrainNeverWaits(states: seq<State>, actions: seq<Action>, i: nat)
    requires IsRun(states, actions) && i < |states| && states[i].sh.draining && states[i].send.Parked?
    ensures var s := states[i];
      s.send.notified || (s.send.wakeAt.None? && s.sh.queue.queued == [] && !s.recv.RecvExited?)
  {
    RunInv(states, actions, i);
    hide IsRun, Orders, Books, ReleasesDone, AllTimely, SharedShape;
  }

  /** The steps from state `i` up to state `j` that belong to the engine's own threads. */
  ghost function WorkBetween(states: seq<State>, actions: seq<Action>, i: nat, j: nat): nat
    requires i <= j <= |actions| <= |states|
    decreases j
  {
    if i == j then 0 else WorkBetween(states, actions, i, j - 1) + Bit(Works(states[j - 1], actions[j - 1]))
  }

  /** What the environment adds from state `i` up to state `j`. */
  ghost function CostBetween(states: seq<State>, actions: seq<Action>, i: nat, j: nat): nat
    requires i <= j <= |actions| <= |states|
    decreases j
  {
    if i == j then 0 else CostBetween(states, actions, i, j - 1) + Cost(states[j - 1], actions[j - 1])
  }

  /**
   Draining terminates: from a state in which the driver accepts nothing new, the engine's threads
   take no more steps than the measure of that state and the UI calls made since allow.
   */
  lemma {:induction false} DrainIsBounded(states: seq<State>, actions: seq<Action>, i: nat, j: nat)
    requires IsRun(states, actions) && i <= j <= |actions| && DrainPhase(states[i])
    ensures DrainPhase(states[j])
    ensures WorkBetween(states, actions, i, j) + Measure(states[j])
      <= Measure(states[i]) + CostBetween(states, actions, i, j)
    decreases j
  {
    hide Inv, Do, Enabled, DrainPhase, Measure, Works, Cost;
    if i < j {
      DrainIsBounded(states, actions, i, j - 1);
      RunInv(states, actions, j - 1);
      StepOf(states, actions, j - 1);
      DrainKnown(states[j - 1]);
      DrainGoesOn(states[j - 1], actions[j - 1]);
      DrainStep(states[j - 1], actions[j - 1]);
    }
    hide IsRun;
  }

  lemma DrainKnown(s: State)
    requires Inv(s)
    ensures Shape(s) && DrainReadsDue(s) && ParksEmpty(s) && WakesInTime(s)
  {
    hide Shape, DrainReadsDue, ParksEmpty, WakesInTime;
  }

  /** It does not stop early: until both workers have exited and `stop` has returned, some thread can step. */
  lemma DrainNeverStops(states: seq<State>, actions: seq<Action>, i: nat)
    requires IsRun(states, actions) && i < |states| && DrainPhase(states[i])
    ensures AllFinished(states[i]) || exists a :: Enabled(states[i], a) && Works(states[i], a)
  {
    RunInv(states, actions, i);
    DrainKnown(states[i]);
    hide IsRun, Inv, Shape, DrainReadsDue, ParksEmpty, WakesInTime, DrainPhase, Works, Enabled, NextWork,
      AllFinished;
    if !AllFinished(states[i]) {
      DrainNeverStuck(states[i]);
    }
  }

  /** From any draining state the run can be continued until everything has finished. */
  lemma {:induction false} DrainCompletes(states: seq<State>, actions: seq<Action>)
      returns (longer: seq<State>, more: seq<Action>)
    requires IsRun(states, actions) && DrainPhase(states[|actions|])
    ensures IsRun(longer, more) && states <= longer && actions <= more && AllFinished(longer[|more|])
    decreases Measure(states[|actions|])
  {
    var s := states[|actions|];
    if AllFinished(s) {
      longer, more := states, actions;
    } else {
      hide Inv, Do, Enabled, DrainPhase, Measure, AllFinished, Works, NextWork, Init;
      RunInv(states, actions, |actions|);
      DrainKnown(s);
      DrainNeverStuck(s);
      var a := NextWork(s);
      WorkIsFree(s, a);
      DrainGoesOn(s, a);
      DrainStep(s, a);
      RunExtends(states, actions, a);
      hide IsRun;
      assert (states + [Do(s, a)])[|actions + [a]|] == Do(s, a);
      longer, more := DrainCompletes(states + [Do(s, a)], actions + [a]);
    }
  }

  lemma WorkIsFree(s: State, a: Action)
    requires Works(s, a)
    ensures Cost(s, a) == 0
  {
  }

  /**
   The sender leaves after the receiver and with an empty queue; the one exception is a panic in the
   middle of a send, which aborts the engine and discards the queue.
   */
  lemma SenderLeavesLast(states: seq<State>, actions: seq<Action>, i: nat)
    requires IsRun(states, actions) && i < |actions|
    requires !states[i].send.SendExited? && states[i + 1].send.SendExited?
    ensures var s := states[i];
      && states[i + 1].sh.queue.queued == []
      && (s.sh.recvDone || (s.send.Discarding? && s.sh.aborted))
  {
    RunInv(states, actions, i);
    StepOf(states, actions, i);
    SenderExits(states[i], actions[i]);
    hide IsRun, Inv, Do, Enabled;
  }

  lemma SenderExits(s: State, a: Action)
    requires Inv(s) && Enabled(s, a) && !s.send.SendExited? && Do(s, a).send.SendExited?
    ensures Do(s, a).sh.queue.queued == []
    ensures s.sh.recvDone || (s.send.Discarding? && s.sh.aborted)
  {
    hide Shape, Conserved, CountersMatch, Orders, Times, Books, SendsUnblocked, CountersAfter, LogAfter,
      LedgerAfter;
  }
}
