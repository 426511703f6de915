/** What a rule promises about delays and blocking, over every run and every interleaving of edits. */
module EnginePromises {
  import opened Core
  import opened Packet
  import opened QueueModel
  import opened QueueFacts
  import opened Rules
  import opened Engine
  import opened EngineShape
  import opened EngineFates
  import opened EngineTiming
  import opened EngineRuns

  // ---------------------------------------------------------------- delays

  /** Whatever edits occur, a queued packet is due once 5000 ms have passed since its own capture. */
  lemma DueAfterMaximumDelay(states: seq<State>, actions: seq<Action>, i: nat, k: nat)
    requires IsRun(states, actions) && i < |states| && k < |states[i].sh.queue.queued|
    ensures var sh := states[i].sh;
      var id := Id(sh.queue.queued[k].packet);
      && id < |sh.log.captured|
      && sh.queue.queued[k].deadline <= Max(sh.clock, sh.log.captured[id].receivedAt + MAX_DELAY_MS)
  {
    RunInv(states, actions, i);
    assert Timely(states[i].sh, states[i].sh.queue.queued[k]);
    hide IsRun, Orders, Books, ReleasesDone, Shape;
  }

  /** The packet's release time was recorded when it was queued, and its turn to be queued is over. */
  ghost predicate Promised(s: State, id: nat, due: nat) {
    && id < |s.sh.log.captured|
    && id in s.sh.log.promised && s.sh.log.promised[id] == due
    && (HasId(s.recv) ==> s.recv.id > id)
  }

  lemma PromiseStarts(s: State, a: Action)
    requires Shape(s) && OfferCurrent(s) && Enabled(s, a) && EventOf(s, a).Queued?
    ensures var ev := EventOf(s, a);
      && ev.id < |s.sh.log.captured|
      && var c := s.sh.log.captured[ev.id];
      && ev.delay == s.sh.rules.EffectiveDelay(c.pid, c.direction)
      && Promised(Do(s, a), ev.id, c.receivedAt + ev.delay)
  {
    if !a.RecvStep? { OthersEvents(s, a); }
    assert s.recv.Offering? && EventOf(s, a) == Queued(s.recv.id, s.recv.delay);
    hide SharedShape, Exclusive, QueueAfter, CountersAfter, LedgerAfter;
  }

  /** The receive worker keeps its packet or takes the next one captured. */
  lemma NextInHand(s: State, a: Action)
    requires Enabled(s, a) && HasId(Do(s, a).recv)
    ensures (HasId(s.recv) && Do(s, a).recv.id == s.recv.id) || Do(s, a).recv.id == |s.sh.log.captured|
  {
    hide Apply, SendAfter, EventOf, BlockedNow, MustQueue;
  }

  lemma PromisesAfter(s: State, a: Action, id: nat)
    requires Enabled(s, a) && id in s.sh.log.promised && !(EventOf(s, a).Queued? && EventOf(s, a).id == id)
    ensures id in Do(s, a).sh.log.promised && Do(s, a).sh.log.promised[id] == s.sh.log.promised[id]
  {
    hide EventOf, QueueAfter, CountersAfter, LedgerAfter;
  }

  lemma QueuesOwn(s: State, a: Action)
    requires Enabled(s, a) && EventOf(s, a).Queued?
    ensures HasId(s.recv) && EventOf(s, a).id == s.recv.id
  {
    if !a.RecvStep? { OthersEvents(s, a); }
  }

  lemma PromiseLasts(s: State, a: Action, id: nat, due: nat)
    requires Promised(s, id, due) && Enabled(s, a)
    ensures Promised(Do(s, a), id, due)
  {
    hide Enabled, Do, EventOf;
    CapturedGrows(s, a);
    if EventOf(s, a).Queued? { QueuesOwn(s, a); }
    PromisesAfter(s, a, id);
    if HasId(Do(s, a).recv) { NextInHand(s, a); }
  }

  lemma {:induction false} PromiseStays(states: seq<State>, actions: seq<Action>, i: nat, j: nat, id: nat, due: nat)
    requires IsRun(states, actions) && i <= j < |states| && Promised(states[i], id, due)
    ensures Promised(states[j], id, due)
    decreases j
  {
    hide Inv, Do, Enabled, Promised;
    if i < j {
      PromiseStays(states, actions, i, j - 1, id, due);
      RunInv(states, actions, j - 1);
      StepOf(states, actions, j - 1);
      InvShape(states[j - 1]);
      PromiseLasts(states[j - 1], actions[j - 1], id, due);
    }
    hide IsRun, Shape;
  }

  lemma InvShape(s: State)
    requires Inv(s)
    ensures Shape(s) && OfferCurrent(s) && AllTimely(s.sh)
  {
    hide Shape, OfferCurrent, AllTimely;
  }

  /** A packet is handed to the sender no earlier than the deadline its queue entry shows. */
  lemma PopIsTimely(s: State, a: Action)
    requires Shape(s) && AllTimely(s.sh) && Enabled(s, a) && EventOf(s, a).Popped?
    ensures var ev := EventOf(s, a);
      Due(s.sh.queue, ev.now).Some? ==>
        && ev.now <= s.sh.clock
        && Due(s.sh.queue, ev.now).value.deadline <= ev.now
        && Timely(s.sh, Due(s.sh.queue, ev.now).value)
  {
    var ev := EventOf(s, a);
    EventFits(s, a);
    if Due(s.sh.queue, ev.now).Some? { assert Timely(s.sh, s.sh.queue.queued[LeastIndex(s.sh.queue.queued)]); }
    hide SharedShape, Exclusive, Timely;
  }

  /** At step `i` packet `id` is put into the queue. */
  ghost predicate QueuesAt(states: seq<State>, actions: seq<Action>, i: nat, id: nat)
    requires i < |actions| && i < |states|
  {
    Enabled(states[i], actions[i]) && EventOf(states[i], actions[i]).Queued? && EventOf(states[i], actions[i]).id == id
  }

  /** At step `j` packet `id` is handed to the sender. */
  ghost predicate PopsAt(states: seq<State>, actions: seq<Action>, j: nat, id: nat)
    requires j < |actions| && j < |states|
  {
    && Enabled(states[j], actions[j]) && EventOf(states[j], actions[j]).Popped?
    && var due := Due(states[j].sh.queue, EventOf(states[j], actions[j]).now);
       due.Some? && Id(due.value.packet) == id
  }

  lemma QueuedPromise(states: seq<State>, actions: seq<Action>, i: nat, id: nat)
    requires IsRun(states, actions) && i < |actions| && QueuesAt(states, actions, i, id)
    ensures id < |states[i].sh.log.captured|
    ensures var c := states[i].sh.log.captured[id];
      Promised(states[i + 1], id, c.receivedAt + states[i].sh.rules.EffectiveDelay(c.pid, c.direction))
  {
    hide Inv, Do, Shape, OfferCurrent, AllTimely, EventOf, Promised;
    RunInv(states, actions, i);
    StepOf(states, actions, i);
    InvShape(states[i]);
    PromiseStarts(states[i], actions[i]);
  }

  lemma PoppedPromise(states: seq<State>, actions: seq<Action>, j: nat, id: nat, due: nat)
    requires IsRun(states, actions) && j < |actions| && PopsAt(states, actions, j, id) && Promised(states[j], id, due)
    requires !states[j].sh.draining && id !in states[j].sh.log.released
    ensures due <= states[j].sh.clock
  {
    hide Inv, Do, Shape, AllTimely, EventOf;
    RunInv(states, actions, j);
    InvShape(states[j]);
    PopIsTimely(states[j], actions[j]);
  }

  /**
   Queued at step `i` and popped at step `j`, a packet leaves the queue no earlier than its capture
   time plus the delay in force when it was queued, unless a release selected it or draining was set.
   */
  lemma NotBeforePromised(states: seq<State>, actions: seq<Action>, i: nat, j: nat, id: nat)
    requires IsRun(states, actions) && i < j < |actions|
    requires QueuesAt(states, actions, i, id) && PopsAt(states, actions, j, id)
    requires !states[j].sh.draining && id !in states[j].sh.log.released
    ensures id < |states[i].sh.log.captured|
    ensures var c := states[i].sh.log.captured[id];
      c.receivedAt + states[i].sh.rules.EffectiveDelay(c.pid, c.direction) <= states[j].sh.clock
  {
    QueuedPromise(states, actions, i, id);
    var c := states[i].sh.log.captured[id];
    var due := c.receivedAt + states[i].sh.rules.EffectiveDelay(c.pid, c.direction);
    PromiseStays(states, actions, i + 1, j, id, due);
    PoppedPromise(states, actions, j, id, due);
    hide *;
  }

  /**
   Outside edits, a queued packet is already due if the rules delay neither it nor any queued packet
   of its flow captured before it: each edit has released exactly what it had to.
   */
  lemma UndelayedIsNotHeld(states: seq<State>, actions: seq<Action>, i: nat, k: nat)
    requires IsRun(states, actions) && i < |states| && k < |states[i].sh.queue.queued|
    requires !EditHoldsGate(states[i].edit)
    requires UndelayedChain(states[i].sh.queue, states[i].sh.rules, k)
    ensures states[i].sh.queue.queued[k].deadline <= states[i].sh.clock
  {
    RunInv(states, actions, i);
    assert InForce(states[i]) == states[i].sh.rules;
    UndelayedIsDue(states[i].sh.queue, states[i].sh.clock, states[i].sh.rules, k);
    hide IsRun, Orders, Books, Shape;
  }

  // ---------------------------------------------------------------- Block

  lemma SentIsUnblocked(s: State, a: Action)
    requires Shape(s) && SendsUnblocked(s) && Enabled(s, a) && EventOf(s, a).Sent?
    ensures EventOf(s, a).id < |s.sh.log.captured| && !BlockedNow(s.sh, s.sh.log.captured[EventOf(s, a).id])
  {
    SenderIdFits(s);
    if a.RecvStep? {
      assert s.recv.Sending? && s.recv.stage.AtIo? && Hand(s).address.capture == s.recv.id;
    } else {
      assert a.SendStep? && s.send.InSend? && s.send.stage.AtIo?;
      assert s.sh.log.captured[s.send.id].address.capture == s.send.id;
    }
    hide QueueShape, Exclusive, BlockedNow;
  }

  /** At every successful send, the rules in force block neither all traffic nor the packet's process. */
  lemma BlockedIsNeverSent(states: seq<State>, actions: seq<Action>, i: nat)
    requires IsRun(states, actions) && i < |actions|
    requires Enabled(states[i], actions[i]) && EventOf(states[i], actions[i]).Sent?
    ensures var s := states[i];
      var id := EventOf(s, actions[i]).id;
      && id < |s.sh.log.captured|
      && var c := s.sh.log.captured[id];
         c.address.loopback
           || (!s.sh.rules.global.blockAll
               && (c.pid.Some? && c.pid.value in s.sh.rules.process ==> !s.sh.rules.process[c.pid.value].blockAll))
  {
    RunInv(states, actions, i);
    SentIsUnblocked(states[i], actions[i]);
    hide IsRun, Conserved, CountersMatch, Exits, Orders, Times, Books, Shape, EventOf, Enabled;
  }

  /**
   While the rules block a process, from the edit that blocked it until the edit that lifts the
   block, no packet attributed to it at capture is sent, whenever it was captured or queued. While
   the global rule blocks, the same holds for every packet.
   */
  lemma {:induction false} NothingSentWhileBlocked(states: seq<State>, actions: seq<Action>, i: nat, j: nat,
        pid: Option<nat>, m: nat)
    requires IsRun(states, actions) && i <= j < |states|
    requires forall k :: i <= k < j ==>
      var rules := states[k].sh.rules;
      rules.global.blockAll || (pid.Some? && pid.value in rules.process && rules.process[pid.value].blockAll)
    requires |states[i].sh.log.sent| <= m < |states[j].sh.log.sent|
    ensures var log := states[j].sh.log;
      && log.sent[m] < |log.captured|
      && (log.captured[log.sent[m]].address.loopback || log.captured[log.sent[m]].pid != pid)
    decreases j
  {
    hide Inv, Do, Enabled, EventOf;
    StepOf(states, actions, j - 1);
    LogGrows(states, actions, j - 1, j);
    if m < |states[j - 1].sh.log.sent| {
      NothingSentWhileBlocked(states, actions, i, j - 1, pid, m);
    } else {
      SentBy(states[j - 1], actions[j - 1], m);
      BlockedIsNeverSent(states, actions, j - 1);
    }
    hide IsRun;
  }

  lemma SentBy(s: State, a: Action, m: nat)
    requires Enabled(s, a) && |s.sh.log.sent| <= m < |Do(s, a).sh.log.sent|
    ensures EventOf(s, a).Sent? && EventOf(s, a).id == Do(s, a).sh.log.sent[m]
  {
    hide QueueAfter, CountersAfter, LedgerAfter, EventOf;
  }
}
