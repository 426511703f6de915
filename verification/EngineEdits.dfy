/** What a rule edit does to the tables and to the packets already queued, over every run. */
module EngineEdits {
  import opened Core
  import opened Packet
  import opened QueueModel
  import opened QueueFacts
  import opened Rules
  import opened RuleFacts
  import opened Engine
  import opened EngineShape
  import opened EngineFates
  import opened EngineTiming
  import opened EngineRuns
  import opened EnginePromises
  import opened EngineVerdicts
  import opened EngineChecks

  // ---------------------------------------------------------------- the tables

  /** The tables while an edit is under way: what it found, and what its command makes of them. */
  lemma EditMakes(states: seq<State>, actions: seq<Action>, i: nat)
    requires IsRun(states, actions) && i < |states| && states[i].edit.Editing?
    ensures AfterEdits(states[i].sh.rules, states[i].edit.rest)
      == AfterEdits(states[i].edit.before, EditsOf(states[i].edit.command))
  {
    RunInv(states, actions, i);
    assert EditFollows(states[i]) by { InvEdits(states[i]); }
    hide IsRun, Inv;
  }

  lemma InvEdits(s: State)
    requires Inv(s)
    ensures EditFollows(s) && OfferCurrent(s)
  {
    hide Shape, OfferCurrent, AllTimely, EditFollows, NothingWithheld;
  }

  /**
   A step of an edit or of any other thread: the tables change only while the edit holds the send gate.
   When its last write is done they are what its command makes of those it found, and the queue is
   released exactly if their revision differs.
   */
  lemma EditEnds(states: seq<State>, actions: seq<Action>, i: nat)
    requires IsRun(states, actions) && i < |actions|
    ensures states[i + 1].sh.rules != states[i].sh.rules ==> actions[i].EditStep? && states[i].edit.Editing?
    ensures actions[i].EditStep? && states[i].edit.EditWaiting? ==>
      && states[i + 1].edit.Editing? && states[i + 1].edit.before == states[i].sh.rules
      && states[i + 1].edit.command == states[i].edit.command
    ensures actions[i].EditStep? && states[i].edit.Editing? && states[i].edit.rest == [] ==>
      && states[i].sh.rules == AfterEdits(states[i].edit.before, EditsOf(states[i].edit.command))
      && states[i + 1].edit ==
           if states[i].sh.rules.revision != states[i].edit.before.revision then Releasing(states[i].edit.before)
           else NoEdit
  {
    StepOf(states, actions, i);
    if states[i].edit.Editing? { EditMakes(states, actions, i); }
    EditTurns(states[i], actions[i]);
    hide IsRun, Do, Enabled, EditsOf;
  }

  lemma EditTurns(s: State, a: Action)
    requires Enabled(s, a)
    ensures var t := Do(s, a);
      && (t.sh.rules != s.sh.rules ==> a.EditStep? && s.edit.Editing?)
      && (a.EditStep? && s.edit.EditWaiting? ==>
           t.edit == Editing(s.sh.rules, s.edit.command, EditsOf(s.edit.command)))
      && (a.EditStep? && s.edit.Editing? && s.edit.rest == [] ==>
           t.edit == if s.sh.rules.revision != s.edit.before.revision then Releasing(s.edit.before) else NoEdit)
  {
    RulesMove(s, a);
    hide QueueAfter, CountersAfter, LogAfter, LedgerAfter, EditsOf, AfterEdit, EventOf;
  }

  // ---------------------------------------------------------------- the queue

  /** The edit lets the packet go: it is blocked now, or not delayed any more. */
  predicate LetGo(t: Tables, p: PendingPacket) {
    || t.global.blockAll
    || (p.pid.Some? && p.pid.value in t.process && t.process[p.pid.value].blockAll)
    || (var own := RuleOf(t, p.pid);
        if p.direction.Download? then
          Capped(if own.downloadDelay.Some? then own.downloadDelay else t.global.downloadDelay) == 0
        else
          Capped(if own.uploadDelay.Some? then own.uploadDelay else t.global.uploadDelay) == 0)
  }

  lemma FreedMeans(t: Tables, p: PendingPacket)
    ensures Freed(t)(p) <==> LetGo(t, p)
  {
    DelayMeans(t, p.pid);
  }

  /** All queued packets of the flow up to position `k` are let go. */
  ghost predicate FlowLetGo(t: Tables, q: Queue, k: nat)
    requires k < |q.queued|
  {
    forall j :: 0 <= j <= k && q.queued[j].packet.flow == q.queued[k].packet.flow ==> LetGo(t, q.queued[j].packet)
  }

  /** What a release does to the entry at position `k`. */
  ghost predicate ReleasedRight(sh: Shared, after: Queue, k: nat)
    requires k < |sh.queue.queued|
  {
    && |after.queued| == |sh.queue.queued|
    && var e, r := sh.queue.queued[k], after.queued[k];
      && r.packet == e.packet && r.sequence == e.sequence
      && r.deadline <= Max(e.deadline, sh.clock)
      && (FlowLetGo(sh.rules, sh.queue, k) ==> r.deadline <= sh.clock)
      && (!LetGo(sh.rules, e.packet) && sh.clock <= e.deadline ==> r.deadline == e.deadline)
      && (!LetGo(sh.rules, e.packet) ==> e.deadline <= r.deadline)
  }

  lemma ReleaseIsRight(sh: Shared, k: nat)
    requires SharedShape(sh) && k < |sh.queue.queued|
    ensures ReleasedRight(sh, Release(sh.queue, sh.clock, Freed(sh.rules)), k)
  {
    var q, sel := sh.queue, Freed(sh.rules);
    assert Ordered(q) && TailsPast(q, sh.clock);
    forall p { FreedMeans(sh.rules, p); }
    hide SharedShape, Ordered, Release, Freed, LetGo;
    ReleaseKeepsPackets(q, sh.clock, sel);
    ReleaseBounds(q, sh.clock, sel, sh.clock, k);
    ReleaseClosedForm(q, sh.clock, sel, k);
  }

  /**
   When an edit has moved the revision, each queued packet that it lets go, together with all queued
   before it in its flow, is due at once. A packet that it does not let go keeps its deadline unless
   that has passed, and no packet is put off beyond now.
   */
  lemma EditReleases(states: seq<State>, actions: seq<Action>, i: nat, k: nat)
    requires IsRun(states, actions) && i < |actions| && actions[i].EditStep? && states[i].edit.Releasing?
    requires k < |states[i].sh.queue.queued|
    ensures ReleasedRight(states[i].sh, states[i + 1].sh.queue, k)
    ensures states[i + 1].edit.NoEdit?
    ensures states[i].send.Parked? ==> states[i + 1].send == states[i].send.(notified := true)
  {
    RunInv(states, actions, i);
    StepOf(states, actions, i);
    InvShape(states[i]);
    hide IsRun, Inv, OfferCurrent, AllTimely, ReleasedRight, Shape, Enabled;
    ShapeShared(states[i]);
    ReleaseTurns(states[i], actions[i]);
    ReleaseIsRight(states[i].sh, k);
  }

  lemma ReleaseTurns(s: State, a: Action)
    requires Enabled(s, a) && a.EditStep? && s.edit.Releasing?
    ensures var t := Do(s, a);
      && t.sh.queue == Release(s.sh.queue, s.sh.clock, Freed(s.sh.rules))
      && t.edit.NoEdit? && (s.send.Parked? ==> t.send == s.send.(notified := true))
  {
    hide Release, CountersAfter, LogAfter, LedgerAfter;
  }

  // ---------------------------------------------------------------- nothing is sent before its time

  /** This step is an edit's release, and lets packet `id` go. */
  ghost predicate Releases(s: State, a: Action, id: nat) {
    && a.EditStep? && s.edit.Releasing?
    && exists k :: 0 <= k < |s.sh.queue.queued| && Id(s.sh.queue.queued[k].packet) == id
                   && LetGo(s.sh.rules, s.sh.queue.queued[k].packet)
  }

  lemma ReleasedBy(s: State, a: Action, id: nat)
    requires Enabled(s, a) && id in Do(s, a).sh.log.released && id !in s.sh.log.released && !Do(s, a).sh.draining
    ensures Releases(s, a, id)
  {
    ReleasedOfDo(s, a);
    var sel := Freed(s.sh.rules);
    hide Do, EventOf, Freed, LetGo;
    var k :| 0 <= k < |s.sh.queue.queued| && sel(s.sh.queue.queued[k].packet) && Id(s.sh.queue.queued[k].packet) == id;
    FreedMeans(s.sh.rules, s.sh.queue.queued[k].packet);
  }

  lemma ReleasedOfDo(s: State, a: Action)
    requires Enabled(s, a) && !Do(s, a).sh.draining
    ensures Do(s, a).sh.log.released ==
      if a.EditStep? && s.edit.Releasing? then s.sh.log.released + SelectedIds(s.sh.queue, Freed(s.sh.rules))
      else s.sh.log.released
  {
    hide QueueAfter, CountersAfter, LedgerAfter, SelectedIds, Freed;
  }

  lemma DrainingStays(s: State, a: Action)
    requires Enabled(s, a)
    ensures s.sh.draining ==> Do(s, a).sh.draining
  {
    hide QueueAfter, CountersAfter, LogAfter, LedgerAfter, EventOf;
  }

  lemma {:induction false} ReleasedHasCause(states: seq<State>, actions: seq<Action>, j: nat, id: nat) returns (i: nat)
    requires IsRun(states, actions) && j < |states| && id in states[j].sh.log.released && !states[j].sh.draining
    ensures i < j && Releases(states[i], actions[i], id)
    decreases j
  {
    NoneReleasedAtFirst(states, actions, j, id);
    i := j - 1;
    StepOf(states, actions, i);
    DrainingStays(states[i], actions[i]);
    hide IsRun, Releases, Do, Enabled;
    if id in states[i].sh.log.released {
      i := ReleasedHasCause(states, actions, i, id);
    } else {
      ReleasedBy(states[i], actions[i], id);
    }
  }

  lemma NoneReleasedAtFirst(states: seq<State>, actions: seq<Action>, j: nat, id: nat)
    requires IsRun(states, actions) && j < |states| && id in states[j].sh.log.released
    ensures j > 0
  {
    hide Do, Enabled;
  }

  /** A packet is inside the queue only after the one step that offered it. */
  lemma InsideAfterOffer(states: seq<State>, actions: seq<Action>, i: nat, k: nat, id: nat)
    requires IsRun(states, actions) && i < |actions| && actions[i].RecvStep?
    requires states[i].recv.Offering? && states[i].recv.id == id
    requires k < |states| && Inside(states[k].sh.queue, id)
    ensures i < k
  {
    assert |states| == |actions| + 1;
    hide IsRun, Inside;
    var m := InsideFromOffer(states, actions, k, id);
    if m != i { OnlyOneVisit(states, actions, m, i, id); }
  }

  /**
   Offered to the queue at step `i` and handed to the sender at step `j`, a packet leaves the queue no
   earlier than its capture time plus the delay the rules gave it at step `i`, unless draining was set
   or the release of an edit in between let it go.
   */
  lemma HeldForItsDelay(states: seq<State>, actions: seq<Action>, i: nat, j: nat, id: nat)
    requires IsRun(states, actions) && i < j < |actions|
    requires states[i].recv.Offering? && states[i].recv.id == id && actions[i].RecvStep?
    requires PopsAt(states, actions, j, id) && !states[j].sh.draining
    requires forall k :: i < k < j ==> !Releases(states[k], actions[k], id)
    ensures id < |states[i].sh.log.captured|
    ensures var c := states[i].sh.log.captured[id];
      c.receivedAt + RuledDelay(states[i].sh.rules, c) <= states[j].sh.clock
  {
    assert |states| == |actions| + 1;
    hide IsRun, PopsAt, QueuesAt, Releases, RuledDelay;
    OfferQueues(states, actions, i, j, id);
    if id in states[j].sh.log.released {
      var k := ReleasedHasCause(states, actions, j, id);
      ReleasesInside(states[k], actions[k], id);
      InsideAfterOffer(states, actions, i, k, id);
      assert false;
    }
    NotBeforePromised(states, actions, i, j, id);
    RuledIsEffective(states[i].sh.rules, states[i].sh.log.captured[id]);
  }

  lemma RuledIsEffective(t: Tables, c: Capture)
    ensures RuledDelay(t, c) == t.EffectiveDelay(c.pid, c.direction)
  {
    DelayMeans(t, c.pid);
  }

  lemma ReleasesInside(s: State, a: Action, id: nat)
    requires Releases(s, a, id)
    ensures Inside(s.sh.queue, id)
  {
  }

  lemma PopsInside(states: seq<State>, actions: seq<Action>, j: nat, id: nat)
    requires j < |states| && j < |actions| && PopsAt(states, actions, j, id)
    ensures Inside(states[j].sh.queue, id)
  {
    var q := states[j].sh.queue;
    assert q.queued != [] && Id(q.queued[LeastIndex(q.queued)].packet) == id;
    hide EventOf, Enabled;
  }

  /** An offered packet that is popped later was queued by the offer. */
  lemma OfferQueues(states: seq<State>, actions: seq<Action>, i: nat, j: nat, id: nat)
    requires IsRun(states, actions) && i < j < |actions|
    requires states[i].recv.Offering? && states[i].recv.id == id && actions[i].RecvStep?
    requires PopsAt(states, actions, j, id)
    ensures QueuesAt(states, actions, i, id)
  {
    assert |states| == |actions| + 1;
    PopsInside(states, actions, j, id);
    hide IsRun, PopsAt, QueuesAt, Inside;
    var m := InsideFromOffer(states, actions, j, id);
    if m != i { OnlyOneVisit(states, actions, m, i, id); }
  }
}
