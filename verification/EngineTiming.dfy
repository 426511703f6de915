/** Deadlines: delay bounds, draining, what rule edits release, and the sender's wake-up time. */
module EngineTiming {
  import opened Core
  import opened Packet
  import opened QueueModel
  import opened QueueFacts
  import opened Rules
  import opened Engine
  import opened EngineShape

  // ---------------------------------------------------------------- delay bounds

  /**
   A queued packet is due by now or within 5000 ms of its own capture, due by now once draining, and
   not due before its promised time unless a release has selected it.
   */
  ghost predicate Timely(sh: Shared, e: Entry) {
    var id := Id(e.packet);
    && id < |sh.log.captured|
    && e.deadline <= Max(sh.clock, sh.log.captured[id].receivedAt + MAX_DELAY_MS)
    && (sh.draining ==> e.deadline <= sh.clock)
    && (!sh.draining && id !in sh.log.released ==> id in sh.log.promised && sh.log.promised[id] <= e.deadline)
  }

  ghost predicate AllTimely(sh: Shared) {
    forall i :: 0 <= i < |sh.queue.queued| ==> Timely(sh, sh.queue.queued[i])
  }

  lemma {:induction false} LastDeadlineQueued(entries: seq<Entry>, f: FlowKey)
    ensures LastDeadline(entries, f).Some? ==>
      exists j :: 0 <= j < |entries| && entries[j].packet.flow == f
        && entries[j].deadline == LastDeadline(entries, f).value
  {
    if entries != [] {
      var n := |entries| - 1;
      LastDeadlineQueued(entries[..n], f);
      if entries[n].packet.flow != f && LastDeadline(entries[..n], f).Some? {
        var j :| 0 <= j < n && entries[..n][j].packet.flow == f
                 && entries[..n][j].deadline == LastDeadline(entries[..n], f).value;
        assert entries[j] == entries[..n][j];
      }
    }
  }

  /** The flow's tail belongs to a queued packet or lies in the past. */
  lemma TailOrigin(q: Queue, clock: nat, f: FlowKey)
    requires TailsPast(q, clock) && Tail(q, f).Some?
    ensures Tail(q, f).value <= clock
      || exists j :: 0 <= j < |q.queued| && q.queued[j].packet.flow == f && q.queued[j].deadline == Tail(q, f).value
  {
    LastDeadlineQueued(q.queued, f);
  }

  /** Entries survive events other than queueing and releases unchanged. */
  lemma EntryFrom(sh: Shared, ev: Event, k: nat)
    requires Possible(sh, ev) && k < |QueueAfter(sh, ev).queued|
    requires !ev.Frees? && !ev.Drains? && (ev.Queued? ==> k < |sh.queue.queued|)
    ensures QueueAfter(sh, ev).queued[k] in sh.queue.queued
  {
    if ev.Popped? && Due(sh.queue, ev.now).Some? {
      RemoveAt(sh.queue.queued, LeastIndex(sh.queue.queued), k);
    } else if !ev.Discards? {
      assert QueueAfter(sh, ev).queued[k] == sh.queue.queued[k];
    }
  }

  /** The tail of a flow is in time for any packet captured after all that is queued. */
  lemma TailTimely(sh: Shared, id: nat, f: FlowKey)
    requires SharedShape(sh) && AllTimely(sh) && id < |sh.log.captured| && AllBefore(sh.queue, id)
    requires Tail(sh.queue, f).Some?
    ensures Tail(sh.queue, f).value <= Max(sh.clock, sh.log.captured[id].receivedAt + MAX_DELAY_MS)
    ensures sh.draining ==> Tail(sh.queue, f).value <= sh.clock
  {
    hide Tail;
    TailOrigin(sh.queue, sh.clock, f);
    if Tail(sh.queue, f).value > sh.clock {
      var j :| 0 <= j < |sh.queue.queued| && sh.queue.queued[j].deadline == Tail(sh.queue, f).value;
      assert Timely(sh, sh.queue.queued[j]);
    }
  }

  lemma QueuedTimely(sh: Shared, id: nat, delay: nat)
    requires SharedShape(sh) && AllTimely(sh) && delay <= MAX_DELAY_MS
    requires Possible(sh, Queued(id, delay)) && Fits(sh, Queued(id, delay))
    ensures var r := Apply(sh, Queued(id, delay)); Timely(r, r.queue.queued[|sh.queue.queued|])
  {
    var c := sh.log.captured[id];
    assert Id(Pending(c)) == id && c.receivedAt <= sh.clock;
    hide SharedShape, AllTimely, Tail, Admits, AllBefore, CountersAfter, LedgerAfter;
    if Tail(sh.queue, c.flow.value).Some? { TailTimely(sh, id, c.flow.value); }
  }

  lemma FreesKeeps(sh: Shared)
    ensures var r := Apply(sh, Frees);
      && r.clock == sh.clock && r.draining == sh.draining
      && r.log.captured == sh.log.captured && r.log.promised == sh.log.promised
      && r.log.released == sh.log.released + SelectedIds(sh.queue, Freed(sh.rules))
  {
    hide QueueAfter, CountersAfter, LedgerAfter, SelectedIds, Freed;
  }

  lemma ShapeOrdered(sh: Shared)
    requires SharedShape(sh)
    ensures Ordered(sh.queue) && TailsPast(sh.queue, sh.clock)
  {
    hide Captures, QueueGenuine, WithinLimits, Ordered, TailsPast;
  }

  lemma FreedTimely(sh: Shared, k: nat)
    requires SharedShape(sh) && AllTimely(sh) && k < |sh.queue.queued|
    ensures Timely(Apply(sh, Frees), Release(sh.queue, sh.clock, Freed(sh.rules)).queued[k])
  {
    hide SharedShape, Release, Ordered, TailsPast, Apply, Freed;
    ShapeOrdered(sh);
    assert Timely(sh, sh.queue.queued[k]);
    var sel := Freed(sh.rules);
    FreesKeeps(sh);
    ReleaseKeepsPackets(sh.queue, sh.clock, sel);
    ReleaseBounds(sh.queue, sh.clock, sel, sh.clock, k);
    if sel(sh.queue.queued[k].packet) {
      assert Id(sh.queue.queued[k].packet) in SelectedIds(sh.queue, sel);
    }
  }

  lemma DrainedTimely(sh: Shared, k: nat)
    requires SharedShape(sh) && AllTimely(sh) && k < |sh.queue.queued|
    ensures Timely(Apply(sh, Drains), Release(sh.queue, sh.clock, All()).queued[k])
  {
    ReleaseKeepsPackets(sh.queue, sh.clock, All());
    ReleaseAllIsDue(sh.queue, sh.clock, sh.clock, All(), k);
    assert Timely(sh, sh.queue.queued[k]);
    hide Release, SharedShape, QueueAfter, CountersAfter, LedgerAfter;
  }

  lemma OthersTimely(sh: Shared, ev: Event, e: Entry)
    requires Timely(sh, e) && Possible(sh, ev) && !ev.Drains?
    requires ev.Queued? ==> Id(e.packet) != ev.id
    ensures Timely(Apply(sh, ev), e)
  {
    var r := Apply(sh, ev);
    assert sh.log.captured <= r.log.captured;
    assert sh.clock <= r.clock && sh.log.released <= r.log.released;
  }

  lemma AllTimelyKept(sh: Shared, ev: Event)
    requires SharedShape(sh) && AllTimely(sh) && Possible(sh, ev) && Fits(sh, ev)
    requires ev.Queued? ==> ev.delay <= MAX_DELAY_MS
    ensures AllTimely(Apply(sh, ev))
  {
    var r := Apply(sh, ev);
    forall k | 0 <= k < |r.queue.queued| ensures Timely(r, r.queue.queued[k]) {
      if ev.Frees? { FreedTimely(sh, k); }
      else if ev.Drains? { DrainedTimely(sh, k); }
      else if ev.Queued? && k == |sh.queue.queued| { QueuedTimely(sh, ev.id, ev.delay); }
      else {
        EntryFrom(sh, ev, k);
        OthersTimely(sh, ev, r.queue.queued[k]);
      }
    }
  }

  // ---------------------------------------------------------------- rule edits

  /** A no longer delayed packet waits at most for a queued predecessor of its flow. */
  ghost predicate HeldOnlyByFlow(q: Queue, clock: nat, i: nat)
    requires i < |q.queued|
  {
    || q.queued[i].deadline <= clock
    || exists j ::
         && 0 <= j < i && q.queued[j].packet.flow == q.queued[i].packet.flow
         && q.queued[i].deadline <= q.queued[j].deadline
  }

  ghost predicate Undelayed(t: Tables, p: PendingPacket) {
    t.EffectiveDelay(p.pid, p.direction) == 0
  }

  ghost predicate NothingWithheld(q: Queue, clock: nat, t: Tables) {
    forall i :: 0 <= i < |q.queued| && Undelayed(t, q.queued[i].packet) ==> HeldOnlyByFlow(q, clock, i)
  }

  lemma LaterHeld(q: Queue, clock: nat, later: nat, t: Tables)
    requires NothingWithheld(q, clock, t) && clock <= later
    ensures NothingWithheld(q, later, t)
  {
    forall i | 0 <= i < |q.queued| && Undelayed(t, q.queued[i].packet) ensures HeldOnlyByFlow(q, later, i) {
      assert HeldOnlyByFlow(q, clock, i);
    }
  }

  lemma EnqueueWithholds(q: Queue, clock: nat, t: Tables, p: PendingPacket, deadline: nat)
    requires NothingWithheld(q, clock, t) && TailsPast(q, clock)
    requires Undelayed(t, p) ==> deadline <= clock
    ensures NothingWithheld(Enqueue(q, p, deadline), clock, t)
  {
    var r := Enqueue(q, p, deadline);
    forall i | 0 <= i < |r.queued| && Undelayed(t, r.queued[i].packet) ensures HeldOnlyByFlow(r, clock, i) {
      if i < |q.queued| {
        assert q.queued[i] == r.queued[i] && HeldOnlyByFlow(q, clock, i);
        if q.queued[i].deadline > clock {
          var j :| 0 <= j < i && q.queued[j].packet.flow == q.queued[i].packet.flow
                   && q.queued[i].deadline <= q.queued[j].deadline;
          assert r.queued[j] == q.queued[j];
        }
      } else if r.queued[i].deadline > clock {
        TailOrigin(q, clock, p.flow);
        var j :| 0 <= j < |q.queued| && q.queued[j].packet.flow == p.flow
                 && q.queued[j].deadline == Tail(q, p.flow).value;
        assert r.queued[j] == q.queued[j];
      }
    }
  }

  /** A pop takes no packet that another one waits behind: the one taken is due itself. */
  lemma PopHolds(q: Queue, clock: nat, now: nat, i: nat)
    requires Sequenced(q.queued, q.nextSequence) && now <= clock && Due(q, now).Some?
    requires i < |PopDue(q, now).queued|
    requires HeldOnlyByFlow(q, clock, if i < LeastIndex(q.queued) then i else i + 1)
    ensures HeldOnlyByFlow(PopDue(q, now), clock, i)
  {
    var r := PopDue(q, now);
    var at := LeastIndex(q.queued);
    RemoveAt(q.queued, at, i);
    var was := if i < at then i else i + 1;
    if q.queued[was].deadline > clock {
      var j :| 0 <= j < was && q.queued[j].packet.flow == q.queued[was].packet.flow
               && q.queued[was].deadline <= q.queued[j].deadline;
      assert j != at;
      RemoveAt(q.queued, at, if j < at then j else j - 1);
    }
  }

  lemma PopWithholds(q: Queue, clock: nat, t: Tables, now: nat)
    requires NothingWithheld(q, clock, t) && Sequenced(q.queued, q.nextSequence) && now <= clock
    ensures NothingWithheld(PopDue(q, now), clock, t)
  {
    var r := PopDue(q, now);
    if Due(q, now).Some? {
      var at := LeastIndex(q.queued);
      forall i | 0 <= i < |r.queued| && Undelayed(t, r.queued[i].packet) ensures HeldOnlyByFlow(r, clock, i) {
        RemoveAt(q.queued, at, i);
        assert HeldOnlyByFlow(q, clock, if i < at then i else i + 1);
        PopHolds(q, clock, now, i);
      }
    }
    hide HeldOnlyByFlow, Undelayed, Sequenced;
  }

  /** After a release that selects every undelayed packet, nothing undelayed is withheld. */
  lemma ReleaseWithholds(q: Queue, clock: nat, t: Tables, sel: Selection)
    requires TailsPast(q, clock)
    requires forall p :: Undelayed(t, p) ==> sel(p)
    ensures NothingWithheld(Release(q, clock, sel), clock, t)
  {
    var r := Release(q, clock, sel);
    ReleaseKeepsPackets(q, clock, sel);
    forall i | 0 <= i < |r.queued| && Undelayed(t, r.queued[i].packet) ensures HeldOnlyByFlow(r, clock, i) {
      ReleaseHolds(q, clock, sel, i);
    }
  }

  lemma ReleaseHolds(q: Queue, clock: nat, sel: Selection, i: nat)
    requires TailsPast(q, clock) && i < |q.queued| && sel(q.queued[i].packet)
    ensures HeldOnlyByFlow(Release(q, clock, sel), clock, i)
  {
    var r := Release(q, clock, sel);
    var f := q.queued[i].packet.flow;
    ReleaseClosedForm(q, clock, sel, i);
    if r.queued[i].deadline > clock {
      var j :| 0 <= j < i + 1 && q.queued[j].packet.flow == f && Wish(q.queued[j], clock, sel) == r.queued[i].deadline;
      ReleaseClosedForm(q, clock, sel, j);
      assert Wish(q.queued[j], clock, sel) <= r.queued[j].deadline;
      assert r.queued[j].packet.flow == r.queued[i].packet.flow by { ReleaseKeepsPackets(q, clock, sel); }
    }
  }

  /** The tables the queue was last released for: those of before the edit while one is under way. */
  function InForce(s: State): Tables {
    if s.edit.Editing? || s.edit.Releasing? then s.edit.before else s.sh.rules
  }

  ghost predicate EditFollows(s: State) {
    s.edit.Editing? ==>
      AfterEdits(s.sh.rules, s.edit.rest) == AfterEdits(s.edit.before, EditsOf(s.edit.command))
  }

  /** Between taking the gate and queueing, the delay read under the gate stays the effective one. */
  ghost predicate OfferCurrent(s: State) {
    s.recv.Offering? && s.recv.id < |s.sh.log.captured| ==>
      && s.recv.delay <= MAX_DELAY_MS
      && (!Hand(s).address.loopback ==> s.recv.delay == s.sh.rules.EffectiveDelay(Hand(s).pid, Hand(s).direction))
  }

  lemma EditFollowsKept(s: State, a: Action)
    requires Exclusive(s) && EditFollows(s) && Enabled(s, a)
    ensures EditFollows(Do(s, a))
  {
    RulesMove(s, a);
    hide Exclusive, EventOf, QueueAfter, CountersAfter, LogAfter, LedgerAfter, AfterEdit;
  }

  /** Only an edit under way changes the tables. */
  lemma RulesMove(s: State, a: Action)
    requires Enabled(s, a)
    ensures EventOf(s, a).Edited? ==>
      a.EditStep? && s.edit.Editing? && s.edit.rest != [] && EventOf(s, a).e == s.edit.rest[0]
    ensures EventOf(s, a).Frees? ==> a.EditStep? && s.edit.Releasing?
  {
  }

  /** A packet is offered with the delay just read under the gate, or was offered before. */
  lemma OfferCases(s: State, a: Action)
    requires Enabled(s, a) && Do(s, a).recv.Offering?
    ensures HasId(s.recv) && s.recv.id == Do(s, a).recv.id && RecvHoldsGate(s.recv)
    ensures s.recv == Do(s, a).recv
      || (s.recv.id < |s.sh.log.captured| && Do(s, a).recv.delay
           == if Hand(s).address.loopback then 0 else s.sh.rules.EffectiveDelay(Hand(s).pid, Hand(s).direction))
  {
    hide Apply, SendAfter, EventOf;
  }

  lemma OfferCurrentKept(s: State, a: Action)
    requires Shape(s) && OfferCurrent(s) && Enabled(s, a)
    ensures OfferCurrent(Do(s, a))
  {
    SenderIdFits(s);
    CapturedGrows(s, a);
    assert LocksHeldOnce(s);
    hide Shape, Enabled, Do, LocksHeldOnce;
    if Do(s, a).recv.Offering? {
      OfferCases(s, a);
      GateFreezesRules(s, a);
    }
  }

  lemma WithheldUntouched(sh: Shared, ev: Event, t: Tables)
    requires NothingWithheld(sh.queue, sh.clock, t) && Possible(sh, ev) && !TouchesQueue(ev)
    ensures NothingWithheld(QueueAfter(sh, ev), Apply(sh, ev).clock, t)
  {
    assert QueueAfter(sh, ev) == sh.queue;
    LaterHeld(sh.queue, sh.clock, Apply(sh, ev).clock, t);
  }

  lemma QueuedWithholds(sh: Shared, id: nat, delay: nat, t: Tables)
    requires SharedShape(sh) && NothingWithheld(sh.queue, sh.clock, t) && Possible(sh, Queued(id, delay))
    requires Undelayed(t, Pending(sh.log.captured[id])) ==> delay == 0
    ensures NothingWithheld(QueueAfter(sh, Queued(id, delay)), sh.clock, t)
  {
    var c := sh.log.captured[id];
    assert c.receivedAt <= sh.clock && TailsPast(sh.queue, sh.clock);
    hide SharedShape, NothingWithheld, TailsPast, Undelayed;
    EnqueueWithholds(sh.queue, sh.clock, t, Pending(c), if sh.draining then c.receivedAt else c.receivedAt + delay);
  }

  /** Every event but an edit's release keeps the tables in force. */
  lemma WithheldKept(sh: Shared, ev: Event, t: Tables)
    requires SharedShape(sh) && NothingWithheld(sh.queue, sh.clock, t) && Possible(sh, ev) && Fits(sh, ev) && !ev.Frees?
    requires ev.Queued? && Undelayed(t, Pending(sh.log.captured[ev.id])) ==> ev.delay == 0
    ensures NothingWithheld(QueueAfter(sh, ev), Apply(sh, ev).clock, t)
  {
    assert TailsPast(sh.queue, sh.clock) && Sequenced(sh.queue.queued, sh.queue.nextSequence);
    hide NothingWithheld, Captures, QueueShape, TailsPast, Sequenced;
    match ev
    case Queued(id, delay) => QueuedWithholds(sh, id, delay, t);
    case Popped(now) => PopWithholds(sh.queue, sh.clock, t, now);
    case Finished(id) => FinishWithholds(sh.queue, sh.clock, t, Pending(sh.log.captured[id]));
    case Drains => ReleaseWithholds(sh.queue, sh.clock, t, All());
    case Discards => EmptyWithholds(sh.queue.limits, sh.clock, t);
    case _ => WithheldUntouched(sh, ev, t);
  }

  lemma EmptyWithholds(limits: Limits, clock: nat, t: Tables)
    ensures NothingWithheld(Empty(limits), clock, t)
  {
  }

  lemma FinishWithholds(q: Queue, clock: nat, t: Tables, p: PendingPacket)
    requires NothingWithheld(q, clock, t) && IsInFlight(q, p)
    ensures NothingWithheld(Finish(q, p), clock, t)
  {
    forall i | 0 <= i < |q.queued| && Undelayed(t, q.queued[i].packet) ensures HeldOnlyByFlow(Finish(q, p), clock, i) {
      assert HeldOnlyByFlow(q, clock, i);
    }
  }

  ghost predicate ReleasesDone(s: State) {
    && EditFollows(s)
    && OfferCurrent(s)
    && NothingWithheld(s.sh.queue, s.sh.clock, InForce(s))
  }

  lemma SameTreatmentWithholds(q: Queue, clock: nat, t: Tables, u: Tables)
    requires NothingWithheld(q, clock, t) && SameTreatment(t, u)
    ensures NothingWithheld(q, clock, u)
  {
    forall i | 0 <= i < |q.queued| && Undelayed(u, q.queued[i].packet) ensures HeldOnlyByFlow(q, clock, i) {
      assert Undelayed(t, q.queued[i].packet);
    }
  }

  /** A finished edit either announced itself or changed nothing the queue depends on. */
  lemma QuietEditEnds(s: State)
    requires EditFollows(s) && s.edit.Editing? && s.edit.rest == [] && s.sh.rules.revision == s.edit.before.revision
    ensures SameTreatment(s.edit.before, s.sh.rules)
  {
    CommandAnnouncesChange(s.edit.before, s.edit.command);
  }

  lemma QueuedDelayCurrent(s: State, a: Action)
    requires Shape(s) && OfferCurrent(s) && Enabled(s, a) && EventOf(s, a).Queued?
    ensures EventOf(s, a).delay <= MAX_DELAY_MS
    ensures Undelayed(InForce(s), Pending(s.sh.log.captured[EventOf(s, a).id])) ==> EventOf(s, a).delay == 0
  {
    if !a.RecvStep? { OthersEvents(s, a); }
    assert s.recv.Offering? && EventOf(s, a) == Queued(s.recv.id, s.recv.delay);
  }

  lemma InForceKept(s: State, a: Action)
    requires Shape(s) && EditFollows(s) && Enabled(s, a) && !EventOf(s, a).Frees?
    ensures InForce(Do(s, a)) == InForce(s) || SameTreatment(InForce(s), InForce(Do(s, a)))
  {
    RulesMove(s, a);
    if a.EditStep? && s.edit.Editing? && s.edit.rest == [] && s.sh.rules.revision == s.edit.before.revision {
      QuietEditEnds(s);
    }
    assert EventOf(s, a).Edited? ==> s.edit.Editing? && s.edit.rest != [];
    hide EventOf, SameTreatment, QueueAfter, CountersAfter, LogAfter, LedgerAfter, Shape, EditFollows,
      AfterEdit;
  }

  lemma FreesWithholds(s: State, a: Action)
    requires Shape(s) && Enabled(s, a) && EventOf(s, a).Frees?
    ensures NothingWithheld(Do(s, a).sh.queue, Do(s, a).sh.clock, InForce(Do(s, a)))
  {
    RulesMove(s, a);
    assert Do(s, a).sh.queue == Release(s.sh.queue, s.sh.clock, Freed(s.sh.rules));
    assert InForce(Do(s, a)) == s.sh.rules;
    ReleaseWithholds(s.sh.queue, s.sh.clock, s.sh.rules, Freed(s.sh.rules));
  }

  lemma ReleasesDoneKept(s: State, a: Action)
    requires Shape(s) && ReleasesDone(s) && Enabled(s, a)
    ensures ReleasesDone(Do(s, a))
  {
    EditFollowsKept(s, a);
    OfferCurrentKept(s, a);
    if EventOf(s, a).Frees? {
      FreesWithholds(s, a);
    } else {
      EventFits(s, a);
      if EventOf(s, a).Queued? { QueuedDelayCurrent(s, a); }
      WithheldKept(s.sh, EventOf(s, a), InForce(s));
      InForceKept(s, a);
      assert Do(s, a).sh.queue == QueueAfter(s.sh, EventOf(s, a));
      if InForce(Do(s, a)) != InForce(s) {
        SameTreatmentWithholds(Do(s, a).sh.queue, Do(s, a).sh.clock, InForce(s), InForce(Do(s, a)));
      }
    }
    hide Shape, EditFollows, OfferCurrent, NothingWithheld, Do, EventOf;
  }

  ghost predicate UndelayedChain(q: Queue, t: Tables, i: nat)
    requires i < |q.queued|
  {
    forall j :: 0 <= j <= i && q.queued[j].packet.flow == q.queued[i].packet.flow ==> Undelayed(t, q.queued[j].packet)
  }

  /** A packet none of whose queued predecessors is delayed by the tables is due. */
  lemma {:induction false} UndelayedIsDue(q: Queue, clock: nat, t: Tables, i: nat)
    requires NothingWithheld(q, clock, t) && i < |q.queued| && UndelayedChain(q, t, i)
    ensures q.queued[i].deadline <= clock
    decreases i
  {
    assert Undelayed(t, q.queued[i].packet);
    assert HeldOnlyByFlow(q, clock, i);
    if q.queued[i].deadline > clock {
      var j :| 0 <= j < i && q.queued[j].packet.flow == q.queued[i].packet.flow
               && q.queued[i].deadline <= q.queued[j].deadline;
      UndelayedIsDue(q, clock, t, j);
    }
  }

  // ---------------------------------------------------------------- Block

  /** Past the block check, the packet is still not blocked: nobody can edit the rules before the send. */
  ghost predicate SendsUnblocked(s: State) {
    && (s.recv.Sending? && s.recv.stage.AtIo? && s.recv.id < |s.sh.log.captured| ==>
          !BlockedNow(s.sh, s.sh.log.captured[s.recv.id]))
    && (s.send.InSend? && s.send.stage.AtIo? && s.send.id < |s.sh.log.captured| ==>
          !BlockedNow(s.sh, s.sh.log.captured[s.send.id]))
  }

  /** The receive worker arrives before its send only from the block check, or was there before. */
  lemma RecvReachesIo(s: State, a: Action)
    requires Enabled(s, a) && Do(s, a).recv.Sending? && Do(s, a).recv.stage.AtIo?
    ensures RecvHoldsGate(s.recv) && s.recv.Sending? && s.recv.id == Do(s, a).recv.id
    ensures s.recv.stage.AtIo? || (s.recv.id < |s.sh.log.captured| && !BlockedNow(s.sh, s.sh.log.captured[s.recv.id]))
  {
    hide Apply, SendAfter, BlockedNow, EventOf;
  }

  lemma SenderReachesIo(s: State, a: Action)
    requires Enabled(s, a) && Do(s, a).send.InSend? && Do(s, a).send.stage.AtIo?
    ensures SenderHoldsGate(s.send) && s.send.InSend? && s.send.id == Do(s, a).send.id
    ensures s.send.stage.AtIo? || (s.send.id < |s.sh.log.captured| && !BlockedNow(s.sh, s.sh.log.captured[s.send.id]))
  {
    hide Apply, BlockedNow, EventOf;
  }

  /** Nobody edits the rules while a worker holds the gate. */
  lemma GateFreezesRules(s: State, a: Action)
    requires LocksHeldOnce(s) && Enabled(s, a) && (RecvHoldsGate(s.recv) || SenderHoldsGate(s.send))
    ensures Do(s, a).sh.rules == s.sh.rules
  {
    RulesMove(s, a);
    hide EventOf, QueueAfter, CountersAfter, LogAfter, LedgerAfter;
  }

  lemma CapturedGrows(s: State, a: Action)
    requires Enabled(s, a)
    ensures s.sh.log.captured <= Do(s, a).sh.log.captured
  {
    hide EventOf, QueueAfter, CountersAfter, LedgerAfter;
  }

  lemma SendsUnblockedKept(s: State, a: Action)
    requires Shape(s) && SendsUnblocked(s) && Enabled(s, a)
    ensures SendsUnblocked(Do(s, a))
  {
    SenderIdFits(s);
    CapturedGrows(s, a);
    assert LocksHeldOnce(s);
    hide Shape, Enabled, Do, RecvHoldsGate, SenderHoldsGate, LocksHeldOnce;
    var t := Do(s, a);
    if t.recv.Sending? && t.recv.stage.AtIo? {
      RecvReachesIo(s, a);
      GateFreezesRules(s, a);
    }
    if t.send.InSend? && t.send.stage.AtIo? {
      SenderReachesIo(s, a);
      GateFreezesRules(s, a);
    }
  }

  lemma SenderIdFits(s: State)
    requires Shape(s)
    ensures SenderHasId(s.send) ==> s.send.id < |s.sh.log.captured|
    ensures HasId(s.recv) ==> s.recv.id < |s.sh.log.captured|
  {
    if SenderHasId(s.send) { assert Genuine(s.sh.log, s.sh.queue.inFlight[0].packet); }
  }

  // ---------------------------------------------------------------- wake-up

  /**
   A parked sender nobody has notified is waiting for the earliest queued deadline, late at most by
   the time that passed between reading the clock and starting to wait; without a timeout there is
   nothing to wait for and the receiver is still running.
   */
  ghost predicate WakesInTime(s: State) {
    s.send.Parked? && !s.send.notified ==>
      && s.send.readAt <= s.send.parkedAt <= s.sh.clock
      && match s.send.wakeAt
         case None => s.sh.queue.queued == [] && !s.sh.recvDone
         case Some(wake) =>
           && NextDeadline(s.sh.queue).Some?
           && s.send.readAt < NextDeadline(s.sh.queue).value
           && wake == NextDeadline(s.sh.queue).value + (s.send.parkedAt - s.send.readAt)
  }

  lemma ParkedUndisturbed(s: State, a: Action)
    requires Enabled(s, a) && s.send.Parked? && Do(s, a).send.Parked? && !Do(s, a).send.notified
    ensures Do(s, a).send == s.send && Do(s, a).sh.queue.queued == s.sh.queue.queued
      && Do(s, a).sh.recvDone == s.sh.recvDone
  {
    if !a.SendStep? { NotSendersEvents(s, a); }
    hide CountersAfter, LogAfter, LedgerAfter;
  }

  lemma WakesInTimeKept(s: State, a: Action)
    requires Shape(s) && WakesInTime(s) && Enabled(s, a)
    ensures WakesInTime(Do(s, a))
  {
    var t := Do(s, a);
    if t.send.Parked? && !t.send.notified {
      if s.send.Parked? {
        StillWakesInTime(s, a);
      } else {
        ParksInTime(s, a);
      }
    }
    hide *;
  }

  lemma StillWakesInTime(s: State, a: Action)
    requires WakesInTime(s) && Enabled(s, a) && s.send.Parked? && Do(s, a).send.Parked? && !Do(s, a).send.notified
    ensures WakesInTime(Do(s, a))
  {
    ClockForward(s, a);
    ParkedUndisturbed(s, a);
    hide Do, Enabled, LeastIndex;
  }

  lemma ParksInTime(s: State, a: Action)
    requires Shape(s) && Enabled(s, a) && !s.send.Parked? && Do(s, a).send.Parked?
    ensures WakesInTime(Do(s, a))
  {
    ParksNow(s, a);
    assert s.send.now <= s.sh.clock;
    hide Do, Enabled, Shape, LeastIndex;
  }

  lemma ClockForward(s: State, a: Action)
    requires Enabled(s, a)
    ensures s.sh.clock <= Do(s, a).sh.clock
  {
    ClockGrows(s.sh, EventOf(s, a));
    hide EventOf, QueueAfter, CountersAfter, LogAfter, LedgerAfter;
  }

  lemma ParksNow(s: State, a: Action)
    requires Enabled(s, a) && !s.send.Parked? && Do(s, a).send.Parked?
    ensures s.send.Popping? && Due(s.sh.queue, s.send.now).None?
    ensures Do(s, a).send == Park(s.sh, s.send.now) && Do(s, a).sh == s.sh
    ensures s.sh.queue.queued == [] ==> !s.sh.recvDone
  {
    QuietApply(s.sh);
    hide QueueAfter, CountersAfter, LogAfter, LedgerAfter;
  }

  lemma QuietApply(sh: Shared)
    ensures Apply(sh, Quiet) == sh
  {
  }

  // ---------------------------------------------------------------- draining

  /** While the sender decides under the queue lock, everything queued in a drain is due at its clock reading. */
  ghost predicate DrainReadsDue(s: State) {
    s.send.Popping? && s.sh.draining ==>
      forall i :: 0 <= i < |s.sh.queue.queued| ==> s.sh.queue.queued[i].deadline <= s.send.now
  }

  lemma QueueLocked(s: State, a: Action)
    requires Enabled(s, a) && SenderHoldsQueue(s.send) && !a.SendStep?
    ensures var ev := EventOf(s, a); !TouchesQueue(ev) && !ev.ReceiverDone?
  {
  }

  lemma DrainReadsDueKept(s: State, a: Action)
    requires Shape(s) && AllTimely(s.sh) && DrainReadsDue(s) && Enabled(s, a)
    ensures DrainReadsDue(Do(s, a))
  {
    var t := Do(s, a);
    if t.send.Popping? && t.sh.draining {
      if s.send.Popping? {
        QueueLocked(s, a);
        assert t.sh.queue == s.sh.queue && t.sh.draining == s.sh.draining && t.send == s.send;
      } else {
        assert s.send.Looping? && a.SendStep? && t.sh == s.sh && t.send.now == s.sh.clock;
        forall i | 0 <= i < |t.sh.queue.queued| ensures t.sh.queue.queued[i].deadline <= t.send.now {
          assert Timely(s.sh, s.sh.queue.queued[i]);
        }
      }
    }
    hide CountersAfter, LogAfter, LedgerAfter, Shape;
  }
}
