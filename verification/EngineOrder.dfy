/** Packets of one flow leave in capture order, however direct and delayed sends interleave. */
module EngineOrder {
  import opened Core
  import opened Packet
  import opened QueueModel
  import opened QueueFacts
  import opened Rules
  import opened Engine
  import opened EngineShape
  import opened EngineFates

  /** Packet `x` is a parsed, non-loopback packet of flow `f`. */
  predicate OfFlow(log: Log, x: nat, f: FlowKey) {
    x < |log.captured| && log.captured[x].flow == Some(f) && !log.captured[x].address.loopback
  }

  /** Successful sends of `f` so far are in capture order. */
  ghost predicate SentInOrder(log: Log, f: FlowKey) {
    forall i, j :: 0 <= i < j < |log.sent| && OfFlow(log, log.sent[i], f) && OfFlow(log, log.sent[j], f) ==>
      log.sent[i] < log.sent[j]
  }

  /** Every packet of `f` sent so far was captured before `id`. */
  ghost predicate SentBefore(log: Log, f: FlowKey, id: nat) {
    forall x :: x in log.sent && OfFlow(log, x, f) ==> x < id
  }

  ghost predicate KnownIds(log: Log) {
    forall x :: x in log.sent ==> x < |log.captured|
  }

  ghost predicate SentKnown(s: State) {
    forall x :: x in s.sh.log.sent ==> x < |s.sh.log.captured| && !InRecvHand(s.recv, x)
  }

  ghost predicate QueueAfterSent(sh: Shared, f: FlowKey) {
    forall i :: 0 <= i < |sh.queue.queued| && sh.queue.queued[i].packet.flow == f ==>
      SentBefore(sh.log, f, Id(sh.queue.queued[i].packet))
  }

  ghost predicate QueueAfterFlight(q: Queue, f: FlowKey) {
    |q.inFlight| == 1 && q.inFlight[0].packet.flow == f ==>
      forall i :: 0 <= i < |q.queued| && q.queued[i].packet.flow == f ==>
        Id(q.inFlight[0].packet) < Id(q.queued[i].packet)
  }

  ghost predicate FlightAfterSent(s: State, f: FlowKey) {
    SenderHasId(s.send) && InSenderHand(s.send, s.send.id) && OfFlow(s.sh.log, s.send.id, f) ==>
      SentBefore(s.sh.log, f, s.send.id)
  }

  /** A packet being sent directly has no predecessor waiting or in flight. */
  ghost predicate DirectIsAlone(s: State, f: FlowKey) {
    s.recv.Sending? && Undecided(s.recv.stage) && OfFlow(s.sh.log, s.recv.id, f) ==> !HasFlow(s.sh.queue, f)
  }

  ghost predicate FlowOrder(s: State, f: FlowKey) {
    && SentInOrder(s.sh.log, f)
    && QueueAfterSent(s.sh, f)
    && QueueAfterFlight(s.sh.queue, f)
    && FlightAfterSent(s, f)
    && DirectIsAlone(s, f)
  }

  lemma SentKnownKept(s: State, a: Action)
    requires Shape(s) && SentKnown(s) && Enabled(s, a)
    ensures SentKnown(Do(s, a))
  {
    var ev := EventOf(s, a);
    var t := Do(s, a);
    assert t.sh.log.sent == s.sh.log.sent + (if ev.Sent? then [ev.id] else []);
    assert |s.sh.log.captured| <= |t.sh.log.captured|;
    if a.RecvStep? { RecvKnows(s, a.input); } else { assert t.recv == s.recv; SenderKnows(s, a); }
    hide Shape, EventOf, Do, InRecvHand;
  }

  lemma RecvKnows(s: State, input: Input)
    requires Shape(s) && RecvEnabled(s, input)
    ensures var ev := RecvEvent(s, input);
      && (ev.Sent? ==> ev.id < |s.sh.log.captured| && !InRecvHand(NextRecv(s, input), ev.id))
      && forall x :: InRecvHand(NextRecv(s, input), x) ==> InRecvHand(s.recv, x) || x == |s.sh.log.captured|
  {
    hide Admits, MustQueue, QueueShape, Exclusive;
  }

  lemma SenderKnows(s: State, a: Action)
    requires Shape(s) && Enabled(s, a) && !a.RecvStep?
    ensures var ev := EventOf(s, a); ev.Sent? ==> ev.id < |s.sh.log.captured| && !InRecvHand(s.recv, ev.id)
  {
    if EventOf(s, a).Sent? {
      assert a.SendStep? && s.send.InSend?;
      assert Id(s.sh.queue.inFlight[0].packet) == s.send.id;
    }
  }

  // ---------------------------------------------------------------- what events do to the queue

  ghost predicate Held(q: Queue, p: PendingPacket) {
    exists j :: 0 <= j < |q.queued| && q.queued[j].packet == p
  }

  /** Every queued packet was queued before, or is the one this event queues. */
  lemma QueueFrom(sh: Shared, ev: Event, k: nat)
    requires Possible(sh, ev) && k < |QueueAfter(sh, ev).queued|
    ensures var p := QueueAfter(sh, ev).queued[k].packet;
      Held(sh.queue, p) || (ev.Queued? && p == Pending(sh.log.captured[ev.id]))
  {
    match ev
    case Queued(_, _) =>
      assert k < |sh.queue.queued| ==> sh.queue.queued[k].packet == QueueAfter(sh, ev).queued[k].packet;
    case Popped(now) =>
      if Due(sh.queue, now).Some? { RemoveAt(sh.queue.queued, LeastIndex(sh.queue.queued), k); }
      else { assert sh.queue.queued[k].packet == QueueAfter(sh, ev).queued[k].packet; }
    case Frees =>
      ReleaseKeepsPackets(sh.queue, sh.clock, Freed(sh.rules));
      assert sh.queue.queued[k].packet == QueueAfter(sh, ev).queued[k].packet;
    case Drains =>
      ReleaseKeepsPackets(sh.queue, sh.clock, All());
      assert sh.queue.queued[k].packet == QueueAfter(sh, ev).queued[k].packet;
    case _ =>
      assert !ev.Discards? ==> sh.queue.queued[k].packet == QueueAfter(sh, ev).queued[k].packet;
  }

  lemma LoadShrinks(sh: Shared, ev: Event, w: Weight)
    requires Possible(sh, ev) && !ev.Queued?
    ensures Load(w, QueueAfter(sh, ev)) <= Load(w, sh.queue)
  {
    match ev
    case Popped(now) => PopLoad(sh.queue, now, w);
    case Finished(id) => FinishLoad(sh.queue, Pending(sh.log.captured[id]), w);
    case Frees =>
      ReleaseKeepsPackets(sh.queue, sh.clock, Freed(sh.rules));
      TotalSamePackets(w, sh.queue.queued, QueueAfter(sh, ev).queued);
    case Drains =>
      ReleaseKeepsPackets(sh.queue, sh.clock, All());
      TotalSamePackets(w, sh.queue.queued, QueueAfter(sh, ev).queued);
    case _ =>
  }

  lemma FlowAbsent(q: Queue, f: FlowKey)
    requires !HasFlow(q, f)
    ensures forall i :: 0 <= i < |q.queued| ==> q.queued[i].packet.flow != f
    ensures forall i :: 0 <= i < |q.inFlight| ==> q.inFlight[i].packet.flow != f
  {
    FlowTotalPositive(q.queued, f);
    FlowTotalPositive(q.inFlight, f);
  }

  // ---------------------------------------------------------------- the sending side of the invariant

  /** What the emitting program point knows about a packet it has just sent. */
  ghost predicate SendFits(sh: Shared, id: nat, f: FlowKey) {
    OfFlow(sh.log, id, f) ==>
      && SentBefore(sh.log, f, id)
      && (forall i :: 0 <= i < |sh.queue.queued| && sh.queue.queued[i].packet.flow == f ==>
        id < Id(sh.queue.queued[i].packet))
  }

  lemma DirectSendFits(s: State, f: FlowKey)
    requires Shape(s) && SentKnown(s) && FlowOrder(s, f)
    requires s.recv.Sending? && s.recv.stage.AtIo?
    ensures SendFits(s.sh, s.recv.id, f)
  {
    if OfFlow(s.sh.log, s.recv.id, f) {
      FlowAbsent(s.sh.queue, f);
      forall x | x in s.sh.log.sent && OfFlow(s.sh.log, x, f) ensures x < s.recv.id {
        assert !InRecvHand(s.recv, x);
      }
    }
  }

  lemma DelayedSendFits(s: State, f: FlowKey)
    requires Shape(s) && FlowOrder(s, f)
    requires s.send.InSend? && s.send.stage.AtIo?
    ensures SendFits(s.sh, s.send.id, f)
  {
    var p := s.sh.queue.inFlight[0].packet;
    assert Genuine(s.sh.log, p);
  }

  lemma SentEventFits(s: State, a: Action, f: FlowKey)
    requires Shape(s) && SentKnown(s) && FlowOrder(s, f) && Enabled(s, a) && EventOf(s, a).Sent?
    ensures SendFits(s.sh, EventOf(s, a).id, f)
  {
    if a.RecvStep? {
      assert s.recv.Sending? && s.recv.stage.AtIo?;
      assert EventOf(s, a).id == s.recv.id;
      DirectSendFits(s, f);
    } else {
      assert a.SendStep? && s.send.InSend? && s.send.stage.AtIo?;
      assert Id(s.sh.queue.inFlight[0].packet) == s.send.id;
      DelayedSendFits(s, f);
    }
  }

  /** A newly queued packet comes after everything sent and everything in the queue. */
  ghost predicate QueueFits(sh: Shared, ev: Event) {
    ev.Queued? ==>
      && (forall x :: x in sh.log.sent ==> x < ev.id)
      && AllBefore(sh.queue, ev.id)
  }

  lemma QueuedEventFits(s: State, a: Action)
    requires Shape(s) && SentKnown(s) && Enabled(s, a)
    ensures QueueFits(s.sh, EventOf(s, a))
  {
    if EventOf(s, a).Queued? {
      if !a.RecvStep? { OthersEvents(s, a); }
      assert s.recv.Offering? && EventOf(s, a).id == s.recv.id;
      assert InRecvHand(s.recv, s.recv.id);
    }
  }

  lemma SentInOrderKept(sh: Shared, ev: Event, f: FlowKey)
    requires Captures(sh) && Possible(sh, ev) && SentInOrder(sh.log, f)
    requires KnownIds(sh.log)
    requires ev.Sent? ==> ev.id < |sh.log.captured| && SendFits(sh, ev.id, f)
    ensures SentInOrder(LogAfter(sh, ev), f)
  {
    var log := LogAfter(sh, ev);
    assert log.sent == sh.log.sent + (if ev.Sent? then [ev.id] else []);
    assert forall x: nat :: x < |sh.log.captured| ==> OfFlow(log, x, f) == OfFlow(sh.log, x, f);
    forall i, j | 0 <= i < j < |log.sent| && OfFlow(log, log.sent[i], f) && OfFlow(log, log.sent[j], f)
      ensures log.sent[i] < log.sent[j]
    {
      assert log.sent[i] == sh.log.sent[i] && log.sent[i] in sh.log.sent;
      if j < |sh.log.sent| { assert log.sent[j] == sh.log.sent[j] && log.sent[j] in sh.log.sent; }
    }
  }

  lemma SentBeforeKept(sh: Shared, ev: Event, f: FlowKey, id: nat)
    requires Captures(sh) && Possible(sh, ev) && SentBefore(sh.log, f, id)
    requires KnownIds(sh.log)
    requires ev.Sent? ==> ev.id < |sh.log.captured| && (OfFlow(sh.log, ev.id, f) ==> ev.id < id)
    ensures SentBefore(LogAfter(sh, ev), f, id)
  {
    var log := LogAfter(sh, ev);
    assert log.sent == sh.log.sent + (if ev.Sent? then [ev.id] else []);
    assert forall x: nat :: x < |sh.log.captured| ==> OfFlow(log, x, f) == OfFlow(sh.log, x, f);
  }

  lemma QueueAfterSentKept(sh: Shared, ev: Event, f: FlowKey)
    requires SharedShape(sh) && Possible(sh, ev) && QueueAfterSent(sh, f) && QueueFits(sh, ev)
    requires KnownIds(sh.log)
    requires ev.Sent? ==> ev.id < |sh.log.captured| && SendFits(sh, ev.id, f)
    ensures QueueAfterSent(Apply(sh, ev), f)
  {
    var q := QueueAfter(sh, ev);
    forall k | 0 <= k < |q.queued| && q.queued[k].packet.flow == f
      ensures SentBefore(LogAfter(sh, ev), f, Id(q.queued[k].packet))
    {
      QueueFrom(sh, ev, k);
      if ev.Queued? && q.queued[k].packet == Pending(sh.log.captured[ev.id]) {
        assert Id(q.queued[k].packet) == ev.id;
        SentBeforeKept(sh, ev, f, ev.id);
      } else {
        var j :| 0 <= j < |sh.queue.queued| && sh.queue.queued[j].packet == q.queued[k].packet;
        SentBeforeKept(sh, ev, f, Id(q.queued[k].packet));
      }
    }
  }

  lemma PopFlight(sh: Shared, now: nat, f: FlowKey)
    requires QueueShape(sh.queue, sh.log, sh.clock) && Due(sh.queue, now).Some? && sh.queue.inFlight == []
    ensures QueueAfterFlight(PopDue(sh.queue, now), f)
  {
    var r := PopDue(sh.queue, now);
    var e := Due(sh.queue, now).value;
    forall k | 0 <= k < |r.queued| && r.queued[k].packet.flow == f && e.packet.flow == f
      ensures Id(e.packet) < Id(r.queued[k].packet)
    {
      RemoveAt(sh.queue.queued, LeastIndex(sh.queue.queued), k);
      var at := if k < LeastIndex(sh.queue.queued) then k else k + 1;
      PopTakesFlowHead(sh.queue, now, at);
    }
  }

  /** Without a pop, the packet in flight stays ahead of the queued ones of its flow. */
  lemma FlightStaysAhead(sh: Shared, ev: Event, f: FlowKey, k: nat)
    requires SharedShape(sh) && Possible(sh, ev) && QueueAfterFlight(sh.queue, f) && QueueFits(sh, ev)
    requires !ev.Popped? && |sh.queue.inFlight| == 1 && sh.queue.inFlight[0].packet.flow == f
    requires k < |QueueAfter(sh, ev).queued| && QueueAfter(sh, ev).queued[k].packet.flow == f
    ensures Id(sh.queue.inFlight[0].packet) < Id(QueueAfter(sh, ev).queued[k].packet)
  {
    QueueFrom(sh, ev, k);
    hide QueueAfter, Valid;
  }

  lemma QueueAfterFlightKept(sh: Shared, ev: Event, f: FlowKey)
    requires SharedShape(sh) && Possible(sh, ev) && QueueAfterFlight(sh.queue, f) && QueueFits(sh, ev)
    requires ev.Popped? ==> sh.queue.inFlight == []
    requires |sh.queue.inFlight| <= 1
    ensures QueueAfterFlight(QueueAfter(sh, ev), f)
  {
    var q := QueueAfter(sh, ev);
    if ev.Popped? {
      if Due(sh.queue, ev.now).Some? { PopFlight(sh, ev.now, f); }
    } else if !ev.Finished? && !ev.Discards? {
      assert q.inFlight == sh.queue.inFlight by { InFlightUntouched(sh, ev); }
      hide SharedShape, QueueAfter, Possible, QueueFits, Due, PopDue;
      if |q.inFlight| == 1 && q.inFlight[0].packet.flow == f {
        forall k | 0 <= k < |q.queued| && q.queued[k].packet.flow == f
          ensures Id(q.inFlight[0].packet) < Id(q.queued[k].packet)
        {
          FlightStaysAhead(sh, ev, f, k);
        }
      }
    }
  }

  lemma FlightAfterSentKept(s: State, a: Action, f: FlowKey)
    requires Shape(s) && SentKnown(s) && FlowOrder(s, f) && Enabled(s, a)
    ensures FlightAfterSent(Do(s, a), f)
  {
    var ev := EventOf(s, a);
    var t := Do(s, a);
    if SenderHasId(t.send) && InSenderHand(t.send, t.send.id) && OfFlow(t.sh.log, t.send.id, f) {
      var id := t.send.id;
      if ev.Popped? {
        assert a.SendStep? && t.sh.log == s.sh.log by { if !a.SendStep? { NotSendersEvents(s, a); } }
        var e := s.sh.queue.queued[LeastIndex(s.sh.queue.queued)];
        assert Genuine(s.sh.log, e.packet) && id == Id(e.packet) && e.packet.flow == f;
      } else {
        SenderKeepsHand(s, a);
        assert OfFlow(s.sh.log, id, f) by { assert Genuine(s.sh.log, s.sh.queue.inFlight[0].packet); }
        if ev.Sent? { DirectBesideFlight(s, a, f); }
        SentBeforeKept(s.sh, ev, f, id);
      }
    }
  }

  /** Unless it pops, the sender has nothing new in hand. */
  lemma SenderKeepsHand(s: State, a: Action)
    requires Enabled(s, a) && !EventOf(s, a).Popped?
    requires SenderHasId(Do(s, a).send) && InSenderHand(Do(s, a).send, Do(s, a).send.id)
    ensures SenderHasId(s.send) && s.send.id == Do(s, a).send.id && InSenderHand(s.send, s.send.id)
    ensures EventOf(s, a).Sent? ==> a.RecvStep?
  {
    hide QueueAfter, CountersAfter, LogAfter, LedgerAfter;
  }

  lemma DirectBesideFlight(s: State, a: Action, f: FlowKey)
    requires Shape(s) && FlowOrder(s, f) && Enabled(s, a) && a.RecvStep? && EventOf(s, a).Sent?
    requires SenderHasId(s.send) && OfFlow(s.sh.log, s.send.id, f)
    ensures EventOf(s, a).id < |s.sh.log.captured| && !OfFlow(s.sh.log, EventOf(s, a).id, f)
  {
    assert s.recv.Sending? && s.recv.stage.AtIo? && EventOf(s, a).id == s.recv.id;
    assert Genuine(s.sh.log, s.sh.queue.inFlight[0].packet);
    if OfFlow(s.sh.log, s.recv.id, f) {
      FlowAbsent(s.sh.queue, f);
    }
  }

  lemma DirectIsAloneKept(s: State, a: Action, f: FlowKey)
    requires Shape(s) && FlowOrder(s, f) && Enabled(s, a)
    ensures DirectIsAlone(Do(s, a), f)
  {
    var t := Do(s, a);
    var ev := EventOf(s, a);
    if t.recv.Sending? && Undecided(t.recv.stage) && OfFlow(t.sh.log, t.recv.id, f) {
      DirectStart(s, a, f);
      LoadShrinks(s.sh, ev, FlowOnes(f));
    }
  }

  /** A packet is being sent directly because it was before, was let pass, or is outside every flow. */
  lemma DirectCases(s: State, a: Action)
    requires HasId(s.recv) ==> s.recv.id < |s.sh.log.captured|
    requires Enabled(s, a) && Do(s, a).recv.Sending? && Undecided(Do(s, a).recv.stage)
    ensures !EventOf(s, a).Captured? && !EventOf(s, a).Queued?
    ensures HasId(s.recv) && s.recv.id == Do(s, a).recv.id
    ensures || (s.recv.Sending? && Undecided(s.recv.stage))
            || (s.recv.Offering? && !MustQueue(s.sh, Hand(s), s.recv.delay))
            || Hand(s).flow.None?
  {
    if !a.RecvStep? { OthersEvents(s, a); }
    hide Apply, SendAfter, MustQueue, BlockedNow;
  }

  lemma SameCaptures(s: State, a: Action)
    requires Enabled(s, a) && !EventOf(s, a).Captured?
    ensures Do(s, a).sh.log.captured == s.sh.log.captured
  {
    hide EventOf, QueueAfter, CountersAfter, LedgerAfter;
  }

  lemma DirectStart(s: State, a: Action, f: FlowKey)
    requires Shape(s) && DirectIsAlone(s, f) && Enabled(s, a)
    requires var t := Do(s, a); t.recv.Sending? && Undecided(t.recv.stage) && OfFlow(t.sh.log, t.recv.id, f)
    ensures !EventOf(s, a).Queued? && !HasFlow(s.sh.queue, f)
  {
    assert InHand(s);
    hide Do, Enabled, EventOf, Shape, HasFlow, AllBefore;
    DirectCases(s, a);
    SameCaptures(s, a);
  }

  /** What the shape gives the lemmas about single events. */
  lemma EventKnown(s: State, a: Action, f: FlowKey)
    requires Shape(s) && SentKnown(s) && FlowOrder(s, f) && Enabled(s, a)
    ensures var ev := EventOf(s, a);
      && Captures(s.sh) && SharedShape(s.sh) && KnownIds(s.sh.log)
      && |s.sh.queue.inFlight| <= 1 && (ev.Popped? ==> s.sh.queue.inFlight == [])
      && (ev.Sent? ==> ev.id < |s.sh.log.captured|)
  {
    var ev := EventOf(s, a);
    if ev.Sent? {
      if a.RecvStep? { RecvKnows(s, a.input); } else { SenderKnows(s, a); }
    }
    if !a.SendStep? { NotSendersEvents(s, a); }
    hide FlowOrder, QueueShape, Captures;
  }

  lemma FlowOrderKept(s: State, a: Action, f: FlowKey)
    requires Shape(s) && SentKnown(s) && FlowOrder(s, f) && Enabled(s, a)
    ensures FlowOrder(Do(s, a), f)
  {
    hide Shape, SentKnown, SharedShape, Captures, KnownIds, SentInOrder, QueueAfterSent, QueueAfterFlight,
      FlightAfterSent, DirectIsAlone, Enabled, EventOf, QueueAfter, LogAfter, SendFits, QueueFits;
    var ev := EventOf(s, a);
    EventKnown(s, a, f);
    if ev.Sent? { SentEventFits(s, a, f); }
    QueuedEventFits(s, a);
    SentInOrderKept(s.sh, ev, f);
    QueueAfterSentKept(s.sh, ev, f);
    QueueAfterFlightKept(s.sh, ev, f);
    FlightAfterSentKept(s, a, f);
    DirectIsAloneKept(s, a, f);
  }
}
