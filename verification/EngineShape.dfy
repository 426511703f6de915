/** Lock discipline and the shape of the shared data: what is queued, in flight and in hand. */
module EngineShape {
  import opened Core
  import opened Packet
  import opened QueueModel
  import opened QueueFacts
  import opened Rules
  import opened Engine

  // ---------------------------------------------------------------- locks

  /** No lock has two holders. */
  ghost predicate LocksHeldOnce(s: State) {
    && !(RecvHoldsGate(s.recv) && SenderHoldsGate(s.send))
    && !(RecvHoldsGate(s.recv) && EditHoldsGate(s.edit))
    && !(SenderHoldsGate(s.send) && EditHoldsGate(s.edit))
    && !(SenderHoldsQueue(s.send) && s.snap.Loading?)
  }

  /** No program point is past its last stage. */
  ghost predicate StagesRunning(s: State) {
    && (s.recv.Sending? ==> !s.recv.stage.Returned? && s.recv.stage != Failing(Failed))
    && (s.send.InSend? ==> !s.send.stage.Returned? && s.send.stage != Failing(Failed))
    && s.recv != RecvFailing(Failed)
    && (s.send.Unwinding? ==> !s.send.fail.Failed?)
    && s.stop != StopFailing(Failed)
  }

  ghost predicate Exclusive(s: State) {
    LocksHeldOnce(s) && StagesRunning(s)
  }

  lemma ExclusiveKept(s: State, a: Action)
    requires Exclusive(s) && Enabled(s, a)
    ensures Exclusive(Do(s, a))
  {
    LocksKept(s, a);
    StagesKept(s, a);
    hide LocksHeldOnce, StagesRunning, Do;
  }

  lemma LocksKept(s: State, a: Action)
    requires LocksHeldOnce(s) && Enabled(s, a)
    ensures LocksHeldOnce(Do(s, a))
  {
    hide Apply;
  }

  lemma StagesKept(s: State, a: Action)
    requires StagesRunning(s) && Enabled(s, a)
    ensures StagesRunning(Do(s, a))
  {
    hide Apply;
  }

  // ---------------------------------------------------------------- captures and queue

  ghost predicate Captures(sh: Shared) {
    && (forall i :: 0 <= i < |sh.log.captured| ==>
         && sh.log.captured[i].address.capture == i
         && sh.log.captured[i].receivedAt <= sh.clock
         && (sh.log.captured[i].flow.None? ==> sh.log.captured[i].pid.None? && sh.log.captured[i].chargeLen == 0))
    && (forall i, j :: 0 <= i < j < |sh.log.captured| ==>
      sh.log.captured[i].receivedAt <= sh.log.captured[j].receivedAt)
  }

  /** A queued packet is a captured, parsed, non-loopback one. */
  ghost predicate Genuine(log: Log, p: PendingPacket) {
    && Id(p) < |log.captured|
    && log.captured[Id(p)].flow.Some?
    && !log.captured[Id(p)].address.loopback
    && p == Pending(log.captured[Id(p)])
  }

  ghost predicate QueueGenuine(q: Queue, log: Log) {
    && (forall i :: 0 <= i < |q.queued| ==> Genuine(log, q.queued[i].packet))
    && (forall i :: 0 <= i < |q.inFlight| ==> Genuine(log, q.inFlight[i].packet))
    && (forall i, j :: 0 <= i < j < |q.queued| ==> Id(q.queued[i].packet) < Id(q.queued[j].packet))
  }

  ghost predicate QueueShape(q: Queue, log: Log, clock: nat) {
    QueueGenuine(q, log) && Valid(q, clock)
  }

  ghost predicate SharedShape(sh: Shared) {
    Captures(sh) && QueueShape(sh.queue, sh.log, sh.clock)
  }

  /** All queued and in-flight packets were captured before `id`. */
  ghost predicate AllBefore(q: Queue, id: nat) {
    && (forall i :: 0 <= i < |q.queued| ==> Id(q.queued[i].packet) < id)
    && (forall i :: 0 <= i < |q.inFlight| ==> Id(q.inFlight[i].packet) < id)
  }

  ghost predicate InHand(s: State) {
    HasId(s.recv) ==>
      && s.recv.id + 1 == |s.sh.log.captured|
      && AllBefore(s.sh.queue, s.recv.id)
  }

  /** The one packet in flight is the one the sender is working on. */
  ghost predicate InFlightIsSenders(s: State) {
    if SenderHasId(s.send)
    then |s.sh.queue.inFlight| == 1 && Id(s.sh.queue.inFlight[0].packet) == s.send.id
    else s.sh.queue.inFlight == []
  }

  /** `stop` is past a join only when that worker has exited. */
  ghost predicate Joined(s: State) {
    && (s.stop.JoiningSend? || s.stop.Closing? || s.stop.StopDiscarding? || s.stop.Stopped? ==> s.recv.RecvExited?)
    && (s.stop.Closing? || s.stop.StopDiscarding? || s.stop.Stopped? ==> s.send.SendExited?)
  }

  ghost predicate Shape(s: State) {
    && Exclusive(s)
    && SharedShape(s.sh)
    && InHand(s)
    && InFlightIsSenders(s)
    && (s.sh.recvDone <==> s.recv.RecvExited?)
    && Joined(s)
    && (s.send.Popping? ==> s.send.now <= s.sh.clock)
  }

  lemma InitShape(s: State)
    requires Init(s)
    ensures Shape(s)
  {
  }

  /** What the emitting program point guarantees about an event. */
  ghost predicate Fits(sh: Shared, ev: Event) {
    match ev
    case Captured(c) => CaptureFits(sh, c)
    case Queued(id, _) => id < |sh.log.captured| && !sh.log.captured[id].address.loopback && AllBefore(sh.queue, id)
    case Popped(now) => now <= sh.clock
    case _ => true
  }

  lemma RecvFits(s: State, input: Input)
    requires Captures(s.sh) && InHand(s) && RecvEnabled(s, input)
    ensures Fits(s.sh, RecvEvent(s, input))
  {
    hide Captures, Admits, BlockedNow, AllBefore, NextStage;
  }

  lemma SenderFits(s: State, io: IoResult)
    requires SenderEnabled(s) && (s.send.Popping? ==> s.send.now <= s.sh.clock)
    ensures Fits(s.sh, SenderEvent(s, io))
  {
    hide Due, CanFinish;
  }

  lemma EventFits(s: State, a: Action)
    requires Shape(s) && Enabled(s, a)
    ensures Fits(s.sh, EventOf(s, a))
  {
    if a.RecvStep? { RecvFits(s, a.input); }
    else if a.SendStep? { SenderFits(s, a.io); }
    hide RecvEvent, SenderEvent, QueueShape, Captures, Exclusive;
  }

  lemma CapturesKept(sh: Shared, ev: Event)
    requires Captures(sh) && Possible(sh, ev) && Fits(sh, ev)
    ensures Captures(Apply(sh, ev))
  {
  }

  lemma PopGenuine(q: Queue, log: Log, now: nat)
    requires QueueGenuine(q, log)
    ensures QueueGenuine(PopDue(q, now), log)
  {
    var r := PopDue(q, now);
    if Due(q, now).Some? {
      var i := LeastIndex(q.queued);
      forall k | 0 <= k < |r.queued| ensures r.queued[k] == q.queued[if k < i then k else k + 1] {
        RemoveAt(q.queued, i, k);
      }
    }
  }

  lemma FinishGenuine(q: Queue, log: Log, p: PendingPacket)
    requires QueueGenuine(q, log) && IsInFlight(q, p)
    ensures QueueGenuine(Finish(q, p), log)
  {
    var r := Finish(q, p);
    var i := FirstIndex(q.inFlight, p);
    forall k | 0 <= k < |r.inFlight| ensures r.inFlight[k] == q.inFlight[if k < i then k else k + 1] {
      RemoveAt(q.inFlight, i, k);
    }
  }

  lemma ReleaseGenuine(q: Queue, log: Log, now: nat, sel: Selection)
    requires QueueGenuine(q, log)
    ensures QueueGenuine(Release(q, now, sel), log)
  {
    ReleaseKeepsPackets(q, now, sel);
  }

  lemma EnqueueGenuine(q: Queue, log: Log, p: PendingPacket, deadline: nat)
    requires QueueGenuine(q, log) && Genuine(log, p) && AllBefore(q, Id(p))
    ensures QueueGenuine(Enqueue(q, p, deadline), log)
  {
  }

  predicate TouchesQueue(ev: Event) {
    ev.Queued? || ev.Popped? || ev.Finished? || ev.Frees? || ev.Drains? || ev.Discards?
  }

  lemma QueueUntouched(sh: Shared, ev: Event)
    requires QueueShape(sh.queue, sh.log, sh.clock) && Possible(sh, ev) && !TouchesQueue(ev)
    ensures var r := Apply(sh, ev); QueueShape(r.queue, r.log, r.clock)
  {
    var r := Apply(sh, ev);
    assert r.queue == sh.queue && sh.clock <= r.clock && sh.log.captured <= r.log.captured;
  }

  lemma EnqueueShape(sh: Shared, p: PendingPacket, deadline: nat, log: Log)
    requires QueueShape(sh.queue, sh.log, sh.clock) && log.captured == sh.log.captured
    requires Genuine(sh.log, p) && AllBefore(sh.queue, Id(p))
    ensures QueueShape(Enqueue(sh.queue, p, deadline), log, sh.clock)
  {
    EnqueueGenuine(sh.queue, sh.log, p, deadline);
    EnqueueValid(sh.queue, p, deadline, sh.clock);
  }

  lemma PopShape(sh: Shared, now: nat)
    requires QueueShape(sh.queue, sh.log, sh.clock) && now <= sh.clock
    ensures QueueShape(PopDue(sh.queue, now), sh.log, sh.clock)
  {
    PopGenuine(sh.queue, sh.log, now);
    PopKeepsOrder(sh.queue, now);
    PopKeepsLimits(sh.queue, now);
  }

  lemma FinishShape(sh: Shared, p: PendingPacket)
    requires QueueShape(sh.queue, sh.log, sh.clock) && IsInFlight(sh.queue, p)
    ensures QueueShape(Finish(sh.queue, p), sh.log, sh.clock)
  {
    FinishGenuine(sh.queue, sh.log, p);
    FinishKeeps(sh.queue, p);
  }

  lemma ReleaseShape(sh: Shared, sel: Selection, log: Log)
    requires QueueShape(sh.queue, sh.log, sh.clock) && log.captured == sh.log.captured
    ensures QueueShape(Release(sh.queue, sh.clock, sel), log, sh.clock)
  {
    ReleaseGenuine(sh.queue, sh.log, sh.clock, sel);
    ReleaseKeeps(sh.queue, sh.clock, sel);
  }

  lemma QueuedShape(sh: Shared, ev: Event)
    requires SharedShape(sh) && Possible(sh, ev) && Fits(sh, ev) && ev.Queued?
    ensures var r := Apply(sh, ev); QueueShape(r.queue, r.log, r.clock)
  {
    hide QueueShape, Enqueue, Admits;
    var c := sh.log.captured[ev.id];
    EnqueueShape(sh, Pending(c), if sh.draining then c.receivedAt else c.receivedAt + ev.delay, Apply(sh, ev).log);
  }

  lemma TakenShape(sh: Shared, ev: Event)
    requires SharedShape(sh) && Possible(sh, ev) && Fits(sh, ev) && (ev.Popped? || ev.Finished?)
    ensures var r := Apply(sh, ev); QueueShape(r.queue, r.log, r.clock)
  {
    hide QueueShape, PopDue, Finish, IsInFlight;
    if ev.Popped? { PopShape(sh, ev.now); } else { FinishShape(sh, Pending(sh.log.captured[ev.id])); }
    assert Apply(sh, ev).log == sh.log;
  }

  lemma ReleasedShape(sh: Shared, ev: Event)
    requires SharedShape(sh) && (ev.Frees? || ev.Drains?)
    ensures var r := Apply(sh, ev); QueueShape(r.queue, r.log, r.clock)
  {
    hide QueueShape, Release;
    ReleaseShape(sh, if ev.Frees? then Freed(sh.rules) else All(), Apply(sh, ev).log);
  }

  lemma DiscardedShape(sh: Shared)
    ensures var r := Apply(sh, Discards); QueueShape(r.queue, r.log, r.clock)
  {
    DiscardShape(sh.queue.limits, Apply(sh, Discards).log, sh.clock);
    hide QueueShape;
  }

  lemma QueueKept(sh: Shared, ev: Event)
    requires SharedShape(sh) && Possible(sh, ev) && Fits(sh, ev)
    ensures var r := Apply(sh, ev); QueueShape(r.queue, r.log, r.clock)
  {
    hide Possible, Fits, Apply, QueueShape;
    match ev
    case Queued(_, _) => QueuedShape(sh, ev);
    case Popped(_) => TakenShape(sh, ev);
    case Finished(_) => TakenShape(sh, ev);
    case Frees => ReleasedShape(sh, ev);
    case Drains => ReleasedShape(sh, ev);
    case Discards => DiscardedShape(sh);
    case _ => QueueUntouched(sh, ev);
  }

  lemma DiscardShape(limits: Limits, log: Log, clock: nat)
    ensures QueueShape(Empty(limits), log, clock)
  {
    EmptyValid(limits, clock);
  }

  /** What an event can do to the ids in the queue and in flight. */
  lemma IdsKept(sh: Shared, ev: Event, bound: nat)
    requires Possible(sh, ev) && AllBefore(sh.queue, bound)
    requires ev.Queued? ==> ev.id < bound && sh.log.captured[ev.id].address.capture == ev.id
    ensures AllBefore(Apply(sh, ev).queue, bound)
  {
    assert Apply(sh, ev).queue == QueueAfter(sh, ev);
    hide Apply, PopDue, Finish, Release;
    match ev
    case Queued(id, delay) =>
    case Popped(now) => PopIds(sh.queue, now, bound);
    case Finished(id) => FinishIds(sh.queue, Pending(sh.log.captured[id]), bound);
    case Frees => ReleaseKeepsPackets(sh.queue, sh.clock, Freed(sh.rules));
    case Drains => ReleaseKeepsPackets(sh.queue, sh.clock, All());
    case _ =>
  }

  lemma PopIds(q: Queue, now: nat, bound: nat)
    requires AllBefore(q, bound)
    ensures AllBefore(PopDue(q, now), bound)
  {
    var r := PopDue(q, now);
    if Due(q, now).Some? {
      var i := LeastIndex(q.queued);
      forall k | 0 <= k < |r.queued| ensures r.queued[k] == q.queued[if k < i then k else k + 1] {
        RemoveAt(q.queued, i, k);
      }
    }
  }

  lemma FinishIds(q: Queue, p: PendingPacket, bound: nat)
    requires AllBefore(q, bound) && IsInFlight(q, p)
    ensures AllBefore(Finish(q, p), bound)
  {
    var r := Finish(q, p);
    var i := FirstIndex(q.inFlight, p);
    forall k | 0 <= k < |r.inFlight| ensures r.inFlight[k] == q.inFlight[if k < i then k else k + 1] {
      RemoveAt(q.inFlight, i, k);
    }
  }

  lemma RecvDoes(s: State, input: Input)
    requires Enabled(s, RecvStep(input))
    ensures Possible(s.sh, RecvEvent(s, input))
    ensures var t := Do(s, RecvStep(input)); t.sh == Apply(s.sh, RecvEvent(s, input)) && t.recv == NextRecv(s, input)
  {
    assert EventOf(s, RecvStep(input)) == RecvEvent(s, input);
    hide Apply, RecvEvent, NextRecv;
  }

  /** What a receive step does to the packet in hand. */
  lemma RecvTakes(s: State, input: Input)
    requires RecvEnabled(s, input)
    ensures var ev := RecvEvent(s, input);
      && (s.recv.Receiving? ==> HasId(NextRecv(s, input)) == ev.Captured? && !ev.Queued?)
      && (ev.Captured? ==> s.recv.Receiving? && NextRecv(s, input) == Counting(|s.sh.log.captured|))
      && (!s.recv.Receiving? && HasId(NextRecv(s, input)) ==>
        HasId(s.recv) && NextRecv(s, input).id == s.recv.id && !ev.Queued?)
  {
    hide Admits, MustQueue, BlockedNow;
  }

  lemma CaptureExtends(sh: Shared, ev: Event)
    requires Possible(sh, ev)
    ensures |Apply(sh, ev).log.captured| == |sh.log.captured| + if ev.Captured? then 1 else 0
    ensures ev.Captured? ==> Apply(sh, ev).queue == sh.queue
  {
  }

  lemma AllCapturedBefore(s: State)
    requires SharedShape(s.sh)
    ensures AllBefore(s.sh.queue, |s.sh.log.captured|)
  {
    hide Valid, Captures;
  }

  lemma InHandRecv(s: State, input: Input)
    requires Shape(s) && Enabled(s, RecvStep(input))
    ensures InHand(Do(s, RecvStep(input)))
  {
    hide Exclusive, SharedShape, InFlightIsSenders, Joined, Apply, Do, RecvEvent, NextRecv, AllBefore;
    RecvDoes(s, input);
    RecvTakes(s, input);
    var ev := RecvEvent(s, input);
    CaptureExtends(s.sh, ev);
    if s.recv.Receiving? {
      AllCapturedBefore(s);
    } else if HasId(NextRecv(s, input)) {
      IdsKept(s.sh, ev, s.recv.id);
    }
  }

  lemma InHandOthers(s: State, a: Action)
    requires Shape(s) && Enabled(s, a) && !a.RecvStep?
    ensures InHand(Do(s, a))
  {
    hide Exclusive, Joined, InFlightIsSenders, Valid, NextStage, SendEvent;
    var ev := EventOf(s, a);
    assert !ev.Queued? && !ev.Captured? by { OthersEvents(s, a); }
    if HasId(s.recv) {
      IdsKept(s.sh, ev, s.recv.id);
    }
  }

  /** Only the receive worker captures and queues packets. */
  lemma OthersEvents(s: State, a: Action)
    requires Enabled(s, a) && !a.RecvStep?
    ensures var ev := EventOf(s, a);
      && !ev.Queued? && !ev.Captured? && !ev.Overflowed? && !ev.ReceiverDone?
      && !ev.CountedEligible? && !ev.CountedProcessed?
  {
  }

  /** Only the send worker pops and finishes; only it and `stop` discard. */
  lemma NotSendersEvents(s: State, a: Action)
    requires Enabled(s, a) && !a.SendStep?
    ensures var ev := EventOf(s, a);
      && !ev.Popped? && !ev.Finished?
      && (ev.Discards? ==> a.StopStep? && s.stop.StopDiscarding?)
  {
  }

  /** The in-flight packets change only by pop, finish and discard. */
  lemma InFlightUntouched(sh: Shared, ev: Event)
    requires Possible(sh, ev) && !ev.Popped? && !ev.Finished? && !ev.Discards?
    ensures Apply(sh, ev).queue.inFlight == sh.queue.inFlight
  {
  }

  lemma PopInFlight(sh: Shared, now: nat)
    requires Due(sh.queue, now).Some? && sh.queue.inFlight == []
    ensures Apply(sh, Popped(now)).queue.inFlight == [Due(sh.queue, now).value]
  {
  }

  lemma FinishInFlight(sh: Shared, id: nat)
    requires CanFinish(sh, id) && |sh.queue.inFlight| == 1
    ensures Apply(sh, Finished(id)).queue.inFlight == []
  {
  }

  lemma SenderDoes(s: State, io: IoResult)
    requires Enabled(s, SendStep(io))
    ensures Possible(s.sh, SenderEvent(s, io))
    ensures var t := Do(s, SendStep(io)); t.sh == Apply(s.sh, SenderEvent(s, io)) && t.send == NextSend(s, io)
  {
    assert EventOf(s, SendStep(io)) == SenderEvent(s, io);
    hide Apply, SenderEvent, NextSend;
  }

  /** What the sender does to the packet it works on. */
  lemma SenderTakes(s: State, io: IoResult)
    requires SenderEnabled(s)
    ensures var ev := SenderEvent(s, io);
      && (ev.Popped? ==> s.send.Popping? && ev.now == s.send.now && Due(s.sh.queue, ev.now).Some?
                         && NextSend(s, io) == InSend(Id(Due(s.sh.queue, ev.now).value.packet), WantGate))
      && (ev.Finished? ==>
        s.send.Finishing? && ev.id == s.send.id && CanFinish(s.sh, ev.id) && NextSend(s, io).Looping?)
      && (ev.Discards? ==> NextSend(s, io).SendExited?)
  {
  }

  lemma InFlightSender(s: State, io: IoResult)
    requires Shape(s) && Enabled(s, SendStep(io))
    ensures InFlightIsSenders(Do(s, SendStep(io)))
  {
    hide Exclusive, Joined, InHand, SharedShape, Apply, Do, SenderEvent, NextSend, Due, CanFinish;
    SenderDoes(s, io);
    SenderTakes(s, io);
    var ev := SenderEvent(s, io);
    if ev.Popped? {
      PopInFlight(s.sh, s.send.now);
    } else if ev.Finished? {
      FinishInFlight(s.sh, s.send.id);
    } else if ev.Discards? {
      DiscardInFlight(s.sh);
    } else {
      InFlightUntouched(s.sh, ev);
      SenderIdKept(s, io);
    }
  }

  lemma DiscardInFlight(sh: Shared)
    ensures Apply(sh, Discards).queue.inFlight == []
  {
  }

  /** Between popping a packet and finishing it the sender keeps working on it. */
  lemma SenderIdKept(s: State, io: IoResult)
    requires SenderEnabled(s)
    requires var ev := SenderEvent(s, io); !ev.Popped? && !ev.Finished? && !ev.Discards?
    ensures SenderHasId(NextSend(s, io)) == SenderHasId(s.send)
    ensures SenderHasId(s.send) ==> NextSend(s, io).id == s.send.id
  {
  }

  lemma InFlightOthers(s: State, a: Action)
    requires Shape(s) && Enabled(s, a) && !a.SendStep?
    ensures InFlightIsSenders(Do(s, a))
  {
    NotSendersEvents(s, a);
    var ev := EventOf(s, a);
    assert Do(s, a).sh == Apply(s.sh, ev);
    assert SenderHasId(Do(s, a).send) == SenderHasId(s.send) && (SenderHasId(s.send) ==> Do(s, a).send.id == s.send.id);
    hide Exclusive, InHand, SharedShape, Apply, Do, EventOf;
    if ev.Discards? {
      DiscardInFlight(s.sh);
    } else {
      InFlightUntouched(s.sh, ev);
    }
  }

  lemma JoinedKept(s: State, a: Action)
    requires Joined(s) && Enabled(s, a)
    ensures Joined(Do(s, a))
  {
    hide Apply, EventOf;
  }

  lemma ReceiverDoneKept(s: State, a: Action)
    requires s.sh.recvDone <==> s.recv.RecvExited?
    requires Enabled(s, a)
    ensures Do(s, a).sh.recvDone <==> Do(s, a).recv.RecvExited?
  {
    assert EventOf(s, a).ReceiverDone? <==> a.RecvStep? && s.recv.RecvFinishing?;
    hide EventOf, SendAfter;
  }

  lemma PoppingClock(s: State, a: Action)
    requires s.send.Popping? ==> s.send.now <= s.sh.clock
    requires Enabled(s, a)
    ensures Do(s, a).send.Popping? ==> Do(s, a).send.now <= Do(s, a).sh.clock
  {
    ClockGrows(s.sh, EventOf(s, a));
    hide Apply, EventOf;
  }

  lemma ClockGrows(sh: Shared, ev: Event)
    requires Possible(sh, ev)
    ensures sh.clock <= Apply(sh, ev).clock
    ensures !ev.Ticked? ==> sh.clock == Apply(sh, ev).clock
  {
  }

  lemma ShapeKept(s: State, a: Action)
    requires Shape(s) && Enabled(s, a)
    ensures Shape(Do(s, a))
  {
    ExclusiveKept(s, a);
    EventFits(s, a);
    CapturesKept(s.sh, EventOf(s, a));
    QueueKept(s.sh, EventOf(s, a));
    if a.RecvStep? { InHandRecv(s, a.input); } else { InHandOthers(s, a); }
    if a.SendStep? { InFlightSender(s, a.io); } else { InFlightOthers(s, a); }
    JoinedKept(s, a);
    ReceiverDoneKept(s, a);
    PoppingClock(s, a);
    hide Exclusive, Captures, QueueShape, InHand, InFlightIsSenders, Joined;
  }
}
