/**
 What happens to a packet and why: each drop has the cause its reason names, and each cause leads to
 the drop. The causes are given in the fields of the rules, the packet and the queue.
 */
module EngineVerdicts {
  import opened Core
  import opened Packet
  import opened QueueModel
  import opened QueueFacts
  import opened QueueAccepts
  import opened Rules
  import opened Engine
  import opened EngineShape
  import opened EngineFates
  import opened EngineProgress
  import opened EngineTiming
  import opened EngineRuns
  import opened EnginePromises

  // ---------------------------------------------------------------- causes

  predicate ProcessBlocks(t: Tables, c: Capture) {
    c.pid.Some? && c.pid.value in t.process && t.process[c.pid.value].blockAll
  }

  /** The rule limits the packet's direction, and the packet counts against it. */
  predicate Restricts(rule: ProcessRule, c: Capture) {
    && c.chargeLen > 0
    && (c.direction.Download? ==> rule.limitDownload && rule.downloadKbps > 0)
    && (c.direction.Upload? ==> rule.limitUpload && rule.uploadKbps > 0)
  }

  predicate ProcessRestricts(t: Tables, c: Capture) {
    c.pid.Some? && c.pid.value in t.process && Restricts(t.process[c.pid.value], c)
  }

  /** A packet of the flow is queued or in flight. */
  ghost predicate FlowWaits(q: Queue, flow: FlowKey) {
    || (exists i :: 0 <= i < |q.queued| && q.queued[i].packet.flow == flow)
    || (exists i :: 0 <= i < |q.inFlight| && q.inFlight[i].packet.flow == flow)
  }

  /** A parsed packet off loopback has to wait for its delay or behind its flow. */
  ghost predicate Waits(sh: Shared, c: Capture, delay: nat) {
    c.flow.Some? && !c.address.loopback && (delay > 0 || FlowWaits(sh.queue, c.flow.value))
  }

  /** A send stops here with a drop. */
  predicate StageCondemns(sh: Shared, c: Capture, stage: SendStage, io: IoResult, reason: Reason) {
    match stage
    case CheckAbort => sh.aborted && reason.Shutdown?
    case CheckBlock => !c.address.loopback && (sh.rules.global.blockAll || ProcessBlocks(sh.rules, c)) && reason.Block?
    case AtIo => !io.Ok? && reason.SendFailure?
    case _ => false
  }

  /** The receive worker decides that the packet in its hand is dropped for this reason. */
  ghost predicate RecvCondemns(s: State, input: Input, reason: Reason)
    requires RecvEnabled(s, input) && HasId(s.recv)
  {
    var c := s.sh.log.captured[s.recv.id];
    var rules := s.sh.rules;
    match s.recv
    case CheckingAbort(_) => s.sh.aborted && reason.Shutdown?
    case CheckingGlobal(_) => !c.address.loopback && rules.global.blockAll && reason.Block?
    case CheckingProcess(_) => !c.address.loopback && ProcessBlocks(rules, c) && reason.Block?
    case Eligible(_, _) => input.drop && reason.Loss?
    case LimitingGlobal(_) =>
      if !c.address.loopback && rules.global.blockAll then reason.Block?
      else Restricts(rules.global, c) && input.drop && reason.Rate?
    case LimitingProcess(_) =>
      if !c.address.loopback && ProcessBlocks(rules, c) then reason.Block?
      else ProcessRestricts(rules, c) && input.drop && reason.Rate?
    case Gated(_) => s.sh.aborted && reason.Shutdown?
    case Offering(_, delay) => Waits(s.sh, c, delay) && Exceeds(s.sh.queue, Pending(c)) && reason.Overflow?
    case Sending(_, stage) => StageCondemns(s.sh, c, stage, input.io, reason)
    case _ => false
  }

  /** All packets still queued or in flight are thrown away. */
  predicate ThrowsAway(s: State, a: Action) {
    (a.SendStep? && s.send.Discarding?) || (a.StopStep? && s.stop.StopDiscarding?)
  }

  ghost predicate Inside(q: Queue, id: nat) {
    || (exists i :: 0 <= i < |q.queued| && Id(q.queued[i].packet) == id)
    || (exists i :: 0 <= i < |q.inFlight| && Id(q.inFlight[i].packet) == id)
  }

  /** This step seals that packet `id` is dropped for this reason. */
  ghost predicate Condemns(s: State, a: Action, id: nat, reason: Reason)
    requires Enabled(s, a)
  {
    || (a.RecvStep? && HasId(s.recv) && s.recv.id == id && RecvCondemns(s, a.input, reason))
    || (a.SendStep? && s.send.InSend? && s.send.id == id
        && StageCondemns(s.sh, s.sh.log.captured[id], s.send.stage, a.io, reason))
    || (ThrowsAway(s, a) && Inside(s.sh.queue, id) && reason.Shutdown?)
  }

  // ---------------------------------------------------------------- consequences

  predicate Counts(stage: SendStage, reason: Reason) {
    (stage.CountReason? || stage.CountDrop?) && stage.reason == reason
  }

  predicate RecvOnWay(pc: RecvPc, id: nat, reason: Reason) {
    || (pc.Dropping? && pc.id == id && pc.reason == reason)
    || (pc.Sending? && pc.id == id && Counts(pc.stage, reason))
  }

  predicate SendOnWay(pc: SendPc, id: nat, reason: Reason) {
    pc.InSend? && pc.id == id && Counts(pc.stage, reason)
  }

  /** The drop is recorded, or a worker is on its way to recording it. */
  predicate Doomed(s: State, id: nat, reason: Reason) {
    Drop(id, reason) in s.sh.log.dropped || RecvOnWay(s.recv, id, reason) || SendOnWay(s.send, id, reason)
  }

  // ---------------------------------------------------------------- one step

  lemma WaitsMeans(sh: Shared, c: Capture, delay: nat)
    ensures MustQueue(sh, c, delay) <==> Waits(sh, c, delay)
  {
    if c.flow.Some? {
      FlowTotalPositive(sh.queue.queued, c.flow.value);
      FlowTotalPositive(sh.queue.inFlight, c.flow.value);
    }
  }

  lemma AdmitsMeans(q: Queue, p: PendingPacket)
    ensures Admits(q, p) <==> !Exceeds(q, p)
  {
    LoadsAreCounts(q, p.pid);
  }

  lemma DiscardedAre(q: Queue, id: nat, reason: Reason)
    ensures Drop(id, reason) in Discarded(q) <==> Inside(q, id) && reason.Shutdown?
  {
    var ids := IdsOf(q.queued) + IdsOf(q.inFlight);
    if i :| 0 <= i < |q.queued| && Id(q.queued[i].packet) == id { assert Discarded(q)[i].id == id; }
    if i :| 0 <= i < |q.inFlight| && Id(q.inFlight[i].packet) == id {
      assert ids[|q.queued| + i] == id && Discarded(q)[|q.queued| + i].id == id;
    }
    if Drop(id, reason) in Discarded(q) {
      var k :| 0 <= k < |ids| && Discarded(q)[k] == Drop(id, reason);
      assert ids[k] == id;
    }
  }

  /** The drops an event records. */
  ghost predicate Records(sh: Shared, ev: Event, id: nat, reason: Reason) {
    || ev == Dropped(id, reason)
    || (ev == Overflowed(id) && reason.Overflow?)
    || (ev.Discards? && Inside(sh.queue, id) && reason.Shutdown?)
  }

  lemma DropsRecorded(sh: Shared, ev: Event, id: nat, reason: Reason)
    ensures Drop(id, reason) in DroppedAfter(sh, ev) <==>
      Drop(id, reason) in sh.log.dropped || Records(sh, ev, id, reason)
  {
    DiscardedAre(sh.queue, id, reason);
    hide Inside, Discarded;
  }

  /** The receive worker between taking a packet and offering it to the queue. */
  lemma RecvTurns(s: State, input: Input, id: nat, reason: Reason)
    requires RecvEnabled(s, input) && HasId(s.recv) && !s.recv.Offering? && !s.recv.Sending? && !s.recv.Dropping?
    ensures RecvOnWay(NextRecv(s, input), id, reason) <==> s.recv.id == id && RecvCondemns(s, input, reason)
    ensures var ev := RecvEvent(s, input); !ev.Dropped? && !ev.Overflowed? && !ev.Discards?
  {
    hide Waits, Exceeds, StageCondemns, NextStage;
  }

  lemma RecvOffers(s: State, input: Input, id: nat, reason: Reason)
    requires RecvEnabled(s, input) && s.recv.Offering?
    ensures Records(s.sh, RecvEvent(s, input), id, reason) <==> s.recv.id == id && RecvCondemns(s, input, reason)
    ensures !RecvOnWay(NextRecv(s, input), id, reason) && !RecvEvent(s, input).Discards?
  {
    WaitsMeans(s.sh, Hand(s), s.recv.delay);
    if Waits(s.sh, Hand(s), s.recv.delay) { AdmitsMeans(s.sh.queue, Pending(Hand(s))); }
    hide Waits, Exceeds, MustQueue, Admits;
  }

  lemma StageTurns(sh: Shared, c: Capture, stage: SendStage, io: IoResult, reason: Reason)
    ensures Counts(NextStage(sh, c, stage, io), reason) || SendEvent(c, stage, io) == Dropped(c.address.capture, reason)
      <==> Counts(stage, reason) || StageCondemns(sh, c, stage, io, reason)
    ensures var ev := SendEvent(c, stage, io);
      (ev.Dropped? ==> ev.id == c.address.capture) && !ev.Overflowed? && !ev.Discards?
  {
  }

  lemma RecvSends(s: State, input: Input, id: nat, reason: Reason)
    requires Captures(s.sh) && RecvEnabled(s, input) && (s.recv.Sending? || s.recv.Dropping?)
    ensures RecvOnWay(NextRecv(s, input), id, reason) || Records(s.sh, RecvEvent(s, input), id, reason) <==>
      RecvOnWay(s.recv, id, reason) || (s.recv.id == id && RecvCondemns(s, input, reason))
    ensures !RecvEvent(s, input).Discards?
  {
    assert Hand(s).address.capture == s.recv.id;
    if s.recv.Sending? { StageTurns(s.sh, Hand(s), s.recv.stage, input.io, reason); }
    hide Captures, NextStage, SendEvent, StageCondemns, Waits, Exceeds;
  }

  lemma RecvDooms(s: State, input: Input, id: nat, reason: Reason)
    requires Captures(s.sh) && RecvEnabled(s, input)
    ensures RecvOnWay(NextRecv(s, input), id, reason) || Records(s.sh, RecvEvent(s, input), id, reason) <==>
      RecvOnWay(s.recv, id, reason) || (HasId(s.recv) && s.recv.id == id && RecvCondemns(s, input, reason))
    ensures !RecvEvent(s, input).Discards?
  {
    hide NextRecv, RecvEvent, RecvEnabled, RecvCondemns, Captures;
    if !HasId(s.recv) {
      RecvIdles(s, input, id, reason);
    } else if s.recv.Offering? {
      RecvOffers(s, input, id, reason);
    } else if s.recv.Sending? || s.recv.Dropping? {
      RecvSends(s, input, id, reason);
    } else {
      RecvTurns(s, input, id, reason);
    }
  }

  lemma RecvIdles(s: State, input: Input, id: nat, reason: Reason)
    requires RecvEnabled(s, input) && !HasId(s.recv)
    ensures !RecvOnWay(NextRecv(s, input), id, reason) && !Records(s.sh, RecvEvent(s, input), id, reason)
    ensures !RecvEvent(s, input).Discards?
  {
  }

  lemma SenderDooms(s: State, io: IoResult, id: nat, reason: Reason)
    requires Captures(s.sh) && SenderEnabled(s)
    ensures SendOnWay(NextSend(s, io), id, reason) || Records(s.sh, SenderEvent(s, io), id, reason) <==>
      || SendOnWay(s.send, id, reason)
      || (s.send.InSend? && s.send.id == id && StageCondemns(s.sh, s.sh.log.captured[id], s.send.stage, io, reason))
      || (s.send.Discarding? && Inside(s.sh.queue, id) && reason.Shutdown?)
  {
    hide NextSend, SenderEvent, SenderEnabled, Captures, Records, SendOnWay, StageCondemns, Inside;
    if SendsNow(s) { SendingDooms(s, io, id, reason); } else { NotSendingDooms(s, io, id, reason); }
  }

  predicate SendsNow(s: State) {
    s.send.InSend?
  }

  lemma SendingDooms(s: State, io: IoResult, id: nat, reason: Reason)
    requires Captures(s.sh) && SenderEnabled(s) && SendsNow(s)
    ensures SendOnWay(NextSend(s, io), id, reason) || Records(s.sh, SenderEvent(s, io), id, reason) <==>
      || SendOnWay(s.send, id, reason)
      || (s.send.InSend? && s.send.id == id && StageCondemns(s.sh, s.sh.log.captured[id], s.send.stage, io, reason))
      || (s.send.Discarding? && Inside(s.sh.queue, id) && reason.Shutdown?)
  {
    assert s.sh.log.captured[s.send.id].address.capture == s.send.id;
    StageTurns(s.sh, s.sh.log.captured[s.send.id], s.send.stage, io, reason);
    hide Captures, NextStage, SendEvent, StageCondemns, Due, Park, CanFinish, Inside;
  }

  lemma NotSendingDooms(s: State, io: IoResult, id: nat, reason: Reason)
    requires SenderEnabled(s) && !SendsNow(s)
    ensures !SendOnWay(NextSend(s, io), id, reason) && !SendOnWay(s.send, id, reason)
    ensures Records(s.sh, SenderEvent(s, io), id, reason) <==>
      s.send.Discarding? && Inside(s.sh.queue, id) && reason.Shutdown?
  {
    hide NextStage, SendEvent, CanFinish, Inside;
  }

  lemma OthersDoom(s: State, a: Action, id: nat, reason: Reason)
    requires Enabled(s, a) && !a.RecvStep? && !a.SendStep?
    ensures Records(s.sh, EventOf(s, a), id, reason) <==>
      a.StopStep? && s.stop.StopDiscarding? && Inside(s.sh.queue, id) && reason.Shutdown?
    ensures SendOnWay(SendAfter(s, a), id, reason) <==> SendOnWay(s.send, id, reason)
  {
    hide Inside;
  }

  /** A packet is doomed for a reason exactly if it was before the step or the step condemns it. */
  lemma DoomStep(s: State, a: Action, id: nat, reason: Reason)
    requires Shape(s) && Enabled(s, a)
    ensures Doomed(Do(s, a), id, reason) <==> Doomed(s, id, reason) || Condemns(s, a, id, reason)
  {
    RecvShape(s);
    var ev := EventOf(s, a);
    DropsRecorded(s.sh, ev, id, reason);
    DoParts(s, a);
    hide Shape, DroppedAfter, Captures, Do, NextRecv, RecvEvent, NextSend, SenderEvent, RecvCondemns, Records, Inside,
      StageCondemns, RecvOnWay, SendOnWay, SendAfter;
    if a.RecvStep? {
      RecvDooms(s, a.input, id, reason);
      RecvLeavesSends(s, a.input, id, reason);
    } else if a.SendStep? {
      SenderDooms(s, a.io, id, reason);
    } else {
      OthersDoom(s, a, id, reason);
    }
  }

  lemma DoParts(s: State, a: Action)
    requires Enabled(s, a)
    ensures var t := Do(s, a);
      && t.sh.log.dropped == DroppedAfter(s.sh, EventOf(s, a))
      && t.recv == (if a.RecvStep? then NextRecv(s, a.input) else s.recv)
      && t.send == SendAfter(s, a)
      && (a.RecvStep? ==> EventOf(s, a) == RecvEvent(s, a.input))
      && (a.SendStep? ==> EventOf(s, a) == SenderEvent(s, a.io) && t.send == NextSend(s, a.io))
  {
    hide QueueAfter, CountersAfter, LedgerAfter, RecvEvent, SenderEvent, NextRecv, NextSend, DroppedAfter;
  }

  lemma RecvLeavesSends(s: State, input: Input, id: nat, reason: Reason)
    requires Enabled(s, RecvStep(input))
    ensures SendOnWay(SendAfter(s, RecvStep(input)), id, reason) <==> SendOnWay(s.send, id, reason)
  {
    hide RecvEvent;
  }

  // ---------------------------------------------------------------- whole runs

  lemma {:induction false} DoomLasts(states: seq<State>, actions: seq<Action>, i: nat, j: nat, id: nat, reason: Reason)
    requires IsRun(states, actions) && i <= j < |states| && Doomed(states[i], id, reason)
    ensures Doomed(states[j], id, reason)
    decreases j
  {
    hide Inv, Do, Enabled, Doomed, Shape, OfferCurrent, AllTimely, Condemns;
    if i < j {
      DoomLasts(states, actions, i, j - 1, id, reason);
      RunInv(states, actions, j - 1);
      StepOf(states, actions, j - 1);
      InvShape(states[j - 1]);
      DoomStep(states[j - 1], actions[j - 1], id, reason);
    }
    hide IsRun;
  }

  lemma {:induction false} DoomHasCause(states: seq<State>, actions: seq<Action>, j: nat, id: nat, reason: Reason)
      returns (i: nat)
    requires IsRun(states, actions) && j < |states| && Doomed(states[j], id, reason)
    ensures i < j && Enabled(states[i], actions[i]) && Condemns(states[i], actions[i], id, reason)
    decreases j
  {
    hide Inv, Do, Enabled, Shape, OfferCurrent, AllTimely, Condemns;
    NotDoomedAtFirst(states, actions, j, id, reason);
    i := j - 1;
    RunInv(states, actions, i);
    StepOf(states, actions, i);
    InvShape(states[i]);
    DoomStep(states[i], actions[i], id, reason);
    hide IsRun, Doomed;
    if Doomed(states[i], id, reason) { i := DoomHasCause(states, actions, i, id, reason); }
  }

  lemma NotDoomedAtFirst(states: seq<State>, actions: seq<Action>, j: nat, id: nat, reason: Reason)
    requires IsRun(states, actions) && j < |states| && Doomed(states[j], id, reason)
    ensures j > 0
  {
    hide Do, Enabled;
  }

  lemma {:induction false} SentIsCounted(sent: seq<nat>, x: nat)
    ensures x in sent <==> SentCount(sent, x) > 0
  {
    if sent != [] {
      var n := |sent| - 1;
      SentIsCounted(sent[..n], x);
      assert sent == sent[..n] + [sent[n]];
    }
  }

  lemma {:induction false} DropIsCounted(drops: seq<Drop>, x: nat)
    ensures DropCount(drops, x) == 0 ==> forall reason :: Drop(x, reason) !in drops
  {
    if drops != [] {
      var n := |drops| - 1;
      DropIsCounted(drops[..n], x);
      assert drops == drops[..n] + [drops[n]];
    }
  }

  lemma DoomedIsUnsent(s: State, id: nat, reason: Reason)
    requires ConservedAt(s, id) && Doomed(s, id, reason)
    ensures id !in s.sh.log.sent
  {
    SentIsCounted(s.sh.log.sent, id);
    DropIsCounted(s.sh.log.dropped, id);
    hide SentCount, DropCount, Total;
  }

  lemma HeldIsUnsent(s: State, id: nat)
    requires ConservedAt(s, id) && InRecvHand(s.recv, id)
    ensures id !in s.sh.log.sent
  {
    SentIsCounted(s.sh.log.sent, id);
    hide SentCount, DropCount, Total;
  }

  lemma InvConserved(s: State, id: nat)
    requires Inv(s)
    ensures ConservedAt(s, id)
  {
    hide Shape, CountersMatch, Exits, Orders, Times, SendsUnblocked, Books, ConservedAt;
  }

  /**
   A packet condemned at step `i` is sent at no time, and as soon as both workers have left it the drop
   is recorded with that reason.
   */
  lemma CondemnedIsDropped(states: seq<State>, actions: seq<Action>, i: nat, j: nat, id: nat, reason: Reason)
    requires IsRun(states, actions) && i < |actions| && i < j < |states|
    requires Enabled(states[i], actions[i]) && Condemns(states[i], actions[i], id, reason)
    ensures id !in states[j].sh.log.sent
    ensures var t := states[j];
      || Drop(id, reason) in t.sh.log.dropped
      || (HasId(t.recv) && t.recv.id == id)
      || (t.send.InSend? && t.send.id == id)
  {
    hide Inv, Do, Enabled, Shape, OfferCurrent, AllTimely, Condemns, ConservedAt;
    RunInv(states, actions, i);
    StepOf(states, actions, i);
    InvShape(states[i]);
    DoomStep(states[i], actions[i], id, reason);
    DoomLasts(states, actions, i + 1, j, id, reason);
    RunInv(states, actions, j);
    InvConserved(states[j], id);
    DoomedIsUnsent(states[j], id, reason);
    hide IsRun;
  }

  /** Every recorded drop was sealed by a step whose cause its reason names. */
  lemma DropHasCause(states: seq<State>, actions: seq<Action>, j: nat, id: nat, reason: Reason) returns (i: nat)
    requires IsRun(states, actions) && j < |states| && Drop(id, reason) in states[j].sh.log.dropped
    ensures i < j && Enabled(states[i], actions[i]) && Condemns(states[i], actions[i], id, reason)
  {
    hide IsRun, Condemns;
    i := DoomHasCause(states, actions, j, id, reason);
  }

  predicate DoomedByReceiver(s: State, id: nat, reason: Reason) {
    Drop(id, reason) in s.sh.log.dropped || RecvOnWay(s.recv, id, reason)
  }

  ghost predicate CondemnedByReceiver(s: State, a: Action, id: nat, reason: Reason)
    requires Enabled(s, a)
  {
    a.RecvStep? && HasId(s.recv) && s.recv.id == id && RecvCondemns(s, a.input, reason)
  }

  lemma ReceiverDoomStep(s: State, a: Action, id: nat, reason: Reason)
    requires Shape(s) && Enabled(s, a)
    requires DoomedByReceiver(s, id, reason) || CondemnedByReceiver(s, a, id, reason)
    ensures DoomedByReceiver(Do(s, a), id, reason)
  {
    RecvShape(s);
    DropsRecorded(s.sh, EventOf(s, a), id, reason);
    DoParts(s, a);
    hide Shape, DroppedAfter, Captures, Do, NextRecv, RecvEvent, NextSend, SenderEvent, RecvCondemns, Records,
      RecvOnWay, SendAfter;
    if a.RecvStep? { RecvDooms(s, a.input, id, reason); }
  }

  lemma {:induction false} ReceiverDoomLasts(states: seq<State>, actions: seq<Action>, i: nat, j: nat, id: nat,
        reason: Reason)
    requires IsRun(states, actions) && i <= j < |states| && DoomedByReceiver(states[i], id, reason)
    ensures DoomedByReceiver(states[j], id, reason)
    decreases j
  {
    hide Inv, Do, Enabled, DoomedByReceiver, Shape, OfferCurrent, AllTimely, CondemnedByReceiver;
    if i < j {
      ReceiverDoomLasts(states, actions, i, j - 1, id, reason);
      RunInv(states, actions, j - 1);
      StepOf(states, actions, j - 1);
      InvShape(states[j - 1]);
      ReceiverDoomStep(states[j - 1], actions[j - 1], id, reason);
    }
    hide IsRun;
  }

  /** Condemned by the receive worker, the packet is recorded as dropped as soon as that worker has left it. */
  lemma ReceiverDrops(states: seq<State>, actions: seq<Action>, i: nat, j: nat, id: nat, reason: Reason)
    requires IsRun(states, actions) && i < |actions| && i < j < |states|
    requires Enabled(states[i], actions[i]) && CondemnedByReceiver(states[i], actions[i], id, reason)
    ensures id !in states[j].sh.log.sent
    ensures (HasId(states[j].recv) && states[j].recv.id == id) || Drop(id, reason) in states[j].sh.log.dropped
  {
    hide Inv, Do, Enabled, Shape, OfferCurrent, AllTimely, RecvCondemns, ConservedAt;
    RunInv(states, actions, i);
    StepOf(states, actions, i);
    InvShape(states[i]);
    ReceiverDoomStep(states[i], actions[i], id, reason);
    ReceiverDoomLasts(states, actions, i + 1, j, id, reason);
    RunInv(states, actions, j);
    InvConserved(states[j], id);
    DoomedIsUnsent(states[j], id, reason);
    hide IsRun;
  }

  // ---------------------------------------------------------------- every program point once

  lemma HandStep(s: State, a: Action, id: nat)
    requires Shape(s) && Enabled(s, a) && id < |s.sh.log.captured|
    requires HasId(Do(s, a).recv) && Do(s, a).recv.id == id
    ensures HasId(s.recv) && s.recv.id == id
    ensures RecvRank(Do(s, a).recv) + Bit(a.RecvStep?) <= RecvRank(s.recv)
  {
    NextInHand(s, a);
    DoParts(s, a);
    if a.RecvStep? {
      RecvUses(s, a.input);
      assert !RecvEvent(s, a.input).Captured? by { RecvTakes(s, a.input); }
    }
    hide SharedShape, InHand, InFlightIsSenders, Joined, Do, NextRecv, RecvEvent, RecvRank, RecvEnabled;
  }

  lemma {:induction false} RankFalls(states: seq<State>, actions: seq<Action>, i: nat, k: nat, id: nat)
    requires IsRun(states, actions) && i <= k < |states| && id < |states[i].sh.log.captured|
    requires HasId(states[k].recv) && states[k].recv.id == id
    ensures HasId(states[i].recv) && states[i].recv.id == id
    ensures RecvRank(states[k].recv) + Bit(i < k && actions[i].RecvStep?) <= RecvRank(states[i].recv)
    decreases k
  {
    hide Inv, Do, Enabled, Shape, OfferCurrent, AllTimely, RecvRank;
    if i < k {
      RunInv(states, actions, k - 1);
      StepOf(states, actions, k - 1);
      InvShape(states[k - 1]);
      LogGrows(states, actions, i, k - 1);
      HandStep(states[k - 1], actions[k - 1], id);
      RankFalls(states, actions, i, k - 1, id);
    }
    hide IsRun;
  }

  /** The receive worker takes at most one step from each of its program points per packet. */
  lemma OnlyOneVisit(states: seq<State>, actions: seq<Action>, i: nat, k: nat, id: nat)
    requires IsRun(states, actions) && i < |actions| && k < |actions| && i != k
    requires actions[i].RecvStep? && HasId(states[i].recv) && states[i].recv.id == id
    requires actions[k].RecvStep? && HasId(states[k].recv) && states[k].recv.id == id
    ensures RecvRank(states[i].recv) != RecvRank(states[k].recv)
  {
    HandIsCaptured(states, actions, i);
    HandIsCaptured(states, actions, k);
    hide IsRun, RecvRank;
    if i < k { RankFalls(states, actions, i, k, id); } else { RankFalls(states, actions, k, i, id); }
  }

  lemma HandIsCaptured(states: seq<State>, actions: seq<Action>, i: nat)
    requires IsRun(states, actions) && i < |states| && HasId(states[i].recv)
    ensures states[i].recv.id < |states[i].sh.log.captured|
  {
    RunInv(states, actions, i);
    InvShape(states[i]);
    hide IsRun, Inv, OfferCurrent, AllTimely, SharedShape, Exclusive;
  }

  // ---------------------------------------------------------------- loss

  lemma LossCause(s: State, a: Action, id: nat)
    requires Enabled(s, a) && Condemns(s, a, id, Loss)
    ensures a.RecvStep? && s.recv.Eligible? && s.recv.id == id && a.input.Verdict? && a.input.drop
  {
    hide Inside, Waits, Exceeds;
  }

  /**
   A packet that the sampler drops is sent at no time, and dropped as lost once the worker has left it;
   one that the sampler lets pass is never recorded as lost.
   */
  lemma SamplerDecides(states: seq<State>, actions: seq<Action>, i: nat, j: nat, id: nat, points: nat)
    requires IsRun(states, actions) && i < |actions| && i < j < |states|
    requires states[i].recv == Eligible(id, points) && actions[i].RecvStep?
    ensures actions[i].input.Verdict?
    ensures actions[i].input.drop ==>
      && id !in states[j].sh.log.sent
      && ((HasId(states[j].recv) && states[j].recv.id == id) || Drop(id, Loss) in states[j].sh.log.dropped)
    ensures !actions[i].input.drop ==> Drop(id, Loss) !in states[j].sh.log.dropped
  {
    StepOf(states, actions, i);
    assert actions[i].input.Verdict?;
    if actions[i].input.drop {
      assert CondemnedByReceiver(states[i], actions[i], id, Loss);
      ReceiverDrops(states, actions, i, j, id, Loss);
    } else if Drop(id, Loss) in states[j].sh.log.dropped {
      var k := DropHasCause(states, actions, j, id, Loss);
      LossCause(states[k], actions[k], id);
      if k != i { OnlyOneVisit(states, actions, i, k, id); }
      assert false;
    }
    hide IsRun, Condemns, Do, Enabled;
  }

  // ---------------------------------------------------------------- limits

  lemma RateCause(s: State, a: Action, id: nat)
    requires Enabled(s, a) && Condemns(s, a, id, Rate)
    ensures a.RecvStep? && HasId(s.recv) && s.recv.id == id && id < |s.sh.log.captured|
    ensures a.input.Verdict? && a.input.drop
    ensures var c := s.sh.log.captured[id];
      || (s.recv.LimitingGlobal? && Restricts(s.sh.rules.global, c))
      || (s.recv.LimitingProcess? && ProcessRestricts(s.sh.rules, c))
  {
    hide Inside, Waits, Exceeds;
  }

  /**
   A packet that the bucket of a limit in force turns away is sent at no time, and dropped for its rate
   once the worker has left it.
   */
  lemma BucketDecides(states: seq<State>, actions: seq<Action>, i: nat, j: nat, id: nat)
    requires IsRun(states, actions) && i < |actions| && i < j < |states|
    requires actions[i].RecvStep? && actions[i].input.Verdict? && actions[i].input.drop
    requires states[i].recv == LimitingGlobal(id) || states[i].recv == LimitingProcess(id)
    requires id < |states[i].sh.log.captured|
    requires var c, rules := states[i].sh.log.captured[id], states[i].sh.rules;
      if states[i].recv.LimitingGlobal?
      then Restricts(rules.global, c) && !(rules.global.blockAll && !c.address.loopback)
      else ProcessRestricts(rules, c) && !(ProcessBlocks(rules, c) && !c.address.loopback)
    ensures id !in states[j].sh.log.sent
    ensures (HasId(states[j].recv) && states[j].recv.id == id) || Drop(id, Rate) in states[j].sh.log.dropped
  {
    StepOf(states, actions, i);
    assert CondemnedByReceiver(states[i], actions[i], id, Rate);
    hide IsRun, Condemns, Do, Enabled, RecvCondemns;
    ReceiverDrops(states, actions, i, j, id, Rate);
  }

  /** A packet that both buckets let pass is never recorded as dropped for its rate. */
  lemma WithinLimitsIsKept(states: seq<State>, actions: seq<Action>, i: nat, k: nat, j: nat, id: nat)
    requires IsRun(states, actions) && i < |actions| && k < |actions| && j < |states|
    requires states[i].recv == LimitingGlobal(id) && actions[i].RecvStep? && actions[i].input.Verdict?
    requires states[k].recv == LimitingProcess(id) && actions[k].RecvStep? && actions[k].input.Verdict?
    requires !actions[i].input.drop && !actions[k].input.drop
    ensures Drop(id, Rate) !in states[j].sh.log.dropped
  {
    if Drop(id, Rate) in states[j].sh.log.dropped {
      hide IsRun, Condemns, Enabled;
      var m := DropHasCause(states, actions, j, id, Rate);
      RateCause(states[m], actions[m], id);
      if states[m].recv.LimitingGlobal? {
        if m != i { OnlyOneVisit(states, actions, i, m, id); }
      } else {
        if m != k { OnlyOneVisit(states, actions, k, m, id); }
      }
      assert false;
    }
  }
}
