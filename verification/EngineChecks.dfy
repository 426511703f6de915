/**
 The way of a packet through the receive worker: which rule decides about its loss, that no check is
 left out, and what becomes of it when it is offered to the queue.
 */
module EngineChecks {
  import opened Core
  import opened Packet
  import opened QueueModel
  import opened QueueFacts
  import opened QueueAccepts
  import opened Rules
  import opened RuleFacts
  import opened Engine
  import opened EngineShape
  import opened EngineFates
  import opened EngineTiming
  import opened EngineProgress
  import opened EngineRuns
  import opened EnginePromises
  import opened EngineVerdicts

  // ---------------------------------------------------------------- every check

  /** The program points a packet passes in this order, drops apart. */
  function Stage(pc: RecvPc): nat {
    match pc
    case Counting(_) => 0
    case CheckingAbort(_) => 1
    case CheckingGlobal(_) => 2
    case CheckingProcess(_) => 3
    case Sampling(_) => 4
    case SamplingGlobal(_) => 5
    case Eligible(_, _) => 6
    case LimitingGlobal(_) => 7
    case LimitingProcess(_) => 8
    case WantingGate(_) => 9
    case Gated(_) => 10
    case Offering(_, _) => 11
    case _ => 12
  }

  predicate OnPath(pc: RecvPc, id: nat) {
    HasId(pc) && !pc.Dropping? && pc.id == id
  }

  /** Points no parsed packet leaves out; one the parser does not support is sent after the third. */
  predicate Unavoidable(c: Capture, k: nat) {
    k < 12 && k != 5 && k != 6 && (c.flow.None? ==> k <= 2)
  }

  lemma PathStep(s: State, input: Input, id: nat, k: nat)
    requires RecvEnabled(s, input) && OnPath(NextRecv(s, input), id) && k < Stage(NextRecv(s, input))
    requires id < |s.sh.log.captured| && Unavoidable(s.sh.log.captured[id], k)
    requires HasId(s.recv) ==> s.recv.id < |s.sh.log.captured|
    ensures OnPath(s.recv, id) && k <= Stage(s.recv)
  {
    hide NextStage, MustQueue;
  }

  /** A worker past a point has made a step from it with the same packet. */
  lemma {:induction false} PassedBefore(states: seq<State>, actions: seq<Action>, j: nat, id: nat, k: nat)
      returns (i: nat)
    requires IsRun(states, actions) && j < |states| && OnPath(states[j].recv, id) && k < Stage(states[j].recv)
    requires id < |states[j].sh.log.captured| && Unavoidable(states[j].sh.log.captured[id], k)
    ensures i < j && actions[i].RecvStep? && OnPath(states[i].recv, id) && Stage(states[i].recv) == k
    decreases j
  {
    PathHasBegun(states, actions, j, id);
    i := j - 1;
    StepOf(states, actions, i);
    LogGrows(states, actions, i, j);
    PathBefore(states, actions, i, id, k);
    hide IsRun, Do, Enabled, Unavoidable, OnPath, Stage;
    if !actions[i].RecvStep? || k < Stage(states[i].recv) { i := PassedBefore(states, actions, i, id, k); }
  }

  lemma PathHasBegun(states: seq<State>, actions: seq<Action>, j: nat, id: nat)
    requires IsRun(states, actions) && j < |states| && OnPath(states[j].recv, id)
    ensures j > 0
  {
    hide Do, Enabled;
  }

  lemma PathBefore(states: seq<State>, actions: seq<Action>, i: nat, id: nat, k: nat)
    requires IsRun(states, actions) && i < |actions| && OnPath(states[i + 1].recv, id) && k < Stage(states[i + 1].recv)
    requires id < |states[i + 1].sh.log.captured| && Unavoidable(states[i + 1].sh.log.captured[id], k)
    ensures id < |states[i].sh.log.captured| && states[i].sh.log.captured[id] == states[i + 1].sh.log.captured[id]
    ensures OnPath(states[i].recv, id) && k <= Stage(states[i].recv)
    ensures !actions[i].RecvStep? ==> k < Stage(states[i].recv)
  {
    StepOf(states, actions, i);
    LogGrows(states, actions, i, i + 1);
    RunInv(states, actions, i);
    InvShape(states[i]);
    hide IsRun, Inv, OfferCurrent, AllTimely, Unavoidable;
    PathGoesBack(states[i], actions[i], id, k);
  }

  lemma PathGoesBack(s: State, a: Action, id: nat, k: nat)
    requires Shape(s) && Enabled(s, a) && OnPath(Do(s, a).recv, id) && k < Stage(Do(s, a).recv)
    requires id < |Do(s, a).sh.log.captured| && Unavoidable(Do(s, a).sh.log.captured[id], k)
    requires s.sh.log.captured <= Do(s, a).sh.log.captured
    ensures id < |s.sh.log.captured|
    ensures OnPath(s.recv, id) && k <= Stage(s.recv)
    ensures !a.RecvStep? ==> k < Stage(s.recv)
  {
    DoParts(s, a);
    RecvShape(s);
    if a.RecvStep? {
      NotJustCaptured(s, a.input, id, k);
      hide SharedShape, InHand, InFlightIsSenders, Joined, Do, NextRecv, Exclusive;
      PathStep(s, a.input, id, k);
    } else {
      hide SharedShape, InFlightIsSenders, Joined, Do, Exclusive;
    }
  }

  lemma NotJustCaptured(s: State, input: Input, id: nat, k: nat)
    requires Shape(s) && RecvEnabled(s, input) && OnPath(NextRecv(s, input), id) && k < Stage(NextRecv(s, input))
    ensures id < |s.sh.log.captured|
  {
    hide SharedShape, InFlightIsSenders, Joined, Exclusive, NextRecv, RecvEvent, RecvEnabled;
    RecvTakes(s, input);
  }

  // ---------------------------------------------------------------- which rule decides about loss

  function OwnLoss(t: Tables, c: Capture): Option<nat> {
    if c.pid.None? || c.pid.value !in t.process then None
    else if c.direction.Download? then t.process[c.pid.value].downloadLoss
    else t.process[c.pid.value].uploadLoss
  }

  function GlobalLoss(t: Tables, c: Capture): nat {
    var points := if c.direction.Download? then t.global.downloadLoss else t.global.uploadLoss;
    if points.Some? then points.value else 0
  }

  /** Loopback is not sampled; a loss of the process that is set decides, even if it is 0. */
  lemma OwnLossDecides(s: State, input: Input)
    requires RecvEnabled(s, input) && s.recv.Sampling?
    ensures var c, id := s.sh.log.captured[s.recv.id], s.recv.id;
      NextRecv(s, input) ==
        if c.address.loopback || OwnLoss(s.sh.rules, c) == Some(0) then LimitingGlobal(id)
        else if OwnLoss(s.sh.rules, c).Some? then Eligible(id, OwnLoss(s.sh.rules, c).value)
        else SamplingGlobal(id)
  {
  }

  /** Otherwise the global loss of the packet's direction does. */
  lemma GlobalLossDecides(s: State, input: Input)
    requires RecvEnabled(s, input) && s.recv.SamplingGlobal?
    ensures var points, id := GlobalLoss(s.sh.rules, s.sh.log.captured[s.recv.id]), s.recv.id;
      NextRecv(s, input) == if points == 0 then LimitingGlobal(id) else Eligible(id, points)
  {
  }

  /** Only these two steps lead to the sampler. */
  lemma SampledBefore(s: State, input: Input)
    requires RecvEnabled(s, input)
    ensures NextRecv(s, input).Eligible? ==> s.recv.Sampling? || s.recv.SamplingGlobal?
    ensures NextRecv(s, input).SamplingGlobal? ==> s.recv.Sampling?
    ensures NextRecv(s, input).Eligible? || NextRecv(s, input).SamplingGlobal? ==> NextRecv(s, input).id == s.recv.id
  {
    hide NextStage, MustQueue;
  }

  /** The step by which the worker came to where it is, if that took one. */
  lemma {:induction false} CameFrom(states: seq<State>, actions: seq<Action>, j: nat) returns (i: nat)
    requires IsRun(states, actions) && j < |states| && states[j].recv != Receiving
    ensures i < j && actions[i].RecvStep? && Enabled(states[i], actions[i])
    ensures states[j].recv == NextRecv(states[i], actions[i].input)
    decreases j
  {
    MovedFirst(states, actions, j);
    i := j - 1;
    StepOf(states, actions, i);
    DoParts(states[i], actions[i]);
    hide IsRun, Do, NextRecv;
    if !actions[i].RecvStep? { i := CameFrom(states, actions, i); }
  }

  lemma MovedFirst(states: seq<State>, actions: seq<Action>, j: nat)
    requires IsRun(states, actions) && j < |states| && states[j].recv != Receiving
    ensures j > 0
  {
    hide Do, Enabled;
  }

  lemma SameCapture(states: seq<State>, actions: seq<Action>, i: nat, j: nat, id: nat)
    requires IsRun(states, actions) && i <= j < |states| && id < |states[i].sh.log.captured|
    ensures id < |states[j].sh.log.captured| && states[j].sh.log.captured[id] == states[i].sh.log.captured[id]
  {
    LogGrows(states, actions, i, j);
    hide IsRun;
  }

  /**
   At the sampler with a rate, the worker has asked the rule of the packet's process, which set that
   rate, or which set none and left it to the global rule, asked right after.
   */
  lemma SampledByRule(states: seq<State>, actions: seq<Action>, j: nat, id: nat, points: nat)
      returns (own: nat, global: Option<nat>)
    requires IsRun(states, actions) && j < |states| && states[j].recv == Eligible(id, points)
    ensures own < j && states[own].recv == Sampling(id) && actions[own].RecvStep? && points > 0
    ensures id < |states[own].sh.log.captured|
    ensures var c := states[own].sh.log.captured[id];
      && !c.address.loopback
      && (global.None? ==> OwnLoss(states[own].sh.rules, c) == Some(points))
      && (global.Some? ==>
           && own < global.value < j && states[global.value].recv == SamplingGlobal(id)
           && actions[global.value].RecvStep?
           && OwnLoss(states[own].sh.rules, c).None? && GlobalLoss(states[global.value].sh.rules, c) == points)
  {
    assert |states| == |actions| + 1;
    hide IsRun, NextRecv, OwnLoss, GlobalLoss;
    var k := CameFrom(states, actions, j);
    SampledBefore(states[k], actions[k].input);
    if states[k].recv.Sampling? {
      own, global := k, None;
      OwnLossDecides(states[k], actions[k].input);
    } else {
      own := CameFrom(states, actions, k);
      global := Some(k);
      SampledBefore(states[own], actions[own].input);
      OwnLossDecides(states[own], actions[own].input);
      GlobalLossDecides(states[k], actions[k].input);
      SameCapture(states, actions, own, k, id);
    }
  }

  /** With a loss of 0 for its process, or on loopback, a packet is never recorded as lost. */
  lemma ZeroLossIsNoLoss(states: seq<State>, actions: seq<Action>, i: nat, j: nat, id: nat)
    requires IsRun(states, actions) && i < |actions| && j < |states|
    requires states[i].recv == Sampling(id) && actions[i].RecvStep? && id < |states[i].sh.log.captured|
    requires var c := states[i].sh.log.captured[id];
      c.address.loopback || OwnLoss(states[i].sh.rules, c) == Some(0)
    ensures Drop(id, Loss) !in states[j].sh.log.dropped
  {
    if Drop(id, Loss) in states[j].sh.log.dropped {
      hide IsRun, Condemns, Enabled, OwnLoss, GlobalLoss;
      var k := DropHasCause(states, actions, j, id, Loss);
      LossCause(states[k], actions[k], id);
      var own, global := SampledByRule(states, actions, k, id, states[k].recv.points);
      if own != i { OnlyOneVisit(states, actions, own, i, id); }
      assert false;
    }
  }

  /** Without a loss of its own and with a global loss of 0, neither. */
  lemma NoLossRuleIsNoLoss(states: seq<State>, actions: seq<Action>, i: nat, j: nat, id: nat)
    requires IsRun(states, actions) && i < |actions| && j < |states|
    requires states[i].recv == SamplingGlobal(id) && actions[i].RecvStep? && id < |states[i].sh.log.captured|
    requires GlobalLoss(states[i].sh.rules, states[i].sh.log.captured[id]) == 0
    ensures Drop(id, Loss) !in states[j].sh.log.dropped
  {
    if Drop(id, Loss) in states[j].sh.log.dropped {
      hide IsRun, Condemns, OwnLoss, GlobalLoss;
      var k := DropHasCause(states, actions, j, id, Loss);
      LossCause(states[k], actions[k], id);
      var own, global := SampledByRule(states, actions, k, id, states[k].recv.points);
      AskedOnce(states, actions, own, global, i, id);
      SameCapture(states, actions, own, i, id);
      assert false;
    }
  }

  /** The global rule is asked only if the rule of the process has set nothing, and then once. */
  lemma AskedOnce(states: seq<State>, actions: seq<Action>, own: nat, global: Option<nat>, i: nat, id: nat)
    requires IsRun(states, actions) && own < |actions| && i < |actions|
    requires states[own].recv == Sampling(id) && actions[own].RecvStep? && id < |states[own].sh.log.captured|
    requires states[i].recv == SamplingGlobal(id) && actions[i].RecvStep?
    requires global.None? ==> OwnLoss(states[own].sh.rules, states[own].sh.log.captured[id]).Some?
    requires global.Some? ==>
      && global.value < |actions|
      && states[global.value].recv == SamplingGlobal(id) && actions[global.value].RecvStep?
    ensures global == Some(i) && own < i
  {
    assert |states| == |actions| + 1;
    hide IsRun, OwnLoss;
    if global.Some? && global.value != i {
      OnlyOneVisit(states, actions, global.value, i, id);
      assert false;
    } else {
      var k := CameFrom(states, actions, i);
      SampledBefore(states[k], actions[k].input);
      hide NextRecv;
      if k != own { OnlyOneVisit(states, actions, k, own, id); }
      OwnLossDecides(states[own], actions[own].input);
    }
  }

  lemma {:induction false} StaysAt(states: seq<State>, actions: seq<Action>, i: nat, j: nat) returns (k: nat)
    requires IsRun(states, actions) && i <= j < |states|
    ensures i <= k <= j && states[k].recv == states[i].recv
    ensures k == j || (k < |actions| && actions[k].RecvStep?)
    decreases j - i
  {
    if i == j || actions[i].RecvStep? {
      k := i;
    } else {
      StepOf(states, actions, i);
      DoParts(states[i], actions[i]);
      hide IsRun, Do, Enabled;
      k := StaysAt(states, actions, i + 1, j);
    }
  }

  /** With a loss of 100% for its process a packet off loopback is sent at no time. */
  lemma TotalLossIsTotal(states: seq<State>, actions: seq<Action>, i: nat, j: nat, id: nat, points: nat)
    requires IsRun(states, actions) && i < |actions| && i < j < |states|
    requires states[i].recv == Sampling(id) && actions[i].RecvStep? && id < |states[i].sh.log.captured|
    requires var c := states[i].sh.log.captured[id];
      !c.address.loopback && OwnLoss(states[i].sh.rules, c) == Some(points) && points >= 10_000
    ensures id !in states[j].sh.log.sent
  {
    StepOf(states, actions, i);
    assert states[i + 1].recv == Eligible(id, points) by {
      OwnLossDecides(states[i], actions[i].input);
      DoParts(states[i], actions[i]);
      hide Do, NextRecv, OwnLoss, IsRun;
    }
    hide OwnLoss;
    CertainLoss(states, actions, i + 1, j, id, points);
  }

  lemma CertainLoss(states: seq<State>, actions: seq<Action>, i: nat, j: nat, id: nat, points: nat)
    requires IsRun(states, actions) && i <= j < |states| && states[i].recv == Eligible(id, points) && points >= 10_000
    ensures id !in states[j].sh.log.sent
  {
    var k := StaysAt(states, actions, i, j);
    if k == j {
      RunInv(states, actions, j);
      InvConserved(states[j], id);
      HeldIsUnsent(states[j], id);
    } else {
      StepOf(states, actions, k);
      SamplerDecides(states, actions, k, j, id, points);
    }
    hide IsRun, Inv, ConservedAt, Do;
  }

  // ---------------------------------------------------------------- where sent packets come from

  lemma {:induction false} IdTotalPositive(entries: seq<Entry>, id: nat)
    ensures Total(IdOnes(id), entries) > 0 <==> exists i :: 0 <= i < |entries| && Id(entries[i].packet) == id
  {
    if entries != [] {
      var n := |entries| - 1;
      IdTotalPositive(entries[..n], id);
      assert forall i :: 0 <= i < n ==> entries[..n][i] == entries[i];
      if i :| 0 <= i < n && Id(entries[i].packet) == id { assert Id(entries[..n][i].packet) == id; }
    }
  }

  lemma InsideMeans(q: Queue, id: nat)
    ensures Inside(q, id) <==> Load(IdOnes(id), q) > 0
  {
    IdTotalPositive(q.queued, id);
    IdTotalPositive(q.inFlight, id);
  }

  lemma LoadAfter(sh: Shared, ev: Event, w: Weight)
    requires Possible(sh, ev)
    ensures Load(w, QueueAfter(sh, ev))
      <= Load(w, sh.queue) + if ev.Queued? then w(Pending(sh.log.captured[ev.id])) else 0
  {
    hide Load, Enqueue, PopDue, Finish, Release, Admits;
    match ev
    case Queued(id, delay) =>
      var c := sh.log.captured[id];
      EnqueueLoad(sh.queue, Pending(c), if sh.draining then c.receivedAt else c.receivedAt + delay, w);
    case Popped(now) => PopLoad(sh.queue, now, w);
    case Finished(id) => FinishLoad(sh.queue, Pending(sh.log.captured[id]), w);
    case Frees => ReleaseLoad(sh.queue, sh.clock, Freed(sh.rules), w);
    case Drains => ReleaseLoad(sh.queue, sh.clock, All(), w);
    case Discards => EmptyLoad(sh.queue.limits, w);
    case _ =>
  }

  lemma ReleaseLoad(q: Queue, now: nat, sel: Selection, w: Weight)
    ensures Load(w, Release(q, now, sel)) == Load(w, q)
  {
    ReleaseKeepsPackets(q, now, sel);
    TotalSamePackets(w, q.queued, Release(q, now, sel).queued);
  }

  lemma EmptyLoad(limits: Limits, w: Weight)
    ensures Load(w, Empty(limits)) == 0
  {
  }

  /** Packets come into the queue only from the receive worker's offer. */
  lemma ComesInside(s: State, a: Action, id: nat)
    requires Shape(s) && Enabled(s, a) && Inside(Do(s, a).sh.queue, id)
    ensures Inside(s.sh.queue, id) || (a.RecvStep? && s.recv.Offering? && s.recv.id == id && EventOf(s, a).Queued?)
  {
    var ev := EventOf(s, a);
    LoadAfter(s.sh, ev, IdOnes(id));
    QueueOfDo(s, a);
    InsideMeans(s.sh.queue, id);
    InsideMeans(Do(s, a).sh.queue, id);
    hide Inside, Load, Do, QueueAfter, Shape;
    if ev.Queued? { QueuedFromOffer(s, a); }
  }

  lemma QueueOfDo(s: State, a: Action)
    requires Enabled(s, a)
    ensures Do(s, a).sh.queue == QueueAfter(s.sh, EventOf(s, a))
  {
    hide QueueAfter, CountersAfter, LogAfter, LedgerAfter, EventOf;
  }

  lemma QueuedFromOffer(s: State, a: Action)
    requires Shape(s) && Enabled(s, a) && EventOf(s, a).Queued?
    ensures a.RecvStep? && s.recv.Offering? && EventOf(s, a).id == s.recv.id
    ensures Id(Pending(s.sh.log.captured[s.recv.id])) == s.recv.id
  {
    if !a.RecvStep? { OthersEvents(s, a); }
    RecvShape(s);
    hide SharedShape, InHand, InFlightIsSenders, Joined, Exclusive, Admits, MustQueue;
  }

  lemma {:induction false} InsideFromOffer(states: seq<State>, actions: seq<Action>, j: nat, id: nat) returns (i: nat)
    requires IsRun(states, actions) && j < |states| && Inside(states[j].sh.queue, id)
    ensures i < j && actions[i].RecvStep? && states[i].recv.Offering? && states[i].recv.id == id
    ensures QueuesAt(states, actions, i, id)
    decreases j
  {
    NotInsideAtFirst(states, actions, j, id);
    i := j - 1;
    RunInv(states, actions, i);
    StepOf(states, actions, i);
    InvShape(states[i]);
    ComesInside(states[i], actions[i], id);
    if Inside(states[i].sh.queue, id) {
      hide IsRun, Inside, Inv, Do, Enabled, Shape, OfferCurrent, AllTimely, QueuesAt;
      i := InsideFromOffer(states, actions, i, id);
    } else {
      hide IsRun, Inside, Inv, Do, Enabled, Shape, OfferCurrent, AllTimely, EventOf;
      QueuedFromOffer(states[i], actions[i]);
    }
  }

  lemma NotInsideAtFirst(states: seq<State>, actions: seq<Action>, j: nat, id: nat)
    requires IsRun(states, actions) && j < |states| && Inside(states[j].sh.queue, id)
    ensures j > 0
  {
    hide Do, Enabled;
  }

  /** A successful send is made by a worker that holds the packet at the driver call. */
  lemma SendsItsOwn(s: State, a: Action, id: nat)
    requires Shape(s) && Enabled(s, a) && EventOf(s, a) == Sent(id)
    ensures (a.RecvStep? && s.recv == Sending(id, AtIo)) || (a.SendStep? && s.send == InSend(id, AtIo))
  {
    RecvShape(s);
    SenderIdFits(s);
    if a.RecvStep? {
      assert s.recv.Sending? && s.recv.stage.AtIo? && Hand(s).address.capture == s.recv.id;
    } else {
      assert a.SendStep? && s.send.InSend? && s.send.stage.AtIo?;
      assert s.sh.log.captured[s.send.id].address.capture == s.send.id;
    }
    hide SharedShape, Exclusive, InHand, Joined, BlockedNow;
  }

  /** The step that sent a packet. */
  lemma {:induction false} SentAt(states: seq<State>, actions: seq<Action>, j: nat, id: nat) returns (k: nat)
    requires IsRun(states, actions) && j < |states| && id in states[j].sh.log.sent
    ensures k < j && Enabled(states[k], actions[k]) && EventOf(states[k], actions[k]) == Sent(id)
    ensures id !in states[k].sh.log.sent
    decreases j
  {
    NothingSentAtFirst(states, actions, j, id);
    k := j - 1;
    StepOf(states, actions, k);
    hide IsRun, Do, EventOf, Enabled;
    if id in states[k].sh.log.sent {
      k := SentAt(states, actions, k, id);
    } else {
      var m :| 0 <= m < |states[j].sh.log.sent| && states[j].sh.log.sent[m] == id;
      LogGrowsBy(states[k], actions[k]);
      assert m >= |states[k].sh.log.sent|;
      SentBy(states[k], actions[k], m);
    }
  }

  lemma NothingSentAtFirst(states: seq<State>, actions: seq<Action>, j: nat, id: nat)
    requires IsRun(states, actions) && j < |states| && id in states[j].sh.log.sent
    ensures j > 0
  {
    hide Do, Enabled;
  }

  lemma OfferedBefore(states: seq<State>, actions: seq<Action>, j: nat, id: nat) returns (offer: nat)
    requires IsRun(states, actions) && j < |states| && id in states[j].sh.log.sent
    requires id < |states[j].sh.log.captured| && states[j].sh.log.captured[id].flow.Some?
    ensures offer < j && actions[offer].RecvStep? && states[offer].recv.Offering? && states[offer].recv.id == id
  {
    var k := SentAt(states, actions, j, id);
    SentFrom(states, actions, k, id);
    assert |states| == |actions| + 1;
    hide IsRun, Enabled, EventOf;
    if actions[k].RecvStep? {
      HandIsCaptured(states, actions, k);
      SameCapture(states, actions, k, j, id);
      offer := PassedBefore(states, actions, k, id, 11);
    } else {
      offer := InsideFromOffer(states, actions, k, id);
    }
  }

  lemma SentFrom(states: seq<State>, actions: seq<Action>, k: nat, id: nat)
    requires IsRun(states, actions) && k < |actions| && Enabled(states[k], actions[k])
    requires EventOf(states[k], actions[k]) == Sent(id)
    ensures (actions[k].RecvStep? && states[k].recv == Sending(id, AtIo)) || Inside(states[k].sh.queue, id)
    ensures actions[k].RecvStep? ==> states[k].recv == Sending(id, AtIo)
  {
    RunInv(states, actions, k);
    hide IsRun, Enabled, EventOf, OfferCurrent, AllTimely, Shape;
    InvShape(states[k]);
    SendsItsOwn(states[k], actions[k], id);
    hide Inv;
    if !actions[k].RecvStep? { SenderIsInside(states[k], id); }
  }

  lemma SenderIsInside(s: State, id: nat)
    requires Shape(s) && s.send == InSend(id, AtIo)
    ensures Inside(s.sh.queue, id)
  {
    hide SharedShape, Exclusive, InHand, Joined;
  }

  /** The worker steps from this program point with the packet and does not drop it there. */
  ghost predicate PassesAt(states: seq<State>, actions: seq<Action>, i: nat, id: nat, stage: nat)
    requires i < |states| && i < |actions|
  {
    && actions[i].RecvStep? && HasId(states[i].recv) && states[i].recv.id == id && Stage(states[i].recv) == stage
    && Enabled(states[i], actions[i]) && forall reason :: !Condemns(states[i], actions[i], id, reason)
  }

  lemma SentPasses(states: seq<State>, actions: seq<Action>, i: nat, j: nat, id: nat, stage: nat)
    requires IsRun(states, actions) && i < |actions| && i < j < |states| && id in states[j].sh.log.sent
    requires actions[i].RecvStep? && HasId(states[i].recv) && states[i].recv.id == id && Stage(states[i].recv) == stage
    ensures PassesAt(states, actions, i, id, stage)
  {
    StepOf(states, actions, i);
    hide IsRun, Do, Enabled, Condemns;
    forall reason ensures !Condemns(states[i], actions[i], id, reason) {
      if Condemns(states[i], actions[i], id, reason) {
        CondemnedIsDropped(states, actions, i, j, id, reason);
        assert false;
      }
    }
  }

  lemma NextPass(states: seq<State>, actions: seq<Action>, k: nat, j: nat, id: nat, stage: nat) returns (i: nat)
    requires IsRun(states, actions) && k < j < |states| && id in states[j].sh.log.sent
    requires OnPath(states[k].recv, id) && stage < Stage(states[k].recv)
    requires id < |states[k].sh.log.captured| && Unavoidable(states[k].sh.log.captured[id], stage)
    ensures i < k && PassesAt(states, actions, i, id, stage) && OnPath(states[i].recv, id)
    ensures id < |states[i].sh.log.captured| && states[i].sh.log.captured[id] == states[k].sh.log.captured[id]
  {
    assert |states| == |actions| + 1;
    hide IsRun, Condemns, Enabled, Unavoidable, Stage;
    i := PassedBefore(states, actions, k, id, stage);
    assert HasId(states[i].recv) && i < |actions|;
    SentPasses(states, actions, i, j, id, stage);
    HandIsCaptured(states, actions, i);
    SameCapture(states, actions, i, k, id);
  }

  /** What passing a point means, in the fields of the state and the packet. */
  ghost predicate Passed(s: State, a: Action, id: nat, stage: nat) {
    && a.RecvStep? && a.input.Verdict? && id < |s.sh.log.captured|
    && var c := s.sh.log.captured[id];
       match s.recv
       case CheckingAbort(x) => stage == 1 && x == id && !s.sh.aborted
       case CheckingGlobal(x) => stage == 2 && x == id && (c.address.loopback || !s.sh.rules.global.blockAll)
       case CheckingProcess(x) => stage == 3 && x == id && (c.address.loopback || !ProcessBlocks(s.sh.rules, c))
       case Sampling(x) => stage == 4 && x == id
       case LimitingGlobal(x) => stage == 7 && x == id && (Restricts(s.sh.rules.global, c) ==> !a.input.drop)
       case LimitingProcess(x) => stage == 8 && x == id && (ProcessRestricts(s.sh.rules, c) ==> !a.input.drop)
       case Gated(x) => stage == 10 && x == id && !s.sh.aborted
       case Offering(x, delay) => stage == 11 && x == id
         && (Waits(s.sh, c, delay) ==> !Exceeds(s.sh.queue, Pending(c)))
       case _ => false
  }

  predicate Tells(stage: nat) {
    (1 <= stage <= 4) || stage == 7 || stage == 8 || stage == 10 || stage == 11
  }

  lemma PassMeans(states: seq<State>, actions: seq<Action>, i: nat, id: nat, stage: nat)
    requires i < |states| && i < |actions| && PassesAt(states, actions, i, id, stage) && Tells(stage)
    ensures Passed(states[i], actions[i], id, stage)
  {
    var s, a := states[i], actions[i];
    assert !Condemns(s, a, id, Shutdown) && !Condemns(s, a, id, Block);
    assert !Condemns(s, a, id, Rate) && !Condemns(s, a, id, Overflow);
    hide Waits, Exceeds, Inside, StageCondemns;
  }

  lemma NextPassed(states: seq<State>, actions: seq<Action>, k: nat, j: nat, id: nat, stage: nat) returns (i: nat)
    requires IsRun(states, actions) && k < j < |states| && id in states[j].sh.log.sent
    requires OnPath(states[k].recv, id) && stage < Stage(states[k].recv) && Tells(stage)
    requires id < |states[k].sh.log.captured| && states[k].sh.log.captured[id].flow.Some?
    ensures i < k && i < |actions| && Passed(states[i], actions[i], id, stage)
    ensures OnPath(states[i].recv, id) && Stage(states[i].recv) == stage
    ensures id < |states[i].sh.log.captured| && states[i].sh.log.captured[id] == states[k].sh.log.captured[id]
  {
    assert |states| == |actions| + 1;
    hide IsRun, Stage, Passed;
    i := NextPass(states, actions, k, j, id, stage);
    PassMeans(states, actions, i, id, stage);
  }

  /**
   Nothing is left out on the way to a successful send: a parsed packet has passed both abort checks,
   the block checks of both rules, the loss stage, both limits and the offer to the queue, in this
   order and each with the verdict that lets it go on.
   */
  lemma SentPassedEveryCheck(states: seq<State>, actions: seq<Action>, j: nat, id: nat)
      returns (abort: nat, all: nat, process: nat, loss: nat, limit: nat, own: nat, gate: nat, offer: nat)
    requires IsRun(states, actions) && j < |states| && id in states[j].sh.log.sent
    requires id < |states[j].sh.log.captured| && states[j].sh.log.captured[id].flow.Some?
    ensures abort < all < process < loss < limit < own < gate < offer < j <= |actions|
    ensures Passed(states[abort], actions[abort], id, 1) && Passed(states[all], actions[all], id, 2)
    ensures Passed(states[process], actions[process], id, 3) && Passed(states[loss], actions[loss], id, 4)
    ensures Passed(states[limit], actions[limit], id, 7) && Passed(states[own], actions[own], id, 8)
    ensures Passed(states[gate], actions[gate], id, 10) && Passed(states[offer], actions[offer], id, 11)
  {
    assert |states| == |actions| + 1;
    offer := OfferedBefore(states, actions, j, id);
    hide IsRun, Passed;
    HandIsCaptured(states, actions, offer);
    SameCapture(states, actions, offer, j, id);
    SentPasses(states, actions, offer, j, id, 11);
    PassMeans(states, actions, offer, id, 11);
    gate := NextPassed(states, actions, offer, j, id, 10);
    own := NextPassed(states, actions, gate, j, id, 8);
    limit := NextPassed(states, actions, own, j, id, 7);
    loss := NextPassed(states, actions, limit, j, id, 4);
    process := NextPassed(states, actions, loss, j, id, 3);
    all := NextPassed(states, actions, process, j, id, 2);
    abort := NextPassed(states, actions, all, j, id, 1);
  }

  // ---------------------------------------------------------------- the offer

  /** The delay the rules in force give the packet: that of its process if set, otherwise the global one. */
  function RuledDelay(t: Tables, c: Capture): nat {
    var own := RuleOf(t, c.pid);
    if c.direction.Download? then
      Capped(if own.downloadDelay.Some? then own.downloadDelay else t.global.downloadDelay)
    else
      Capped(if own.uploadDelay.Some? then own.uploadDelay else t.global.uploadDelay)
  }

  lemma OfferedDelay(s: State)
    requires OfferCurrent(s) && s.recv.Offering? && s.recv.id < |s.sh.log.captured|
    requires !s.sh.log.captured[s.recv.id].address.loopback
    ensures s.recv.delay == RuledDelay(s.sh.rules, s.sh.log.captured[s.recv.id])
  {
    DelayMeans(s.sh.rules, s.sh.log.captured[s.recv.id].pid);
  }

  /** What becomes of the packet in hand when it is offered to the queue with this delay. */
  ghost predicate Offered(s: State, t: State, delay: nat)
    requires s.recv.Offering? && s.recv.id < |s.sh.log.captured|
  {
    var c, q, id := s.sh.log.captured[s.recv.id], s.sh.queue, s.recv.id;
    if !Waits(s.sh, c, delay) then
      t.recv == Sending(id, WantGate) && t.sh.queue == q && t.sh.log.dropped == s.sh.log.dropped
    else if Exceeds(q, Pending(c)) then
      t.recv == Receiving && t.sh.queue == q && t.sh.log.dropped == s.sh.log.dropped + [Drop(id, Overflow)]
    else
      && t.recv == Receiving && t.sh.log.dropped == s.sh.log.dropped
      && Joins(q, t.sh.queue, Pending(c), if s.sh.draining then c.receivedAt else c.receivedAt + delay)
  }

  lemma OfferTurns(s: State, input: Input)
    requires SharedShape(s.sh) && Enabled(s, RecvStep(input)) && s.recv.Offering? && s.recv.id < |s.sh.log.captured|
    ensures Offered(s, Do(s, RecvStep(input)), s.recv.delay)
  {
    hide Waits, Exceeds, Joins, Enqueue, Do, NextRecv, RecvEvent, SharedShape, RecvEnabled;
    OfferEvents(s, input);
    DoParts(s, RecvStep(input));
    QueueOfDo(s, RecvStep(input));
    OfferJoins(s, input);
  }

  lemma OfferEvents(s: State, input: Input)
    requires RecvEnabled(s, input) && s.recv.Offering?
    ensures var c := s.sh.log.captured[s.recv.id];
      if !Waits(s.sh, c, s.recv.delay) then
        NextRecv(s, input) == Sending(s.recv.id, WantGate) && RecvEvent(s, input) == Quiet
      else
        && NextRecv(s, input) == Receiving
        && RecvEvent(s, input) ==
             if Exceeds(s.sh.queue, Pending(c)) then Overflowed(s.recv.id) else Queued(s.recv.id, s.recv.delay)
  {
    var c := s.sh.log.captured[s.recv.id];
    WaitsMeans(s.sh, c, s.recv.delay);
    if Waits(s.sh, c, s.recv.delay) { AdmitsMeans(s.sh.queue, Pending(c)); }
    hide Waits, Exceeds, MustQueue, Admits;
  }

  lemma OfferJoins(s: State, input: Input)
    requires SharedShape(s.sh) && RecvEnabled(s, input) && s.recv.Offering?
    ensures var c := s.sh.log.captured[s.recv.id];
      c.flow.Some? && !Exceeds(s.sh.queue, Pending(c)) ==>
        var wanted := if s.sh.draining then c.receivedAt else c.receivedAt + s.recv.delay;
        Joins(s.sh.queue, Enqueue(s.sh.queue, Pending(c), wanted), Pending(c), wanted)
  {
    var c := s.sh.log.captured[s.recv.id];
    if c.flow.Some? && !Exceeds(s.sh.queue, Pending(c)) {
      EnqueuedExactly(s.sh.queue, Pending(c), if s.sh.draining then c.receivedAt else c.receivedAt + s.recv.delay);
    }
    hide Exceeds, Joins, Enqueue, Captures, QueueGenuine, WithinLimits;
  }

  /**
   A packet is queued exactly if the rules in force delay it or its flow is already waiting, and its
   quotas allow it; then its deadline is its capture time plus that delay, or that of its flow's last
   packet if it is later. Without the quota it is dropped, and without a reason to wait it is sent at once.
   */
  lemma OfferIsExact(states: seq<State>, actions: seq<Action>, i: nat)
    requires IsRun(states, actions) && i < |actions| && states[i].recv.Offering? && actions[i].RecvStep?
    ensures states[i].recv.id < |states[i].sh.log.captured|
    ensures var s := states[i];
      var c := s.sh.log.captured[s.recv.id];
      Offered(s, states[i + 1], if c.address.loopback then 0 else RuledDelay(s.sh.rules, c))
  {
    RunInv(states, actions, i);
    StepOf(states, actions, i);
    hide IsRun, Do, Shape, SharedShape, AllTimely, Offered, RuledDelay, OfferCurrent, Enabled;
    HandIsCaptured(states, actions, i);
    InvShape(states[i]);
    hide Inv;
    ShapeShared(states[i]);
    var s := states[i];
    OfferTurns(s, actions[i].input);
    if s.sh.log.captured[s.recv.id].address.loopback {
      LoopbackNeverWaits(s, states[i + 1]);
    } else {
      OfferedDelay(s);
    }
  }

  lemma LoopbackNeverWaits(s: State, t: State)
    requires s.recv.Offering? && s.recv.id < |s.sh.log.captured| && s.sh.log.captured[s.recv.id].address.loopback
    ensures Offered(s, t, 0) <==> Offered(s, t, s.recv.delay)
  {
    hide Exceeds, Joins;
  }
}
