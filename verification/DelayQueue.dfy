/**
 The delay queue as the engine runs it: a heap, two maps of running counters and a running total,
 all updated in place. `model` records the queue as a value, and `Valid` says that every counter
 agrees with a recount of the packets in it.
 */
module DelayQueues {
  import opened Core
  import opened Packet
  import opened QueueModel
  import opened QueueFacts
  import opened QueueAccepts

  datatype Usage = Usage(packets: nat, bytes: nat)

  datatype FlowState = FlowState(packets: nat, tail: Option<nat>, inFlight: nat, inFlightTail: Option<nat>)

  ghost function PidUsage(q: Queue, pid: Option<nat>): Usage {
    Usage(Load(PidOnes(pid), q), Load(PidSizes(pid), q))
  }

  ghost function FlowUsage(q: Queue, flow: FlowKey): FlowState {
    FlowState(Load(FlowOnes(flow), q), Tail(q, flow), Total(FlowOnes(flow), q.inFlight), InFlightTail(q, flow))
  }

  /** A process has an entry exactly while it has packets, and the entry holds the recount. */
  ghost predicate PidAgrees(q: Queue, pids: map<Option<nat>, Usage>, pid: Option<nat>) {
    && (pid in pids <==> Load(PidOnes(pid), q) > 0)
    && (pid in pids ==> pids[pid] == PidUsage(q, pid))
  }

  /** A flow has an entry exactly while it has packets, and the entry holds the recount and tails. */
  ghost predicate FlowAgrees(q: Queue, flows: map<FlowKey, FlowState>, flow: FlowKey) {
    && (flow in flows <==> Load(FlowOnes(flow), q) > 0)
    && (flow in flows ==> flows[flow] == FlowUsage(q, flow))
  }

  ghost predicate Accounted(q: Queue, pids: map<Option<nat>, Usage>, flows: map<FlowKey, FlowState>, usage: Usage) {
    && usage == Usage(Load(Ones(), q), Load(Sizes(), q))
    && (forall pid :: PidAgrees(q, pids, pid))
    && (forall flow :: FlowAgrees(q, flows, flow))
  }

  /** The fields of the running queue represent `q`. */
  ghost predicate Represents(heap: set<Entry>, pids: map<Option<nat>, Usage>, flows: map<FlowKey, FlowState>,
                             usage: Usage, q: Queue) {
    && Ordered(q) && WithinLimits(q)
    && heap == Elements(q.queued)
    && Accounted(q, pids, flows, usage)
  }

  function Elements(entries: seq<Entry>): set<Entry> {
    set e | e in entries
  }

  // ---------------------------------------------------------------- the heap

  /** The greatest element of the heap under its reversed order: least (deadline, sequence). */
  predicate IsTop(heap: set<Entry>, e: Entry) {
    e in heap && forall x :: x in heap && x != e ==> Before(e, x)
  }

  predicate IsFirstCaptured(heap: set<Entry>, e: Entry) {
    e in heap && forall x :: x in heap && x != e ==> e.sequence < x.sequence
  }

  lemma TopIsLeast(entries: seq<Entry>, bound: nat)
    requires Sequenced(entries, bound) && entries != []
    ensures forall e :: IsTop(Elements(entries), e) <==> e == entries[LeastIndex(entries)]
  {
    LeastIndexIsLeast(entries);
    var i := LeastIndex(entries);
    assert IsTop(Elements(entries), entries[i]);
    forall e | IsTop(Elements(entries), e) ensures e == entries[i] {
      var j :| 0 <= j < |entries| && entries[j] == e;
      assert entries[i] in Elements(entries);
    }
  }

  lemma ElementsRemove(entries: seq<Entry>, bound: nat, i: nat)
    requires Sequenced(entries, bound) && i < |entries|
    ensures Elements(Remove(entries, i)) == Elements(entries) - {entries[i]}
  {
    var r := Remove(entries, i);
    forall e | e in Elements(entries) && e != entries[i] ensures e in r {
      var j :| 0 <= j < |entries| && entries[j] == e;
      assert r[if j < i then j else j - 1] == e;
    }
    forall e | e in r ensures e in entries && e != entries[i] {
      var k :| 0 <= k < |r| && r[k] == e;
      RemoveAt(entries, i, k);
    }
  }

  lemma FirstCaptured(entries: seq<Entry>, bound: nat, i: nat)
    requires Sequenced(entries, bound) && i < |entries|
    ensures forall e :: IsFirstCaptured(Elements(entries[i..]), e) <==> e == entries[i]
    ensures Elements(entries[i..]) - {entries[i]} == Elements(entries[i + 1..])
  {
    assert entries[i..] == [entries[i]] + entries[i + 1..];
    assert IsFirstCaptured(Elements(entries[i..]), entries[i]);
    forall e | e in Elements(entries[i..]) && e != entries[i] ensures !IsFirstCaptured(Elements(entries[i..]), e) {
      assert entries[i] in Elements(entries[i..]);
    }
  }

  /** The heap emptied into a vector and sorted by sequence number: capture order. */
  method IntoSortedVec(heap: set<Entry>, ghost entries: seq<Entry>, ghost bound: nat) returns (sorted: seq<Entry>)
    requires Sequenced(entries, bound) && heap == Elements(entries)
    ensures sorted == entries
  {
    hide Sequenced, IsFirstCaptured;
    sorted := [];
    var rest := heap;
    assert entries[0..] == entries;
    while rest != {}
      invariant |sorted| <= |entries| && sorted == entries[..|sorted|]
      invariant rest == Elements(entries[|sorted|..])
      invariant |sorted| < |entries| ==> entries[|sorted|..][0] in rest
      decreases |entries| - |sorted|
    {
      FirstCaptured(entries, bound, |sorted|);
      assert IsFirstCaptured(rest, entries[|sorted|]);
      var e :| IsFirstCaptured(rest, e);
      sorted := sorted + [e];
      rest := rest - {e};
    }
  }

  // ---------------------------------------------------------------- tails

  lemma {:induction false} LastDeadlineRemove(entries: seq<Entry>, i: nat, flow: FlowKey)
    requires i < |entries|
    requires forall k :: 0 <= k < i ==> entries[k].packet.flow != flow || entries[i].packet.flow != flow
    ensures LastDeadline(Remove(entries, i), flow) == LastDeadline(entries, flow)
      || (entries[i].packet.flow == flow && LastDeadline(Remove(entries, i), flow).None?
          && LastDeadline(entries, flow) == Some(entries[i].deadline))
  {
    var n := |entries| - 1;
    if i == n {
      assert Remove(entries, i) == entries[..n];
      FlowTotalPositive(entries[..n], flow);
    } else {
      assert Remove(entries, i)[..n - 1] == Remove(entries[..n], i);
      LastDeadlineRemove(entries[..n], i, flow);
    }
  }

  lemma PopTail(q: Queue, now: nat, flow: FlowKey)
    requires Ordered(q)
    ensures Tail(PopDue(q, now), flow) == Tail(q, flow)
  {
    if Due(q, now).Some? {
      var i := LeastIndex(q.queued);
      forall k | 0 <= k < i ensures q.queued[k].packet.flow != q.queued[i].packet.flow {
        if q.queued[k].packet.flow == q.queued[i].packet.flow { PopTakesFlowHead(q, now, k); }
      }
      LastDeadlineRemove(q.queued, i, flow);
      FlowTotalPositive(q.queued, flow);
    }
  }

  lemma {:induction false} ReleaseTail(q: Queue, now: nat, sel: Selection, flow: FlowKey, n: nat)
    requires n <= |q.queued|
    ensures var last := LastDeadline(Release(q, now, sel).queued[..n], flow);
      (if last.Some? then last else InFlightTail(q, flow))
        == LatestWish(q.queued[..n], flow, InFlightTail(q, flow), now, sel)
  {
    if n > 0 {
      ReleaseTail(q, now, sel, flow, n - 1);
      var r := Release(q, now, sel).queued;
      assert r[..n][..n - 1] == r[..n - 1];
      assert q.queued[..n][..n - 1] == q.queued[..n - 1];
      assert r[n - 1] == Released(q, n - 1, now, sel);
    }
  }

  class DelayQueue {
    var heap: set<Entry>
    var flows: map<FlowKey, FlowState>
    var pids: map<Option<nat>, Usage>
    var usage: Usage
    var nextSequence: nat
    const limits: Limits
    ghost var model: Queue

    ghost predicate Valid()
      reads this
    {
      && Represents(heap, pids, flows, usage, model)
      && nextSequence == model.nextSequence
      && limits == model.limits
    }

    constructor (limits: Limits)
      ensures Valid() && model == Empty(limits)
    {
      this.limits := limits;
      heap, flows, pids, usage, nextSequence := {}, map[], map[], Usage(0, 0), 0;
      model := Empty(limits);
    }

    method HasFlow(flow: FlowKey) returns (present: bool)
      requires Valid()
      ensures present == QueueModel.HasFlow(model, flow)
    {
      assert FlowAgrees(model, flows, flow);
      present := flow in flows;
    }

    method NextDeadline() returns (deadline: Option<nat>)
      requires Valid()
      ensures deadline.None? <==> model.queued == []
      ensures deadline.Some? ==> exists i :: 0 <= i < |model.queued| && model.queued[i].deadline == deadline.value
      ensures deadline.Some? ==> forall i :: 0 <= i < |model.queued| ==> deadline.value <= model.queued[i].deadline
    {
      HeapTop(heap, pids, flows, usage, model);
      if heap == {} {
        return None;
      }
      var entry :| IsTop(heap, entry);
      LeastIndexIsLeast(model.queued);
      deadline := Some(entry.deadline);
    }

    method PacketCount() returns (count: nat)
      requires Valid()
      ensures count == |model.queued| + |model.inFlight|
    {
      OnesCount(model.queued);
      OnesCount(model.inFlight);
      count := usage.packets;
    }

    method Enqueue(packet: PendingPacket, deadline: nat) returns (accepted: bool)
      requires Valid()
      modifies this
      ensures Valid()
      ensures accepted <==> !Exceeds(old(model), packet)
      ensures accepted <==>
        WithinLimits(old(model).(queued := old(model).queued + [Entry(packet, deadline, old(nextSequence))]))
      ensures model == QueueModel.Enqueue(old(model), packet, deadline)
      ensures !accepted ==> unchanged(this)
    {
      hide Represents, Exceeds, WithinLimits;
      EnqueueReads(heap, pids, flows, usage, model, packet);
      RoomMeans(heap, pids, flows, usage, model, Entry(packet, deadline, nextSequence));
      var bytes := |packet.bytes|;
      var pidUsage := if packet.pid in pids then pids[packet.pid] else Usage(0, 0);
      if usage.packets >= limits.packets
         || bytes > limits.bytes - usage.bytes
         || pidUsage.packets >= limits.pidPackets
         || bytes > limits.pidBytes - pidUsage.bytes
      {
        return false;
      }
      EnqueueRepresents(heap, pids, flows, usage, model, packet, deadline);
      var flow := if packet.flow in flows then flows[packet.flow] else FlowState(0, None, 0, None);
      var due := AfterTail(flow.tail, deadline);
      flow := flow.(tail := Some(due), packets := flow.packets + 1);
      flows := flows[packet.flow := flow];
      pidUsage := Usage(pidUsage.packets + 1, pidUsage.bytes + bytes);
      pids := pids[packet.pid := pidUsage];
      usage := Usage(usage.packets + 1, usage.bytes + bytes);
      var sequence := nextSequence;
      nextSequence := sequence + 1;
      heap := heap + {Entry(packet, due, sequence)};
      accepted := true;
      model := QueueModel.Enqueue(model, packet, deadline);
    }

    method PopDue(now: nat) returns (packet: Option<PendingPacket>)
      requires Valid()
      modifies this
      ensures Valid()
      ensures packet == match Due(old(model), now) case None => None case Some(e) => Some(e.packet)
      ensures model == QueueModel.PopDue(old(model), now)
    {
      hide Represents;
      HeapTop(heap, pids, flows, usage, model);
      if heap == {} {
        return None;
      }
      var entry :| IsTop(heap, entry);
      if entry.deadline > now {
        return None;
      }
      PopRepresents(heap, pids, flows, usage, model, now, entry);
      heap := heap - {entry};
      var flow := flows[entry.packet.flow];
      flow := flow.(inFlight := flow.inFlight + 1, inFlightTail := Some(entry.deadline));
      flows := flows[entry.packet.flow := flow];
      packet := Some(entry.packet);
      model := QueueModel.PopDue(model, now);
    }

    /** Called exactly once for every popped packet, after it has been sent or dropped. */
    method Finish(packet: PendingPacket)
      requires Valid() && IsInFlight(model, packet)
      modifies this
      ensures Valid()
      ensures model == QueueModel.Finish(old(model), packet)
    {
      hide Represents;
      FinishRepresents(heap, pids, flows, usage, model, packet);
      var bytes := |packet.bytes|;
      usage := Usage(usage.packets - 1, usage.bytes - bytes);
      var pidUsage := pids[packet.pid];
      pidUsage := Usage(pidUsage.packets - 1, pidUsage.bytes - bytes);
      pids := if pidUsage.packets == 0 then pids - {packet.pid} else pids[packet.pid := pidUsage];
      var flow := flows[packet.flow];
      flow := flow.(packets := flow.packets - 1, inFlight := flow.inFlight - 1);
      if flow.inFlight == 0 {
        flow := flow.(inFlightTail := None);
      }
      flows := if flow.packets == 0 then flows - {packet.flow} else flows[packet.flow := flow];
      model := QueueModel.Finish(model, packet);
    }

    method ReleaseMatching(now: nat, sel: Selection)
      requires Valid()
      modifies this
      ensures Valid()
      ensures model == Release(old(model), now, sel)
    {
      ghost var was := model;
      ghost var flowsWere := flows;
      hide Represents, TailsRebuilt, Sequenced, Elements;
      HeapBag(heap, pids, flows, usage, was);
      var entries := IntoSortedVec(heap, was.queued, was.nextSequence);
      flows := map f | f in flows :: flows[f].(tail := flows[f].inFlightTail);
      ReleaseStarts(heap, pids, flowsWere, usage, was, now, sel);
      for i := 0 to |entries|
        modifies this`flows
        invariant |entries| == |was.queued|
        invariant entries[..i] == Release(was, now, sel).queued[..i] && entries[i..] == was.queued[i..]
        invariant TailsRebuilt(was, flows, i, now, sel)
      {
        var entry := entries[i];
        ReleaseStep(was, flows, i, now, sel);
        assert entry == was.queued[i];
        if sel(entry.packet) {
          entry := entry.(deadline := now);
        }
        var flow := flows[entry.packet.flow];
        entry := entry.(deadline := AfterTail(flow.tail, entry.deadline));
        flows := flows[entry.packet.flow := flow.(tail := Some(entry.deadline))];
        entries := entries[i := entry];
      }
      assert entries == Release(was, now, sel).queued;
      ReleaseRepresents(heap, pids, flowsWere, flows, usage, was, now, sel);
      heap := Elements(entries);
      model := Release(was, now, sel);
    }
  }

  // ---------------------------------------------------------------- agreement after each operation

  lemma {:induction false} OnesCount(entries: seq<Entry>)
    ensures Total(Ones(), entries) == |entries|
  {
    if entries != [] { OnesCount(entries[..|entries| - 1]); }
  }

  lemma {:induction false} PidSizesZeroIn(entries: seq<Entry>, pid: Option<nat>)
    ensures Total(PidOnes(pid), entries) == 0 ==> Total(PidSizes(pid), entries) == 0
  {
    if entries != [] { PidSizesZeroIn(entries[..|entries| - 1], pid); }
  }

  lemma PidSizesZero(q: Queue, pid: Option<nat>)
    ensures Load(PidOnes(pid), q) == 0 ==> Load(PidSizes(pid), q) == 0
  {
    PidSizesZeroIn(q.queued, pid);
    PidSizesZeroIn(q.inFlight, pid);
  }

  lemma FlowPresent(q: Queue, i: nat)
    requires i < |q.queued|
    ensures Load(FlowOnes(q.queued[i].packet.flow), q) > 0
  {
    FlowTotalPositive(q.queued, q.queued[i].packet.flow);
  }

  lemma EnqueueAccounted(q: Queue, p: PendingPacket, deadline: nat,
                         pids: map<Option<nat>, Usage>, flows: map<FlowKey, FlowState>, usage: Usage)
    requires Admits(q, p) && Accounted(q, pids, flows, usage) && TailsMatch(q)
    ensures Accounted(
      Enqueue(q, p, deadline),
      pids[p.pid := Usage(Load(PidOnes(p.pid), q) + 1, Load(PidSizes(p.pid), q) + |p.bytes|)],
      flows[p.flow := FlowUsage(q, p.flow).(tail := Some(AfterTail(Tail(q, p.flow), deadline)),
                                           packets := Load(FlowOnes(p.flow), q) + 1)],
      Usage(usage.packets + 1, usage.bytes + |p.bytes|))
  {
    var r := Enqueue(q, p, deadline);
    var pids' := pids[p.pid := Usage(Load(PidOnes(p.pid), q) + 1, Load(PidSizes(p.pid), q) + |p.bytes|)];
    var flows' := flows[p.flow := FlowUsage(q, p.flow).(tail := Some(AfterTail(Tail(q, p.flow), deadline)),
                                                       packets := Load(FlowOnes(p.flow), q) + 1)];
    EnqueueLoad(q, p, deadline, Ones());
    EnqueueLoad(q, p, deadline, Sizes());
    forall pid ensures PidAgrees(r, pids', pid) {
      assert PidAgrees(q, pids, pid);
      EnqueueLoad(q, p, deadline, PidOnes(pid));
      EnqueueLoad(q, p, deadline, PidSizes(pid));
    }
    assert r.queued[..|q.queued|] == q.queued;
    forall f ensures FlowAgrees(r, flows', f) {
      assert FlowAgrees(q, flows, f);
      EnqueueLoad(q, p, deadline, FlowOnes(f));
    }
  }

  lemma HeapBag(heap: set<Entry>, pids: map<Option<nat>, Usage>, flows: map<FlowKey, FlowState>, usage: Usage, q: Queue)
    requires Represents(heap, pids, flows, usage, q)
    ensures heap == Elements(q.queued) && Sequenced(q.queued, q.nextSequence)
  {
  }

  lemma HeapTop(heap: set<Entry>, pids: map<Option<nat>, Usage>, flows: map<FlowKey, FlowState>, usage: Usage, q: Queue)
    requires Represents(heap, pids, flows, usage, q)
    ensures heap == {} <==> q.queued == []
    ensures heap != {} ==> exists e :: IsTop(heap, e)
    ensures forall e :: IsTop(heap, e) ==> q.queued != [] && e == q.queued[LeastIndex(q.queued)]
  {
    if q.queued != [] {
      assert q.queued[0] in heap;
      TopIsLeast(q.queued, q.nextSequence);
      assert IsTop(heap, q.queued[LeastIndex(q.queued)]);
    }
  }

  /** What `enqueue` reads from its maps is the recount, with absent entries read as empty. */
  lemma EnqueueReads(heap: set<Entry>, pids: map<Option<nat>, Usage>, flows: map<FlowKey, FlowState>, usage: Usage,
                     q: Queue, p: PendingPacket)
    requires Represents(heap, pids, flows, usage, q)
    ensures usage == Usage(Load(Ones(), q), Load(Sizes(), q))
    ensures usage.bytes <= q.limits.bytes && PidUsage(q, p.pid).bytes <= q.limits.pidBytes
    ensures PidUsage(q, p.pid) == if p.pid in pids then pids[p.pid] else Usage(0, 0)
    ensures FlowUsage(q, p.flow) == if p.flow in flows then flows[p.flow] else FlowState(0, None, 0, None)
  {
    assert PidAgrees(q, pids, p.pid) && FlowAgrees(q, flows, p.flow);
    PidSizesZero(q, p.pid);
    FlowTotalPositive(q.queued, p.flow);
  }

  lemma OrderedTails(q: Queue)
    requires Ordered(q)
    ensures TailsMatch(q)
  {
  }

  lemma EnqueueRepresents(heap: set<Entry>, pids: map<Option<nat>, Usage>, flows: map<FlowKey, FlowState>,
                          usage: Usage, q: Queue, p: PendingPacket, deadline: nat)
    requires Represents(heap, pids, flows, usage, q) && Admits(q, p)
    ensures var flow := FlowUsage(q, p.flow);
      var due := AfterTail(flow.tail, deadline);
      Represents(
        heap + {Entry(p, due, q.nextSequence)},
        pids[p.pid := Usage(PidUsage(q, p.pid).packets + 1, PidUsage(q, p.pid).bytes + |p.bytes|)],
        flows[p.flow := flow.(tail := Some(due), packets := flow.packets + 1)],
        Usage(usage.packets + 1, usage.bytes + |p.bytes|),
        Enqueue(q, p, deadline))
  {
    hide Ordered, WithinLimits, Accounted, Admits, Enqueue, Elements, Load, Total, Tail, TailsMatch;
    OrderedTails(q);
    EnqueueElements(q, p, deadline);
    EnqueueKeepsOrder(q, p, deadline);
    EnqueueKeepsLimits(q, p, deadline);
    EnqueueAccounted(q, p, deadline, pids, flows, usage);
  }

  lemma RoomMeans(heap: set<Entry>, pids: map<Option<nat>, Usage>, flows: map<FlowKey, FlowState>,
                  usage: Usage, q: Queue, e: Entry)
    requires Represents(heap, pids, flows, usage, q)
    ensures Admits(q, e.packet) <==> !Exceeds(q, e.packet)
    ensures Admits(q, e.packet) <==> WithinLimits(q.(queued := q.queued + [e]))
  {
    LoadsAreCounts(q, e.packet.pid);
    AppendedWithin(q, e);
    hide WithinLimits, Load, Accounted, Ordered;
  }

  lemma EnqueueElements(q: Queue, p: PendingPacket, deadline: nat)
    requires Admits(q, p)
    ensures Elements(Enqueue(q, p, deadline).queued)
         == Elements(q.queued) + {Entry(p, AfterTail(Tail(q, p.flow), deadline), q.nextSequence)}
  {
  }

  lemma PopPids(q: Queue, now: nat, pids: map<Option<nat>, Usage>, pid: Option<nat>)
    requires PidAgrees(q, pids, pid)
    ensures PidAgrees(PopDue(q, now), pids, pid)
  {
    PopLoad(q, now, PidOnes(pid));
    PopLoad(q, now, PidSizes(pid));
    hide PopDue, Load;
  }

  lemma PopFlows(q: Queue, now: nat, flows: map<FlowKey, FlowState>, f: FlowKey)
    requires Ordered(q) && Due(q, now).Some? && FlowAgrees(q, flows, f)
    ensures var e := Due(q, now).value;
      FlowAgrees(
        PopDue(q, now),
        flows[e.packet.flow := FlowUsage(q, e.packet.flow).(
          inFlight := Total(FlowOnes(e.packet.flow), q.inFlight) + 1, inFlightTail := Some(e.deadline))],
        f)
  {
    hide Load, Tail, Ordered, Total;
    var e := Due(q, now).value;
    FlowPresent(q, LeastIndex(q.queued));
    PopLoad(q, now, FlowOnes(f));
    PopTail(q, now, f);
    TotalAppend(FlowOnes(f), q.inFlight, e);
  }

  lemma PopAccounted(q: Queue, now: nat, pids: map<Option<nat>, Usage>, flows: map<FlowKey, FlowState>, usage: Usage)
    requires Ordered(q) && Due(q, now).Some? && Accounted(q, pids, flows, usage)
    ensures var e := Due(q, now).value;
      Accounted(
        PopDue(q, now), pids,
        flows[e.packet.flow := FlowUsage(q, e.packet.flow).(
          inFlight := Total(FlowOnes(e.packet.flow), q.inFlight) + 1, inFlightTail := Some(e.deadline))],
        usage)
  {
    hide Ordered, Due, PopDue, PidAgrees, FlowAgrees, FlowUsage, Load, Total;
    var r := PopDue(q, now);
    var e := Due(q, now).value;
    var flows' := flows[e.packet.flow := FlowUsage(q, e.packet.flow).(
      inFlight := Total(FlowOnes(e.packet.flow), q.inFlight) + 1, inFlightTail := Some(e.deadline))];
    PopLoad(q, now, Ones());
    PopLoad(q, now, Sizes());
    forall pid ensures PidAgrees(r, pids, pid) {
      PopPids(q, now, pids, pid);
    }
    forall f ensures FlowAgrees(r, flows', f) {
      PopFlows(q, now, flows, f);
    }
  }

  lemma PopElements(heap: set<Entry>, q: Queue, now: nat, e: Entry)
    requires heap == Elements(q.queued) && Sequenced(q.queued, q.nextSequence) && Due(q, now) == Some(e)
    ensures heap - {e} == Elements(PopDue(q, now).queued)
  {
    ElementsRemove(q.queued, q.nextSequence, LeastIndex(q.queued));
  }

  lemma PopCounters(pids: map<Option<nat>, Usage>, flows: map<FlowKey, FlowState>, usage: Usage, q: Queue, now: nat,
        e: Entry)
    requires Ordered(q) && Accounted(q, pids, flows, usage) && Due(q, now) == Some(e)
    ensures e.packet.flow in flows
    ensures var flow := flows[e.packet.flow];
      var flow' := flow.(inFlight := flow.inFlight + 1, inFlightTail := Some(e.deadline));
      Accounted(PopDue(q, now), pids, flows[e.packet.flow := flow'], usage)
  {
    FlowPresent(q, LeastIndex(q.queued));
    assert FlowAgrees(q, flows, e.packet.flow);
    PopAccounted(q, now, pids, flows, usage);
  }

  lemma PopRepresents(heap: set<Entry>, pids: map<Option<nat>, Usage>, flows: map<FlowKey, FlowState>,
                      usage: Usage, q: Queue, now: nat, e: Entry)
    requires Represents(heap, pids, flows, usage, q) && Due(q, now) == Some(e)
    ensures e.packet.flow in flows
    ensures var flow := flows[e.packet.flow];
      var flow' := flow.(inFlight := flow.inFlight + 1, inFlightTail := Some(e.deadline));
      Represents(heap - {e}, pids, flows[e.packet.flow := flow'], usage, PopDue(q, now))
  {
    PopElements(heap, q, now, e);
    PopCounters(pids, flows, usage, q, now, e);
    PopKeepsOrder(q, now);
    PopKeepsLimits(q, now);
  }

  ghost function PidsAfterFinish(r: Queue, p: PendingPacket, pids: map<Option<nat>, Usage>): map<Option<nat>, Usage> {
    if Load(PidOnes(p.pid), r) == 0 then pids - {p.pid} else pids[p.pid := PidUsage(r, p.pid)]
  }

  ghost function FlowsAfterFinish(r: Queue, p: PendingPacket, flows: map<FlowKey, FlowState>): map<FlowKey, FlowState>
    requires p.flow in flows
  {
    var left := FlowState(Load(FlowOnes(p.flow), r), flows[p.flow].tail, Total(FlowOnes(p.flow), r.inFlight),
                          if Total(FlowOnes(p.flow), r.inFlight) == 0 then None else flows[p.flow].inFlightTail);
    if left.packets == 0 then flows - {p.flow} else flows[p.flow := left]
  }

  lemma FinishPids(q: Queue, p: PendingPacket, pids: map<Option<nat>, Usage>, pid: Option<nat>)
    requires IsInFlight(q, p) && PidAgrees(q, pids, pid)
    ensures PidAgrees(Finish(q, p), PidsAfterFinish(Finish(q, p), p, pids), pid)
    ensures pid == p.pid ==>
      pid in pids
      && pids[pid] == Usage(Load(PidOnes(pid), Finish(q, p)) + 1, Load(PidSizes(pid), Finish(q, p)) + |p.bytes|)
  {
    hide Finish, IsInFlight, Load;
    FinishLoad(q, p, PidOnes(pid));
    FinishLoad(q, p, PidSizes(pid));
  }

  lemma FinishFlows(q: Queue, p: PendingPacket, flows: map<FlowKey, FlowState>, f: FlowKey)
    requires Ordered(q) && IsInFlight(q, p) && p.flow in flows
    requires FlowAgrees(q, flows, f) && FlowAgrees(q, flows, p.flow)
    ensures FlowAgrees(Finish(q, p), FlowsAfterFinish(Finish(q, p), p, flows), f)
  {
    hide Finish, IsInFlight, Load, Total, Tail, InFlightTail, Ordered;
    FinishFlow(q, p, f);
  }

  lemma FinishAccounted(q: Queue, p: PendingPacket, pids: map<Option<nat>, Usage>, flows: map<FlowKey, FlowState>,
        usage: Usage)
    requires Ordered(q) && IsInFlight(q, p) && Accounted(q, pids, flows, usage)
    requires p.pid in pids && p.flow in flows
    ensures var r := Finish(q, p);
      && usage == Usage(Load(Ones(), r) + 1, Load(Sizes(), r) + |p.bytes|)
      && pids[p.pid] == Usage(Load(PidOnes(p.pid), r) + 1, Load(PidSizes(p.pid), r) + |p.bytes|)
      && flows[p.flow].packets == Load(FlowOnes(p.flow), r) + 1
      && flows[p.flow].inFlight == Total(FlowOnes(p.flow), r.inFlight) + 1
      && Accounted(r, PidsAfterFinish(r, p, pids), FlowsAfterFinish(r, p, flows),
        Usage(Load(Ones(), r), Load(Sizes(), r)))
  {
    var r := Finish(q, p);
    assert FlowAgrees(q, flows, p.flow);
    assert flows[p.flow] == FlowUsage(q, p.flow);
    hide Finish, IsInFlight, Load, Total, Tail, Ordered, PidAgrees, FlowAgrees, PidsAfterFinish,
      FlowsAfterFinish;
    FinishLoad(q, p, Ones());
    FinishLoad(q, p, Sizes());
    FinishLoad(q, p, FlowOnes(p.flow));
    FinishPids(q, p, pids, p.pid);
    forall pid ensures PidAgrees(r, PidsAfterFinish(r, p, pids), pid) {
      FinishPids(q, p, pids, pid);
    }
    forall f ensures FlowAgrees(r, FlowsAfterFinish(r, p, flows), f) {
      FinishFlows(q, p, flows, f);
    }
  }

  /** The subtractions of `finish` never underflow, and the counters stay a recount. */
  lemma FinishRepresents(heap: set<Entry>, pids: map<Option<nat>, Usage>, flows: map<FlowKey, FlowState>,
                         usage: Usage, q: Queue, p: PendingPacket)
    requires Represents(heap, pids, flows, usage, q) && IsInFlight(q, p)
    ensures p.pid in pids && p.flow in flows
    ensures var r := Finish(q, p);
      && usage == Usage(Load(Ones(), r) + 1, Load(Sizes(), r) + |p.bytes|)
      && pids[p.pid] == Usage(Load(PidOnes(p.pid), r) + 1, Load(PidSizes(p.pid), r) + |p.bytes|)
      && flows[p.flow].packets == Load(FlowOnes(p.flow), r) + 1
      && flows[p.flow].inFlight == Total(FlowOnes(p.flow), r.inFlight) + 1
      && Represents(heap, PidsAfterFinish(r, p, pids), FlowsAfterFinish(r, p, flows),
        Usage(Load(Ones(), r), Load(Sizes(), r)), r)
  {
    FinishPresent(pids, flows, usage, q, p);
    FinishKeeps(q, p);
    FinishAccounted(q, p, pids, flows, usage);
  }

  lemma FinishPresent(pids: map<Option<nat>, Usage>, flows: map<FlowKey, FlowState>, usage: Usage, q: Queue,
        p: PendingPacket)
    requires Accounted(q, pids, flows, usage) && IsInFlight(q, p)
    ensures p.pid in pids && p.flow in flows
  {
    FinishLoad(q, p, PidOnes(p.pid));
    FinishLoad(q, p, FlowOnes(p.flow));
    assert PidAgrees(q, pids, p.pid) && FlowAgrees(q, flows, p.flow);
  }

  lemma FinishFlow(q: Queue, p: PendingPacket, f: FlowKey)
    requires Ordered(q) && IsInFlight(q, p)
    ensures var r := Finish(q, p);
      && Load(FlowOnes(f), r) == Load(FlowOnes(f), q) - FlowOnes(f)(p)
      && Total(FlowOnes(f), r.inFlight) == Total(FlowOnes(f), q.inFlight) - FlowOnes(f)(p)
      && InFlightTail(r, f) == (if Total(FlowOnes(f), r.inFlight) == 0 then None else InFlightTail(q, f))
      && (Load(FlowOnes(f), r) > 0 ==> Tail(r, f) == Tail(q, f))
      && (f != p.flow ==> InFlightTail(r, f) == InFlightTail(q, f))
  {
    FinishLoad(q, p, FlowOnes(f));
    FlowTotalPositive(q.queued, f);
  }

  /** After the loop of `release_matching` has handled the first `n` entries. */
  ghost predicate TailRebuilt(q: Queue, flows: map<FlowKey, FlowState>, f: FlowKey, n: nat, now: nat, sel: Selection)
    requires n <= |q.queued|
  {
    && (f in flows <==> Load(FlowOnes(f), q) > 0)
    && (f in flows ==>
      flows[f] == FlowUsage(q, f).(tail := LatestWish(q.queued[..n], f, InFlightTail(q, f), now, sel)))
  }

  ghost predicate TailsRebuilt(q: Queue, flows: map<FlowKey, FlowState>, n: nat, now: nat, sel: Selection)
    requires n <= |q.queued|
  {
    forall f :: TailRebuilt(q, flows, f, n, now, sel)
  }

  lemma ReleaseStarts(heap: set<Entry>, pids: map<Option<nat>, Usage>, flows: map<FlowKey, FlowState>, usage: Usage,
                      q: Queue, now: nat, sel: Selection)
    requires Represents(heap, pids, flows, usage, q)
    ensures TailsRebuilt(q, map g | g in flows :: flows[g].(tail := flows[g].inFlightTail), 0, now, sel)
  {
    var cleared := map g | g in flows :: flows[g].(tail := flows[g].inFlightTail);
    forall f ensures TailRebuilt(q, cleared, f, 0, now, sel) {
      assert FlowAgrees(q, flows, f);
    }
  }

  lemma ReleaseStep(q: Queue, flows: map<FlowKey, FlowState>, i: nat, now: nat, sel: Selection)
    requires i < |q.queued|
    requires TailsRebuilt(q, flows, i, now, sel)
    ensures q.queued[i].packet.flow in flows
    ensures var e := q.queued[i];
      var flow := flows[e.packet.flow];
      var due := AfterTail(flow.tail, Wish(e, now, sel));
      && Release(q, now, sel).queued[i] == e.(deadline := due)
      && TailsRebuilt(q, flows[e.packet.flow := flow.(tail := Some(due))], i + 1, now, sel)
  {
    var e := q.queued[i];
    FlowPresent(q, i);
    assert TailRebuilt(q, flows, e.packet.flow, i, now, sel);
    assert q.queued[..i + 1][..i] == q.queued[..i];
    assert Release(q, now, sel).queued[i] == Released(q, i, now, sel);
    var flow := flows[e.packet.flow];
    var flows' := flows[e.packet.flow := flow.(tail := Some(AfterTail(flow.tail, Wish(e, now, sel))))];
    var n := i + 1;
    forall f ensures TailRebuilt(q, flows', f, n, now, sel) {
      assert TailRebuilt(q, flows, f, i, now, sel);
    }
  }

  lemma ReleaseRepresents(heap: set<Entry>, pids: map<Option<nat>, Usage>, flows: map<FlowKey, FlowState>,
                          flows': map<FlowKey, FlowState>, usage: Usage, q: Queue, now: nat, sel: Selection)
    requires Represents(heap, pids, flows, usage, q)
    requires TailsRebuilt(q, flows', |q.queued|, now, sel)
    ensures Represents(Elements(Release(q, now, sel).queued), pids, flows', usage, Release(q, now, sel))
  {
    ReleaseKeeps(q, now, sel);
    ReleaseAccounted(q, now, sel, pids, flows, flows', usage);
  }

  lemma ReleaseAccounted(q: Queue, now: nat, sel: Selection, pids: map<Option<nat>, Usage>,
                         flows: map<FlowKey, FlowState>, flows': map<FlowKey, FlowState>, usage: Usage)
    requires Ordered(q) && Accounted(q, pids, flows, usage)
    requires TailsRebuilt(q, flows', |q.queued|, now, sel)
    ensures Accounted(Release(q, now, sel), pids, flows', usage)
  {
    var r := Release(q, now, sel);
    ReleaseKeepsPackets(q, now, sel);
    forall w: Weight ensures Load(w, r) == Load(w, q) { TotalSamePackets(w, q.queued, r.queued); }
    assert Load(Ones(), r) == Load(Ones(), q) && Load(Sizes(), r) == Load(Sizes(), q);
    forall pid ensures PidAgrees(r, pids, pid) {
      assert PidAgrees(q, pids, pid);
      assert Load(PidOnes(pid), r) == Load(PidOnes(pid), q) && Load(PidSizes(pid), r) == Load(PidSizes(pid), q);
    }
    assert r.queued[..|q.queued|] == r.queued;
    forall f ensures FlowAgrees(r, flows', f) {
      assert FlowAgrees(q, flows, f);
      assert TailRebuilt(q, flows', f, |q.queued|, now, sel);
      assert Load(FlowOnes(f), r) == Load(FlowOnes(f), q);
      ReleaseTail(q, now, sel, f, |q.queued|);
    }
  }
}
