/** What every queue operation keeps, and what a whole sequence of operations guarantees. */
module QueueFacts {
  import opened Core
  import opened Packet
  import opened QueueModel

  // ---------------------------------------------------------------- recounts

  lemma TotalAppend(w: Weight, entries: seq<Entry>, e: Entry)
    ensures Total(w, entries + [e]) == Total(w, entries) + w(e.packet)
  {
    assert (entries + [e])[..|entries|] == entries;
  }

  lemma {:induction false} TotalRemove(w: Weight, entries: seq<Entry>, i: nat)
    requires i < |entries|
    ensures Total(w, Remove(entries, i)) == Total(w, entries) - w(entries[i].packet)
  {
    var n := |entries| - 1;
    if i == n {
      assert Remove(entries, i) == entries[..n];
    } else {
      TotalRemove(w, entries[..n], i);
      assert Remove(entries, i) == Remove(entries[..n], i) + [entries[n]];
      TotalAppend(w, Remove(entries[..n], i), entries[n]);
    }
  }

  ghost predicate SamePackets(a: seq<Entry>, b: seq<Entry>) {
    |a| == |b| && forall i :: 0 <= i < |a| ==> a[i].packet == b[i].packet
  }

  lemma {:induction false} TotalSamePackets(w: Weight, a: seq<Entry>, b: seq<Entry>)
    requires SamePackets(a, b)
    ensures Total(w, a) == Total(w, b)
  {
    if a != [] {
      TotalSamePackets(w, a[..|a| - 1], b[..|b| - 1]);
    }
  }

  lemma {:induction false} FlowTotalPositive(entries: seq<Entry>, flow: FlowKey)
    ensures Total(FlowOnes(flow), entries) > 0 <==> exists i :: 0 <= i < |entries| && entries[i].packet.flow == flow
    ensures LastDeadline(entries, flow).Some? <==> Total(FlowOnes(flow), entries) > 0
  {
    if entries != [] {
      var n := |entries| - 1;
      FlowTotalPositive(entries[..n], flow);
      assert forall i :: 0 <= i < n ==> entries[..n][i] == entries[i];
      if i :| 0 <= i < n && entries[i].packet.flow == flow {
        assert entries[..n][i].packet.flow == flow;
      }
    }
  }

  // ---------------------------------------------------------------- order

  ghost predicate Sequenced(entries: seq<Entry>, bound: nat) {
    && (forall i, j :: 0 <= i < j < |entries| ==> entries[i].sequence < entries[j].sequence)
    && (forall i :: 0 <= i < |entries| ==> entries[i].sequence < bound)
  }

  /** Within a flow, later packets never have earlier deadlines. */
  ghost predicate FlowSorted(entries: seq<Entry>) {
    forall i, j :: 0 <= i < j < |entries| && entries[i].packet.flow == entries[j].packet.flow
      ==> entries[i].deadline <= entries[j].deadline
  }

  ghost predicate AfterInFlight(q: Queue) {
    forall i :: 0 <= i < |q.queued| && q.queued[i].packet.flow in q.inFlightTail
      ==> q.inFlightTail[q.queued[i].packet.flow] <= q.queued[i].deadline
  }

  ghost predicate TailsMatch(q: Queue) {
    forall f :: f in q.inFlightTail <==> Total(FlowOnes(f), q.inFlight) > 0
  }

  ghost predicate Ordered(q: Queue) {
    && Sequenced(q.queued, q.nextSequence)
    && FlowSorted(q.queued)
    && AfterInFlight(q)
    && TailsMatch(q)
  }

  /** Popped packets were due by `clock`. */
  ghost predicate TailsPast(q: Queue, clock: nat) {
    forall f :: f in q.inFlightTail ==> q.inFlightTail[f] <= clock
  }

  /** All four quotas hold, for every process. */
  ghost predicate WithinLimits(q: Queue) {
    && Load(Ones(), q) <= q.limits.packets
    && Load(Sizes(), q) <= q.limits.bytes
    && (forall pid :: Load(PidOnes(pid), q) <= q.limits.pidPackets)
    && (forall pid :: Load(PidSizes(pid), q) <= q.limits.pidBytes)
  }

  /** The shape every reachable queue has; `clock` is an upper bound on every `pop_due` time. */
  ghost predicate Valid(q: Queue, clock: nat) {
    Ordered(q) && WithinLimits(q) && TailsPast(q, clock)
  }

  lemma EmptyValid(limits: Limits, clock: nat)
    ensures Valid(Empty(limits), clock)
  {
  }

  lemma LaterClock(q: Queue, clock: nat, later: nat)
    requires Valid(q, clock) && clock <= later
    ensures Valid(q, later)
  {
  }

  lemma {:induction false} LeastIndexIsLeast(entries: seq<Entry>)
    requires entries != []
    requires forall i, j :: 0 <= i < j < |entries| ==> entries[i].sequence != entries[j].sequence
    ensures Least(entries, LeastIndex(entries))
  {
    if |entries| > 1 {
      var n := |entries| - 1;
      var init := entries[..n];
      LeastIndexIsLeast(init);
      var i := LeastIndex(init);
      assert forall j :: 0 <= j < n ==> init[j] == entries[j];
      forall j | 0 <= j < |entries| && j != LeastIndex(entries)
        ensures Before(entries[LeastIndex(entries)], entries[j])
      {
        if j < n && j != i {
          assert Before(init[i], init[j]);
        }
      }
    }
  }

  /** The tail bounds every queued deadline of the flow from above, the in-flight tail from below. */
  lemma {:induction false} TailBounds(entries: seq<Entry>, flow: FlowKey, i: nat)
    requires FlowSorted(entries)
    requires i < |entries| && entries[i].packet.flow == flow
    ensures LastDeadline(entries, flow).Some? && entries[i].deadline <= LastDeadline(entries, flow).value
  {
    var n := |entries| - 1;
    if entries[n].packet.flow != flow {
      assert entries[..n][i] == entries[i];
      TailBounds(entries[..n], flow, i);
    }
  }

  /** The new entry is not due before the flow's tail. */
  lemma EnqueueIsLast(q: Queue, p: PendingPacket, deadline: nat, i: nat)
    requires FlowSorted(q.queued) && Admits(q, p) && i < |q.queued| && q.queued[i].packet.flow == p.flow
    ensures q.queued[i].deadline <= Enqueue(q, p, deadline).queued[|q.queued|].deadline
  {
    TailBounds(q.queued, p.flow, i);
    hide Admits;
  }

  lemma EnqueueAfterFlight(q: Queue, p: PendingPacket, deadline: nat)
    requires FlowSorted(q.queued) && AfterInFlight(q) && Admits(q, p) && p.flow in q.inFlightTail
    ensures q.inFlightTail[p.flow] <= Enqueue(q, p, deadline).queued[|q.queued|].deadline
  {
    FlowTotalPositive(q.queued, p.flow);
    if LastDeadline(q.queued, p.flow).Some? {
      var i :| 0 <= i < |q.queued| && q.queued[i].packet.flow == p.flow;
      EnqueueIsLast(q, p, deadline, i);
    }
    hide Admits;
  }

  lemma EnqueueKeepsOrder(q: Queue, p: PendingPacket, deadline: nat)
    requires Ordered(q)
    ensures Ordered(Enqueue(q, p, deadline))
  {
    var r := Enqueue(q, p, deadline);
    if Admits(q, p) {
      var n := |q.queued|;
      assert r.queued == q.queued + [r.queued[n]] && r.queued[n].packet == p && r.queued[n].sequence == q.nextSequence;
      forall i | 0 <= i < n && q.queued[i].packet.flow == p.flow
        ensures q.queued[i].deadline <= r.queued[n].deadline
      {
        EnqueueIsLast(q, p, deadline, i);
      }
      if p.flow in q.inFlightTail { EnqueueAfterFlight(q, p, deadline); }
      hide Admits, Enqueue;
    }
  }

  lemma EnqueueLoad(q: Queue, p: PendingPacket, deadline: nat, w: Weight)
    ensures Load(w, Enqueue(q, p, deadline)) == Load(w, q) + if Admits(q, p) then w(p) else 0
  {
    if Admits(q, p) {
      var e := Enqueue(q, p, deadline).queued[|q.queued|];
      TotalAppend(w, q.queued, e);
    }
  }

  lemma EnqueueKeepsLimits(q: Queue, p: PendingPacket, deadline: nat)
    requires WithinLimits(q)
    ensures WithinLimits(Enqueue(q, p, deadline))
  {
    var r := Enqueue(q, p, deadline);
    EnqueueLoad(q, p, deadline, Ones());
    EnqueueLoad(q, p, deadline, Sizes());
    forall pid ensures Load(PidOnes(pid), r) <= q.limits.pidPackets {
      EnqueueLoad(q, p, deadline, PidOnes(pid));
    }
    forall pid ensures Load(PidSizes(pid), r) <= q.limits.pidBytes {
      EnqueueLoad(q, p, deadline, PidSizes(pid));
    }
  }

  lemma EnqueueValid(q: Queue, p: PendingPacket, deadline: nat, clock: nat)
    requires Valid(q, clock)
    ensures Valid(Enqueue(q, p, deadline), clock)
  {
    EnqueueKeepsOrder(q, p, deadline);
    EnqueueKeepsLimits(q, p, deadline);
  }

  /** A queue operation that moves packets around without adding any keeps the quotas. */
  lemma SameLoadKeepsLimits(q: Queue, r: Queue)
    requires WithinLimits(q) && r.limits == q.limits
    requires forall w: Weight :: Load(w, r) <= Load(w, q)
    ensures WithinLimits(r)
  {
    forall pid ensures Load(PidOnes(pid), r) <= q.limits.pidPackets {
      assert Load(PidOnes(pid), r) <= Load(PidOnes(pid), q);
    }
    forall pid ensures Load(PidSizes(pid), r) <= q.limits.pidBytes {
      assert Load(PidSizes(pid), r) <= Load(PidSizes(pid), q);
    }
  }

  lemma DueIsLeast(q: Queue, now: nat)
    requires Sequenced(q.queued, q.nextSequence)
    ensures Due(q, now).Some? <==> exists i :: 0 <= i < |q.queued| && q.queued[i].deadline <= now
    ensures Due(q, now).Some? ==>
      && var i := LeastIndex(q.queued);
      && Least(q.queued, i) && Due(q, now).value == q.queued[i] && q.queued[i].deadline <= now
  {
    if q.queued != [] {
      LeastIndexIsLeast(q.queued);
      var i := LeastIndex(q.queued);
      if j :| 0 <= j < |q.queued| && q.queued[j].deadline <= now {
        assert j == i || Before(q.queued[i], q.queued[j]);
      }
    }
  }

  lemma PopLoad(q: Queue, now: nat, w: Weight)
    ensures Load(w, PopDue(q, now)) == Load(w, q)
  {
    if Due(q, now).Some? {
      var i := LeastIndex(q.queued);
      TotalRemove(w, q.queued, i);
      TotalAppend(w, q.inFlight, q.queued[i]);
    }
  }

  /** Popping takes the flow's first queued packet. */
  lemma PopTakesFlowHead(q: Queue, now: nat, k: nat)
    requires Sequenced(q.queued, q.nextSequence) && FlowSorted(q.queued)
    requires Due(q, now).Some?
    requires k < |q.queued| && q.queued[k].packet.flow == Due(q, now).value.packet.flow
    ensures LeastIndex(q.queued) <= k
  {
    DueIsLeast(q, now);
  }

  lemma RemoveAt<T>(s: seq<T>, i: nat, k: nat)
    requires i < |s| && k < |Remove(s, i)|
    ensures Remove(s, i)[k] == s[if k < i then k else k + 1]
  {
  }

  lemma PopFlowOrder(q: Queue, now: nat, k: nat)
    requires Sequenced(q.queued, q.nextSequence) && FlowSorted(q.queued) && Due(q, now).Some?
    requires k < |PopDue(q, now).queued|
    ensures var x := PopDue(q, now).queued[k];
      && x == q.queued[if k < LeastIndex(q.queued) then k else k + 1]
      && (x.packet.flow == Due(q, now).value.packet.flow ==> Due(q, now).value.deadline <= x.deadline)
  {
    var i := LeastIndex(q.queued);
    RemoveAt(q.queued, i, k);
    var at := if k < i then k else k + 1;
    if q.queued[at].packet.flow == Due(q, now).value.packet.flow { PopTakesFlowHead(q, now, at); }
  }

  lemma PopKeepsSequence(q: Queue, now: nat)
    requires Sequenced(q.queued, q.nextSequence) && FlowSorted(q.queued)
    ensures Sequenced(PopDue(q, now).queued, q.nextSequence) && FlowSorted(PopDue(q, now).queued)
  {
    var r := PopDue(q, now);
    if Due(q, now).Some? {
      forall k | 0 <= k < |r.queued|
        ensures r.queued[k] == q.queued[if k < LeastIndex(q.queued) then k else k + 1]
      {
        PopFlowOrder(q, now, k);
      }
    }
  }

  lemma PopKeepsOrder(q: Queue, now: nat)
    requires Ordered(q)
    ensures Ordered(PopDue(q, now))
    ensures forall f :: f in PopDue(q, now).inFlightTail ==>
      || PopDue(q, now).inFlightTail[f] <= now
      || (f in q.inFlightTail && PopDue(q, now).inFlightTail[f] == q.inFlightTail[f])
  {
    var r := PopDue(q, now);
    PopKeepsSequence(q, now);
    if Due(q, now).Some? {
      var e := Due(q, now).value;
      assert AfterInFlight(r) by {
        forall k | 0 <= k < |r.queued| && r.queued[k].packet.flow in r.inFlightTail
          ensures r.inFlightTail[r.queued[k].packet.flow] <= r.queued[k].deadline
        {
          PopFlowOrder(q, now, k);
        }
      }
      forall f ensures Total(FlowOnes(f), r.inFlight) == Total(FlowOnes(f), q.inFlight) + FlowOnes(f)(e.packet) {
        TotalAppend(FlowOnes(f), q.inFlight, e);
      }
    }
  }

  lemma PopKeepsLimits(q: Queue, now: nat)
    requires WithinLimits(q)
    ensures WithinLimits(PopDue(q, now))
  {
    forall w: Weight ensures Load(w, PopDue(q, now)) <= Load(w, q) { PopLoad(q, now, w); }
    SameLoadKeepsLimits(q, PopDue(q, now));
  }

  lemma PopValid(q: Queue, now: nat, clock: nat)
    requires Valid(q, clock) && clock <= now
    ensures Valid(PopDue(q, now), now)
  {
    PopKeepsOrder(q, now);
    PopKeepsLimits(q, now);
  }

  lemma FinishLoad(q: Queue, p: PendingPacket, w: Weight)
    requires IsInFlight(q, p)
    ensures Load(w, Finish(q, p)) == Load(w, q) - w(p)
    ensures Total(w, Finish(q, p).inFlight) == Total(w, q.inFlight) - w(p)
  {
    TotalRemove(w, q.inFlight, FirstIndex(q.inFlight, p));
  }

  lemma FinishKeeps(q: Queue, p: PendingPacket)
    requires Ordered(q) && WithinLimits(q) && IsInFlight(q, p)
    ensures Ordered(Finish(q, p)) && WithinLimits(Finish(q, p))
  {
    var r := Finish(q, p);
    forall f ensures Total(FlowOnes(f), r.inFlight) == Total(FlowOnes(f), q.inFlight) - FlowOnes(f)(p) {
      FinishLoad(q, p, FlowOnes(f));
    }
    forall w: Weight ensures Load(w, r) <= Load(w, q) { FinishLoad(q, p, w); }
    SameLoadKeepsLimits(q, r);
  }

  // ---------------------------------------------------------------- release_matching

  /** `d` is the greatest of `base` and the wishes of the flow's first `n` entries. */
  ghost predicate GreatestWish(entries: seq<Entry>, n: nat, flow: FlowKey, base: Option<nat>, now: nat,
        sel: Selection, d: nat)
    requires n <= |entries|
  {
    && (base.Some? ==> base.value <= d)
    && (forall j :: 0 <= j < n && entries[j].packet.flow == flow ==> Wish(entries[j], now, sel) <= d)
    && (base == Some(d) || exists j :: 0 <= j < n && entries[j].packet.flow == flow && Wish(entries[j], now, sel) == d)
  }

  lemma {:induction false} LatestWishIsGreatest(entries: seq<Entry>, n: nat, flow: FlowKey, base: Option<nat>,
        now: nat, sel: Selection)
    requires n <= |entries|
    ensures var r := LatestWish(entries[..n], flow, base, now, sel);
      && (r.Some? <==> base.Some? || exists j :: 0 <= j < n && entries[j].packet.flow == flow)
      && (r.Some? ==> GreatestWish(entries, n, flow, base, now, sel, r.value))
  {
    if n > 0 {
      assert entries[..n][..n - 1] == entries[..n - 1];
      LatestWishIsGreatest(entries, n - 1, flow, base, now, sel);
      var before := LatestWish(entries[..n - 1], flow, base, now, sel);
      if entries[n - 1].packet.flow == flow {
        var d := LatestWish(entries[..n], flow, base, now, sel).value;
        if d == Wish(entries[n - 1], now, sel) {
        } else {
          assert before == Some(d);
        }
      }
    }
  }

  /**
   The closed form of `release_matching`: every new deadline is the greatest of the flow's in-flight
   tail and, over the packet and its queued predecessors in the flow, `now` for the selected ones
   and the old deadline for the others. Packets, sequence numbers and positions do not change.
   */
  lemma ReleaseClosedForm(q: Queue, now: nat, sel: Selection, i: nat)
    requires i < |q.queued|
    ensures var e := q.queued[i];
      var r := Release(q, now, sel).queued[i];
      && r.packet == e.packet && r.sequence == e.sequence
      && GreatestWish(q.queued, i + 1, e.packet.flow, InFlightTail(q, e.packet.flow), now, sel, r.deadline)
  {
    var e := q.queued[i];
    LatestWishIsGreatest(q.queued, i + 1, e.packet.flow, InFlightTail(q, e.packet.flow), now, sel);
    assert q.queued[i].packet.flow == e.packet.flow;
  }

  lemma ReleaseKeepsPackets(q: Queue, now: nat, sel: Selection)
    ensures SamePackets(q.queued, Release(q, now, sel).queued)
    ensures forall i :: 0 <= i < |q.queued| ==> Release(q, now, sel).queued[i].sequence == q.queued[i].sequence
  {
    forall i | 0 <= i < |q.queued|
      ensures q.queued[i].packet == Release(q, now, sel).queued[i].packet
      ensures q.queued[i].sequence == Release(q, now, sel).queued[i].sequence
    {
      ReleaseClosedForm(q, now, sel, i);
    }
  }

  lemma ReleaseKeepsOrder(q: Queue, now: nat, sel: Selection)
    requires Ordered(q)
    ensures Ordered(Release(q, now, sel))
  {
    var r := Release(q, now, sel);
    ReleaseKeepsPackets(q, now, sel);
    forall i | 0 <= i < |q.queued|
      ensures GreatestWish(q.queued, i + 1, q.queued[i].packet.flow, InFlightTail(q, q.queued[i].packet.flow),
        now, sel, r.queued[i].deadline)
    {
      ReleaseClosedForm(q, now, sel, i);
    }
    assert r.inFlight == q.inFlight && r.inFlightTail == q.inFlightTail && r.nextSequence == q.nextSequence;
    hide Release;
  }

  lemma ReleaseKeepsLimits(q: Queue, now: nat, sel: Selection)
    requires WithinLimits(q)
    ensures WithinLimits(Release(q, now, sel))
  {
    var r := Release(q, now, sel);
    assert r.inFlight == q.inFlight && r.limits == q.limits;
    hide Release, WithinLimits;
    ReleaseKeepsPackets(q, now, sel);
    forall w: Weight ensures Load(w, r) <= Load(w, q) { TotalSamePackets(w, q.queued, r.queued); }
    SameLoadKeepsLimits(q, r);
  }

  lemma ReleaseKeeps(q: Queue, now: nat, sel: Selection)
    requires Ordered(q) && WithinLimits(q)
    ensures Ordered(Release(q, now, sel)) && WithinLimits(Release(q, now, sel))
  {
    hide *;
    ReleaseKeepsOrder(q, now, sel);
    ReleaseKeepsLimits(q, now, sel);
  }

  /**
   A release never delays a packet beyond `now` or its old deadline. An unselected packet that is
   not overdue keeps its deadline exactly; an overdue one may be raised, but never past `now`.
   */
  lemma ReleaseBounds(q: Queue, now: nat, sel: Selection, clock: nat, i: nat)
    requires Ordered(q) && TailsPast(q, clock) && clock <= now && i < |q.queued|
    ensures Release(q, now, sel).queued[i].deadline <= Max(q.queued[i].deadline, now)
    ensures !sel(q.queued[i].packet) ==> q.queued[i].deadline <= Release(q, now, sel).queued[i].deadline
    ensures !sel(q.queued[i].packet) && now <= q.queued[i].deadline
      ==> Release(q, now, sel).queued[i].deadline == q.queued[i].deadline
  {
    ReleaseClosedForm(q, now, sel, i);
  }

  /** A selected packet of the same flow is queued before position `i`. */
  ghost predicate SelectedAhead(q: Queue, sel: Selection, i: nat)
    requires i < |q.queued|
  {
    exists j :: 0 <= j < i && q.queued[j].packet.flow == q.queued[i].packet.flow && sel(q.queued[j].packet)
  }

  /**
   An unselected packet keeps its deadline exactly unless it is overdue behind a selected packet of its
   flow; then its deadline becomes `now`.
   */
  lemma ReleaseRetainsExactly(q: Queue, now: nat, sel: Selection, clock: nat, i: nat)
    requires Ordered(q) && TailsPast(q, clock) && clock <= now && i < |q.queued| && !sel(q.queued[i].packet)
    ensures var before, after := q.queued[i].deadline, Release(q, now, sel).queued[i].deadline;
      && (after == before <==> now <= before || !SelectedAhead(q, sel, i))
      && (after != before ==> after == now)
  {
    ReleaseClosedForm(q, now, sel, i);
    ReleaseBounds(q, now, sel, clock, i);
  }

  /**
   A release puts an overdue packet it selects behind every packet it does not select, provided that
   one was due before the release and follows no selected packet of its flow.
   */
  lemma ReleasePutsOff(q: Queue, now: nat, sel: Selection, clock: nat, i: nat, j: nat)
    requires Ordered(q) && TailsPast(q, clock) && clock <= now && i < |q.queued| && j < |q.queued|
    requires sel(q.queued[i].packet) && !sel(q.queued[j].packet) && !SelectedAhead(q, sel, j)
    requires q.queued[j].deadline < now
    ensures Before(Release(q, now, sel).queued[j], Release(q, now, sel).queued[i])
  {
    ReleaseRetainsExactly(q, now, sel, clock, j);
    ReleaseClosedForm(q, now, sel, i);
    assert Wish(q.queued[i], now, sel) == now;
  }

  /** Selecting everything makes everything due. */
  lemma ReleaseAllIsDue(q: Queue, now: nat, clock: nat, sel: Selection, i: nat)
    requires Ordered(q) && TailsPast(q, clock) && clock <= now && i < |q.queued|
    requires forall p :: sel(p)
    ensures Release(q, now, sel).queued[i].deadline == now
  {
    ReleaseClosedForm(q, now, sel, i);
  }
}
