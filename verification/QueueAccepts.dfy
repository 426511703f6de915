/**
 What the delay queue accepts and where it puts it, in terms of what is queued and in flight: packets
 and bytes are counted by listing them.
 */
module QueueAccepts {
  import opened Core
  import opened Packet
  import opened QueueModel
  import opened QueueFacts

  /** The packets that occupy capacity, queued ones first. */
  function Held(q: Queue): seq<PendingPacket> {
    seq(|q.queued| + |q.inFlight|, i requires 0 <= i < |q.queued| + |q.inFlight| =>
      if i < |q.queued| then q.queued[i].packet else q.inFlight[i - |q.queued|].packet)
  }

  /** Those attributed to `pid`, in the same order; `None` stands for packets without a process. */
  function HeldBy(packets: seq<PendingPacket>, pid: Option<nat>): seq<PendingPacket> {
    if packets == [] then []
    else
      var last := packets[|packets| - 1];
      HeldBy(packets[..|packets| - 1], pid) + if last.pid == pid then [last] else []
  }

  function Bytes(packets: seq<PendingPacket>): nat {
    if packets == [] then 0 else Bytes(packets[..|packets| - 1]) + |packets[|packets| - 1].bytes|
  }

  function Packets(entries: seq<Entry>): seq<PendingPacket> {
    seq(|entries|, i requires 0 <= i < |entries| => entries[i].packet)
  }

  lemma {:induction false} TotalsAreCounts(entries: seq<Entry>, pid: Option<nat>)
    ensures Total(Ones(), entries) == |entries|
    ensures Total(Sizes(), entries) == Bytes(Packets(entries))
    ensures Total(PidOnes(pid), entries) == |HeldBy(Packets(entries), pid)|
    ensures Total(PidSizes(pid), entries) == Bytes(HeldBy(Packets(entries), pid))
  {
    if entries != [] {
      var n := |entries| - 1;
      TotalsAreCounts(entries[..n], pid);
      assert Packets(entries)[..n] == Packets(entries[..n]);
      BytesConcat(HeldBy(Packets(entries[..n]), pid), if entries[n].packet.pid == pid then [entries[n].packet] else []);
      assert [entries[n].packet][..0] == [];
    }
  }

  lemma {:induction false} BytesConcat(a: seq<PendingPacket>, b: seq<PendingPacket>)
    ensures Bytes(a + b) == Bytes(a) + Bytes(b)
  {
    if b == [] {
      assert a + b == a;
    } else {
      assert (a + b)[..|a + b| - 1] == a + b[..|b| - 1];
      BytesConcat(a, b[..|b| - 1]);
    }
  }

  lemma {:induction false} HeldByConcat(a: seq<PendingPacket>, b: seq<PendingPacket>, pid: Option<nat>)
    ensures HeldBy(a + b, pid) == HeldBy(a, pid) + HeldBy(b, pid)
  {
    if b == [] {
      assert a + b == a;
    } else {
      assert (a + b)[..|a + b| - 1] == a + b[..|b| - 1];
      HeldByConcat(a, b[..|b| - 1], pid);
    }
  }

  lemma HeldIs(q: Queue)
    ensures Held(q) == Packets(q.queued) + Packets(q.inFlight)
    ensures |Held(q)| == |q.queued| + |q.inFlight|
  {
  }

  /** The four totals the quotas bound: packets and bytes of everybody and of one process. */
  lemma LoadsAreCounts(q: Queue, pid: Option<nat>)
    ensures Load(Ones(), q) == |Held(q)|
    ensures Load(Sizes(), q) == Bytes(Held(q))
    ensures Load(PidOnes(pid), q) == |HeldBy(Held(q), pid)|
    ensures Load(PidSizes(pid), q) == Bytes(HeldBy(Held(q), pid))
  {
    hide Total, Bytes, HeldBy, Held, Packets, Ones, Sizes, PidOnes, PidSizes;
    TotalsAreCounts(q.queued, pid);
    TotalsAreCounts(q.inFlight, pid);
    HeldIs(q);
    BytesConcat(Packets(q.queued), Packets(q.inFlight));
    HeldByConcat(Packets(q.queued), Packets(q.inFlight), pid);
    BytesConcat(HeldBy(Packets(q.queued), pid), HeldBy(Packets(q.inFlight), pid));
  }

  /** The packet would take one of the four totals past its quota. */
  ghost predicate Exceeds(q: Queue, p: PendingPacket) {
    || |Held(q)| + 1 > q.limits.packets
    || Bytes(Held(q)) + |p.bytes| > q.limits.bytes
    || |HeldBy(Held(q), p.pid)| + 1 > q.limits.pidPackets
    || Bytes(HeldBy(Held(q), p.pid)) + |p.bytes| > q.limits.pidBytes
  }

  /** A packet is turned away exactly if a quota of everybody or of its own process leaves no room for it. */
  lemma RejectedByQuota(q: Queue, p: PendingPacket, deadline: nat)
    ensures Enqueue(q, p, deadline) == q <==> Exceeds(q, p)
    ensures Enqueue(q, p, deadline) != q ==> |Enqueue(q, p, deadline).queued| == |q.queued| + 1
  {
    LoadsAreCounts(q, p.pid);
  }

  lemma AppendedLoad(q: Queue, e: Entry, w: Weight)
    ensures Load(w, q.(queued := q.queued + [e])) == Load(w, q) + w(e.packet)
  {
    TotalAppend(w, q.queued, e);
  }

  lemma AppendedWithin(q: Queue, e: Entry)
    requires WithinLimits(q)
    ensures WithinLimits(q.(queued := q.queued + [e])) <==> Admits(q, e.packet)
  {
    var r := q.(queued := q.queued + [e]);
    AppendedLoad(q, e, Ones());
    AppendedLoad(q, e, Sizes());
    AppendedLoad(q, e, PidOnes(e.packet.pid));
    AppendedLoad(q, e, PidSizes(e.packet.pid));
    forall pid
      ensures Load(PidOnes(pid), r) == Load(PidOnes(pid), q) + if e.packet.pid == pid then 1 else 0
      ensures Load(PidSizes(pid), r) == Load(PidSizes(pid), q) + if e.packet.pid == pid then |e.packet.bytes| else 0
    {
      AppendedLoad(q, e, PidOnes(pid));
      AppendedLoad(q, e, PidSizes(pid));
    }
  }

  /** For a queue within its quotas: a packet is accepted exactly if the queue with it is within them too. */
  lemma AcceptsExactly(q: Queue, p: PendingPacket, deadline: nat, e: Entry)
    requires WithinLimits(q) && e.packet == p
    ensures Enqueue(q, p, deadline) != q <==> WithinLimits(q.(queued := q.queued + [e]))
  {
    AppendedWithin(q, e);
    RejectedByQuota(q, p, deadline);
    LoadsAreCounts(q, p.pid);
    hide WithinLimits;
  }

  /** A packet whose own process holds nothing is turned away only for want of room for everybody. */
  lemma OwnShareIsOwn(q: Queue, p: PendingPacket, deadline: nat)
    requires HeldBy(Held(q), p.pid) == [] && 1 <= q.limits.pidPackets && |p.bytes| <= q.limits.pidBytes
    ensures Enqueue(q, p, deadline) == q <==>
      |Held(q)| >= q.limits.packets || Bytes(Held(q)) + |p.bytes| > q.limits.bytes
  {
    RejectedByQuota(q, p, deadline);
  }

  // ---------------------------------------------------------------- the place of an accepted packet

  /** The deadlines a new packet of the flow must not undercut. */
  ghost predicate HoldsBack(q: Queue, flow: FlowKey, d: nat) {
    || (exists i :: 0 <= i < |q.queued| && q.queued[i].packet.flow == flow && q.queued[i].deadline == d)
    || (flow in q.inFlightTail && q.inFlightTail[flow] == d)
  }

  lemma {:induction false} LastDeadlineIsQueued(entries: seq<Entry>, flow: FlowKey)
    ensures var last := LastDeadline(entries, flow);
      && (last.Some? ==> exists i ::
            0 <= i < |entries| && entries[i].packet.flow == flow && entries[i].deadline == last.value)
      && (last.None? ==> forall i :: 0 <= i < |entries| ==> entries[i].packet.flow != flow)
  {
    if entries != [] && entries[|entries| - 1].packet.flow != flow {
      var n := |entries| - 1;
      LastDeadlineIsQueued(entries[..n], flow);
      assert forall i :: 0 <= i < n ==> entries[..n][i] == entries[i];
    }
  }

  /**
   `r` is `q` with the packet at the end of the capture order and everything else as it was. Its deadline
   is the greatest of the one wanted and those of its flow that are queued or in flight.
   */
  ghost predicate Joins(q: Queue, r: Queue, p: PendingPacket, wanted: nat) {
    && |r.queued| == |q.queued| + 1
    && var e := r.queued[|q.queued|];
      && r == q.(queued := q.queued + [e], nextSequence := q.nextSequence + 1)
      && e.packet == p && e.sequence == q.nextSequence
      && wanted <= e.deadline
      && (forall d: nat :: HoldsBack(q, p.flow, d) ==> d <= e.deadline)
      && (e.deadline == wanted || HoldsBack(q, p.flow, e.deadline))
  }

  /** Where an accepted packet goes. */
  lemma EnqueuedExactly(q: Queue, p: PendingPacket, deadline: nat)
    requires Ordered(q) && !Exceeds(q, p)
    ensures Joins(q, Enqueue(q, p, deadline), p, deadline)
  {
    RejectedByQuota(q, p, deadline);
    var r := Enqueue(q, p, deadline);
    var e := r.queued[|q.queued|];
    LastDeadlineIsQueued(q.queued, p.flow);
    forall d: nat | HoldsBack(q, p.flow, d) ensures d <= e.deadline {
      if i :| 0 <= i < |q.queued| && q.queued[i].packet.flow == p.flow && q.queued[i].deadline == d {
        EnqueueIsLast(q, p, deadline, i);
      } else {
        EnqueueAfterFlight(q, p, deadline);
      }
    }
    hide Admits;
  }
}
