/**
 The delay queue as a value: what is queued (in capture order), what has been popped but not yet
 finished, and the per-flow deadline of the last popped packet. Every counter the running code
 keeps is absent here and recomputed from the packets, so that `DelayQueue` is proved against a
 recount.
 */
module QueueModel {
  import opened Core
  import opened Packet

  /** Capture metadata travelling with a packet; `capture` is its index in the capture stream. */
  datatype Address = Address(capture: nat, outbound: bool, loopback: bool, ipv6: bool)

  datatype PendingPacket = PendingPacket(
    bytes: seq<Byte>,
    address: Address,
    pid: Option<nat>,
    direction: Direction,
    chargeLen: nat,
    flow: FlowKey)

  datatype Entry = Entry(packet: PendingPacket, deadline: nat, sequence: nat)

  datatype Limits = Limits(bytes: nat, packets: nat, pidBytes: nat, pidPackets: nat)

  const DEFAULT_LIMITS := Limits(64 * 1024 * 1024, 16384, 8 * 1024 * 1024, 4096)

  datatype Queue = Queue(
    queued: seq<Entry>,
    inFlight: seq<Entry>,
    inFlightTail: map<FlowKey, nat>,
    nextSequence: nat,
    limits: Limits)

  function Empty(limits: Limits): Queue {
    Queue([], [], map[], 0, limits)
  }

  // ---------------------------------------------------------------- recounts

  type Weight = PendingPacket -> nat

  function Ones(): Weight { (p: PendingPacket) => 1 }
  function Sizes(): Weight { (p: PendingPacket) => |p.bytes| }
  function PidOnes(pid: Option<nat>): Weight { (p: PendingPacket) => if p.pid == pid then 1 else 0 }
  function PidSizes(pid: Option<nat>): Weight { (p: PendingPacket) => if p.pid == pid then |p.bytes| else 0 }
  function FlowOnes(flow: FlowKey): Weight { (p: PendingPacket) => if p.flow == flow then 1 else 0 }

  function Total(w: Weight, entries: seq<Entry>): nat {
    if entries == [] then 0 else Total(w, entries[..|entries| - 1]) + w(entries[|entries| - 1].packet)
  }

  /** Everything that still occupies capacity: queued plus popped-but-unfinished. */
  function Load(w: Weight, q: Queue): nat {
    Total(w, q.queued) + Total(w, q.inFlight)
  }

  function HasFlow(q: Queue, flow: FlowKey): bool {
    Load(FlowOnes(flow), q) > 0
  }

  // ---------------------------------------------------------------- operations

  predicate Before(a: Entry, b: Entry) {
    a.deadline < b.deadline || (a.deadline == b.deadline && a.sequence < b.sequence)
  }

  predicate Least(entries: seq<Entry>, i: nat) {
    i < |entries| && forall j :: 0 <= j < |entries| && j != i ==> Before(entries[i], entries[j])
  }

  function Remove<T>(s: seq<T>, i: nat): seq<T>
    requires i < |s|
  {
    s[..i] + s[i + 1..]
  }

  /** The deadline of the flow's last queued packet. */
  function LastDeadline(entries: seq<Entry>, flow: FlowKey): Option<nat> {
    if entries == [] then None
    else
      var last := entries[|entries| - 1];
      if last.packet.flow == flow then Some(last.deadline)
      else LastDeadline(entries[..|entries| - 1], flow)
  }

  function InFlightTail(q: Queue, flow: FlowKey): Option<nat> {
    if flow in q.inFlightTail then Some(q.inFlightTail[flow]) else None
  }

  function Tail(q: Queue, flow: FlowKey): Option<nat> {
    match LastDeadline(q.queued, flow)
    case Some(d) => Some(d)
    case None => InFlightTail(q, flow)
  }

  /** All four quotas leave room for the packet. */
  predicate Admits(q: Queue, p: PendingPacket) {
    && Load(Ones(), q) < q.limits.packets
    && Load(Sizes(), q) + |p.bytes| <= q.limits.bytes
    && Load(PidOnes(p.pid), q) < q.limits.pidPackets
    && Load(PidSizes(p.pid), q) + |p.bytes| <= q.limits.pidBytes
  }

  function AfterTail(tail: Option<nat>, deadline: nat): nat {
    match tail
    case None => deadline
    case Some(t) => Max(t, deadline)
  }

  function Enqueue(q: Queue, p: PendingPacket, deadline: nat): Queue {
    if !Admits(q, p) then q
    else
      var e := Entry(p, AfterTail(Tail(q, p.flow), deadline), q.nextSequence);
      q.(queued := q.queued + [e], nextSequence := q.nextSequence + 1)
  }

  /** The position of the least entry under (deadline, sequence). */
  function LeastIndex(entries: seq<Entry>): (i: nat)
    requires entries != []
    ensures i < |entries|
  {
    if |entries| == 1 then 0
    else
      var i := LeastIndex(entries[..|entries| - 1]);
      if Before(entries[|entries| - 1], entries[i]) then |entries| - 1 else i
  }

  /** The entry `pop_due` hands out at time `now`, if any. */
  function Due(q: Queue, now: nat): Option<Entry> {
    if q.queued == [] then None
    else
      var e := q.queued[LeastIndex(q.queued)];
      if e.deadline > now then None else Some(e)
  }

  function PopDue(q: Queue, now: nat): Queue {
    if Due(q, now).None? then q
    else
      var i := LeastIndex(q.queued);
      var e := q.queued[i];
      q.(queued := Remove(q.queued, i),
         inFlight := q.inFlight + [e],
         inFlightTail := q.inFlightTail[e.packet.flow := e.deadline])
  }

  /** The first position holding the packet, or the length when there is none. */
  function FirstIndex(entries: seq<Entry>, p: PendingPacket): (i: nat)
    ensures i <= |entries|
    ensures i < |entries| ==> entries[i].packet == p
    ensures forall k :: 0 <= k < i ==> entries[k].packet != p
  {
    if entries == [] || entries[0].packet == p then 0 else 1 + FirstIndex(entries[1..], p)
  }

  predicate IsInFlight(q: Queue, p: PendingPacket) {
    FirstIndex(q.inFlight, p) < |q.inFlight|
  }

  function Finish(q: Queue, p: PendingPacket): Queue
    requires IsInFlight(q, p)
  {
    var rest := Remove(q.inFlight, FirstIndex(q.inFlight, p));
    q.(inFlight := rest,
       inFlightTail := if Total(FlowOnes(p.flow), rest) == 0 then q.inFlightTail - {p.flow} else q.inFlightTail)
  }

  type Selection = PendingPacket -> bool

  /** The deadline a packet brings to `release_matching`, before ordering is restored. */
  function Wish(e: Entry, now: nat, sel: Selection): nat {
    if sel(e.packet) then now else e.deadline
  }

  /** The latest wish of the flow among the entries, starting from `base`. */
  function LatestWish(entries: seq<Entry>, flow: FlowKey, base: Option<nat>, now: nat, sel: Selection): Option<nat> {
    if entries == [] then base
    else
      var before := LatestWish(entries[..|entries| - 1], flow, base, now, sel);
      var last := entries[|entries| - 1];
      if last.packet.flow == flow then Some(AfterTail(before, Wish(last, now, sel))) else before
  }

  function Released(q: Queue, i: nat, now: nat, sel: Selection): Entry
    requires i < |q.queued|
  {
    var e := q.queued[i];
    e.(deadline := LatestWish(q.queued[..i + 1], e.packet.flow, InFlightTail(q, e.packet.flow), now, sel).GetOr(0))
  }

  function Release(q: Queue, now: nat, sel: Selection): Queue {
    q.(queued := seq(|q.queued|, i requires 0 <= i < |q.queued| => Released(q, i, now, sel)))
  }
}
