/**
 The packet engine as a step machine. The receive worker, the send worker, one rule edit, one
 snapshot and one stop may be under way at any time; an action is one step of one of them, or of
 the clock or the driver. A step moves one program point and emits one event, which is all it does
 to the shared state. It covers one lock acquisition, one atomic operation, one read of the rule
 tables or one critical section of the queue lock; rule reads made under the send gate are taken
 together, because nobody can edit the tables meanwhile. A thread is inside a lock while its program
 point is; the only queue-lock sections another thread can meet half-way are those of the send loop
 and of a snapshot.
 */
module Engine {
  import opened Core
  import opened Packet
  import opened QueueModel
  import opened Rules

  datatype Reason = Block | Loss | Rate | Overflow | SendFailure | Shutdown

  datatype Counters = Counters(
    processed: nat, dropped: nat, blocked: nat, loss: nat, rate: nat, eligible: nat,
    delayed: nat, overflow: nat, sendFailed: nat, shutdown: nat)
  {
    function Of(reason: Reason): nat {
      match reason
      case Block => blocked
      case Loss => loss
      case Rate => rate
      case Overflow => overflow
      case SendFailure => sendFailed
      case Shutdown => shutdown
    }

    function Add(reason: Reason, n: nat): Counters {
      match reason
      case Block => this.(blocked := blocked + n)
      case Loss => this.(loss := loss + n)
      case Rate => this.(rate := rate + n)
      case Overflow => this.(overflow := overflow + n)
      case SendFailure => this.(sendFailed := sendFailed + n)
      case Shutdown => this.(shutdown := shutdown + n)
    }
  }

  const ZERO := Counters(0, 0, 0, 0, 0, 0, 0, 0, 0, 0)

  /** A byte counter: all traffic in a direction, or one process's share of it. */
  datatype Account = Everyone(direction: Direction) | Process(pid: nat, direction: Direction)

  type Ledger = map<Account, nat>

  function Balance(l: Ledger, a: Account): nat {
    if a in l then l[a] else 0
  }

  function Credit(l: Ledger, a: Account, bytes: nat): Ledger {
    l[a := Balance(l, a) + bytes]
  }

  /** A packet as captured. `flow` is absent when the parser does not support the packet. */
  datatype Capture = Capture(
    bytes: seq<Byte>, address: Address, receivedAt: nat, pid: Option<nat>, direction: Direction,
    chargeLen: nat, flow: Option<FlowKey>)

  function Pending(c: Capture): PendingPacket
    requires c.flow.Some?
  {
    PendingPacket(c.bytes, c.address, c.pid, c.direction, c.chargeLen, c.flow.value)
  }

  function Id(p: PendingPacket): nat {
    p.address.capture
  }

  // ---------------------------------------------------------------- program points

  /** The stages of `fail`, after the error text has been stored. */
  datatype FailStage = SetAborted | SetStopping | CloseIo | DrainQueue | Failed

  /** The stages of `PacketWorker::send`. All but `WantGate` and `Returned` hold the send gate. */
  datatype SendStage =
    | WantGate
    | CheckAbort
    | CheckBlock
    | AtIo
    | CreditProcess
    | CreditAll
    | CountReason(reason: Reason, fatal: bool)
    | CountDrop(reason: Reason, fatal: bool)
    | Failing(fail: FailStage)
    | Returned

  datatype RecvPc =
    | Receiving
    | Counting(id: nat)
    | CheckingAbort(id: nat)
    | CheckingGlobal(id: nat)
    | CheckingProcess(id: nat)
    | Sampling(id: nat)
    | SamplingGlobal(id: nat)
    | Eligible(id: nat, points: nat)
    | LimitingGlobal(id: nat)
    | LimitingProcess(id: nat)
    | WantingGate(id: nat)
    | Gated(id: nat)
    | Offering(id: nat, delay: nat)
    | Dropping(id: nat, reason: Reason, counted: bool, gated: bool)
    | Sending(id: nat, stage: SendStage)
    | ErrorSeen(cancelled: bool)
    | RecvFailing(fail: FailStage)
    | RecvFinishing
    | RecvExited

  datatype SendPc =
    | Acquiring
    | Looping
    | Popping(now: nat)
    | Parked(readAt: nat, parkedAt: nat, wakeAt: Option<nat>, notified: bool)
    | InSend(id: nat, stage: SendStage)
    | Finishing(id: nat)
    | Unwinding(id: nat, fail: FailStage)
    | WantingDiscard(id: nat)
    | Discarding(id: nat)
    | SendExited

  datatype EditPc =
    | NoEdit
    | EditWaiting(command: Command)
    | Editing(before: Tables, command: Command, rest: seq<Edit>)
    | Releasing(before: Tables)

  datatype SnapPc =
    | NoSnap
    | SnapStarting
    | SnapWaiting
    | Loading(k: nat, got: Counters)

  datatype StopPc =
    | NotStopping
    | Swapping
    | StopDraining(already: bool)
    | ShuttingDown
    | StopFailing(fail: FailStage)
    | JoiningRecv
    | JoiningSend
    | Closing
    | StopDiscarding
    | Stopped

  // ---------------------------------------------------------------- state

  datatype Io = Io(shutdown: bool, closed: bool, backlog: nat)

  datatype Drop = Drop(id: nat, reason: Reason)

  /** History that the code does not keep. */
  datatype Log = Log(
    captured: seq<Capture>,
    sent: seq<nat>,
    dropped: seq<Drop>,
    promised: map<nat, nat>,
    released: set<nat>,
    reported: Ledger,
    snapshots: seq<Counters>)

  datatype Shared = Shared(
    clock: nat,
    queue: Queue,
    draining: bool,
    recvDone: bool,
    aborted: bool,
    stopping: bool,
    io: Io,
    rules: Tables,
    counters: Counters,
    ledger: Ledger,
    log: Log)

  datatype State = State(sh: Shared, recv: RecvPc, send: SendPc, edit: EditPc, snap: SnapPc, stop: StopPc)

  /** The state `start_with_io` leaves behind: rules survive a restart, everything else is reset. */
  ghost predicate Init(s: State) {
    && s.sh.queue == Empty(s.sh.queue.limits)
    && !s.sh.draining && !s.sh.recvDone && !s.sh.aborted && !s.sh.stopping
    && !s.sh.io.shutdown && !s.sh.io.closed
    && s.sh.counters == ZERO && s.sh.ledger == map[]
    && s.sh.log == Log([], [], [], map[], {}, map[], [])
    && s.recv == Receiving && s.send == Acquiring && s.edit == NoEdit && s.snap == NoSnap && s.stop == NotStopping
  }

  // ---------------------------------------------------------------- locks

  predicate RecvHoldsGate(pc: RecvPc) {
    || pc.Gated?
    || pc.Offering?
    || (pc.Dropping? && pc.gated)
    || (pc.Sending? && !pc.stage.WantGate?)
  }

  predicate SenderHoldsGate(pc: SendPc) {
    pc.Discarding? || (pc.InSend? && !pc.stage.WantGate?)
  }

  predicate EditHoldsGate(pc: EditPc) {
    pc.Editing? || pc.Releasing?
  }

  predicate GateFree(s: State) {
    !RecvHoldsGate(s.recv) && !SenderHoldsGate(s.send) && !EditHoldsGate(s.edit)
  }

  predicate SenderHoldsQueue(pc: SendPc) {
    pc.Looping? || pc.Popping?
  }

  predicate QueueFree(s: State) {
    !SenderHoldsQueue(s.send) && !s.snap.Loading?
  }

  // ---------------------------------------------------------------- events

  datatype Event =
    | Quiet
    | Ticked(ms: nat)
    | DriverQueued
    | Captured(capture: Capture)
    | CountedProcessed
    | CountedEligible
    | Counted(reason: Reason)
    | Dropped(id: nat, reason: Reason)
    | Queued(id: nat, delay: nat)
    | Overflowed(id: nat)
    | Sent(id: nat)
    | Credited(account: Account, bytes: nat)
    | Popped(now: nat)
    | Finished(id: nat)
    | Edited(e: Edit)
    | Frees
    | Drains
    | Discards
    | Aborts
    | Stops
    | Shuts
    | Closes
    | ReceiverDone
    | ReportsProcesses
    | Reports(account: Account)
    | Snapped(got: Counters)

  function All(): Selection { (p: PendingPacket) => true }

  /** The packets an edit lets go at once: now blocked, or no longer delayed. */
  function Freed(t: Tables): Selection {
    (p: PendingPacket) => t.BlocksAll() || t.BlocksProcess(p.pid) || t.EffectiveDelay(p.pid, p.direction) == 0
  }

  function SelectedIds(q: Queue, sel: Selection): set<nat> {
    set i | 0 <= i < |q.queued| && sel(q.queued[i].packet) :: Id(q.queued[i].packet)
  }

  function IdsOf(entries: seq<Entry>): seq<nat> {
    seq(|entries|, i requires 0 <= i < |entries| => Id(entries[i].packet))
  }

  /** What `discard_pending` drops: all that is queued and all that is in flight. */
  function Discarded(q: Queue): seq<Drop> {
    var ids := IdsOf(q.queued) + IdsOf(q.inFlight);
    seq(|ids|, i requires 0 <= i < |ids| => Drop(ids[i], Shutdown))
  }

  /** `finish` finds its packet: otherwise the code would panic or underflow here. */
  predicate CanFinish(sh: Shared, id: nat) {
    id < |sh.log.captured| && sh.log.captured[id].flow.Some? && IsInFlight(sh.queue, Pending(sh.log.captured[id]))
  }

  predicate Possible(sh: Shared, ev: Event) {
    match ev
    case Captured(_) => sh.io.backlog > 0
    case Queued(id, _) => id < |sh.log.captured| && sh.log.captured[id].flow.Some?
      && Admits(sh.queue, Pending(sh.log.captured[id]))
    case Finished(id) => CanFinish(sh, id)
    case _ => true
  }

  function QueueAfter(sh: Shared, ev: Event): Queue
    requires Possible(sh, ev)
  {
    match ev
    case Queued(id, delay) =>
      var c := sh.log.captured[id];
      Enqueue(sh.queue, Pending(c), if sh.draining then c.receivedAt else c.receivedAt + delay)
    case Popped(now) => PopDue(sh.queue, now)
    case Finished(id) => Finish(sh.queue, Pending(sh.log.captured[id]))
    case Frees => Release(sh.queue, sh.clock, Freed(sh.rules))
    case Drains => Release(sh.queue, sh.clock, All())
    case Discards => Empty(sh.queue.limits)
    case _ => sh.queue
  }

  function IoAfter(io: Io, ev: Event): Io
    requires ev.Captured? ==> io.backlog > 0
  {
    Io(io.shutdown || ev.Shuts?,
       io.closed || ev.Closes?,
       if ev.DriverQueued? then io.backlog + 1 else if ev.Captured? then io.backlog - 1 else io.backlog)
  }

  function CountersAfter(sh: Shared, ev: Event): Counters {
    var c := sh.counters;
    match ev
    case CountedProcessed => c.(processed := c.processed + 1)
    case CountedEligible => c.(eligible := c.eligible + 1)
    case Counted(reason) => c.Add(reason, 1)
    case Dropped(_, _) => c.(dropped := c.dropped + 1)
    case Queued(_, _) => c.(delayed := c.delayed + 1)
    case Overflowed(_) => c.(overflow := c.overflow + 1, dropped := c.dropped + 1)
    case Discards =>
      var n := |sh.queue.queued| + |sh.queue.inFlight|;
      c.(shutdown := c.shutdown + n, dropped := c.dropped + n)
    case _ => c
  }

  /** The two kinds of byte counters: credited after a send, taken to zero by a snapshot. */
  function LedgerAfter(l: Ledger, ev: Event): Ledger {
    match ev
    case Credited(a, bytes) => Credit(l, a, bytes)
    case ReportsProcesses => map a | a in l && !a.Process? :: l[a]
    case Reports(a) => l - {a}
    case _ => l
  }

  function ReportedAfter(sh: Shared, ev: Event): Ledger {
    var r := sh.log.reported;
    match ev
    case ReportsProcesses =>
      map a | a in r.Keys + sh.ledger.Keys :: Balance(r, a) + if a.Process? then Balance(sh.ledger, a) else 0
    case Reports(a) => Credit(r, a, Balance(sh.ledger, a))
    case _ => r
  }

  function DroppedAfter(sh: Shared, ev: Event): seq<Drop> {
    match ev
    case Dropped(id, reason) => sh.log.dropped + [Drop(id, reason)]
    case Overflowed(id) => sh.log.dropped + [Drop(id, Overflow)]
    case Discards => sh.log.dropped + Discarded(sh.queue)
    case _ => sh.log.dropped
  }

  function ReleasedAfter(sh: Shared, ev: Event): set<nat> {
    match ev
    case Frees => sh.log.released + SelectedIds(sh.queue, Freed(sh.rules))
    case Drains => sh.log.released + SelectedIds(sh.queue, All())
    case _ => sh.log.released
  }

  function LogAfter(sh: Shared, ev: Event): Log
    requires Possible(sh, ev)
  {
    Log(
      if ev.Captured? then sh.log.captured + [ev.capture] else sh.log.captured,
      if ev.Sent? then sh.log.sent + [ev.id] else sh.log.sent,
      DroppedAfter(sh, ev),
      if ev.Queued? then sh.log.promised[ev.id := sh.log.captured[ev.id].receivedAt + ev.delay] else sh.log.promised,
      ReleasedAfter(sh, ev),
      ReportedAfter(sh, ev),
      if ev.Snapped? then sh.log.snapshots + [ev.got] else sh.log.snapshots)
  }

  function Apply(sh: Shared, ev: Event): Shared
    requires Possible(sh, ev)
  {
    Shared(
      if ev.Ticked? then sh.clock + ev.ms else sh.clock,
      QueueAfter(sh, ev),
      sh.draining || ev.Drains?,
      sh.recvDone || ev.ReceiverDone?,
      sh.aborted || ev.Aborts?,
      sh.stopping || ev.Stops?,
      IoAfter(sh.io, ev),
      if ev.Edited? then AfterEdit(sh.rules, ev.e) else sh.rules,
      CountersAfter(sh, ev),
      LedgerAfter(sh.ledger, ev),
      LogAfter(sh, ev))
  }

  /** The events that signal the condition variable. */
  predicate Notifies(ev: Event) {
    ev.Queued? || ev.Frees? || ev.Drains? || ev.Discards? || ev.ReceiverDone?
  }

  /** `Condvar::notify_one` and `notify_all`: only the send worker ever waits. */
  function Signal(pc: SendPc, ev: Event): SendPc {
    if pc.Parked? && Notifies(ev) then pc.(notified := true) else pc
  }

  // ---------------------------------------------------------------- fail

  function FailEvent(stage: FailStage): Event {
    match stage
    case SetAborted => Aborts
    case SetStopping => Stops
    case CloseIo => Closes
    case DrainQueue => Drains
    case Failed => Quiet
  }

  function NextFail(stage: FailStage): FailStage {
    match stage
    case SetAborted => SetStopping
    case SetStopping => CloseIo
    case CloseIo => DrainQueue
    case DrainQueue => Failed
    case Failed => Failed
  }

  predicate FailEnabled(s: State, stage: FailStage) {
    !stage.Failed? && (stage.DrainQueue? ==> QueueFree(s))
  }

  // ---------------------------------------------------------------- PacketWorker::send

  datatype IoResult = Ok | Isolated | Fatal

  predicate BlockedNow(sh: Shared, c: Capture) {
    sh.rules.Blocks(c.pid, c.address.loopback)
  }

  predicate SendEnabled(s: State, stage: SendStage) {
    match stage
    case WantGate => GateFree(s)
    case Failing(f) => FailEnabled(s, f)
    case Returned => false
    case _ => true
  }

  function NextStage(sh: Shared, c: Capture, stage: SendStage, io: IoResult): SendStage {
    match stage
    case WantGate => CheckAbort
    case CheckAbort => if sh.aborted then CountReason(Shutdown, false) else CheckBlock
    case CheckBlock => if BlockedNow(sh, c) then CountReason(Block, false) else AtIo
    case AtIo =>
      if !io.Ok? then CountReason(SendFailure, io.Fatal?)
      else if c.chargeLen == 0 then Returned
      else if c.pid.Some? then CreditProcess else CreditAll
    case CreditProcess => CreditAll
    case CreditAll => Returned
    case CountReason(reason, fatal) => CountDrop(reason, fatal)
    case CountDrop(_, fatal) => if fatal then Failing(SetAborted) else Returned
    case Failing(f) => if NextFail(f).Failed? then Returned else Failing(NextFail(f))
    case Returned => Returned
  }

  function SendEvent(c: Capture, stage: SendStage, io: IoResult): Event {
    match stage
    case AtIo => if io.Ok? then Sent(c.address.capture) else Quiet
    case CreditProcess => Credited(Process(c.pid.GetOr(0), c.direction), c.chargeLen)
    case CreditAll => Credited(Everyone(c.direction), c.chargeLen)
    case CountReason(reason, _) => Counted(reason)
    case CountDrop(reason, _) => Dropped(c.address.capture, reason)
    case Failing(f) => FailEvent(f)
    case _ => Quiet
  }

  // ---------------------------------------------------------------- recv_loop

  /** What the environment, the sampler and the token buckets decide during a step. */
  datatype Input =
    | Arrived(capture: Capture)
    | RecvError(cancelled: bool)
    | Verdict(drop: bool, io: IoResult)

  predicate CaptureFits(sh: Shared, c: Capture) {
    && c.address.capture == |sh.log.captured|
    && c.receivedAt == sh.clock
    && (c.flow.None? ==> c.pid.None? && c.chargeLen == 0)
  }

  predicate HasId(pc: RecvPc) {
    !pc.Receiving? && !pc.ErrorSeen? && !pc.RecvFailing? && !pc.RecvFinishing? && !pc.RecvExited?
  }

  /** The packet in the receive worker's hand. */
  function Hand(s: State): Capture
    requires HasId(s.recv) && s.recv.id < |s.sh.log.captured|
  {
    s.sh.log.captured[s.recv.id]
  }

  predicate RecvEnabled(s: State, input: Input) {
    && (HasId(s.recv) ==> s.recv.id < |s.sh.log.captured|)
    && (if s.recv.Receiving? then
          (input.Arrived? && s.sh.io.backlog > 0 && CaptureFits(s.sh, input.capture)) || input.RecvError?
        else input.Verdict?)
    && match s.recv
       case Eligible(_, points) => points >= 10_000 ==> input.drop
       case WantingGate(_) => GateFree(s)
       case Offering(_, _) => QueueFree(s)
       case Sending(_, stage) => SendEnabled(s, stage)
       case RecvFailing(f) => FailEnabled(s, f)
       case RecvFinishing => QueueFree(s)
       case RecvExited => false
       case _ => true
  }

  /** The packet may not be sent directly: it is to wait, or its flow is already waiting. */
  predicate MustQueue(sh: Shared, c: Capture, delay: nat) {
    c.flow.Some? && !c.address.loopback && (delay > 0 || HasFlow(sh.queue, c.flow.value))
  }

  /** A packet with a loss rate of zero is not sampled. */
  function AfterLoss(id: nat, points: nat): RecvPc {
    if points == 0 then LimitingGlobal(id) else Eligible(id, points)
  }

  function NextRecv(s: State, input: Input): RecvPc
    requires RecvEnabled(s, input)
  {
    match s.recv
    case Receiving =>
      if input.Arrived? then Counting(|s.sh.log.captured|)
      else if s.sh.aborted then RecvFinishing
      else ErrorSeen(input.cancelled)
    case ErrorSeen(cancelled) => if s.sh.stopping && cancelled then RecvFinishing else RecvFailing(SetAborted)
    case Counting(id) => CheckingAbort(id)
    case CheckingAbort(id) => if s.sh.aborted then Dropping(id, Shutdown, false, false) else CheckingGlobal(id)
    case CheckingGlobal(id) =>
      if !Hand(s).address.loopback && s.sh.rules.BlocksAll() then Dropping(id, Block, false, false)
      else if Hand(s).flow.None? then Sending(id, WantGate)
      else CheckingProcess(id)
    case CheckingProcess(id) =>
      if !Hand(s).address.loopback && s.sh.rules.BlocksProcess(Hand(s).pid) then Dropping(id, Block, false, false)
      else Sampling(id)
    case Sampling(id) =>
      if Hand(s).address.loopback then LimitingGlobal(id)
      else
        var points := s.sh.rules.ProcessLoss(Hand(s).pid, Hand(s).direction);
        if points.Some? then AfterLoss(id, points.value) else SamplingGlobal(id)
    case SamplingGlobal(id) => AfterLoss(id, s.sh.rules.global.Loss(Hand(s).direction).GetOr(0))
    case Eligible(id, _) => if input.drop then Dropping(id, Loss, false, false) else LimitingGlobal(id)
    case LimitingGlobal(id) =>
      if s.sh.rules.BlocksAll() && !Hand(s).address.loopback then Dropping(id, Block, false, false)
      else if Hand(s).chargeLen > 0 && s.sh.rules.global.EffectiveRate(Hand(s).direction).Some? && input.drop then
        Dropping(id, Rate, false, false)
      else LimitingProcess(id)
    case LimitingProcess(id) =>
      if s.sh.rules.BlocksProcess(Hand(s).pid) && !Hand(s).address.loopback then Dropping(id, Block, false, false)
      else if Hand(s).chargeLen > 0 && s.sh.rules.ProcessRate(Hand(s).pid, Hand(s).direction).Some? && input.drop then
        Dropping(id, Rate, false, false)
      else WantingGate(id)
    case WantingGate(id) => Gated(id)
    case Gated(id) =>
      if s.sh.aborted then Dropping(id, Shutdown, false, true)
      else
        Offering(id, if Hand(s).address.loopback then 0 else s.sh.rules.EffectiveDelay(Hand(s).pid, Hand(s).direction))
    case Offering(id, delay) => if MustQueue(s.sh, Hand(s), delay) then Receiving else Sending(id, WantGate)
    case Dropping(id, reason, counted, gated) => if counted then Receiving else Dropping(id, reason, true, gated)
    case Sending(id, stage) =>
      var next := NextStage(s.sh, Hand(s), stage, input.io);
      if next.Returned? then Receiving else Sending(id, next)
    case RecvFailing(f) => if NextFail(f).Failed? then RecvFinishing else RecvFailing(NextFail(f))
    case RecvFinishing => RecvExited
    case RecvExited => RecvExited
  }

  function RecvEvent(s: State, input: Input): Event
    requires RecvEnabled(s, input)
  {
    match s.recv
    case Receiving => if input.Arrived? then Captured(input.capture) else Quiet
    case Counting(_) => CountedProcessed
    case Eligible(_, _) => CountedEligible
    case Offering(id, delay) =>
      if !MustQueue(s.sh, Hand(s), delay) then Quiet
      else if Admits(s.sh.queue, Pending(Hand(s))) then Queued(id, delay)
      else Overflowed(id)
    case Dropping(id, reason, counted, _) => if counted then Dropped(id, reason) else Counted(reason)
    case Sending(_, stage) => SendEvent(Hand(s), stage, input.io)
    case RecvFailing(f) => FailEvent(f)
    case RecvFinishing => ReceiverDone
    case _ => Quiet
  }

  // ---------------------------------------------------------------- send_loop

  predicate SenderHasId(pc: SendPc) {
    pc.InSend? || pc.Finishing? || pc.Unwinding? || pc.WantingDiscard? || pc.Discarding?
  }

  predicate SenderEnabled(s: State) {
    && (SenderHasId(s.send) ==> s.send.id < |s.sh.log.captured|)
    && match s.send
       case Acquiring => QueueFree(s)
       case Parked(_, _, _, _) => false
       case InSend(_, stage) => SendEnabled(s, stage)
       case Finishing(id) => QueueFree(s) && CanFinish(s.sh, id)
       case Unwinding(_, f) => FailEnabled(s, f)
       case WantingDiscard(_) => GateFree(s)
       case Discarding(_) => QueueFree(s)
       case SendExited => false
       case _ => true
  }

  /** The earliest queued deadline. */
  function NextDeadline(q: Queue): Option<nat> {
    if q.queued == [] then None else Some(q.queued[LeastIndex(q.queued)].deadline)
  }

  /** `wait_timeout(deadline - now)` entered at `clock`, `now` having been read a little earlier. */
  function Park(sh: Shared, now: nat): SendPc {
    Parked(now, sh.clock,
           match NextDeadline(sh.queue)
           case None => None
           case Some(d) => Some(sh.clock + if d > now then d - now else 0),
           false)
  }

  function NextSend(s: State, io: IoResult): SendPc
    requires SenderEnabled(s)
  {
    match s.send
    case Acquiring => Looping
    case Looping => Popping(s.sh.clock)
    case Popping(now) =>
      if Due(s.sh.queue, now).Some? then InSend(Id(Due(s.sh.queue, now).value.packet), WantGate)
      else if s.sh.recvDone && s.sh.queue.queued == [] then SendExited
      else Park(s.sh, now)
    case InSend(id, stage) =>
      var next := NextStage(s.sh, s.sh.log.captured[id], stage, io);
      if next.Returned? then Finishing(id) else InSend(id, next)
    case Finishing(_) => Looping
    case Unwinding(id, f) => if NextFail(f).Failed? then WantingDiscard(id) else Unwinding(id, NextFail(f))
    case WantingDiscard(id) => Discarding(id)
    case Discarding(_) => SendExited
    case _ => s.send
  }

  function SenderEvent(s: State, io: IoResult): Event
    requires SenderEnabled(s)
  {
    match s.send
    case Popping(now) => if Due(s.sh.queue, now).Some? then Popped(now) else Quiet
    case InSend(id, stage) => SendEvent(s.sh.log.captured[id], stage, io)
    case Finishing(id) => Finished(id)
    case Unwinding(_, f) => FailEvent(f)
    case Discarding(_) => Discards
    case _ => Quiet
  }

  // ---------------------------------------------------------------- apply, snapshot_and_reset, stop

  predicate EditEnabled(s: State) {
    match s.edit
    case NoEdit => false
    case EditWaiting(_) => GateFree(s)
    case Editing(_, _, _) => true
    case Releasing(_) => QueueFree(s)
  }

  function NextEdit(s: State): EditPc {
    match s.edit
    case NoEdit => NoEdit
    case EditWaiting(command) => Editing(s.sh.rules, command, EditsOf(command))
    case Editing(before, command, rest) =>
      if rest != [] then Editing(before, command, rest[1..])
      else if s.sh.rules.revision != before.revision then Releasing(before)
      else NoEdit
    case Releasing(_) => NoEdit
  }

  function EditEvent(s: State): Event {
    match s.edit
    case Editing(_, _, rest) => if rest != [] then Edited(rest[0]) else Quiet
    case Releasing(_) => Frees
    case _ => Quiet
  }

  predicate SnapEnabled(s: State) {
    match s.snap
    case NoSnap => false
    case SnapWaiting => QueueFree(s)
    case _ => true
  }

  const LOADS: nat := 12

  /** The loads of `snapshot_and_reset` in program order, after the two byte counters are swapped out. */
  function Loaded(c: Counters, k: nat, got: Counters): Counters {
    match k
    case 2 => got.(processed := c.processed)
    case 3 => got.(dropped := c.dropped)
    case 4 => got.(blocked := c.blocked)
    case 5 => got.(loss := c.loss)
    case 6 => got.(rate := c.rate)
    case 7 => got.(eligible := c.eligible)
    case 8 => got.(delayed := c.delayed)
    case 9 => got.(overflow := c.overflow)
    case 10 => got.(sendFailed := c.sendFailed)
    case 11 => got.(shutdown := c.shutdown)
    case _ => got
  }

  function NextSnap(s: State): SnapPc {
    match s.snap
    case NoSnap => NoSnap
    case SnapStarting => SnapWaiting
    case SnapWaiting => Loading(0, ZERO)
    case Loading(k, got) => if k < LOADS then Loading(k + 1, Loaded(s.sh.counters, k, got)) else NoSnap
  }

  function SnapEvent(s: State): Event {
    match s.snap
    case SnapStarting => ReportsProcesses
    case Loading(k, got) =>
      if k == 0 then Reports(Everyone(Download))
      else if k == 1 then Reports(Everyone(Upload))
      else if k == LOADS then Snapped(got)
      else Quiet
    case _ => Quiet
  }

  predicate StopEnabled(s: State) {
    match s.stop
    case NotStopping => false
    case StopDraining(_) => QueueFree(s)
    case StopFailing(f) => FailEnabled(s, f)
    case JoiningRecv => s.recv.RecvExited?
    case JoiningSend => s.send.SendExited?
    case StopDiscarding => QueueFree(s)
    case Stopped => false
    case _ => true
  }

  function NextStop(s: State, shutdownOk: bool): StopPc {
    match s.stop
    case NotStopping => NotStopping
    case Swapping => StopDraining(s.sh.stopping)
    case StopDraining(already) => if already then JoiningRecv else ShuttingDown
    case ShuttingDown => if shutdownOk then JoiningRecv else StopFailing(SetAborted)
    case StopFailing(f) => if NextFail(f).Failed? then JoiningRecv else StopFailing(NextFail(f))
    case JoiningRecv => JoiningSend
    case JoiningSend => Closing
    case Closing => StopDiscarding
    case StopDiscarding => Stopped
    case Stopped => Stopped
  }

  function StopEvent(s: State, shutdownOk: bool): Event {
    match s.stop
    case Swapping => Stops
    case StopDraining(_) => Drains
    case ShuttingDown => if shutdownOk then Shuts else Quiet
    case StopFailing(f) => FailEvent(f)
    case Closing => Closes
    case StopDiscarding => Discards
    case _ => Quiet
  }

  // ---------------------------------------------------------------- one step of the whole engine

  datatype Action =
    | Tick(ms: nat)
    | DriverQueues
    | RecvStep(input: Input)
    | SendStep(io: IoResult)
    | SendPanics
    | Wake
    | StartEdit(command: Command)
    | EditStep
    | StartSnapshot
    | SnapStep
    | StartStop
    | StopStep(shutdownOk: bool)

  predicate Enabled(s: State, a: Action) {
    match a
    case Tick(_) => true
    case DriverQueues => !s.sh.io.shutdown && !s.sh.io.closed
    case RecvStep(input) => RecvEnabled(s, input)
    case SendStep(_) => SenderEnabled(s)
    case SendPanics => s.send.InSend? && s.send.stage.AtIo?
    case Wake => s.send.Parked?
    case StartEdit(_) => s.edit.NoEdit?
    case EditStep => EditEnabled(s)
    case StartSnapshot => s.snap.NoSnap?
    case SnapStep => SnapEnabled(s)
    case StartStop => s.stop.NotStopping?
    case StopStep(_) => StopEnabled(s)
  }

  function EventOf(s: State, a: Action): (ev: Event)
    requires Enabled(s, a)
    ensures Possible(s.sh, ev)
  {
    match a
    case Tick(ms) => Ticked(ms)
    case DriverQueues => DriverQueued
    case RecvStep(input) => RecvEvent(s, input)
    case SendStep(io) => SenderEvent(s, io)
    case EditStep => EditEvent(s)
    case SnapStep => SnapEvent(s)
    case StopStep(ok) => StopEvent(s, ok)
    case _ => Quiet
  }

  function SendAfter(s: State, a: Action): SendPc
    requires Enabled(s, a)
  {
    match a
    case SendStep(io) => NextSend(s, io)
    case SendPanics => Unwinding(s.send.id, SetAborted)
    case Wake => Acquiring
    case _ => Signal(s.send, EventOf(s, a))
  }

  function Do(s: State, a: Action): State
    requires Enabled(s, a)
  {
    State(
      Apply(s.sh, EventOf(s, a)),
      if a.RecvStep? then NextRecv(s, a.input) else s.recv,
      SendAfter(s, a),
      if a.StartEdit? then EditWaiting(a.command) else if a.EditStep? then NextEdit(s) else s.edit,
      if a.StartSnapshot? then SnapStarting else if a.SnapStep? then NextSnap(s) else s.snap,
      if a.StartStop? then Swapping else if a.StopStep? then NextStop(s, a.shutdownOk) else s.stop)
  }

  /** A run: a state per point in time, each obtained from the one before by an enabled action. */
  ghost predicate IsRun(states: seq<State>, actions: seq<Action>) {
    && |states| == |actions| + 1
    && Init(states[0])
    && forall i :: 0 <= i < |actions| ==> Enabled(states[i], actions[i]) && states[i + 1] == Do(states[i], actions[i])
  }
}
