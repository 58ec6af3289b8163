/** What the steps of the machine do to the CPU side alone, and what each such move keeps. */
module CpuMoves {
  import opened Seqs
  import opened Scheduler

  datatype Move =
    | Keep
    | Interrupted(blocks: bool)
    | BlockedOnP(p: nat)
    | RanUnit(p: nat)
    | PaidLock(p: nat)
    | Woken(p: nat)
    | Served(p: nat)
    | AfterLoad(p: nat, evicted: seq<nat>)
    | Finishing(p: nat)
    | Created(prio: int)

  /** When a move can happen: `pcb` are the live processes. */
  ghost predicate Legal(c: Cpu, pcb: seq<nat>, m: Move) {
    && CpuShape(c) && CpuPending(c, pcb) && CpuOk(c, pcb)
    && match m
       case Keep => true
       case Interrupted(_) => true
       case BlockedOnP(p) => c.running == Some(p)
       case RanUnit(p) => c.running == Some(p) && c.tasks[p].remaining > 0
       case PaidLock(p) => c.running == Some(p) && c.tasks[p].remaining > 0
       case Woken(p) => c.running.Some? && p < |c.tasks| && Queued(c, p) == 0 && p in pcb
       case Served(p) => p < |c.tasks| && Queued(c, p) == 0 && p in pcb
       case AfterLoad(p, evicted) => c.running == Some(p) && forall q :: q in evicted ==> q in pcb
       case Finishing(p) => c.running == Some(p)
       case Created(prio) => prio != 0 && forall q :: q in pcb ==> q < |c.tasks|
  }

  predicate Fits(c: Cpu, m: Move) {
    match m
    case Keep => true
    case Interrupted(_) => true
    case Created(prio) => prio != 0
    case _ => m.p < |c.tasks|
  }

  function Do(c: Cpu, m: Move): (r: Cpu)
    requires CpuShape(c) && Fits(c, m)
    ensures CpuShape(r) && |r.tasks| == |c.tasks| + One(m.Created?)
    ensures r.clock >= c.clock + One(m.BlockedOnP?)
  {
    match m
    case Keep => c
    case Interrupted(blocks) => Interrupt(c, blocks)
    case BlockedOnP(p) => Interrupt(Stamp(c, p), true)
    case RanUnit(p) => RunUnit(c, p)
    case PaidLock(p) => PayLock(c, p)
    case Woken(p) => Wake(c, p)
    case Served(p) => Interrupt(Wake(c, p), false)
    case AfterLoad(p, evicted) => LoadCpu(c, p, evicted)
    case Finishing(p) => Forward(SetStatus(c, p, Finished))
    case Created(prio) => CreateCpu(c, prio)
  }

  /** The live processes after a move. */
  ghost predicate PcbAfter(c: Cpu, m: Move, pcb: seq<nat>, pcb': seq<nat>) {
    match m
    case Finishing(p) => forall q :: q in pcb' <==> q in pcb && q != p
    case Created(_) => forall q :: q in pcb' <==> q in pcb || q == |c.tasks|
    case _ => pcb' == pcb
  }

  // ---------- statuses and work conservation ----------

  lemma CreatedOk(c: Cpu, prio: int, pcb: seq<nat>, pcb': seq<nat>)
    requires Legal(c, pcb, Created(prio)) && PcbAfter(c, Created(prio), pcb, pcb')
    ensures CpuOk(CreateCpu(c, prio), pcb')
  {
    var p := |c.tasks|;
    var c1 := c.(tasks := c.tasks + [Task(prio, Ready, 0, 0)]);
    assert p !in pcb && FinishedOutside(c1, pcb');
    LooseEnqueue(c1, p);
  }

  lemma LoadedPending(c: Cpu, p: nat, evicted: seq<nat>, pcb: seq<nat>)
    requires Legal(c, pcb, AfterLoad(p, evicted))
    ensures CpuPending(MarkReady(SetStatus(c, p, Waiting), evicted), pcb)
  {
  }

  /** Every legal move keeps the statuses true and the CPU busy while anything is ready. */
  lemma MoveOk(c: Cpu, m: Move, pcb: seq<nat>, pcb': seq<nat>)
    requires Legal(c, pcb, m) && PcbAfter(c, m, pcb, pcb')
    ensures CpuOk(Do(c, m), pcb')
  {
    match m
    case Keep =>
    case Interrupted(blocks) => InterruptOk(c, pcb, blocks);
    case BlockedOnP(p) => InterruptOk(Stamp(c, p), pcb, true);
    case RanUnit(p) =>
    case PaidLock(p) =>
    case Woken(p) => WakeOk(c, pcb, p);
    case Served(p) => WakeOk(c, pcb, p); InterruptOk(Wake(c, p), pcb, false);
    case AfterLoad(p, evicted) =>
      LoadedPending(c, p, evicted, pcb);
      InterruptOk(MarkReady(SetStatus(c, p, Waiting), evicted), pcb, false);
    case Finishing(p) => FinishOk(c, p, pcb, pcb');
    case Created(prio) => CreatedOk(c, prio, pcb, pcb');
  }

  // ---------- dispatch order ----------

  /** The order of the queue does not depend on statuses or remaining times. */
  lemma OrderSame(a: Cpu, b: Cpu)
    requires QueueOrder(a) && |a.tasks| == |b.tasks| && a.ready == b.ready && a.clock == b.clock
    requires forall q :: 0 <= q < |a.tasks| ==>
      a.tasks[q].prio == b.tasks[q].prio && a.tasks[q].since == b.tasks[q].since
    ensures QueueOrder(b)
  {
  }

  lemma OrderWake(c: Cpu, p: nat)
    requires CpuShape(c) && p < |c.tasks| && Queued(c, p) == 0 && QueueOrder(c)
    ensures QueueOrder(Wake(c, p))
  {
    assert p !in c.ready by { assert multiset(c.ready)[p] == 0; }
    OrderSame(c, SetStatus(c, p, Ready));
    OrderEnqueue(SetStatus(c, p, Ready), p);
  }

  lemma OrderLoaded(c: Cpu, p: nat, evicted: seq<nat>, pcb: seq<nat>)
    requires Legal(c, pcb, AfterLoad(p, evicted)) && QueueOrder(c)
    ensures QueueOrder(LoadCpu(c, p, evicted))
  {
    hide Interrupt;
    var c1 := MarkReady(SetStatus(c, p, Waiting), evicted);
    OrderSame(c, c1);
    OrderInterrupt(c1, false);
  }

  lemma OrderFinishing(c: Cpu, p: nat)
    requires CpuShape(c) && Once(c) && c.running == Some(p) && QueueOrder(c)
    ensures QueueOrder(Forward(SetStatus(c, p, Finished)))
  {
    var c1 := SetStatus(c, p, Finished).(running := None);
    assert Requeue(SetStatus(c, p, Finished)) == c1;
    OrderSame(c, c1);
    OrderDispatch(c1);
  }

  lemma OrderCreated(c: Cpu, prio: int)
    requires CpuShape(c) && prio != 0 && QueueOrder(c)
    ensures QueueOrder(CreateCpu(c, prio))
  {
    OrderEnqueue(c.(tasks := c.tasks + [Task(prio, Ready, 0, 0)]), |c.tasks|);
  }

  lemma OrderBlocked(c: Cpu, p: nat, pcb: seq<nat>)
    requires Legal(c, pcb, BlockedOnP(p)) && QueueOrder(c)
    ensures QueueOrder(Interrupt(Stamp(c, p), true))
  {
    hide Interrupt;
    OrderInterrupt(Stamp(c, p), true);
  }

  lemma OrderServed(c: Cpu, p: nat, pcb: seq<nat>)
    requires Legal(c, pcb, Served(p)) && QueueOrder(c)
    ensures QueueOrder(Interrupt(Wake(c, p), false))
  {
    hide Interrupt, Wake;
    OrderWake(c, p);
    WakeOk(c, pcb, p);
    OrderInterrupt(Wake(c, p), false);
  }

  lemma OrderCharged(c: Cpu, p: nat)
    requires QueueOrder(c) && p < |c.tasks|
    ensures QueueOrder(RunUnit(c, p)) && QueueOrder(PayLock(c, p))
  {
    OrderSame(c, RunUnit(c, p));
    OrderSame(c, PayLock(c, p));
  }

  /** Every legal move keeps the ready queue in order. */
  lemma MoveOrder(c: Cpu, m: Move, pcb: seq<nat>)
    requires Legal(c, pcb, m) && QueueOrder(c)
    ensures QueueOrder(Do(c, m))
  {
    hide QueueOrder, Interrupt, Wake, LoadCpu, CreateCpu, RunUnit, PayLock, Requeue, Dispatch;
    match m
    case Keep =>
    case Interrupted(blocks) => OrderInterrupt(c, blocks);
    case BlockedOnP(p) => OrderBlocked(c, p, pcb);
    case RanUnit(p) => OrderCharged(c, p);
    case PaidLock(p) => OrderCharged(c, p);
    case Woken(p) => OrderWake(c, p);
    case Served(p) => OrderServed(c, p, pcb);
    case AfterLoad(p, evicted) => OrderLoaded(c, p, evicted, pcb);
    case Finishing(p) => OrderFinishing(c, p);
    case Created(prio) => OrderCreated(c, prio);
  }

  /** The moves that end in forward_scheduling. */
  predicate Dispatches(m: Move) {
    m.Interrupted? || m.BlockedOnP? || m.Served? || m.AfterLoad? || m.Finishing?
  }

  lemma FirstFinishing(c: Cpu, p: nat)
    requires CpuShape(c) && Once(c) && c.running == Some(p) && QueueOrder(c)
    ensures RunsFirst(Forward(SetStatus(c, p, Finished)))
  {
    var c1 := SetStatus(c, p, Finished).(running := None);
    assert Requeue(SetStatus(c, p, Finished)) == c1;
    OrderSame(c, c1);
    HeadFirst(c1);
  }

  lemma FirstBlocked(c: Cpu, p: nat, pcb: seq<nat>)
    requires Legal(c, pcb, BlockedOnP(p)) && QueueOrder(c)
    ensures RunsFirst(Interrupt(Stamp(c, p), true))
  {
    hide Interrupt;
    DispatchesFirst(Stamp(c, p), true);
  }

  lemma FirstServed(c: Cpu, p: nat, pcb: seq<nat>)
    requires Legal(c, pcb, Served(p)) && QueueOrder(c)
    ensures RunsFirst(Interrupt(Wake(c, p), false))
  {
    hide Interrupt, Wake;
    OrderWake(c, p);
    WakeOk(c, pcb, p);
    DispatchesFirst(Wake(c, p), false);
  }

  lemma FirstLoaded(c: Cpu, p: nat, evicted: seq<nat>, pcb: seq<nat>)
    requires Legal(c, pcb, AfterLoad(p, evicted)) && QueueOrder(c)
    ensures RunsFirst(LoadCpu(c, p, evicted))
  {
    hide Interrupt;
    var c1 := MarkReady(SetStatus(c, p, Waiting), evicted);
    OrderSame(c, c1);
    DispatchesFirst(c1, false);
  }

  /** Whenever the scheduler runs, it picks the longest-queued process of least number. */
  lemma MoveDispatchesFirst(c: Cpu, m: Move, pcb: seq<nat>)
    requires Legal(c, pcb, m) && QueueOrder(c) && Dispatches(m)
    ensures RunsFirst(Do(c, m))
  {
    hide QueueOrder, RunsFirst, Interrupt, Wake, LoadCpu, Requeue, Dispatch;
    match m
    case Interrupted(blocks) => DispatchesFirst(c, blocks);
    case BlockedOnP(p) => FirstBlocked(c, p, pcb);
    case Served(p) => FirstServed(c, p, pcb);
    case AfterLoad(p, evicted) => FirstLoaded(c, p, evicted, pcb);
    case Finishing(p) => FirstFinishing(c, p);
  }

  // ---------- quantum ----------

  lemma QuantumDispatch(c: Cpu)
    requires CpuShape(c)
    ensures QuantumOk(Dispatch(c))
  {
  }

  lemma QuantumInterrupt(c: Cpu, blocks: bool)
    requires CpuShape(c)
    ensures QuantumOk(Interrupt(c, blocks))
  {
    QuantumDispatch(Contenders(c, blocks));
  }

  lemma QuantumWake(c: Cpu, p: nat)
    requires CpuShape(c) && p < |c.tasks| && QuantumOk(c)
    ensures QuantumOk(Wake(c, p))
  {
  }

  lemma MoveQuantum(c: Cpu, m: Move, pcb: seq<nat>)
    requires Legal(c, pcb, m) && QuantumOk(c)
    ensures QuantumOk(Do(c, m))
  {
    match m
    case Keep =>
    case Interrupted(blocks) => QuantumInterrupt(c, blocks);
    case BlockedOnP(p) => QuantumInterrupt(Stamp(c, p), true);
    case RanUnit(p) =>
    case PaidLock(p) =>
    case Woken(p) => QuantumWake(c, p);
    case Served(p) => QuantumInterrupt(Wake(c, p), false);
    case AfterLoad(p, evicted) => QuantumInterrupt(MarkReady(SetStatus(c, p, Waiting), evicted), false);
    case Finishing(p) => QuantumDispatch(Requeue(SetStatus(c, p, Finished)));
    case Created(prio) => QuantumCreated(c, prio);
  }

  lemma QuantumCreated(c: Cpu, prio: int)
    requires CpuShape(c) && prio != 0 && QuantumOk(c)
    ensures QuantumOk(CreateCpu(c, prio))
  {
  }

  // ---------- queue stamps ----------

  lemma SinceInterrupt(c: Cpu, blocks: bool, q: nat)
    requires CpuShape(c) && q < |c.tasks| && (blocks || c.running != Some(q))
    ensures Interrupt(c, blocks).tasks[q].since == c.tasks[q].since
  {
    ContendersAre(c, blocks);
  }

  lemma SinceServed(c: Cpu, p: nat, q: nat)
    requires CpuShape(c) && p < |c.tasks| && q < |c.tasks| && p != q && c.running != Some(q)
    ensures Interrupt(Wake(c, p), false).tasks[q].since == c.tasks[q].since
  {
    SinceInterrupt(Wake(c, p), false, q);
  }

  lemma SinceLoaded(c: Cpu, p: nat, evicted: seq<nat>, q: nat)
    requires CpuShape(c) && p < |c.tasks| && q < |c.tasks| && c.running != Some(q)
    ensures LoadCpu(c, p, evicted).tasks[q].since == c.tasks[q].since
  {
    SinceInterrupt(MarkReady(SetStatus(c, p, Waiting), evicted), false, q);
  }

  lemma SinceFinishing(c: Cpu, p: nat, q: nat)
    requires CpuShape(c) && c.running == Some(p) && q < |c.tasks|
    ensures Forward(SetStatus(c, p, Finished)).tasks[q].since == c.tasks[q].since
  {
  }

  /** A process that is not queued keeps its stamp unless the move wakes it. */
  lemma MoveSince(c: Cpu, m: Move, q: nat)
    requires CpuShape(c) && Fits(c, m) && q < |c.tasks| && c.running != Some(q)
    requires (m.Woken? || m.Served?) ==> m.p != q
    requires (m.BlockedOnP? || m.Finishing?) ==> c.running == Some(m.p)
    ensures Do(c, m).tasks[q].since == c.tasks[q].since
  {
    match m
    case Interrupted(blocks) => SinceInterrupt(c, blocks, q);
    case BlockedOnP(p) => SinceInterrupt(Stamp(c, p), true, q);
    case Served(p) => SinceServed(c, p, q);
    case AfterLoad(p, evicted) => SinceLoaded(c, p, evicted, q);
    case Finishing(p) => SinceFinishing(c, p, q);
    case _ =>
  }
}
