/** The CPU side of the simulator: scheduler/scheduler.c and process_interrupt of cpu/cpu.c.

    Every process is the record at its id in `tasks`; the queue holds ids.  Fields marked
    (history) exist only to state properties: no routine reads them. */
module Scheduler {
  import opened Seqs

  const QUANTUM_TIME_TOTAL: nat := 5000
  const P_COST: nat := 200

  datatype Status = Ready | Waiting | Finished | Running

  /** `since` is when the process joined the queue it is in (history). */
  datatype Task = Task(prio: int, status: Status, remaining: int, since: nat)

  /** `clock` stamps queue entries; `units` and `locks` count what the current dispatch
      ran and acquired (all history). */
  datatype Cpu = Cpu(
    tasks: seq<Task>, running: Option<nat>, ready: seq<nat>, newProcess: bool,
    clock: nat, units: int, locks: int)

  predicate InRange(s: seq<nat>, n: nat) {
    forall i :: 0 <= i < |s| ==> s[i] < n
  }

  /** Every id names a process, and dispatching never divides by zero. */
  ghost predicate CpuShape(c: Cpu) {
    && (c.running.Some? ==> c.running.value < |c.tasks|)
    && InRange(c.ready, |c.tasks|)
    && (forall q :: 0 <= q < |c.tasks| ==> c.tasks[q].prio != 0)
  }

  function Prios(tasks: seq<Task>, s: seq<nat>): (r: seq<int>)
    requires InRange(s, |tasks|)
    ensures |r| == |s|
  {
    seq(|s|, i requires 0 <= i < |s| => tasks[s[i]].prio)
  }

  function SetStatus(c: Cpu, p: nat, status: Status): (r: Cpu)
    requires p < |c.tasks|
    ensures CpuShape(c) ==> CpuShape(r)
  {
    c.(tasks := c.tasks[p := c.tasks[p].(status := status)])
  }

  /** Joining a queue is stamped with the time it happened. */
  function Stamp(c: Cpu, p: nat): (r: Cpu)
    requires p < |c.tasks|
    ensures CpuShape(c) ==> CpuShape(r)
  {
    c.(tasks := c.tasks[p := c.tasks[p].(since := c.clock)], clock := c.clock + 1)
  }

  /** add_process_scheduler. */
  function Enqueue(c: Cpu, p: nat): (r: Cpu)
    requires CpuShape(c) && p < |c.tasks|
    ensures CpuShape(r) && |r.tasks| == |c.tasks| && r.clock >= c.clock
  {
    var slot := Slot(Prios(c.tasks, c.ready), c.tasks[p].prio);
    Stamp(c, p).(ready := InsertAt(c.ready, slot, p))
  }

  /** The second half of forward_scheduling: the head of the ready queue gets the CPU. */
  function Dispatch(c: Cpu): (r: Cpu)
    requires CpuShape(c)
    ensures CpuShape(r) && |r.tasks| == |c.tasks| && r.clock >= c.clock
  {
    if c.ready == [] then c.(running := None, units := 0, locks := 0)
    else
      var p := c.ready[0];
      var x := c.tasks[p];
      c.(running := Some(p), ready := c.ready[1..], units := 0, locks := 0,
         tasks := c.tasks[p := x.(status := Running, remaining := QUANTUM_TIME_TOTAL / x.prio)])
  }

  /** The first half of forward_scheduling: a process that can still run is queued again. */
  function Requeue(c: Cpu): (r: Cpu)
    requires CpuShape(c)
    ensures CpuShape(r) && |r.tasks| == |c.tasks| && r.clock >= c.clock && r.running == None
  {
    match c.running
    case None => c
    case Some(p) =>
      var c' := c.(running := None);
      if c.tasks[p].status == Ready || c.tasks[p].status == Running then Enqueue(c', p) else c'
  }

  function Forward(c: Cpu): (r: Cpu)
    requires CpuShape(c)
    ensures CpuShape(r) && |r.tasks| == |c.tasks| && r.clock >= c.clock
  {
    Dispatch(Requeue(c))
  }

  /** The status change of process_interrupt; `blocks` for the semaphore, disk-request and
      print-request kinds. */
  function Mark(c: Cpu, blocks: bool): (r: Cpu)
    requires CpuShape(c)
    ensures CpuShape(r) && |r.tasks| == |c.tasks| && r.clock >= c.clock && r.running == c.running
  {
    match c.running
    case None => c
    case Some(p) => SetStatus(c, p, if blocks then Waiting else Ready)
  }

  /** Who competes for the CPU at an interrupt: the queue, with the interrupted process back in
      it unless it blocks. */
  function Contenders(c: Cpu, blocks: bool): (r: Cpu)
    requires CpuShape(c)
    ensures CpuShape(r) && |r.tasks| == |c.tasks| && r.clock >= c.clock && r.running == None
  {
    Requeue(Mark(c, blocks))
  }

  /** process_interrupt. */
  function Interrupt(c: Cpu, blocks: bool): (r: Cpu)
    requires CpuShape(c)
    ensures CpuShape(r) && |r.tasks| == |c.tasks| && r.clock >= c.clock && !r.newProcess
  {
    Forward(Mark(c, blocks)).(newProcess := false)
  }

  /** A process made ready by a wake-up: a semaphore hand-off or a device completion. */
  function Wake(c: Cpu, p: nat): (r: Cpu)
    requires CpuShape(c) && p < |c.tasks|
    ensures CpuShape(r) && |r.tasks| == |c.tasks| && r.clock >= c.clock
  {
    Enqueue(SetStatus(c, p, Ready), p)
  }

  /** memory_unload_syscall leaves its process READY, whatever it was. */
  function MarkReady(c: Cpu, s: seq<nat>): (r: Cpu)
    requires CpuShape(c)
    ensures CpuShape(r) && |r.tasks| == |c.tasks| && r.clock >= c.clock
  {
    c.(tasks := seq(|c.tasks|, q requires 0 <= q < |c.tasks| =>
                  if q in s then c.tasks[q].(status := Ready) else c.tasks[q]))
  }

  /** The CPU side of memory_load_syscall. */
  function LoadCpu(c: Cpu, p: nat, evicted: seq<nat>): (r: Cpu)
    requires CpuShape(c) && p < |c.tasks|
    ensures CpuShape(r) && |r.tasks| == |c.tasks| && r.clock >= c.clock
  {
    Interrupt(MarkReady(SetStatus(c, p, Waiting), evicted), false)
  }

  /** The CPU side of process_create_syscall. */
  function CreateCpu(c: Cpu, prio: int): (r: Cpu)
    requires CpuShape(c) && prio != 0
    ensures CpuShape(r) && |r.tasks| == |c.tasks| + 1 && r.clock >= c.clock
  {
    Enqueue(c.(tasks := c.tasks + [Task(prio, Ready, 0, 0)]), |c.tasks|).(newProcess := true)
  }

  /** One EXEC unit of the running process. */
  function RunUnit(c: Cpu, p: nat): (r: Cpu)
    requires p < |c.tasks|
    ensures CpuShape(c) ==> CpuShape(r)
  {
    var x := c.tasks[p];
    c.(tasks := c.tasks[p := x.(remaining := x.remaining - 1)], units := c.units + 1)
  }

  /** The price of a semaphore the running process acquired. */
  function PayLock(c: Cpu, p: nat): (r: Cpu)
    requires p < |c.tasks|
    ensures CpuShape(c) ==> CpuShape(r)
  {
    var x := c.tasks[p];
    c.(tasks := c.tasks[p := x.(remaining := x.remaining - P_COST)], locks := c.locks + 1)
  }

  // ---------- who is on the CPU or ready ----------

  function One(b: bool): nat { if b then 1 else 0 }

  /** How often a process occurs on the CPU and in the ready queue. */
  function Queued(c: Cpu, q: nat): nat {
    One(c.running == Some(q)) + multiset(c.ready)[q]
  }

  /** An interrupt loses nobody: only a blocking one takes the running process away. */
  lemma QueuedInterrupt(c: Cpu, blocks: bool, q: nat)
    requires CpuShape(c)
    ensures Queued(Interrupt(c, blocks), q) == Queued(c, q) - One(blocks && c.running == Some(q))
  {
    ContendersAre(c, blocks);
    QueuedDispatch(Contenders(c, blocks), q);
  }

  lemma QueuedDispatch(c: Cpu, q: nat)
    requires CpuShape(c) && c.running == None
    ensures Queued(Dispatch(c), q) == Queued(c, q)
  {
    if c.ready != [] { HeadTail(c.ready); }
  }

  lemma QueuedWake(c: Cpu, p: nat, q: nat)
    requires CpuShape(c) && p < |c.tasks|
    ensures Queued(Wake(c, p), q) == Queued(c, q) + One(p == q)
  {
  }

  // ---------- statuses ----------

  /** Statuses while the CPU may be between two dispatches. */
  ghost predicate Loose(c: Cpu) {
    && (forall q :: 0 <= q < |c.tasks| && c.tasks[q].status == Running ==> c.running == Some(q))
    && (forall i :: 0 <= i < |c.ready| && c.ready[i] < |c.tasks| ==> c.tasks[c.ready[i]].status == Ready)
  }

  /** Only the running process is RUNNING, and every queued-ready process is READY. */
  ghost predicate StatusOk(c: Cpu) {
    && Loose(c)
    && (c.running.Some? && c.running.value < |c.tasks| ==> c.tasks[c.running.value].status == Running)
  }

  /** Nobody is queued twice or both running and ready. */
  ghost predicate Once(c: Cpu) {
    && Distinct(c.ready)
    && (c.running.Some? ==> c.running.value !in c.ready)
  }

  lemma LooseEnqueue(c: Cpu, p: nat)
    requires CpuShape(c) && p < |c.tasks| && Loose(c) && c.tasks[p].status == Ready
    ensures Loose(Enqueue(c, p))
  {
  }

  lemma StatusDispatch(c: Cpu)
    requires CpuShape(c) && Loose(c) && c.running == None && Distinct(c.ready)
    ensures StatusOk(Dispatch(c))
    ensures Dispatch(c).running == None ==> Dispatch(c).ready == []
  {
  }

  /** The contenders, spelled out: one insert in the queue, or none. */
  lemma ContendersAre(c: Cpu, blocks: bool)
    requires CpuShape(c)
    ensures Interrupt(c, blocks) == Dispatch(Contenders(c, blocks)).(newProcess := false)
    ensures Contenders(c, blocks) ==
      match c.running
      case None => c
      case Some(p) =>
        var c' := SetStatus(c, p, if blocks then Waiting else Ready).(running := None);
        if blocks then c' else Enqueue(c', p)
  {
  }

  lemma ContendersDistinct(c: Cpu, blocks: bool)
    requires CpuShape(c) && Once(c)
    ensures Distinct(Contenders(c, blocks).ready)
  {
    ContendersAre(c, blocks);
    if c.running.Some? && !blocks {
      var c' := SetStatus(c, c.running.value, Ready);
      DistinctInsert(c.ready, Slot(Prios(c'.tasks, c.ready), c'.tasks[c.running.value].prio), c.running.value);
    }
  }

  /** Exactly the processes outside `pcb` are FINISHED. */
  ghost predicate FinishedOutside(c: Cpu, pcb: seq<nat>) {
    forall q :: 0 <= q < |c.tasks| ==> (c.tasks[q].status == Finished <==> q !in pcb)
  }

  /** The CPU idles only when nothing is ready or a creation is about to be noticed. */
  ghost predicate WorkConserving(c: Cpu) {
    c.running == None ==> c.ready == [] || c.newProcess
  }

  ghost predicate CpuOk(c: Cpu, pcb: seq<nat>) {
    StatusOk(c) && FinishedOutside(c, pcb) && WorkConserving(c)
  }

  /** What an interrupt may start from. */
  ghost predicate CpuPending(c: Cpu, pcb: seq<nat>) {
    Loose(c) && Once(c) && FinishedOutside(c, pcb) && (c.running.Some? ==> c.running.value in pcb)
  }

  lemma FinishedDispatch(c: Cpu, pcb: seq<nat>)
    requires CpuShape(c) && Loose(c) && FinishedOutside(c, pcb)
    ensures FinishedOutside(Dispatch(c), pcb)
  {
  }

  lemma LooseContenders(c: Cpu, pcb: seq<nat>, blocks: bool)
    requires CpuShape(c) && CpuPending(c, pcb)
    ensures Loose(Contenders(c, blocks)) && FinishedOutside(Contenders(c, blocks), pcb)
  {
    ContendersAre(c, blocks);
    if c.running.Some? {
      var c1 := SetStatus(c, c.running.value, if blocks then Waiting else Ready).(running := None);
      assert Loose(c1);
      if !blocks { LooseEnqueue(c1, c.running.value); }
    }
  }

  lemma InterruptOk(c: Cpu, pcb: seq<nat>, blocks: bool)
    requires CpuShape(c) && CpuPending(c, pcb)
    ensures CpuOk(Interrupt(c, blocks), pcb)
  {
    var d := Contenders(c, blocks);
    ContendersDistinct(c, blocks);
    LooseContenders(c, pcb, blocks);
    StatusDispatch(d);
    FinishedDispatch(d, pcb);
    assert Interrupt(c, blocks) == Dispatch(d).(newProcess := false);
  }

  /** A process that finishes leaves the CPU to the next. */
  lemma FinishOk(c: Cpu, p: nat, pcb: seq<nat>, pcb': seq<nat>)
    requires CpuShape(c) && CpuPending(c, pcb) && c.running == Some(p)
    requires forall q :: q in pcb' <==> q in pcb && q != p
    ensures CpuOk(Forward(SetStatus(c, p, Finished)), pcb')
  {
    var c' := SetStatus(c, p, Finished).(running := None);
    assert Requeue(SetStatus(c, p, Finished)) == c';
    assert Loose(c') && FinishedOutside(c', pcb');
    StatusDispatch(c');
    FinishedDispatch(c', pcb');
  }

  lemma WakeOk(c: Cpu, pcb: seq<nat>, p: nat)
    requires CpuShape(c) && p < |c.tasks| && p in pcb
    requires Queued(c, p) == 0 && CpuPending(c, pcb)
    ensures CpuPending(Wake(c, p), pcb)
    ensures StatusOk(c) ==> StatusOk(Wake(c, p))
  {
    hide InsertAt, Slot;
    assert p !in c.ready by { assert multiset(c.ready)[p] == 0; }
    var c1 := SetStatus(c, p, Ready);
    LooseEnqueue(c1, p);
    DistinctInsert(c.ready, Slot(Prios(c1.tasks, c.ready), c1.tasks[p].prio), p);
  }

  // ---------- dispatch order ----------

  /** `a` goes before `b`: smaller priority number, or equal and longer queued. */
  predicate Before(a: Task, b: Task) {
    a.prio < b.prio || (a.prio == b.prio && a.since < b.since)
  }

  /** The ready queue is ordered by priority and, within one priority, by arrival. */
  ghost predicate QueueOrder(c: Cpu) {
    && (forall i, j :: 0 <= i < j < |c.ready| && c.ready[i] < |c.tasks| && c.ready[j] < |c.tasks| ==>
          Before(c.tasks[c.ready[i]], c.tasks[c.ready[j]]))
    && (forall i :: 0 <= i < |c.ready| && c.ready[i] < |c.tasks| ==> c.tasks[c.ready[i]].since < c.clock)
  }

  lemma OrderEnqueue(c: Cpu, p: nat)
    requires CpuShape(c) && p < |c.tasks| && p !in c.ready && QueueOrder(c)
    ensures QueueOrder(Enqueue(c, p))
  {
    hide Enqueue, InsertAt, Slot;
    var r := Enqueue(c, p);
    forall i, j | 0 <= i < j < |r.ready| ensures Before(r.tasks[r.ready[i]], r.tasks[r.ready[j]]) {
      EnqueuedBefore(c, p, i, j);
    }
    forall i | 0 <= i < |r.ready| ensures r.tasks[r.ready[i]].since < r.clock { EnqueuedSince(c, p, i); }
  }

  lemma EnqueuedSince(c: Cpu, p: nat, i: nat)
    requires CpuShape(c) && p < |c.tasks| && p !in c.ready && QueueOrder(c) && i < |Enqueue(c, p).ready|
    ensures var r := Enqueue(c, p); r.tasks[r.ready[i]].since < r.clock
  {
    var slot := Slot(Prios(c.tasks, c.ready), c.tasks[p].prio);
    if i != slot { assert Enqueue(c, p).ready[i] == c.ready[if i < slot then i else i - 1]; }
  }

  lemma EnqueuedBefore(c: Cpu, p: nat, i: nat, j: nat)
    requires CpuShape(c) && p < |c.tasks| && p !in c.ready && QueueOrder(c) && i < j < |Enqueue(c, p).ready|
    ensures var r := Enqueue(c, p); Before(r.tasks[r.ready[i]], r.tasks[r.ready[j]])
  {
    var r := Enqueue(c, p);
    var keys := Prios(c.tasks, c.ready);
    var slot := Slot(keys, c.tasks[p].prio);
    if i == slot {
      assert keys[slot] > c.tasks[p].prio && r.ready[j] == c.ready[j - 1];
      assert j - 1 > slot ==> Before(c.tasks[c.ready[slot]], c.tasks[c.ready[j - 1]]);
    } else if j == slot {
      assert r.ready[i] == c.ready[i] && keys[i] <= c.tasks[p].prio;
    } else {
      assert r.ready[i] == c.ready[if i < slot then i else i - 1];
      assert r.ready[j] == c.ready[if j < slot then j else j - 1];
    }
  }

  lemma OrderDispatch(c: Cpu)
    requires CpuShape(c) && Distinct(c.ready) && QueueOrder(c)
    ensures QueueOrder(Dispatch(c))
  {
  }

  lemma OrderContenders(c: Cpu, blocks: bool)
    requires CpuShape(c) && Once(c) && QueueOrder(c)
    ensures QueueOrder(Contenders(c, blocks))
  {
    ContendersAre(c, blocks);
    if c.running.Some? && !blocks {
      OrderEnqueue(SetStatus(c, c.running.value, Ready).(running := None), c.running.value);
    }
  }

  lemma OrderInterrupt(c: Cpu, blocks: bool)
    requires CpuShape(c) && Once(c) && QueueOrder(c)
    ensures QueueOrder(Interrupt(c, blocks))
  {
    ContendersAre(c, blocks);
    ContendersDistinct(c, blocks);
    OrderContenders(c, blocks);
    OrderDispatch(Contenders(c, blocks));
  }

  ghost predicate RunsFirst(c: Cpu) {
    c.running.Some? && c.running.value < |c.tasks| ==>
      forall i :: 0 <= i < |c.ready| && c.ready[i] < |c.tasks| ==>
        Before(c.tasks[c.running.value], c.tasks[c.ready[i]])
  }

  lemma HeadFirst(c: Cpu)
    requires CpuShape(c) && Distinct(c.ready) && QueueOrder(c)
    ensures RunsFirst(Dispatch(c))
  {
    var r := Dispatch(c);
    forall i | 0 <= i < |r.ready| ensures Before(r.tasks[r.running.value], r.tasks[r.ready[i]]) {
      assert r.ready[i] == c.ready[i + 1];
      assert Before(c.tasks[c.ready[0]], c.tasks[c.ready[i + 1]]);
    }
  }

  /** Whoever an interrupt dispatches goes before everybody it leaves queued, the preempted
      process included: the longest queued among those of least priority number. */
  lemma DispatchesFirst(c: Cpu, blocks: bool)
    requires CpuShape(c) && Once(c) && QueueOrder(c)
    ensures RunsFirst(Interrupt(c, blocks))
    ensures Interrupt(c, blocks).running.Some? <==> c.ready != [] || (c.running.Some? && !blocks)
  {
    ContendersAre(c, blocks);
    ContendersDistinct(c, blocks);
    OrderContenders(c, blocks);
    HeadFirst(Contenders(c, blocks));
  }

  /** A preempted process keeps the CPU exactly when its number is strictly smaller than that
      of every ready process. */
  lemma ResumesIff(c: Cpu)
    requires CpuShape(c) && Once(c) && QueueOrder(c) && c.running.Some?
    ensures Interrupt(c, false).running == c.running <==>
      forall i :: 0 <= i < |c.ready| ==> c.tasks[c.running.value].prio < c.tasks[c.ready[i]].prio
  {
  }

  // ---------- quantum ----------

  /** The running process has left what its quantum leaves after the units and semaphores of
      this dispatch; what it has overdrawn is less than one semaphore. */
  ghost predicate QuantumOk(c: Cpu) {
    && c.units >= 0 && c.locks >= 0
    && (c.running.Some? && c.running.value < |c.tasks| && c.tasks[c.running.value].prio != 0 ==>
          var x := c.tasks[c.running.value];
          var q := QUANTUM_TIME_TOTAL / x.prio;
          && x.remaining == q - c.units - P_COST * c.locks
          && (x.prio > 0 ==> 0 < x.remaining + P_COST)
          && c.units + P_COST * c.locks < (if q > 0 then q else 0) + P_COST)
  }
}
