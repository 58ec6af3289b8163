/** The simulator's global variables and the routines that update them in place, each proved
    to do what the step machine's function says.

    The contracts speak of `Abs`, the machine's state the variables stand for.  Small methods
    carry out one assignment; the routines are composed of them without looking inside `Abs`. */
module Kernel {
  import opened Seqs
  import opened Records
  import opened SecondChance
  import opened Machine
  import S = Scheduler
  import M = Paging
  import T = PageTable

  datatype Interruption =
    | SemaphoreInterruption | DiskRequestInterruption | PrintRequestInterruption
    | NewProcessInterruption | QuantumInterruption | MemoryInterruption
    | DiskFinishedInterruption | PrintFinishedInterruption

  predicate Blocks(kind: Interruption) {
    kind.SemaphoreInterruption? || kind.DiskRequestInterruption? || kind.PrintRequestInterruption?
  }

  ghost function TaskOf(p: Process): S.Task
    reads p`status, p`remainingTime, p`since
  {
    S.Task(p.priority, p.status, p.remainingTime, p.since)
  }

  ghost function SegOf(x: Segment): M.Segment
    reads x`presentBit, x`usedBit
  {
    M.Segment(x.id, x.numPages, x.presentBit, x.usedBit)
  }

  ghost function TextOf(p: Process): Text
    reads p`pc, p`held, p.segment`instructions, p.segment`exec, p.segment`units
  {
    Text(p.segment.program, p.segment.instructions, p.pc, p.segment.exec, p.segment.units, p.held)
  }

  ghost function SemOf(x: Semaphore): Sem
    reads x`owner, x`waiting
  {
    Sem(x.name, x.owner, Ids(x.waiting))
  }

  ghost function TasksOf(s: seq<Process>): (r: seq<S.Task>)
    reads s`status, s`remainingTime, s`since
    ensures |r| == |s| && forall i :: 0 <= i < |s| ==> r[i] == TaskOf(s[i])
  {
    if s == [] then [] else TasksOf(s[..|s| - 1]) + [TaskOf(s[|s| - 1])]
  }

  ghost function SegsOf(s: seq<Process>): (r: seq<M.Segment>)
    reads (set p <- s :: p.segment)`presentBit, (set p <- s :: p.segment)`usedBit
    ensures |r| == |s| && forall i :: 0 <= i < |s| ==> r[i] == SegOf(s[i].segment)
  {
    if s == [] then [] else SegsOf(s[..|s| - 1]) + [SegOf(s[|s| - 1].segment)]
  }

  ghost function TextsOf(s: seq<Process>): (r: seq<Text>)
    reads s`pc, s`held
    reads (set p <- s :: p.segment)`instructions, (set p <- s :: p.segment)`exec, (set p <- s :: p.segment)`units
    ensures |r| == |s| && forall i :: 0 <= i < |s| ==> r[i] == TextOf(s[i])
  {
    if s == [] then [] else TextsOf(s[..|s| - 1]) + [TextOf(s[|s| - 1])]
  }

  ghost function SemsOf(s: seq<Semaphore>): (r: seq<Sem>)
    reads s`owner, s`waiting
    ensures |r| == |s| && forall i :: 0 <= i < |r| ==> r[i] == SemOf(s[i])
  {
    if s == [] then [] else SemsOf(s[..|s| - 1]) + [SemOf(s[|s| - 1])]
  }

  ghost function DiskOf(s: seq<DiskRequest>): (r: seq<DiskReq>)
    ensures |r| == |s| && forall i :: 0 <= i < |r| ==> r[i] == DiskReq(s[i].process.id, s[i].track)
  {
    seq(|s|, i requires 0 <= i < |s| => DiskReq(s[i].process.id, s[i].track))
  }

  ghost function PrintsOf(s: seq<PrintRequest>): (r: seq<PrintReq>)
    ensures |r| == |s| && forall i :: 0 <= i < |r| ==> r[i] == PrintReq(s[i].id, s[i].process.id, s[i].time)
  {
    seq(|s|, i requires 0 <= i < |s| => PrintReq(s[i].id, s[i].process.id, s[i].time))
  }

  lemma OneMore(s: seq<Process>, p: Process)
    ensures TasksOf(s + [p]) == TasksOf(s) + [TaskOf(p)]
    ensures SegsOf(s + [p]) == SegsOf(s) + [SegOf(p.segment)]
    ensures TextsOf(s + [p]) == TextsOf(s) + [TextOf(p)]
  {
  }

  lemma IdsInsert(s: seq<Process>, i: nat, p: Process)
    requires i <= |s|
    ensures Ids(InsertAt(s, i, p)) == InsertAt(Ids(s), i, p.id)
  {
  }

  lemma IdsRest(s: seq<Process>)
    requires s != []
    ensures Ids(s[1..]) == Ids(s)[1..]
  {
  }

  /** Whoever runs need not leave the CPU before the next is dispatched. */
  lemma ForwardIs(c: S.Cpu)
    requires S.CpuShape(c)
    ensures S.Forward(c) == S.Dispatch(
      if c.running.Some?
        && (c.tasks[c.running.value].status == S.Ready || c.tasks[c.running.value].status == S.Running)
      then S.Enqueue(c, c.running.value) else c)
  {
  }

  class Kernel {
    const memory: T.Table
    var segments: seq<Segment>
    var semaphores: seq<Semaphore>
    var pcb: seq<Process>
    var running: Process?
    var ready: seq<Process>
    var newProcess: bool
    var requests: seq<DiskRequest>
    var prints: seq<PrintRequest>
    var printsId: nat
    var nextId: nat
    /** Every process ever created, by id; every object of the simulator; and history. */
    ghost var all: seq<Process>
    ghost var repr: set<object>
    ghost var clock: nat
    ghost var units: int
    ghost var locks: int
    ghost var served: nat

    ghost predicate Known(p: Process)
      reads this`all
    {
      p.id < |all| && all[p.id] == p
    }

    ghost predicate AllKnown(s: seq<Process>)
      reads this`all
    {
      forall i :: 0 <= i < |s| ==> Known(s[i])
    }

    /** Every object is in `repr`, and a process stands in `all` at its id. */
    ghost predicate Objects()
      reads this`all, this`repr, this`nextId, this`semaphores
    {
      && this in repr && memory in repr && memory.pages in repr && memory.Valid()
      && nextId == |all|
      && (forall i :: 0 <= i < |all| ==> all[i] in repr && all[i].segment in repr)
      && (forall i :: 0 <= i < |all| ==> all[i].id == all[i].segment.idProcess == i && all[i].priority != 0)
      && (forall i :: 0 <= i < |semaphores| ==> semaphores[i] in repr)
      && Distinct(semaphores)
    }

    ghost predicate WaitersKnown()
      reads this`all, this`semaphores, semaphores`waiting
    {
      forall i :: 0 <= i < |semaphores| ==> AllKnown(semaphores[i].waiting)
    }

    ghost predicate SegmentsKnown()
      reads this`all, this`segments
    {
      forall i :: 0 <= i < |segments| ==>
        segments[i].idProcess < |all| && all[segments[i].idProcess].segment == segments[i]
    }

    ghost predicate RequestsKnown()
      reads this`all, this`requests, this`prints
    {
      && (forall i :: 0 <= i < |requests| ==> Known(requests[i].process))
      && (forall i :: 0 <= i < |prints| ==> Known(prints[i].process))
    }

    /** The queues, lists and requests hold known processes. */
    ghost predicate Valid()
      reads this, repr
    {
      && Objects()
      && (running != null ==> Known(running))
      && AllKnown(ready) && AllKnown(pcb)
      && WaitersKnown() && SegmentsKnown() && RequestsKnown()
    }

    ghost function SegmentSet(): (r: set<Segment>)
      reads this`all
      ensures forall i :: 0 <= i < |all| ==> all[i].segment in r
    {
      set p <- all :: p.segment
    }

    // ---------- what the variables stand for ----------

    ghost function Abs(): (r: State)
      reads this, repr
      requires Valid()
      ensures Shape(r)
    {
      State(S.Cpu(TasksOf(all), if running == null then None else Some(running.id), Ids(ready), newProcess,
                  clock, units, locks),
            M.Mem(SegsOf(all), Owners(segments), memory.numFreePages),
            TextsOf(all), Ids(pcb), SemsOf(semaphores), DiskOf(requests), PrintsOf(prints), printsId, served)
    }

    constructor ()
      ensures Valid() && fresh(repr) && Abs() == INIT
      ensures forall i :: 0 <= i < M.NUM_PAGES ==> memory.Entries()[i].free
    {
      memory := new T.Table();
      segments, semaphores, pcb, running, ready, newProcess := [], [], [], null, [], false;
      requests, prints, printsId, nextId := [], [], 0, 0;
      all, clock, units, locks, served := [], 0, 0, 0, 0;
      new;
      repr := {this, memory, memory.pages};
    }

    lemma Footprint()
      requires Valid()
      ensures {this, memory, memory.pages} <= repr && SegmentSet() <= repr
      ensures forall p :: p in all ==> p in repr && p.segment in SegmentSet()
      ensures forall x :: x in semaphores ==> x in repr
      ensures Objects()
    {
    }

    // ---------- what one assignment changes ----------

    twostate lemma TaskChanged(p: Process)
      requires Objects() && Known(p) && all == old(all)
      requires forall i :: 0 <= i < |all| && i != p.id ==> TaskOf(all[i]) == old(TaskOf(all[i]))
      ensures TasksOf(all) == old(TasksOf(all))[p.id := TaskOf(p)]
    {
      hide TasksOf;
    }

    twostate lemma TextChanged(p: Process)
      requires Objects() && Known(p) && all == old(all)
      requires forall i :: 0 <= i < |all| && i != p.id ==> TextOf(all[i]) == old(TextOf(all[i]))
      ensures TextsOf(all) == old(TextsOf(all))[p.id := TextOf(p)]
    {
      hide TextsOf;
    }

    twostate lemma SegChanged(p: Process)
      requires Objects() && Known(p) && all == old(all)
      requires forall i :: 0 <= i < |all| && i != p.id ==> SegOf(all[i].segment) == old(SegOf(all[i].segment))
      ensures SegsOf(all) == old(SegsOf(all))[p.id := SegOf(p.segment)]
    {
      hide SegsOf;
    }

    twostate lemma SemChanged(i: nat)
      requires Objects() && i < |semaphores| && semaphores == old(semaphores)
      requires forall j :: 0 <= j < |semaphores| && j != i ==> SemOf(semaphores[j]) == old(SemOf(semaphores[j]))
      ensures SemsOf(semaphores) == old(SemsOf(semaphores))[i := SemOf(semaphores[i])]
    {
      hide SemsOf;
    }

    /** What a known process reads as. */
    lemma ProcessIs(p: Process)
      requires Valid() && Known(p)
      ensures var st := Abs();
        && Shape(st) && p.id < |st.texts|
        && st.texts[p.id] == TextOf(p) && st.cpu.tasks[p.id] == TaskOf(p) && st.mem.segs[p.id] == SegOf(p.segment)
    {
    }

    // ---------- scheduler/scheduler.c ----------

    method SetStatus(p: Process, status: S.Status)
      requires Valid() && Known(p)
      modifies p`status
      ensures Valid()
      ensures var st := old(Abs()); Abs() == st.(cpu := S.SetStatus(st.cpu, p.id, status))
    {
      hide TasksOf, SegsOf, TextsOf, SemsOf, DiskOf, PrintsOf, WaitersKnown, SegmentsKnown, RequestsKnown,
        Ids, Owners, Shape, S.CpuShape;
      p.status := status;
      TaskChanged(p);
    }

    /** The search of add_process_scheduler: behind every process of an equal or smaller
        priority number. */
    method FindSlot(p: Process) returns (i: nat)
      requires Valid() && Known(p)
      ensures i == Slot(S.Prios(Abs().cpu.tasks, Abs().cpu.ready), p.priority)
    {
      hide TasksOf;
      ghost var keys := S.Prios(TasksOf(all), Ids(ready));
      i := 0;
      while i < |ready| && ready[i].priority <= p.priority
        invariant 0 <= i <= |ready| && forall j :: 0 <= j < i ==> keys[j] <= p.priority
      {
        i := i + 1;
      }
      SlotFound(keys, p.priority, i);
    }

    method Join(p: Process, i: nat)
      requires Valid() && Known(p) && i <= |Abs().cpu.ready|
      modifies this`ready
      ensures Valid()
      ensures var st := old(Abs()); Abs() == st.(cpu := st.cpu.(ready := InsertAt(st.cpu.ready, i, p.id)))
    {
      hide TasksOf, SegsOf, TextsOf, SemsOf, DiskOf, PrintsOf, Objects, WaitersKnown, SegmentsKnown,
        RequestsKnown, Ids, Owners, InsertAt;
      IdsInsert(ready, i, p);
      ready := InsertAt(ready, i, p);
    }

    ghost method Stamp(p: Process)
      requires Valid() && Known(p)
      modifies this`clock, p`since
      ensures Valid()
      ensures var st := old(Abs()); Abs() == st.(cpu := S.Stamp(st.cpu, p.id))
    {
      hide TasksOf, SegsOf, TextsOf, SemsOf, DiskOf, PrintsOf, WaitersKnown, SegmentsKnown, RequestsKnown,
        Ids, Owners, Shape, S.CpuShape;
      p.since := clock;
      clock := clock + 1;
      TaskChanged(p);
    }

    lemma Readable(p: Process)
      requires Valid() && Known(p)
      ensures Abs().cpu.tasks[p.id].prio == p.priority
    {
    }

    /** add_process_scheduler. */
    method AddProcessScheduler(p: Process)
      requires Valid() && Known(p)
      modifies this`ready, this`clock, p`since
      ensures Valid()
      ensures var st := old(Abs()); Abs() == st.(cpu := S.Enqueue(st.cpu, p.id))
    {
      hide Valid, Abs, Objects, Shape, InsertAt, Slot, S.Prios, S.CpuShape;
      Readable(p);
      var i := FindSlot(p);
      Join(p, i);
      Stamp(p);
    }

    lemma RunningIs()
      requires Valid()
      ensures S.CpuShape(Abs().cpu) && Abs().cpu.newProcess == newProcess
      ensures running == null ==> Abs().cpu.running == None
      ensures running != null ==>
        && Known(running) && Abs().cpu.running == Some(running.id)
        && running.id < |Abs().cpu.tasks| && Abs().cpu.tasks[running.id] == TaskOf(running)
    {
    }

    /** The dispatch proper of forward_scheduling. */
    method Dispatch()
      requires Valid()
      modifies this`running, this`ready, this`units, this`locks, all`status, all`remainingTime
      ensures Valid()
      ensures var st := old(Abs()); Abs() == st.(cpu := S.Dispatch(st.cpu))
    {
      hide Valid, Abs, Objects, Shape;
      RunningIs();
      TakeHead();
      RunningIs();
      if running != null { StartQuantum(running); }
    }

    /** The head of the ready queue, if there is one, becomes the running process. */
    method TakeHead()
      requires Valid()
      modifies this`running, this`ready, this`units, this`locks
      ensures Valid()
      ensures var st := old(Abs()); Abs() == st.(cpu :=
        var c := st.cpu.(units := 0, locks := 0);
        if c.ready == [] then c.(running := None) else c.(running := Some(c.ready[0]), ready := c.ready[1..]))
    {
      hide Valid, Abs, Objects, Shape;
      ReadyIs();
      if ready == [] {
        SetRunning(null);
      } else {
        SetRunning(ready[0]);
        DropHead();
      }
      StartCount();
    }

    lemma ReadyIs()
      requires Valid()
      ensures AllKnown(ready) && Ids(ready) == Abs().cpu.ready
    {
    }

    method SetRunning(p: Process?)
      requires Valid() && (p != null ==> Known(p))
      modifies this`running
      ensures Valid()
      ensures var st := old(Abs()); Abs() == st.(cpu := st.cpu.(running := if p == null then None else Some(p.id)))
    {
      hide TasksOf, SegsOf, TextsOf, SemsOf, DiskOf, PrintsOf, Objects, WaitersKnown, SegmentsKnown,
        RequestsKnown, Ids, Owners, Shape, S.CpuShape;
      running := p;
    }

    method DropHead()
      requires Valid() && ready != []
      modifies this`ready
      ensures Valid()
      ensures var st := old(Abs()); Abs() == st.(cpu := st.cpu.(ready := Ids(old(ready))[1..]))
    {
      hide TasksOf, SegsOf, TextsOf, SemsOf, DiskOf, PrintsOf, Objects, WaitersKnown, SegmentsKnown,
        RequestsKnown, Ids, Owners, Shape, S.CpuShape;
      IdsRest(ready);
      ready := ready[1..];
    }

    ghost method StartCount()
      requires Valid()
      modifies this`units, this`locks
      ensures Valid()
      ensures var st := old(Abs()); Abs() == st.(cpu := st.cpu.(units := 0, locks := 0))
    {
      hide TasksOf, SegsOf, TextsOf, SemsOf, DiskOf, PrintsOf, Objects, WaitersKnown, SegmentsKnown,
        RequestsKnown, Ids, Owners, Shape, S.CpuShape;
      units, locks := 0, 0;
    }

    method StartQuantum(p: Process)
      requires Valid() && Known(p)
      modifies p`status, p`remainingTime
      ensures Valid()
      ensures var st := old(Abs()); Abs() == st.(cpu := st.cpu.(tasks :=
        var tasks := st.cpu.tasks;
        tasks[p.id := tasks[p.id].(status := S.Running, remaining := S.QUANTUM_TIME_TOTAL / tasks[p.id].prio)]))
    {
      hide TasksOf, SegsOf, TextsOf, SemsOf, DiskOf, PrintsOf, WaitersKnown, SegmentsKnown, RequestsKnown,
        Ids, Owners, Shape, S.CpuShape;
      p.status := S.Running;
      p.remainingTime := S.QUANTUM_TIME_TOTAL / p.priority;
      TaskChanged(p);
    }

    /** forward_scheduling. */
    method ForwardScheduling()
      requires Valid()
      modifies this`running, this`ready, this`clock, this`units, this`locks
      modifies all`status, all`remainingTime, all`since
      ensures Valid()
      ensures var st := old(Abs()); Abs() == st.(cpu := S.Forward(st.cpu))
    {
      hide Valid, Abs, Objects, Shape, S.Forward, S.Enqueue, S.Dispatch, S.CpuShape;
      RunningIs();
      ForwardIs(Abs().cpu);
      var former := running;
      if former != null && (former.status == S.Ready || former.status == S.Running) {
        AddProcessScheduler(former);
      }
      Dispatch();
    }

    /** process_interrupt. */
    method ProcessInterrupt(kind: Interruption)
      requires Valid()
      modifies this`running, this`ready, this`clock, this`units, this`locks, this`newProcess
      modifies all`status, all`remainingTime, all`since
      ensures Valid()
      ensures var st := old(Abs()); Abs() == st.(cpu := S.Interrupt(st.cpu, Blocks(kind)))
    {
      hide Valid, Abs, Objects, Shape, S.Forward, S.CpuShape, S.SetStatus;
      RunningIs();
      if running != null {
        SetStatus(running, if Blocks(kind) then S.Waiting else S.Ready);
      }
      ForwardScheduling();
      ClearNewProcess();
    }

    method ClearNewProcess()
      requires Valid()
      modifies this`newProcess
      ensures Valid()
      ensures var st := old(Abs()); Abs() == st.(cpu := st.cpu.(newProcess := false))
    {
      hide TasksOf, SegsOf, TextsOf, SemsOf, DiskOf, PrintsOf, Objects, WaitersKnown, SegmentsKnown,
        RequestsKnown, Ids, Owners, Shape, S.CpuShape;
      if newProcess { newProcess := false; }
    }

    // ---------- instructions ----------

    method Advance(p: Process)
      requires Valid() && Known(p)
      modifies p`pc
      ensures Valid()
      ensures var st := old(Abs()); Abs() == SetText(st, p.id, Next(st.texts[p.id]))
    {
      hide TasksOf, SegsOf, TextsOf, SemsOf, DiskOf, PrintsOf, WaitersKnown, SegmentsKnown, RequestsKnown,
        Ids, Owners, Shape, S.CpuShape;
      p.pc := p.pc + 1;
      TextChanged(p);
    }

    ghost method SetHeld(p: Process, held: set<char>)
      requires Valid() && Known(p)
      modifies p`held
      ensures Valid()
      ensures var st := old(Abs()); Abs() == SetText(st, p.id, st.texts[p.id].(held := held))
    {
      hide TasksOf, SegsOf, TextsOf, SemsOf, DiskOf, PrintsOf, WaitersKnown, SegmentsKnown, RequestsKnown,
        Ids, Owners, Shape, S.CpuShape;
      p.held := held;
      TextChanged(p);
    }

    /** The EXEC case on the segment and the program counter. */
    method RunExec(p: Process)
      requires Valid() && Known(p)
      requires p.pc < |p.segment.instructions| && p.segment.instructions[p.pc].Exec?
      modifies p`pc, p.segment`exec, p.segment`instructions, p.segment`units
      ensures Valid()
      ensures var st := old(Abs()); Abs() == SetText(st, p.id, ExecUnit(st.texts[p.id]))
    {
      hide ExecUnit, TextOf, TasksOf, SegsOf, TextsOf, SemsOf, DiskOf, PrintsOf, WaitersKnown,
        SegmentsKnown, RequestsKnown, Ids, Owners, Shape, S.CpuShape;
      ProcessIs(p);
      ExecOn(p);
      TextChanged(p);
    }

    /** One unit of the current EXEC; at the end of the block the operand is put back. */
    static method ExecOn(p: Process)
      requires p.pc < |p.segment.instructions| && p.segment.instructions[p.pc].Exec?
      modifies p`pc, p.segment`exec, p.segment`instructions, p.segment`units
      ensures TextOf(p) == ExecUnit(old(TextOf(p)))
    {
      var x, pc := p.segment, p.pc;
      x.units := x.units + 1;
      x.exec := x.exec + 1;
      var left := x.instructions[pc].operand - 1;
      x.instructions := x.instructions[pc := Exec(left)];
      if left == 0 {
        p.pc := pc + 1;
        x.instructions := x.instructions[pc := Exec(x.exec)];
        x.exec := 0;
      }
    }

    method SpendUnit(p: Process)
      requires Valid() && Known(p)
      modifies p`remainingTime, this`units
      ensures Valid()
      ensures var st := old(Abs()); Abs() == st.(cpu := S.RunUnit(st.cpu, p.id))
    {
      hide TasksOf, SegsOf, TextsOf, SemsOf, DiskOf, PrintsOf, WaitersKnown, SegmentsKnown, RequestsKnown,
        Ids, Owners, Shape, S.CpuShape;
      p.remainingTime := p.remainingTime - 1;
      units := units + 1;
      TaskChanged(p);
    }

    method SpendLock(p: Process)
      requires Valid() && Known(p)
      modifies p`remainingTime, this`locks
      ensures Valid()
      ensures var st := old(Abs()); Abs() == st.(cpu := S.PayLock(st.cpu, p.id))
    {
      hide TasksOf, SegsOf, TextsOf, SemsOf, DiskOf, PrintsOf, WaitersKnown, SegmentsKnown, RequestsKnown,
        Ids, Owners, Shape, S.CpuShape;
      p.remainingTime := p.remainingTime - S.P_COST;
      locks := locks + 1;
      TaskChanged(p);
    }

    // ---------- semaphores ----------

    method SetOwner(i: nat, owner: Option<nat>)
      requires Valid() && i < |semaphores|
      modifies semaphores`owner
      ensures Valid()
      ensures var st := old(Abs()); Abs() == st.(sems := st.sems[i := st.sems[i].(owner := owner)])
    {
      hide TasksOf, SegsOf, TextsOf, SemsOf, DiskOf, PrintsOf, WaitersKnown, SegmentsKnown, RequestsKnown,
        Ids, Owners, Shape, S.CpuShape;
      semaphores[i].owner := owner;
      SemChanged(i);
    }

    method AddWaiter(i: nat, p: Process)
      requires Valid() && i < |semaphores| && Known(p)
      modifies semaphores`waiting
      ensures Valid()
      ensures var st := old(Abs()); Abs() == st.(sems :=
        var sem := st.sems[i]; st.sems[i := sem.(waiting := sem.waiting + [p.id])])
    {
      hide TasksOf, SegsOf, TextsOf, SemsOf, DiskOf, PrintsOf, SegmentsKnown, RequestsKnown, Ids, Owners,
        Shape, S.CpuShape;
      semaphores[i].waiting := semaphores[i].waiting + [p];
      assert Ids(semaphores[i].waiting) == old(Ids(semaphores[i].waiting)) + [p.id];
      SemChanged(i);
    }

    method PopWaiter(i: nat) returns (p: Process)
      requires Valid() && i < |semaphores| && semaphores[i].waiting != []
      modifies semaphores`waiting
      ensures Valid() && Known(p) && p.id == old(Abs()).sems[i].waiting[0]
      ensures var st := old(Abs()); Abs() == st.(sems :=
        var sem := st.sems[i]; st.sems[i := sem.(waiting := sem.waiting[1..])])
    {
      hide TasksOf, SegsOf, TextsOf, SemsOf, DiskOf, PrintsOf, SegmentsKnown, RequestsKnown, Ids, Owners,
        Shape, S.CpuShape;
      p := semaphores[i].waiting[0];
      IdsRest(semaphores[i].waiting);
      semaphores[i].waiting := semaphores[i].waiting[1..];
      SemChanged(i);
    }

    /** The search of find on the semaphore list. */
    method FindSemaphore(name: char) returns (i: nat)
      requires Valid()
      ensures i == FindSem(Abs().sems, name) && |Abs().sems| == |semaphores|
    {
      hide SemsOf;
      ghost var names := SemNames(SemsOf(semaphores));
      i := 0;
      while i < |semaphores| && semaphores[i].name != name
        invariant 0 <= i <= |semaphores| && forall j :: 0 <= j < i ==> names[j] != name as int
      {
        i := i + 1;
      }
      assert i < |names| ==> names[i] == semaphores[i].name as int;
    }

    lemma SemIs(i: nat)
      requires Valid() && i < |semaphores|
      ensures |Abs().sems| == |semaphores| && Abs().sems[i] == SemOf(semaphores[i])
    {
    }

    /** semaphore_p_syscall: granted to `p`, or `p` queues. */
    method SemaphoreP(p: Process, i: nat) returns (granted: bool)
      requires Valid() && Known(p) && i < |semaphores|
      modifies semaphores`owner, semaphores`waiting, p`held, p`since, this`clock
      ensures Valid()
      ensures var st, sem := old(Abs()), old(Abs()).sems[i];
        && granted == (sem.owner == None || sem.owner == Some(p.id))
        && Abs() == if granted
          then SetText(st, p.id, st.texts[p.id].(held := st.texts[p.id].held + {sem.name}))
            .(sems := st.sems[i := sem.(owner := Some(p.id))])
          else st.(sems := st.sems[i := sem.(waiting := sem.waiting + [p.id])], cpu := S.Stamp(st.cpu, p.id))
    {
      hide Valid, Abs, Objects, S.CpuShape, S.Stamp;
      SemIs(i);
      ProcessIs(p);
      var sem := semaphores[i];
      granted := sem.owner == None || sem.owner == Some(p.id);
      if granted {
        SetOwner(i, Some(p.id));
        SetHeld(p, p.held + {sem.name});
      } else {
        AddWaiter(i, p);
        Stamp(p);
      }
    }

    /** The P case of process_instruction. */
    method ExecuteP(p: Process, i: nat)
      requires Valid() && Known(p) && i < |semaphores|
      modifies this`running, this`ready, this`clock, this`units, this`locks, this`newProcess
      modifies all`status, all`remainingTime, all`since, p`held, p`pc, semaphores`owner, semaphores`waiting
      ensures Valid() && Abs() == DoP(old(Abs()), p.id, i)
    {
      hide Valid, Abs, Objects, S.CpuShape, S.Stamp, S.Interrupt, S.PayLock;
      SemIs(i);
      ProcessIs(p);
      var granted := SemaphoreP(p, i);
      Advance(p);
      if granted {
        SpendLock(p);
      } else {
        ProcessInterrupt(SemaphoreInterruption);
      }
    }

    /** semaphore_v_syscall. */
    method SemaphoreV(i: nat)
      requires Valid() && i < |semaphores|
      modifies this`ready, this`clock, all`status, all`since, all`held, semaphores`owner, semaphores`waiting
      ensures Valid() && Abs() == Release(old(Abs()), i)
    {
      hide Valid, Abs, Objects, S.CpuShape, S.Wake;
      SemIs(i);
      SetOwner(i, None);
      SemIs(i);
      if semaphores[i].waiting != [] { HandOff(i); }
    }

    /** The first waiter becomes ready and owner. */
    method HandOff(i: nat)
      requires Valid() && i < |semaphores| && semaphores[i].waiting != []
      modifies this`ready, this`clock, all`status, all`since, all`held, semaphores`owner, semaphores`waiting
      ensures Valid() && Abs() == Release(old(Abs()), i)
    {
      hide Valid, Abs, Objects, Shape, S.CpuShape, S.Enqueue, S.SetStatus, SegOf;
      SemIs(i);
      var p := PopWaiter(i);
      ProcessIs(p);
      SetStatus(p, S.Ready);
      AddProcessScheduler(p);
      SetOwner(i, Some(p.id));
      SetHeld(p, p.held + {semaphores[i].name});
    }

    /** The V case of process_instruction. */
    method ExecuteV(p: Process, i: nat)
      requires Valid() && Known(p) && i < |semaphores|
      modifies this`ready, this`clock, all`status, all`since, all`held, p`pc, semaphores`owner, semaphores`waiting
      ensures Valid() && Abs() == DoV(old(Abs()), p.id, i)
    {
      hide Valid, Abs, Objects, S.CpuShape, Release;
      ghost var st := Abs();
      SemIs(i);
      ProcessIs(p);
      Advance(p);
      ProcessIs(p);
      SetHeld(p, p.held - {semaphores[i].name});
      assert Abs() == SetText(st, p.id, Next(st.texts[p.id]).(held := st.texts[p.id].held - {st.sems[i].name}));
      SemaphoreV(i);
    }

    // ---------- devices ----------

    /** add_disk_request: behind every request for the same or a smaller track. */
    method AddDiskRequest(r: DiskRequest)
      requires Valid() && Known(r.process)
      modifies this`requests
      ensures Valid()
      ensures var st := old(Abs()); Abs() == st.(disk := var disk := st.disk;
        InsertAt(disk, Slot(Tracks(disk), r.track), DiskReq(r.process.id, r.track)))
    {
      hide Valid, Abs, Slot;
      var i := FindTrackSlot(r.track);
      InsertRequest(i, r);
    }

    method FindTrackSlot(track: int) returns (i: nat)
      requires Valid()
      ensures i == Slot(Tracks(Abs().disk), track) && |Abs().disk| == |requests|
    {
      hide DiskOf;
      ghost var keys := Tracks(DiskOf(requests));
      i := 0;
      while i < |requests| && requests[i].track <= track
        invariant 0 <= i <= |requests| && forall j :: 0 <= j < i ==> keys[j] <= track
      {
        i := i + 1;
      }
      SlotFound(keys, track, i);
    }

    method InsertRequest(i: nat, r: DiskRequest)
      requires Valid() && Known(r.process) && i <= |Abs().disk| == |requests|
      modifies this`requests
      ensures Valid()
      ensures var st := old(Abs()); Abs() == st.(disk := InsertAt(st.disk, i, DiskReq(r.process.id, r.track)))
    {
      hide TasksOf, SegsOf, TextsOf, SemsOf, DiskOf, PrintsOf, Objects, WaitersKnown, SegmentsKnown, Ids,
        Owners, Shape, InsertAt, S.CpuShape;
      InsertKnown(requests, i, r);
      requests := InsertAt(requests, i, r);
    }

    lemma InsertKnown(s: seq<DiskRequest>, i: nat, r: DiskRequest)
      requires i <= |s| && Known(r.process) && forall j :: 0 <= j < |s| ==> Known(s[j].process)
      ensures forall j :: 0 <= j < |InsertAt(s, i, r)| ==> Known(InsertAt(s, i, r)[j].process)
      ensures DiskOf(InsertAt(s, i, r)) == InsertAt(DiskOf(s), i, DiskReq(r.process.id, r.track))
    {
    }

    method AddPrintRequest(p: Process, time: int)
      requires Valid() && Known(p)
      modifies this`prints, this`printsId
      ensures Valid()
      ensures var st := old(Abs()); Abs() == st.(prints := st.prints + [PrintReq(st.nextPrint, p.id, time)],
                                   nextPrint := st.nextPrint + 1)
    {
      hide TasksOf, SegsOf, TextsOf, SemsOf, DiskOf, PrintsOf, Objects, WaitersKnown, SegmentsKnown, Ids,
        Owners, Shape, S.CpuShape;
      prints := prints + [PrintRequest(printsId, p, time)];
      printsId := printsId + 1;
      assert PrintsOf(prints) == old(PrintsOf(prints)) + [PrintReq(old(printsId), p.id, time)];
    }

    /** disk_requisition and print_requisition, with the program counter of process_instruction. */
    method Requisition(p: Process, c: Instr)
      requires Valid() && Known(p) && OnDevice(c)
      modifies this`running, this`ready, this`clock, this`units, this`locks, this`newProcess
      modifies this`requests, this`prints, this`printsId
      modifies all`status, all`remainingTime, all`since, p`pc
      ensures Valid() && Abs() == DoDevice(old(Abs()), p.id, c)
    {
      hide Valid, Abs, Objects, S.CpuShape, S.Interrupt;
      ProcessIs(p);
      match c {
        case Print(time) =>
          ProcessInterrupt(PrintRequestInterruption);
          AddPrintRequest(p, time);
        case Read(track) =>
          ProcessInterrupt(DiskRequestInterruption);
          AddDiskRequest(DiskRequest(p, track));
        case Write(track) =>
          ProcessInterrupt(DiskRequestInterruption);
          AddDiskRequest(DiskRequest(p, track));
      }
      Advance(p);
    }

    /** process_instruction. */
    method ProcessInstruction(p: Process)
      requires Valid() && Known(p) && Executable(Abs(), p.id)
      modifies this`running, this`ready, this`clock, this`units, this`locks, this`newProcess
      modifies this`requests, this`prints, this`printsId
      modifies all`status, all`remainingTime, all`since, all`held, p`pc, semaphores`owner, semaphores`waiting
      modifies p.segment`exec, p.segment`instructions, p.segment`units
      ensures Valid() && Abs() == Execute(old(Abs()), p.id)
    {
      hide Valid, Abs, Objects, S.CpuShape, DoDevice, DoP, DoV, ExecUnit, S.RunUnit;
      ProcessIs(p);
      var c := p.segment.instructions[p.pc];
      match c {
        case Exec(_) =>
          RunExec(p);
          SpendUnit(p);
        case P(name) =>
          var i := FindSemaphore(name);
          ExecuteP(p, i);
        case V(name) =>
          var i := FindSemaphore(name);
          ExecuteV(p, i);
        case _ =>
          Requisition(p, c);
      }
    }

    // ---------- memory ----------

    /** find_process: the owner of a segment in the PCB, or NULL. */
    method FindProcess(x: Segment) returns (p: Process?)
      requires Valid()
      ensures p == null <==> x.idProcess !in Abs().pcb
      ensures p != null ==> Known(p) && p.id == x.idProcess
    {
      hide TasksOf, SegsOf, TextsOf, SemsOf, DiskOf, PrintsOf;
      var i := 0;
      while i < |pcb|
        invariant 0 <= i <= |pcb| && forall j :: 0 <= j < i ==> Ids(pcb)[j] != x.idProcess
      {
        if pcb[i].id == x.idProcess { return pcb[i]; }
        i := i + 1;
      }
      return null;
    }

    method MarkUsed(p: Process)
      requires Valid() && Known(p)
      modifies p.segment`usedBit
      ensures Valid()
      ensures var st := old(Abs()); Abs() == st.(mem := M.Touch(st.mem, p.id))
    {
      hide TasksOf, SegsOf, TextsOf, SemsOf, DiskOf, PrintsOf, WaitersKnown, SegmentsKnown, RequestsKnown,
        Ids, Owners, Shape, S.CpuShape, M.MemShape;
      p.segment.usedBit := true;
      SegChanged(p);
    }

    method SetBits(p: Process, present: bool, used: bool)
      requires Valid() && Known(p)
      modifies p.segment`presentBit, p.segment`usedBit
      ensures Valid()
      ensures var st := old(Abs()); Abs() == st.(mem := var m := st.mem;
        m.(segs := m.segs[p.id := m.segs[p.id].(present := present, used := used)]))
    {
      hide TasksOf, SegsOf, TextsOf, SemsOf, DiskOf, PrintsOf, WaitersKnown, SegmentsKnown, RequestsKnown,
        Ids, Owners, Shape, S.CpuShape, M.MemShape;
      p.segment.presentBit := present;
      p.segment.usedBit := used;
      SegChanged(p);
    }

    method PushSegment(p: Process)
      requires Valid() && Known(p)
      modifies this`segments
      ensures Valid()
      ensures var st := old(Abs()); Abs() == st.(mem := var m := st.mem; m.(resident := m.resident + [p.id]))
    {
      hide TasksOf, SegsOf, TextsOf, SemsOf, DiskOf, PrintsOf, WaitersKnown, RequestsKnown, Ids, Owners,
        Shape, S.CpuShape, M.MemShape;
      segments := segments + [p.segment];
      assert Owners(segments) == old(Owners(segments)) + [p.id];
    }

    /** delete_list by segment id on the segment list. */
    method DeleteSegment(id: int)
      requires Valid()
      modifies this`segments
      ensures Valid()
      ensures var st := old(Abs()); Abs() == st.(mem := var m := st.mem; var i := FirstEq(M.Ids(m), id);
        m.(resident := if i < |m.resident| then RemoveAt(m.resident, i) else m.resident))
    {
      hide Valid, Abs, Objects, Shape, S.CpuShape, RemoveAt, M.Ids;
      var i := FindSegment(id);
      if i < |segments| { RemoveSegment(i); }
    }

    method FindSegment(id: int) returns (i: nat)
      requires Valid()
      ensures i == FirstEq(M.Ids(Abs().mem), id) && |Abs().mem.resident| == |segments|
    {
      hide TasksOf, SegsOf, TextsOf, SemsOf, DiskOf, PrintsOf;
      ghost var ids := M.Ids(Abs().mem);
      i := 0;
      while i < |segments| && segments[i].id != id
        invariant 0 <= i <= |segments| && forall j :: 0 <= j < i ==> ids[j] != id
      {
        i := i + 1;
      }
      assert i < |ids| ==> ids[i] == segments[i].id;
    }

    method RemoveSegment(i: nat)
      requires Valid() && i < |Abs().mem.resident| == |segments|
      modifies this`segments
      ensures Valid()
      ensures var st := old(Abs()); Abs() == st.(mem := var m := st.mem; m.(resident := RemoveAt(m.resident, i)))
    {
      hide TasksOf, SegsOf, TextsOf, SemsOf, DiskOf, PrintsOf, WaitersKnown, RequestsKnown, Ids, Owners,
        Shape, RemoveAt, S.CpuShape, M.MemShape;
      OwnersRemove(segments, i);
      segments := RemoveAt(segments, i);
    }

    lemma OwnersRemove(s: seq<Segment>, i: nat)
      requires i < |s|
      ensures Owners(RemoveAt(s, i)) == RemoveAt(Owners(s), i)
      ensures forall j :: 0 <= j < |s| - 1 ==> RemoveAt(s, i)[j] == s[if j < i then j else j + 1]
    {
    }

    method UnloadPages(p: Process)
      requires Valid() && Known(p)
      modifies memory`numFreePages, memory.pages
      ensures Valid()
      ensures var st := old(Abs()); Abs() == st.(mem := var m := st.mem; m.(free := m.free + m.segs[p.id].pages))
      ensures memory.Entries() == T.DeleteMany(old(memory.Entries()), p.segment.id, p.segment.numPages)
    {
      hide TasksOf, SegsOf, TextsOf, SemsOf, DiskOf, PrintsOf, WaitersKnown, SegmentsKnown, RequestsKnown,
        Ids, Owners, Shape, S.CpuShape, M.MemShape;
      memory.UnloadPages(p.segment.id, p.segment.numPages);
    }

    method LoadPages(p: Process)
      requires Valid() && Known(p)
      modifies memory`numFreePages, memory.pages
      ensures Valid()
      ensures var st := old(Abs()); Abs() == st.(mem := var m := st.mem; m.(free := m.free - m.segs[p.id].pages))
      ensures memory.Entries() == T.AddMany(old(memory.Entries()), p.segment.id, p.id, p.segment.numPages)
    {
      hide TasksOf, SegsOf, TextsOf, SemsOf, DiskOf, PrintsOf, WaitersKnown, SegmentsKnown, RequestsKnown,
        Ids, Owners, Shape, S.CpuShape, M.MemShape;
      memory.LoadSegment(p.segment.id, p.id, p.segment.numPages);
    }

    /** memory_unload_segment. */
    method UnloadSegment(p: Process)
      requires Valid() && Known(p)
      modifies this`segments, memory`numFreePages, memory.pages, p.segment`presentBit, p.segment`usedBit
      ensures Valid()
      ensures var st := old(Abs()); Abs() == st.(mem := M.Unload(st.mem, p.id))
      ensures memory.Entries() == T.DeleteMany(old(memory.Entries()), p.segment.id, p.segment.numPages)
    {
      hide Valid, Abs, Objects, S.CpuShape, RemoveAt;
      ghost var m := Abs().mem;
      ProcessIs(p);
      UnloadPages(p);
      SetBits(p, false, false);
      assert M.Ids(Abs().mem) == M.Ids(m);
      DeleteSegment(p.segment.id);
    }

    /** memory_unload_syscall. */
    method MemoryUnload(p: Process)
      requires Valid() && Known(p)
      modifies this`segments, memory`numFreePages, memory.pages, p.segment`presentBit, p.segment`usedBit, p`status
      ensures Valid()
      ensures var st := old(Abs());
        Abs() == st.(mem := M.Unload(st.mem, p.id), cpu := S.SetStatus(st.cpu, p.id, S.Ready))
      ensures memory.Entries() == T.DeleteMany(old(memory.Entries()), p.segment.id, p.segment.numPages)
    {
      hide Valid, Abs, Objects, Shape, S.CpuShape, M.Unload;
      ghost var c := Abs().cpu;
      ProcessIs(p);
      SetStatus(p, S.Waiting);
      UnloadSegment(p);
      SetStatus(p, S.Ready);
      assert Abs().cpu == S.SetStatus(c, p.id, S.Ready);
    }

    lemma SegmentsDistinct()
      requires Valid() && Distinct(Abs().mem.resident)
      ensures |segments| == |Abs().mem.resident| && Distinct(segments)
      ensures Bits(segments) == M.UsedBits(Abs().mem)
      ensures segments != [] ==>
        var m, x := Abs().mem, segments[Victim(M.UsedBits(Abs().mem), 0)];
        x.idProcess == M.VictimOf(m) && m.segs[M.VictimOf(m)] == SegOf(x) && x in segments
    {
      if segments != [] { SegmentIs(segments[Victim(M.UsedBits(Abs().mem), 0)]); }
      forall i, j | 0 <= i < j < |segments| ensures segments[i] != segments[j] {
        assert Owners(segments)[i] != Owners(segments)[j];
      }
    }

    /** The scan of swap_segment from the list header: next_swapped is never set. */
    method ScanSegments() returns (victim: nat)
      requires Valid() && segments != [] && Distinct(Abs().mem.resident)
      modifies segments`usedBit
      ensures Valid() && victim < |segments| && segments[victim].idProcess == M.VictimOf(old(Abs()).mem)
      ensures var st := old(Abs()); Abs() == st.(mem := var m := st.mem;
        M.ClearUsed(m, m.resident[..Skips(M.UsedBits(m), 0)]))
    {
      hide TasksOf, SegsOf, TextsOf, SemsOf, DiskOf, PrintsOf, Objects, WaitersKnown, SegmentsKnown,
        RequestsKnown, Ids, Owners, Shape, S.CpuShape, Distinct, Skips, Cleared, Bits, Victim, M.UsedBits,
        M.VictimOf, M.ClearUsed, Around, SegOf;
      SegmentsDistinct();
      var inspections;
      victim, inspections := Scan(segments, 0);
      SegmentsCleared();
    }

    /** The used bits after the scan are those of the model. */
    twostate lemma SegmentsCleared()
      requires old(Valid()) && Objects() && SegmentsKnown() && all == old(all)
      requires segments == old(segments) && segments != [] && Distinct(old(Abs()).mem.resident)
      requires Bits(segments) == Cleared(M.UsedBits(old(Abs()).mem), 0)
      requires forall i :: 0 <= i < |all| && all[i].segment !in segments ==>
        SegOf(all[i].segment) == old(SegOf(all[i].segment))
      requires forall i :: 0 <= i < |all| ==> all[i].segment.presentBit == old(all[i].segment.presentBit)
      ensures var m := old(Abs()).mem;
        M.ClearUsed(m, m.resident[..Skips(M.UsedBits(m), 0)]) == m.(segs := SegsOf(all))
    {
      hide Valid, Objects, SegmentsKnown, Cleared, Skips, M.UsedBits, Distinct, Bits, TasksOf, SegsOf,
        TextsOf, SemsOf, Owners, Ids, M.ClearUsed;
      var m := old(Abs()).mem;
      var skipped := m.resident[..Skips(M.UsedBits(m), 0)];
      forall q | 0 <= q < |all|
        ensures SegOf(all[q].segment) == if q in skipped then m.segs[q].(used := false) else m.segs[q]
      {
        SegmentCleared(q);
      }
      ClearIs(m, skipped, SegsOf(all));
    }

    lemma ClearIs(m: M.Mem, skipped: seq<nat>, segs: seq<M.Segment>)
      requires M.MemShape(m) && |segs| == |m.segs|
      requires forall q :: 0 <= q < |segs| ==>
        segs[q] == if q in skipped then m.segs[q].(used := false) else m.segs[q]
      ensures M.ClearUsed(m, skipped) == m.(segs := segs)
    {
    }

    twostate lemma SegmentCleared(q: nat)
      requires old(Valid()) && Objects() && SegmentsKnown() && all == old(all)
      requires segments == old(segments) && segments != [] && Distinct(old(Abs()).mem.resident)
      requires Bits(segments) == Cleared(M.UsedBits(old(Abs()).mem), 0)
      requires q < |all|
      requires all[q].segment !in segments ==> SegOf(all[q].segment) == old(SegOf(all[q].segment))
      requires all[q].segment.presentBit == old(all[q].segment.presentBit)
      ensures var m := old(Abs()).mem;
        SegOf(all[q].segment) ==
          if q in m.resident[..Skips(M.UsedBits(m), 0)] then m.segs[q].(used := false) else m.segs[q]
    {
      hide TasksOf, SegsOf, TextsOf, SemsOf, DiskOf, PrintsOf, Shape;
      var m := old(Abs()).mem;
      var k := Skips(M.UsedBits(m), 0);
      if all[q].segment in segments {
        var j :| 0 <= j < |segments| && segments[j] == all[q].segment;
        assert m.resident[j] == q && Bits(segments)[j] == Cleared(M.UsedBits(m), 0)[j];
        assert M.UsedBits(m)[j] == m.segs[q].used;
        assert j < k ==> m.resident[..k][j] == q;
      }
    }

    /** The eviction of swap_segment: the segment's owner is looked up in the PCB and unloaded. */
    method Evict(x: Segment)
      requires Valid() && x.idProcess in Abs().pcb && x in segments
      modifies this`segments, memory`numFreePages, memory.pages, all`status, x`presentBit, x`usedBit
      ensures Valid()
      ensures var st := old(Abs()); Abs() == st.(mem := M.Unload(st.mem, x.idProcess),
                                   cpu := S.SetStatus(st.cpu, x.idProcess, S.Ready))
      ensures memory.Entries() == T.DeleteMany(old(memory.Entries()), x.id, x.numPages)
    {
      hide Valid, Abs, Objects, Shape, S.CpuShape, M.Unload;
      var p := FindProcess(x);
      ProcessIs(p);
      SegmentIs(x);
      MemoryUnload(p);
    }

    lemma SegmentIs(x: Segment)
      requires Valid() && x in segments
      ensures x.idProcess < |all| && all[x.idProcess].segment == x && x in SegmentSet()
      ensures Shape(Abs()) && x.idProcess < |Abs().mem.segs| && Abs().mem.segs[x.idProcess] == SegOf(x)
    {
      var i :| 0 <= i < |segments| && segments[i] == x;
      assert all[x.idProcess].segment in SegmentSet();
    }

    /** swap_segment. */
    method SwapSegment()
      requires Valid() && M.MemOk(Abs().mem) && Abs().mem.resident != []
      requires forall q :: q in Abs().mem.resident ==> q in Abs().pcb
      modifies this`segments, memory`numFreePages, memory.pages, all`status
      modifies SegmentSet()`presentBit, SegmentSet()`usedBit
      ensures Valid()
      ensures var st := old(Abs());
        Abs() == st.(mem := M.Swap(st.mem), cpu := S.SetStatus(st.cpu, M.VictimOf(st.mem), S.Ready))
      ensures var x := old(Abs()).mem.segs[M.VictimOf(old(Abs()).mem)];
        memory.Entries() == T.DeleteMany(old(memory.Entries()), x.id, x.pages)
    {
      hide Valid, Abs, Objects, Shape, S.CpuShape, S.SetStatus,
        M.Unload, M.VictimOf, M.ClearUsed, M.UsedBits, M.MemShape, Skips, Victim, Distinct;
      SegmentsDistinct();
      SegmentsKnownNow();
      var victim := ScanSegments();
      SegmentIs(segments[victim]);
      Evict(segments[victim]);
    }

    lemma SegmentsKnownNow()
      requires Valid()
      ensures forall i :: 0 <= i < |segments| ==> segments[i] in SegmentSet()
      ensures forall i :: 0 <= i < |segments| ==>
        segments[i].idProcess < |Abs().mem.segs| && Abs().mem.segs[segments[i].idProcess] == SegOf(segments[i])
    {
      forall i | 0 <= i < |segments|
        ensures segments[i] in SegmentSet() && segments[i].idProcess < |Abs().mem.segs|
        ensures Abs().mem.segs[segments[i].idProcess] == SegOf(segments[i])
      {
        SegmentIs(segments[i]);
      }
    }

    /** The swapping loop of memory_load_requisition: it ends when the space suffices, having
        evicted no more than that took. */
    method SwapUntil(need: nat)
      requires Valid() && M.MemOk(Abs().mem) && M.MakeRoom(Abs().mem, need).free >= need
      requires forall q :: q in Abs().mem.resident ==> q in Abs().pcb
      modifies this`segments, memory`numFreePages, memory.pages, all`status
      modifies SegmentSet()`presentBit, SegmentSet()`usedBit
      ensures Valid()
      ensures var st := old(Abs());
        Abs() == st.(mem := M.MakeRoom(st.mem, need), cpu := S.MarkReady(st.cpu, M.Evicted(st.mem, need)))
      ensures memory.Entries() == T.Evict(old(memory.Entries()), old(Abs()).mem, need)
    {
      hide Valid, Abs, S.SetStatus, S.MarkReady, M.Swap, M.VictimOf, M.MemOk, T.DeleteMany, T.Evict,
        M.MakeRoom, M.Evicted, Distinct;
      assert memory.Valid() by { FreeIs(); }
      ghost var st, t := Abs(), memory.Entries();
      FreeIs();
      while memory.numFreePages < need
        invariant Valid() && M.MemOk(Abs().mem) && Abs().mem.free == memory.numFreePages
        invariant Abs() == st.(mem := Abs().mem, cpu := Abs().cpu)
        invariant forall q :: q in Abs().mem.resident ==> q in st.pcb
        invariant M.MakeRoom(Abs().mem, need) == M.MakeRoom(st.mem, need)
        invariant S.MarkReady(Abs().cpu, M.Evicted(Abs().mem, need)) == S.MarkReady(st.cpu, M.Evicted(st.mem, need))
        invariant T.Evict(memory.Entries(), Abs().mem, need) == T.Evict(t, st.mem, need)
        decreases |Abs().mem.resident|
      {
        SwapsOnce(Abs().cpu, Abs().mem, memory.Entries(), need);
        SwapSegment();
        FreeIs();
      }
      SwapsNoMore(Abs().cpu, Abs().mem, memory.Entries(), need);
    }

    lemma FreeIs()
      requires Valid()
      ensures Abs().mem.free == memory.numFreePages && memory.Valid()
    {
    }

    /** memory_load_requisition. */
    method LoadRequisition(p: Process)
      requires Valid() && Known(p) && M.MemOk(Abs().mem)
      requires M.MakeRoom(Abs().mem, p.segment.numPages).free >= p.segment.numPages
      requires forall q :: q in Abs().mem.resident ==> q in Abs().pcb
      modifies this`segments, memory`numFreePages, memory.pages, all`status
      modifies SegmentSet()`presentBit, SegmentSet()`usedBit
      ensures Valid()
      ensures var st, need := old(Abs()), p.segment.numPages; var m := M.MakeRoom(st.mem, need);
        Abs() == st.(mem := m.(resident := m.resident + [p.id], free := m.free - need),
                     cpu := S.MarkReady(st.cpu, M.Evicted(st.mem, need)))
      ensures memory.Entries() ==
        T.AddMany(T.Evict(old(memory.Entries()), old(Abs()).mem, p.segment.numPages),
                  p.segment.id, p.id, p.segment.numPages)
    {
      hide Valid, Abs, S.MarkReady, M.MemOk, T.AddMany, T.Evict, M.MakeRoom, M.Evicted;
      SwapUntil(p.segment.numPages);
      ProcessIs(p);
      LoadPages(p);
      PushSegment(p);
    }

    /** memory_load_syscall. */
    method MemoryLoad(p: Process)
      requires Valid() && Known(p) && M.MemOk(Abs().mem)
      requires M.MakeRoom(Abs().mem, p.segment.numPages).free >= p.segment.numPages
      requires forall q :: q in Abs().mem.resident ==> q in Abs().pcb
      modifies this`running, this`ready, this`clock, this`units, this`locks, this`newProcess
      modifies this`segments, memory`numFreePages, memory.pages, all`status, all`remainingTime, all`since
      modifies SegmentSet()`presentBit, SegmentSet()`usedBit
      ensures Valid() && Abs() == LoadStep(old(Abs()), p.id)
      ensures memory.Entries() ==
        T.AddMany(T.Evict(old(memory.Entries()), old(Abs()).mem, p.segment.numPages),
                  p.segment.id, p.id, p.segment.numPages)
    {
      hide Valid, Abs, S.CpuShape, S.SetStatus, S.MarkReady, S.Interrupt, M.MemOk, T.AddMany, T.Evict,
        M.MakeRoom, M.Evicted;
      ProcessIs(p);
      SetStatus(p, S.Waiting);
      ProcessIs(p);
      LoadRequisition(p);
      ProcessIs(p);
      SetBits(p, true, p.segment.usedBit);
      ProcessInterrupt(MemoryInterruption);
    }

    // ---------- finish ----------

    /** delete_list by process id. */
    method Without(s: seq<Process>, id: nat) returns (r: seq<Process>)
      requires AllKnown(s)
      ensures Ids(r) == Drop(Ids(s), id) && AllKnown(r)
    {
      var i := 0;
      while i < |s| && s[i].id != id
        invariant 0 <= i <= |s| && forall j :: 0 <= j < i ==> Ids(s)[j] != id
      {
        i := i + 1;
      }
      assert i == FirstEq(Ids(s), id);
      r := s;
      if i < |s| {
        IdsRemove(s, i);
        r := RemoveAt(s, i);
      }
    }

    method DeleteReady(id: nat)
      requires Valid()
      modifies this`ready
      ensures Valid()
      ensures var st := old(Abs()); Abs() == st.(cpu := st.cpu.(ready := Drop(st.cpu.ready, id)))
    {
      hide TasksOf, SegsOf, TextsOf, SemsOf, DiskOf, PrintsOf, Objects, WaitersKnown, SegmentsKnown,
        RequestsKnown, AllKnown, Ids, Owners, Shape, S.CpuShape, M.MemShape, RemoveAt, Drop;
      ready := Without(ready, id);
    }

    method DeletePcb(id: nat)
      requires Valid()
      modifies this`pcb
      ensures Valid()
      ensures var st := old(Abs()); Abs() == st.(pcb := Drop(st.pcb, id))
    {
      hide TasksOf, SegsOf, TextsOf, SemsOf, DiskOf, PrintsOf, Objects, WaitersKnown, SegmentsKnown,
        RequestsKnown, AllKnown, Ids, Owners, Shape, S.CpuShape, M.MemShape, RemoveAt, Drop;
      pcb := Without(pcb, id);
    }

    /** process_finish_syscall: the segment is unloaded whether or not it is in memory. */
    method ProcessFinish(p: Process)
      requires Valid() && Known(p)
      modifies this`running, this`ready, this`clock, this`units, this`locks, this`pcb
      modifies this`segments, memory`numFreePages, memory.pages, all`status, all`remainingTime, all`since
      modifies p.segment`presentBit, p.segment`usedBit
      ensures Valid() && Abs() == FinishStep(old(Abs()), p.id)
      ensures memory.Entries() == T.DeleteMany(old(memory.Entries()), p.segment.id, p.segment.numPages)
    {
      hide Valid, Abs, Objects, Shape, S.CpuShape, S.Forward, M.Unload, Drop;
      ghost var st := Abs();
      ProcessIs(p);
      MemoryUnload(p);
      SetStatus(p, S.Finished);
      assert Abs().cpu == S.SetStatus(st.cpu, p.id, S.Finished);
      DeleteReady(p.id);
      DeletePcb(p.id);
      ForwardScheduling();
    }

    // ---------- create ----------

    method RegisterSemaphore(x: Semaphore)
      requires Valid() && x !in semaphores && x.waiting == []
      modifies this`semaphores, this`repr
      ensures Valid() && repr == old(repr) + {x}
      ensures var st := old(Abs()); Abs() == st.(sems := st.sems + [SemOf(x)])
    {
      hide TasksOf, SegsOf, TextsOf, SemsOf, DiskOf, PrintsOf, SegmentsKnown, RequestsKnown, Ids, Owners,
        Shape, S.CpuShape, M.MemShape;
      semaphores, repr := semaphores + [x], repr + {x};
      assert SemsOf(semaphores) == old(SemsOf(semaphores)) + [SemOf(x)];
    }

    /** A new semaphore of create_process. */
    method AddSemaphore(name: char)
      requires Valid()
      modifies this`semaphores, this`repr
      ensures Valid() && fresh(repr - old(repr)) && old(repr) <= repr
      ensures var st := old(Abs()); Abs() == st.(sems := st.sems + [Sem(name, None, [])])
    {
      hide Valid, Abs, Shape;
      var x := new Semaphore(name);
      RegisterSemaphore(x);
    }

    /** The semaphore line of create_process. */
    method DeclareSemaphores(names: seq<char>)
      requires Valid()
      modifies this`semaphores, this`repr
      ensures Valid() && fresh(repr - old(repr)) && old(repr) <= repr
      ensures var st := old(Abs()); Abs() == st.(sems := Declare(st.sems, names))
    {
      hide Valid, Abs, Objects, S.CpuShape, FindSem;
      for k := 0 to |names|
        invariant Valid() && fresh(repr - old(repr)) && old(repr) <= repr
        invariant Abs() == old(Abs()).(sems := Abs().sems)
        invariant Declare(Abs().sems, names[k..]) == Declare(old(Abs()).sems, names)
      {
        var i := FindSemaphore(names[k]);
        assert names[k..][0] == names[k] && names[k..][1..] == names[k + 1..];
        if i == |semaphores| { AddSemaphore(names[k]); }
      }
    }

    method RegisterProcess(p: Process)
      requires Valid() && p.id == p.segment.idProcess == nextId && p.priority != 0
      modifies this`nextId, this`all, this`repr
      ensures Valid() && repr == old(repr) + {p, p.segment}
      ensures Known(p) && p.id == |old(all)|
      ensures var st := old(Abs()); Abs() == st.(
        cpu := st.cpu.(tasks := st.cpu.tasks + [TaskOf(p)]),
        mem := st.mem.(segs := st.mem.segs + [SegOf(p.segment)]),
        texts := st.texts + [TextOf(p)])
    {
      hide TasksOf, SegsOf, TextsOf, SemsOf, DiskOf, PrintsOf, Ids, Owners, Shape, S.CpuShape, M.MemShape,
        Objects, AllKnown, WaitersKnown, SegmentsKnown, RequestsKnown, Abs, Valid;
      assert Objects() by { Footprint(); }
      nextId, all, repr := nextId + 1, all + [p], repr + {p, p.segment};
      ObjectsStay(p);
      KnownStays();
      Grown(p);
    }

    twostate lemma Grown(p: Process)
      requires old(Valid()) && Valid()
      requires all == old(all) + [p]
      requires forall i :: 0 <= i < |old(all)| ==> unchanged(old(all)[i]) && unchanged(old(all)[i].segment)
      requires running == old(running) && ready == old(ready) && newProcess == old(newProcess)
      requires clock == old(clock) && units == old(units) && locks == old(locks)
      requires segments == old(segments) && memory.numFreePages == old(memory.numFreePages)
      requires pcb == old(pcb) && semaphores == old(semaphores)
      requires forall i :: 0 <= i < |semaphores| ==> unchanged(semaphores[i])
      requires requests == old(requests) && prints == old(prints)
      requires printsId == old(printsId) && served == old(served)
      ensures var st := old(Abs()); Abs() == st.(
        cpu := st.cpu.(tasks := st.cpu.tasks + [TaskOf(p)]),
        mem := st.mem.(segs := st.mem.segs + [SegOf(p.segment)]),
        texts := st.texts + [TextOf(p)])
    {
      hide TasksOf, SegsOf, TextsOf, SemsOf, DiskOf, PrintsOf, Ids, Owners, Objects, Known, AllKnown, WaitersKnown,
        SegmentsKnown, RequestsKnown, Shape;
      OneMore(old(all), p);
      assert SemsOf(semaphores) == old(SemsOf(semaphores));
    }

    twostate lemma ObjectsStay(p: Process)
      requires old(Objects()) && semaphores == old(semaphores)
      requires all == old(all) + [p] && nextId == old(nextId) + 1 && repr == old(repr) + {p, p.segment}
      requires p.id == p.segment.idProcess == old(nextId) && p.priority != 0
      ensures Objects() && Known(p) && p.id == |old(all)| && all[..|old(all)|] == old(all)
    {
    }

    twostate lemma KnownStays()
      requires old(Valid()) && |old(all)| <= |all| && all[..|old(all)|] == old(all)
      requires running == old(running) && ready == old(ready) && pcb == old(pcb) && semaphores == old(semaphores)
      requires segments == old(segments) && requests == old(requests) && prints == old(prints)
      requires forall i :: 0 <= i < |semaphores| ==> semaphores[i].waiting == old(semaphores[i].waiting)
      requires Objects()
      ensures Valid()
    {
      assert forall i :: 0 <= i < |old(all)| ==> all[i] == old(all)[i];
    }

    /** The records of create_process. */
    method NewProcess(g: Program) returns (p: Process)
      requires Valid() && g.prio != 0
      modifies this`nextId, this`all, this`repr
      ensures Valid() && fresh(repr - old(repr)) && old(repr) <= repr && fresh(p)
      ensures Known(p) && p.id == |old(Abs()).texts|
      ensures var st := old(Abs()); Abs() == st.(
        cpu := st.cpu.(tasks := st.cpu.tasks + [S.Task(g.prio, S.Ready, 0, 0)]),
        mem := st.mem.(segs := st.mem.segs + [M.Segment(g.segId, g.pages, false, false)]),
        texts := st.texts + [Text(g.code, g.code, 0, 0, 0, {})])
    {
      hide Valid, Abs, Shape;
      SizeIs();
      var x := new Segment(g.segId, nextId, g.pages, g.code);
      p := new Process(nextId, g.prio, x);
      RegisterProcess(p);
    }

    lemma SizeIs()
      requires Valid()
      ensures |Abs().texts| == |all|
    {
    }

    method PushPcb(p: Process)
      requires Valid() && Known(p)
      modifies this`pcb
      ensures Valid()
      ensures var st := old(Abs()); Abs() == st.(pcb := st.pcb + [p.id])
    {
      hide TasksOf, SegsOf, TextsOf, SemsOf, DiskOf, PrintsOf, Objects, WaitersKnown, SegmentsKnown,
        RequestsKnown, Ids, Owners, Shape, S.CpuShape, M.MemShape;
      pcb := pcb + [p];
      assert Ids(pcb) == old(Ids(pcb)) + [p.id];
    }

    method SetNewProcess()
      requires Valid()
      modifies this`newProcess
      ensures Valid()
      ensures var st := old(Abs()); Abs() == st.(cpu := st.cpu.(newProcess := true))
    {
      hide TasksOf, SegsOf, TextsOf, SemsOf, DiskOf, PrintsOf, Objects, WaitersKnown, SegmentsKnown,
        RequestsKnown, AllKnown, Ids, Owners, Shape, S.CpuShape, M.MemShape, RemoveAt;
      newProcess := true;
    }

    /** process_create_syscall. */
    method ProcessCreate(g: Program)
      requires Valid() && g.prio != 0
      modifies this
      ensures Valid() && fresh(repr - old(repr)) && old(repr) <= repr
      ensures Abs() == CreateStep(old(Abs()), g) && memory.Entries() == old(memory.Entries())
    {
      hide Valid, Abs, Objects, S.CpuShape, Declare, S.Enqueue;
      SizeIs();
      DeclareSemaphores(g.sems);
      var p := NewProcess(g);
      PushPcb(p);
      AddProcessScheduler(p);
      SetNewProcess();
    }

    // ---------- device completions ----------

    /** delete_list by track on the disk requests. */
    method DeleteRequest(track: int)
      requires Valid() && FirstEq(Tracks(Abs().disk), track) < |Abs().disk|
      modifies this`requests
      ensures Valid()
      ensures var st := old(Abs());
        Abs() == st.(disk := var disk := st.disk; RemoveAt(disk, FirstEq(Tracks(disk), track)))
    {
      hide Valid, Abs, Objects, S.CpuShape, Shape, RemoveAt;
      var i := FindTrack(track);
      RemoveRequest(i);
    }

    method FindTrack(track: int) returns (i: nat)
      requires Valid()
      ensures i == FirstEq(Tracks(Abs().disk), track) && |Abs().disk| == |requests|
    {
      hide DiskOf;
      ghost var keys := Tracks(DiskOf(requests));
      i := 0;
      while i < |requests| && requests[i].track != track
        invariant 0 <= i <= |requests| && forall j :: 0 <= j < i ==> keys[j] != track
      {
        i := i + 1;
      }
      assert i < |keys| ==> keys[i] == requests[i].track;
    }

    method RemoveRequest(i: nat)
      requires Valid() && i < |Abs().disk| == |requests|
      modifies this`requests
      ensures Valid()
      ensures var st := old(Abs()); Abs() == st.(disk := RemoveAt(st.disk, i))
    {
      hide TasksOf, SegsOf, TextsOf, SemsOf, DiskOf, PrintsOf, Objects, WaitersKnown, SegmentsKnown,
        AllKnown, Ids, Owners, Shape, S.CpuShape, M.MemShape, RemoveAt;
      RequestsRemove(requests, i);
      requests := RemoveAt(requests, i);
    }

    /** fulfill_disk_request for the request at `i`. */
    method FulfillDisk(i: nat)
      requires Valid() && i < |requests|
      modifies this`running, this`ready, this`clock, this`units, this`locks, this`newProcess, this`requests
      modifies all`status, all`remainingTime, all`since
      ensures i < |old(Abs()).disk| && Valid() && Abs() == DiskDone(old(Abs()), i)
    {
      hide Valid, Abs, Objects, S.CpuShape, S.Enqueue, S.SetStatus, S.Interrupt, RemoveAt;
      RequestIs(i);
      var r := requests[i];
      SetStatus(r.process, S.Ready);
      AddProcessScheduler(r.process);
      DeleteRequest(r.track);
      ProcessInterrupt(DiskFinishedInterruption);
    }

    lemma DevicesAre()
      requires Valid()
      ensures |Abs().disk| == |requests| && |Abs().prints| == |prints|
    {
    }

    lemma RequestIs(i: nat)
      requires Valid() && i < |requests|
      ensures Known(requests[i].process) && |Abs().disk| == |requests|
      ensures Abs().disk[i] == DiskReq(requests[i].process.id, requests[i].track)
      ensures FirstEq(Tracks(Abs().disk), requests[i].track) < |requests|
    {
      assert Tracks(Abs().disk)[i] == requests[i].track;
    }

    /** The end of fulfill_print: delete_list by request id, whose first match is the header. */
    method DropPrint()
      requires Valid() && prints != []
      modifies this`prints
      ensures Valid()
      ensures var st := old(Abs()); Abs() == st.(prints := st.prints[1..])
    {
      hide TasksOf, SegsOf, TextsOf, SemsOf, DiskOf, PrintsOf, Objects, WaitersKnown, SegmentsKnown,
        AllKnown, Ids, Owners, Shape, S.CpuShape, M.MemShape, RemoveAt;
      prints := prints[1..];
      assert PrintsOf(prints) == old(PrintsOf(prints))[1..];
    }

    ghost method CountServed()
      requires Valid()
      modifies this`served
      ensures Valid()
      ensures var st := old(Abs()); Abs() == st.(served := st.served + 1)
    {
      hide TasksOf, SegsOf, TextsOf, SemsOf, DiskOf, PrintsOf, Objects, WaitersKnown, SegmentsKnown,
        RequestsKnown, AllKnown, Ids, Owners, Shape, S.CpuShape, M.MemShape, RemoveAt;
      served := served + 1;
    }

    lemma PrintIs()
      requires Valid() && prints != []
      ensures Known(prints[0].process) && |Abs().prints| == |prints|
      ensures Abs().prints[0] == PrintReq(prints[0].id, prints[0].process.id, prints[0].time)
    {
    }

    /** fulfill_print. */
    method FulfillPrint()
      requires Valid() && prints != []
      modifies this`running, this`ready, this`clock, this`units, this`locks, this`newProcess, this`prints, this`served
      modifies all`status, all`remainingTime, all`since
      ensures old(Abs()).prints != [] && Valid() && Abs() == PrintDone(old(Abs()))
    {
      hide Valid, Abs, Objects, S.CpuShape, S.Enqueue, S.SetStatus, S.Interrupt;
      PrintIs();
      HeadIsFirst(Abs());
      var r := prints[0];
      SetStatus(r.process, S.Ready);
      AddProcessScheduler(r.process);
      DropPrint();
      CountServed();
      ProcessInterrupt(PrintFinishedInterruption);
    }
  }

  lemma HeadIsFirst(st: State)
    requires st.prints != []
    ensures FirstEq(PrintIds(st.prints), st.prints[0].id) == 0 && RemoveAt(st.prints, 0) == st.prints[1..]
  {
    assert PrintIds(st.prints)[0] == st.prints[0].id;
  }

  lemma RequestsRemove(s: seq<DiskRequest>, i: nat)
    requires i < |s|
    ensures DiskOf(RemoveAt(s, i)) == RemoveAt(DiskOf(s), i)
    ensures forall j :: 0 <= j < |s| - 1 ==> RemoveAt(s, i)[j] == s[if j < i then j else j + 1]
  {
  }

  lemma IdsRemove(s: seq<Process>, i: nat)
    requires i < |s|
    ensures Ids(RemoveAt(s, i)) == RemoveAt(Ids(s), i)
    ensures forall j :: 0 <= j < |s| - 1 ==> RemoveAt(s, i)[j] == s[if j < i then j else j + 1]
  {
  }

  /** One turn of the swapping loop, while the space does not suffice. */
  lemma SwapsOnce(c: S.Cpu, m: M.Mem, t: seq<T.Page>, need: nat)
    requires S.CpuShape(c) && M.MemOk(m) && m.free < need && M.MakeRoom(m, need).free >= need
    requires |c.tasks| == |m.segs|
    ensures m.resident != [] && M.MemOk(M.Swap(m)) && |M.Swap(m).resident| < |m.resident|
    ensures forall q :: q in M.Swap(m).resident ==> q in m.resident
    ensures M.MakeRoom(M.Swap(m), need) == M.MakeRoom(m, need)
    ensures var v := M.VictimOf(m);
      && S.MarkReady(S.SetStatus(c, v, S.Ready), M.Evicted(M.Swap(m), need)) == S.MarkReady(c, M.Evicted(m, need))
      && T.Evict(T.DeleteMany(t, m.segs[v].id, m.segs[v].pages), M.Swap(m), need) == T.Evict(t, m, need)
  {
    hide M.Swap, M.VictimOf, T.DeleteMany;
    M.SwapOk(m);
    var v := M.VictimOf(m);
    MarkReadyMore(c, v, M.Evicted(M.Swap(m), need));
  }

  lemma MarkReadyMore(c: S.Cpu, v: nat, s: seq<nat>)
    requires S.CpuShape(c) && v < |c.tasks|
    ensures S.MarkReady(S.SetStatus(c, v, S.Ready), s) == S.MarkReady(c, [v] + s)
  {
  }

  /** The end of the swapping loop. */
  lemma SwapsNoMore(c: S.Cpu, m: M.Mem, t: seq<T.Page>, need: nat)
    requires S.CpuShape(c) && M.MemShape(m) && m.free >= need
    ensures M.MakeRoom(m, need) == m && S.MarkReady(c, M.Evicted(m, need)) == c && T.Evict(t, m, need) == t
  {
    assert S.MarkReady(c, []).tasks == c.tasks;
  }
}
