/** What each step of the machine does to the CPU side, and the invariants of location, status,
    dispatch order and quantum that follow for every run. */
module Steps {
  import opened Seqs
  import opened Scheduler
  import opened CpuMoves
  import opened Paging
  import opened Machine
  import opened Locations

  /** A process found in a wait list or behind a device is live and not queued. */
  lemma BlockedElsewhere(st: State, q: nat)
    requires Placed(st)
    requires Sum(st.sems, WaitsFor(q)) + Sum(st.disk, DiskOf(q)) + Sum(st.prints, PrintOf(q)) > 0
    ensures Queued(st.cpu, q) == 0 && q in st.pcb
  {
    assert Times(st, q) == One(q in st.pcb);
  }

  lemma WaiterElsewhere(st: State, i: nat, q: nat)
    requires Placed(st) && i < |st.sems| && q in st.sems[i].waiting
    ensures Queued(st.cpu, q) == 0 && q in st.pcb
  {
    SumWaits(st.sems, i, q);
    BlockedElsewhere(st, q);
  }

  function InstrMove(st: State, p: nat): Move
    requires Shape(st) && Executable(st, p)
  {
    var c := st.texts[p].code[st.texts[p].pc];
    if c.Exec? then RanUnit(p)
    else if OnDevice(c) then Interrupted(true)
    else
      var sem := st.sems[FindSem(st.sems, c.sem)];
      if c.P? then (if sem.owner == None || sem.owner == Some(p) then PaidLock(p) else BlockedOnP(p))
      else if sem.waiting == [] then Keep else Woken(sem.waiting[0])
  }

  function MoveOf(st: State, s: Step): Move
    requires Shape(st) && Enabled(st, s)
  {
    match s
    case Create(g) => Created(g.prio)
    case TakeNew => Interrupted(false)
    case Load => AfterLoad(st.cpu.running.value, Evicted(st.mem, st.mem.segs[st.cpu.running.value].pages))
    case Instruction => InstrMove(st, st.cpu.running.value)
    case Quantum => Interrupted(false)
    case Finish => Finishing(st.cpu.running.value)
    case DiskServe(i) => Served(st.disk[i].pid)
    case PrintServe => Served(st.prints[0].pid)
  }

  lemma CpuPendingWhenLocated(st: State)
    requires Located(st)
    ensures CpuPending(st.cpu, st.pcb)
  {
    OnceWhenPlaced(st);
  }

  lemma InstrCpu(st: State, p: nat)
    requires Shape(st) && Executable(st, p)
    ensures Fits(st.cpu, InstrMove(st, p))
    ensures InstrStep(st, p).cpu == Do(st.cpu, InstrMove(st, p)) && InstrStep(st, p).pcb == st.pcb
  {
    hide Interrupt, Wake, Slot, InsertAt;
  }

  lemma StepCpu(st: State, s: Step)
    requires Shape(st) && Enabled(st, s)
    requires st.cpu.running.Some? ==> st.cpu.running.value !in st.cpu.ready
    ensures Fits(st.cpu, MoveOf(st, s)) && Apply(st, s).cpu == Do(st.cpu, MoveOf(st, s))
  {
    hide InstrStep, InstrMove, Interrupt, Wake, LoadCpu, CreateCpu, Dispatch, Requeue, MakeRoom, Evicted, Declare,
      Executable, Unload, Place;
    if s.Instruction? {
      InstrCpu(st, st.cpu.running.value);
    } else if s.Finish? {
      NotDropped(st.cpu.ready, st.cpu.running.value);
    }
  }

  lemma NotDropped(s: seq<nat>, p: nat)
    requires p !in s
    ensures Drop(s, p) == s
  {
  }

  lemma PcbIs(st: State, s: Step)
    requires Shape(st) && Enabled(st, s)
    ensures Apply(st, s).pcb ==
      if s.Create? then st.pcb + [|st.texts|]
      else if s.Finish? then Drop(st.pcb, st.cpu.running.value)
      else st.pcb
  {
    if s.Instruction? { InstrCpu(st, st.cpu.running.value); }
  }

  lemma StepPcb(st: State, s: Step)
    requires Shape(st) && Enabled(st, s) && Distinct(st.pcb)
    requires st.cpu.running.Some? ==> st.cpu.running.value in st.pcb
    ensures PcbAfter(st.cpu, MoveOf(st, s), st.pcb, Apply(st, s).pcb)
    ensures s.Finish? ==> |Apply(st, s).pcb| == |st.pcb| - 1
  {
    hide Apply, Executable, CpuRuns, Evicted, FirstEq, FindSem;
    PcbIs(st, s);
    if s.Finish? { Dropped(st.pcb, st.cpu.running.value); }
  }

  lemma Dropped(s: seq<nat>, p: nat)
    requires Distinct(s) && p in s
    ensures forall q :: q in Drop(s, p) <==> q in s && q != p
    ensures Distinct(Drop(s, p)) && |Drop(s, p)| == |s| - 1
  {
    RemoveMembers(s, FirstEq(s, p));
  }

  lemma InstrLegal(st: State, p: nat)
    requires Located(st) && CpuPending(st.cpu, st.pcb)
    requires st.cpu.running == Some(p) && Executable(st, p) && st.cpu.tasks[p].remaining > 0
    ensures Legal(st.cpu, st.pcb, InstrMove(st, p))
  {
    var c := st.texts[p].code[st.texts[p].pc];
    if c.V? {
      var i := FindSem(st.sems, c.sem);
      if st.sems[i].waiting != [] { WaiterElsewhere(st, i, st.sems[i].waiting[0]); }
    }
  }

  lemma StepLegal(st: State, s: Step)
    requires Located(st) && Loaded(st) && Enabled(st, s) && CpuPending(st.cpu, st.pcb)
    ensures Legal(st.cpu, st.pcb, MoveOf(st, s))
  {
    match s
    case Create(g) => forall q | q in st.pcb ensures q < |st.cpu.tasks| {}
    case Load => MakeRoomOk(st.mem, st.mem.segs[st.cpu.running.value].pages);
    case Instruction => InstrLegal(st, st.cpu.running.value);
    case DiskServe(i) => SumRemove(st.disk, i, DiskOf(st.disk[i].pid)); BlockedElsewhere(st, st.disk[i].pid);
    case PrintServe => SumRemove(st.prints, 0, PrintOf(st.prints[0].pid)); BlockedElsewhere(st, st.prints[0].pid);
    case _ =>
  }

  // ---------- every step ----------

  lemma LocatedStep(st: State, s: Step)
    requires Located(st) && Loaded(st) && Enabled(st, s)
    ensures Located(Apply(st, s))
  {
    PlacedStep(st, s);
    CpuPendingWhenLocated(st);
    StepLegal(st, s);
    StepCpu(st, s);
    StepPcb(st, s);
    MoveOk(st.cpu, MoveOf(st, s), st.pcb, Apply(st, s).pcb);
  }
}
