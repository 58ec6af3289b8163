/** Where the processes are.  Every step keeps each live process in exactly one place: on the
    CPU, in the ready queue, in one semaphore's wait list, or behind one device request. */
module Locations {
  import opened Seqs
  import opened Scheduler
  import opened Paging
  import opened Machine

  function WaitsFor(q: nat): Sem -> nat { (x: Sem) => multiset(x.waiting)[q] }
  function DiskOf(q: nat): DiskReq -> nat { (x: DiskReq) => One(x.pid == q) }
  function PrintOf(q: nat): PrintReq -> nat { (x: PrintReq) => One(x.pid == q) }

  /** How often a process occurs in the queues of the system. */
  function Times(st: State, q: nat): nat {
    Queued(st.cpu, q) + Sum(st.sems, WaitsFor(q)) + Sum(st.disk, DiskOf(q)) + Sum(st.prints, PrintOf(q))
  }

  /** Every live process is in exactly one place, and no other process is anywhere. */
  ghost predicate Placed(st: State) {
    && Distinct(st.pcb)
    && forall q :: Times(st, q) == One(q in st.pcb)
  }

  // ---------- what each routine moves ----------

  lemma TimesDoP(st: State, p: nat, i: nat, q: nat)
    requires Shape(st) && st.cpu.running == Some(p) && i < |st.sems|
    ensures Times(DoP(st, p, i), q) == Times(st, q)
  {
    var sem := st.sems[i];
    SumUpdate(st.sems, i, DoP(st, p, i).sems[i], WaitsFor(q));
    if !(sem.owner == None || sem.owner == Some(p)) {
      QueuedInterrupt(Stamp(st.cpu, p), true, q);
    }
  }

  lemma TimesRelease(st: State, i: nat, q: nat)
    requires Shape(st) && i < |st.sems|
    ensures Times(Release(st, i), q) == Times(st, q)
  {
    var sem := st.sems[i];
    SumUpdate(st.sems, i, Release(st, i).sems[i], WaitsFor(q));
    if sem.waiting != [] {
      HeadTail(sem.waiting);
      QueuedWake(st.cpu, sem.waiting[0], q);
    }
  }

  lemma TimesDoDisk(st: State, p: nat, track: int, q: nat)
    requires Shape(st) && st.cpu.running == Some(p)
    ensures Times(DoDisk(st, p, track), q) == Times(st, q)
  {
    QueuedInterrupt(st.cpu, true, q);
    SumInsert(st.disk, Slot(Tracks(st.disk), track), DiskReq(p, track), DiskOf(q));
  }

  lemma TimesDoPrint(st: State, p: nat, time: int, q: nat)
    requires Shape(st) && st.cpu.running == Some(p)
    ensures Times(DoPrint(st, p, time), q) == Times(st, q)
  {
    QueuedInterrupt(st.cpu, true, q);
    SumAppend(st.prints, PrintReq(st.nextPrint, p, time), PrintOf(q));
  }

  lemma TimesDiskDone(st: State, i: nat, q: nat)
    requires Shape(st) && i < |st.disk| && FirstEq(Tracks(st.disk), st.disk[i].track) == i
    ensures Times(DiskDone(st, i), q) == Times(st, q)
  {
    var p := st.disk[i].pid;
    QueuedWake(st.cpu, p, q);
    QueuedInterrupt(Wake(st.cpu, p), false, q);
    SumRemove(st.disk, i, DiskOf(q));
  }

  lemma TimesPrintDone(st: State, q: nat)
    requires Shape(st) && st.prints != []
    ensures Times(PrintDone(st), q) == Times(st, q)
  {
    var p := st.prints[0].pid;
    QueuedWake(st.cpu, p, q);
    QueuedInterrupt(Wake(st.cpu, p), false, q);
    assert FirstEq(PrintIds(st.prints), st.prints[0].id) == 0 by { assert PrintIds(st.prints)[0] == st.prints[0].id; }
    SumRemove(st.prints, 0, PrintOf(q));
  }

  lemma {:induction false} SumWaits(sems: seq<Sem>, i: nat, q: nat)
    requires i < |sems|
    ensures multiset(sems[i].waiting)[q] <= Sum(sems, WaitsFor(q))
  {
    SumRemove(sems, i, WaitsFor(q));
  }

  lemma {:induction false} TimesDeclare(sems: seq<Sem>, names: seq<char>, q: nat)
    ensures Sum(Declare(sems, names), WaitsFor(q)) == Sum(sems, WaitsFor(q))
    decreases names
  {
    if names != [] {
      if FindSem(sems, names[0]) < |sems| {
        TimesDeclare(sems, names[1..], q);
      } else {
        SumAppend(sems, Sem(names[0], None, []), WaitsFor(q));
        TimesDeclare(sems + [Sem(names[0], None, [])], names[1..], q);
      }
    }
  }

  /** A process on the CPU is live and nowhere else; so is each queued one. */
  lemma OnceWhenPlaced(st: State)
    requires Placed(st)
    ensures Once(st.cpu)
    ensures st.cpu.running.Some? ==> st.cpu.running.value in st.pcb
    ensures forall i :: 0 <= i < |st.cpu.ready| ==> st.cpu.ready[i] in st.pcb
  {
    forall q ensures multiset(st.cpu.ready)[q] <= 1 { assert Times(st, q) <= 1; }
    DistinctMultiset(st.cpu.ready);
    if st.cpu.running.Some? {
      assert Times(st, st.cpu.running.value) <= 1;
      assert multiset(st.cpu.ready)[st.cpu.running.value] == 0;
    }
    forall i | 0 <= i < |st.cpu.ready| ensures st.cpu.ready[i] in st.pcb {
      assert Times(st, st.cpu.ready[i]) >= multiset(st.cpu.ready)[st.cpu.ready[i]] > 0;
    }
  }

  // ---------- the invariant ----------

  ghost predicate Located(st: State) {
    && Shape(st) && InRange(st.pcb, |st.texts|)
    && Placed(st)
    && CpuOk(st.cpu, st.pcb)
  }

  ghost predicate Loaded(st: State) {
    LoadedIn(st.mem, st.pcb)
  }

  lemma TimesDoV(st: State, p: nat, i: nat, q: nat)
    requires Shape(st) && p < |st.texts| && i < |st.sems|
    ensures Times(DoV(st, p, i), q) == Times(st, q)
  {
    var t := Next(st.texts[p]);
    TimesRelease(SetText(st, p, t.(held := t.held - {st.sems[i].name})), i, q);
  }

  lemma TimesDevice(st: State, p: nat, c: Instr, q: nat)
    requires Shape(st) && st.cpu.running == Some(p) && OnDevice(c)
    ensures Times(DoDevice(st, p, c), q) == Times(st, q)
  {
    if c.Print? { TimesDoPrint(st, p, c.time, q); } else { TimesDoDisk(st, p, c.track, q); }
  }

  lemma TimesSemaphore(st: State, p: nat, c: Instr, q: nat)
    requires Shape(st) && st.cpu.running == Some(p) && OnSemaphore(c) && FindSem(st.sems, c.sem) < |st.sems|
    ensures Times(DoSemaphore(st, p, c), q) == Times(st, q)
  {
    var i := FindSem(st.sems, c.sem);
    if c.P? { TimesDoP(st, p, i, q); } else { TimesDoV(st, p, i, q); }
  }

  lemma TimesInstr(st: State, p: nat, q: nat)
    requires Shape(st) && st.cpu.running == Some(p) && Executable(st, p)
    ensures Times(InstrStep(st, p), q) == Times(st, q)
  {
    var c := st.texts[p].code[st.texts[p].pc];
    var st1 := st.(mem := Touch(st.mem, p));
    if OnDevice(c) { TimesDevice(st1, p, c, q); }
    else if OnSemaphore(c) { TimesSemaphore(st1, p, c, q); }
  }

  lemma PlacedInstr(st: State, p: nat)
    requires Shape(st) && Placed(st) && st.cpu.running == Some(p) && Executable(st, p)
    ensures Placed(InstrStep(st, p)) && InstrStep(st, p).pcb == st.pcb && |InstrStep(st, p).texts| == |st.texts|
  {
    forall q ensures Times(InstrStep(st, p), q) == Times(st, q) { TimesInstr(st, p, q); }
  }

  lemma PlacedDevices(st: State, i: nat)
    requires Shape(st) && Placed(st)
    ensures i < |st.disk| && FirstEq(Tracks(st.disk), st.disk[i].track) == i ==> Placed(DiskDone(st, i))
    ensures st.prints != [] ==> Placed(PrintDone(st))
  {
    hide Times;
    if i < |st.disk| && FirstEq(Tracks(st.disk), st.disk[i].track) == i {
      forall q ensures Times(DiskDone(st, i), q) == Times(st, q) { TimesDiskDone(st, i, q); }
    }
    if st.prints != [] {
      forall q ensures Times(PrintDone(st), q) == Times(st, q) { TimesPrintDone(st, q); }
    }
  }

  lemma PlacedLoad(st: State, p: nat)
    requires Shape(st) && Placed(st) && st.cpu.running == Some(p)
    ensures Placed(LoadStep(st, p))
  {
    forall q ensures Times(LoadStep(st, p), q) == Times(st, q) {
      QueuedInterrupt(MarkReady(SetStatus(st.cpu, p, Waiting), Evicted(st.mem, st.mem.segs[p].pages)), false, q);
    }
  }

  lemma TimesFinish(st: State, p: nat, q: nat)
    requires Shape(st) && st.cpu.running == Some(p) && p !in st.cpu.ready
    ensures Times(FinishStep(st, p), q) == Times(st, q) - One(p == q)
  {
    var cpu := SetStatus(st.cpu, p, Finished);
    assert Drop(cpu.ready, p) == cpu.ready;
    assert Requeue(cpu) == cpu.(running := None);
    QueuedDispatch(cpu.(running := None), q);
  }

  lemma PlacedFinish(st: State, p: nat)
    requires Shape(st) && Placed(st) && st.cpu.running == Some(p)
    ensures Placed(FinishStep(st, p))
    ensures forall q :: q in FinishStep(st, p).pcb <==> q in st.pcb && q != p
  {
    OnceWhenPlaced(st);
    RemoveMembers(st.pcb, FirstEq(st.pcb, p));
    forall q ensures Times(FinishStep(st, p), q) == One(q in FinishStep(st, p).pcb) {
      assert Times(st, q) == One(q in st.pcb);
      TimesFinish(st, p, q);
    }
  }

  lemma PlacedCreate(st: State, g: Program)
    requires Shape(st) && Placed(st) && InRange(st.pcb, |st.texts|) && g.prio != 0
    ensures Placed(CreateStep(st, g))
  {
    var r := CreateStep(st, g);
    forall q ensures Times(r, q) == One(q in r.pcb) {
      assert Times(st, q) == One(q in st.pcb);
      TimesDeclare(st.sems, g.sems, q);
    }
  }

  /** The partition is kept by every step. */
  lemma PlacedStep(st: State, s: Step)
    requires Located(st) && Enabled(st, s)
    ensures Placed(Apply(st, s)) && InRange(Apply(st, s).pcb, |Apply(st, s).texts|)
  {
    hide Placed, InstrStep, Interrupt, Wake, LoadCpu, CreateCpu, Requeue, Dispatch, FirstEq;
    match s
    case Create(g) => PlacedCreate(st, g);
    case TakeNew => PlacedInterrupt(st);
    case Load => PlacedLoad(st, st.cpu.running.value);
    case Instruction => PlacedInstr(st, st.cpu.running.value);
    case Quantum => PlacedInterrupt(st);
    case Finish => PlacedFinish(st, st.cpu.running.value);
    case DiskServe(i) => PlacedDevices(st, i);
    case PrintServe => PlacedDevices(st, 0);
  }

  lemma PlacedInterrupt(st: State)
    requires Shape(st) && Placed(st)
    ensures Placed(st.(cpu := Interrupt(st.cpu, false)))
  {
    var r := st.(cpu := Interrupt(st.cpu, false));
    forall q ensures Times(r, q) == Times(st, q) { QueuedInterrupt(st.cpu, false, q); }
  }
}
