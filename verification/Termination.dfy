/** From any state in which all live segments fit in memory together, every run of the machine
    without further creations is finite, and where it stops everybody has finished or waits for
    an owned semaphore. */
module Termination {
  import opened Seqs
  import opened Scheduler
  import opened CpuMoves
  import opened Paging
  import opened Machine
  import opened Locations
  import opened Steps
  import opened MemoryRuns
  import opened Programs
  import opened Semaphores
  import opened Devices
  import opened Runs

  /** Every EXEC still to run asks for a unit or more, and the quantum is positive. */
  ghost predicate Proper(t: Text, prio: int) {
    && 1 <= prio <= QUANTUM_TIME_TOTAL
    && forall i :: t.pc <= i < |t.code| && t.code[i].Exec? ==> t.code[i].operand >= 1
  }

  /** All live segments fit in memory together. */
  ghost predicate AllFit(st: State) { Total(st.mem.segs, st.pcb) <= NUM_PAGES }

  ghost predicate LiveProper(st: State) {
    forall q :: q in st.pcb && q < |st.texts| && q < |st.cpu.tasks| ==> Proper(st.texts[q], st.cpu.tasks[q].prio)
  }

  /** The live processes are proper and fit together, whatever happened before. */
  ghost predicate Calm(st: State) { Sound(st) && AllFit(st) && LiveProper(st) }

  // ---------- what a step leaves proper ----------

  lemma PrioInterrupt(c: Cpu, blocks: bool, q: nat)
    requires CpuShape(c) && q < |c.tasks|
    ensures Interrupt(c, blocks).tasks[q].prio == c.tasks[q].prio
  {
    ContendersAre(c, blocks);
  }

  lemma PrioLoaded(c: Cpu, p: nat, evicted: seq<nat>, q: nat)
    requires CpuShape(c) && p < |c.tasks| && q < |c.tasks|
    ensures LoadCpu(c, p, evicted).tasks[q].prio == c.tasks[q].prio
  {
    PrioInterrupt(MarkReady(SetStatus(c, p, Waiting), evicted), false, q);
  }

  lemma PrioServed(c: Cpu, p: nat, q: nat)
    requires CpuShape(c) && p < |c.tasks| && q < |c.tasks|
    ensures Interrupt(Wake(c, p), false).tasks[q].prio == c.tasks[q].prio
  {
    PrioInterrupt(Wake(c, p), false, q);
  }

  lemma PrioDispatch(c: Cpu, q: nat)
    requires CpuShape(c) && q < |c.tasks|
    ensures Dispatch(c).tasks[q].prio == c.tasks[q].prio
  {
  }

  lemma PrioFinishing(c: Cpu, p: nat, q: nat)
    requires CpuShape(c) && p < |c.tasks| && q < |c.tasks|
    ensures Forward(SetStatus(c, p, Finished)).tasks[q].prio == c.tasks[q].prio
  {
    hide Dispatch;
    PrioDispatch(Requeue(SetStatus(c, p, Finished)), q);
  }

  lemma PrioMove(c: Cpu, m: Move, q: nat)
    requires CpuShape(c) && Fits(c, m) && q < |c.tasks|
    ensures Do(c, m).tasks[q].prio == c.tasks[q].prio
  {
    match m
    case Interrupted(blocks) => PrioInterrupt(c, blocks, q);
    case BlockedOnP(p) => PrioInterrupt(Stamp(c, p), true, q);
    case Served(p) => PrioServed(c, p, q);
    case AfterLoad(p, evicted) => PrioLoaded(c, p, evicted, q);
    case Finishing(p) => PrioFinishing(c, p, q);
    case _ =>
  }

  lemma RanProper(t: Text, prio: int)
    requires Proper(t, prio) && t.pc < |t.code|
    ensures Proper(Ran(t), prio)
  {
  }

  lemma ProperStep(st: State, s: Step, q: nat)
    requires Sound(st) && Enabled(st, s) && !s.Create? && q < |st.texts|
    requires Proper(st.texts[q], st.cpu.tasks[q].prio)
    ensures |Apply(st, s).texts| == |st.texts|
    ensures Proper(Apply(st, s).texts[q], Apply(st, s).cpu.tasks[q].prio)
  {
    hide QueueOrder, QuantumOk, TextsOk, NamesOk, SemsOk, DevicesOk, CpuOk, LoadedIn;
    OnceWhenPlaced(st);
    StepCpu(st, s);
    PrioMove(st.cpu, MoveOf(st, s), q);
    TextsStep(st, s, q);
    if s.Instruction? && st.cpu.running == Some(q) { RanProper(st.texts[q], st.cpu.tasks[q].prio); }
  }

  // ---------- memory when everything fits ----------

  /** A live process that is not in memory finds room without any eviction. */
  lemma FitsAlready(m: Mem, pcb: seq<nat>, p: nat)
    requires LoadedIn(m, pcb) && Drift(m) >= 0 && Total(m.segs, pcb) <= NUM_PAGES
    requires p in pcb && p < |m.segs| && !m.segs[p].present
    ensures MakeRoom(m, m.segs[p].pages) == m
    ensures |m.resident| < |pcb|
  {
    var some := m.resident + [p];
    assert Distinct(some);
    SubsetSum(some, pcb, PagesOf(m.segs));
    SumAppend(m.resident, p, PagesOf(m.segs));
    var ones: nat -> nat := (q: nat) => 1;
    SubsetSum(some, pcb, ones);
    SumOnes(some, ones);
    SumOnes(pcb, ones);
  }

  lemma ResidentCount(m: Mem, pcb: seq<nat>)
    requires LoadedIn(m, pcb)
    ensures |m.resident| <= |pcb|
  {
    var ones: nat -> nat := (q: nat) => 1;
    SubsetSum(m.resident, pcb, ones);
    SumOnes(m.resident, ones);
    SumOnes(pcb, ones);
  }

  lemma MemFit(st: State, s: Step)
    requires Shape(st) && Loaded(st) && Enabled(st, s) && !s.Create?
    requires Drift(st.mem) >= 0 && Total(st.mem.segs, st.pcb) <= NUM_PAGES
    requires st.cpu.running.Some? ==> st.cpu.running.value in st.pcb
    ensures SameSizes(st.mem, MemOf(st, s))
    ensures forall q ::
      0 <= q < |st.texts| && st.mem.segs[q].present && !(s.Finish? && st.cpu.running == Some(q)) ==>
        MemOf(st, s).segs[q].present
    ensures |MemOf(st, s).resident| == |st.mem.resident| + One(s.Load?) || s.Finish?
    ensures s.Load? ==> |st.mem.resident| < |st.pcb|
  {
    if s.Load? { FitsAlready(st.mem, st.pcb, st.cpu.running.value); }
  }

  lemma TotalKept(st: State, s: Step)
    requires Located(st) && Loaded(st) && Enabled(st, s) && !s.Create?
    requires SameSizes(st.mem, MemOf(st, s))
    ensures Total(MemOf(st, s).segs, Apply(st, s).pcb) <= Total(st.mem.segs, st.pcb)
    ensures |Apply(st, s).pcb| == |st.pcb| - One(s.Finish?)
  {
    OnceWhenPlaced(st);
    TotalSame(st.mem.segs, MemOf(st, s).segs, st.pcb);
    if s.Finish? {
      var i := FirstEq(st.pcb, st.cpu.running.value);
      assert i < |st.pcb| && Apply(st, s).pcb == RemoveAt(st.pcb, i);
      SumRemove(st.pcb, i, PagesOf(MemOf(st, s).segs));
    } else {
      PcbOf(st, s);
    }
  }

  lemma AllFitStep(st: State, s: Step)
    requires Calm(st) && Enabled(st, s) && !s.Create?
    ensures AllFit(Apply(st, s))
  {
    hide Apply, MemOf, Total;
    OnceWhenPlaced(st);
    MemFit(st, s);
    StepMem(st, s);
    TotalKept(st, s);
  }

  lemma AllProper(st: State, s: Step)
    requires Calm(st) && Enabled(st, s) && !s.Create?
    ensures |Apply(st, s).texts| == |st.texts|
    ensures forall q :: q in Apply(st, s).pcb && q < |st.texts| ==>
      Proper(Apply(st, s).texts[q], Apply(st, s).cpu.tasks[q].prio)
  {
    hide Apply;
    TextsCreate(st, s);
    PcbOf(st, s);
    forall q | q in Apply(st, s).pcb && q < |st.texts|
      ensures Proper(Apply(st, s).texts[q], Apply(st, s).cpu.tasks[q].prio)
    {
      assert q in st.pcb;
      ProperStep(st, s, q);
    }
  }

  /** Calm states only lead to calm states. */
  lemma CalmStep(st: State, s: Step)
    requires Calm(st) && Enabled(st, s) && !s.Create?
    ensures Calm(Apply(st, s))
  {
    hide Apply, Proper, AllFit;
    SoundStep(st, s);
    AllFitStep(st, s);
    AllProper(st, s);
  }

  // ---------- the measure ----------

  /** What an instruction still costs: its EXEC units, one step for a P or V, and for a device
      instruction its execution and its completion. */
  function Cost(c: Instr): nat {
    match c
    case Exec(n) => if n > 0 then n else 0
    case P(_) => 1
    case V(_) => 1
    case _ => 2
  }

  function Work(t: Text): nat {
    if t.pc <= |t.code| then Sum(t.code[t.pc..], Cost) else 0
  }

  /** Instructions and units to run, device requests to complete, processes to finish. */
  function Todo(st: State): nat {
    Sum(st.texts, Work) + |st.disk| + |st.prints| + |st.pcb|
  }

  predicate Works(s: Step) { s.Instruction? || s.Finish? || s.DiskServe? || s.PrintServe? }

  lemma WorkRan(t: Text)
    requires t.pc < |t.code| && (t.code[t.pc].Exec? ==> t.code[t.pc].operand >= 1)
    ensures Work(t) == Work(Ran(t)) + if t.code[t.pc].Exec? then 1 else Cost(t.code[t.pc])
  {
    var rest := t.code[t.pc + 1..];
    assert t.code[t.pc..][1..] == rest;
    if t.code[t.pc].Exec? && t.code[t.pc].operand > 1 {
      assert Ran(t).code[t.pc..][1..] == rest;
    } else {
      assert Ran(t).code[t.pc + 1..] == rest;
    }
  }

  lemma WorkOther(st: State, s: Step)
    requires Shape(st) && Enabled(st, s) && !s.Create? && !s.Instruction?
    ensures Sum(Apply(st, s).texts, Work) == Sum(st.texts, Work)
  {
    TextsCreate(st, s);
    forall q | 0 <= q < |st.texts| ensures Work(Apply(st, s).texts[q]) == Work(st.texts[q]) { TextsStep(st, s, q); }
    SumPointwise(Apply(st, s).texts, st.texts, Work);
  }

  lemma WorkInstr(st: State, p: nat)
    requires Shape(st) && Executable(st, p)
    requires var c := st.texts[p].code[st.texts[p].pc]; c.Exec? ==> c.operand >= 1
    ensures var c := st.texts[p].code[st.texts[p].pc];
      Sum(st.texts, Work) == Sum(InstrStep(st, p).texts, Work) + if c.Exec? then 1 else Cost(c)
  {
    var t := st.texts[p];
    var r := InstrStep(st, p).texts;
    TextsInstr(st, p, p);
    WorkRan(t);
    SumUpdate(st.texts, p, Ran(t), Work);
    forall q | 0 <= q < |r| ensures Work(r[q]) == Work(st.texts[p := Ran(t)][q]) { TextsInstr(st, p, q); }
    SumPointwise(r, st.texts[p := Ran(t)], Work);
  }

  lemma TodoInstr(st: State, p: nat)
    requires Shape(st) && Executable(st, p)
    requires var c := st.texts[p].code[st.texts[p].pc]; c.Exec? ==> c.operand >= 1
    ensures Todo(InstrStep(st, p)) == Todo(st) - 1
  {
    WorkInstr(st, p);
    InstrCpu(st, p);
    PrintInstr(st, p);
    InstrDiskCount(st, p);
  }

  lemma InstrDiskCount(st: State, p: nat)
    requires Shape(st) && Executable(st, p)
    ensures var c := st.texts[p].code[st.texts[p].pc];
      |InstrStep(st, p).disk| == |st.disk| + One(c.Read? || c.Write?)
  {
  }

  lemma DiskCount(st: State, s: Step)
    requires Shape(st) && Enabled(st, s) && !s.Instruction?
    ensures |Apply(st, s).disk| == |st.disk| - One(s.DiskServe?)
  {
    if !s.DiskServe? { DiskOthers(st, s); }
  }

  lemma TodoOther(st: State, s: Step)
    requires Located(st) && Enabled(st, s) && !s.Create? && !s.Instruction?
    ensures Todo(Apply(st, s)) == Todo(st) - One(Works(s))
  {
    hide Apply, Times, Work, CpuOk;
    OnceWhenPlaced(st);
    WorkOther(st, s);
    PcbIs(st, s);
    StepPcb(st, s);
    DiskCount(st, s);
    PrintsOf(st, s);
  }

  /** An instruction (or EXEC unit), a completion and a finish each take exactly one from what is
      to do; scheduling, loading and preemption take nothing. */
  lemma TodoStep(st: State, s: Step)
    requires Calm(st) && Enabled(st, s) && !s.Create?
    ensures Todo(Apply(st, s)) == Todo(st) - One(Works(s))
  {
    if s.Instruction? {
      OnceWhenPlaced(st);
      assert Proper(st.texts[st.cpu.running.value], st.cpu.tasks[st.cpu.running.value].prio);
      TodoInstr(st, st.cpu.running.value);
    } else {
      TodoOther(st, s);
    }
  }

  predicate Expired(c: Cpu) {
    c.running.Some? && c.running.value < |c.tasks| && c.tasks[c.running.value].remaining <= 0
  }

  /** How many live processes are not in memory. */
  function Absent(st: State): nat {
    if |st.mem.resident| <= |st.pcb| then |st.pcb| - |st.mem.resident| else 0
  }

  function Flags(st: State): (k: nat)
    ensures k <= 2
  {
    One(st.cpu.newProcess) + One(Expired(st.cpu))
  }

  /** Everybody who may be dispatched at an interrupt gets a positive quantum. */
  ghost predicate Fresh(c: Cpu) {
    && (forall i :: 0 <= i < |c.ready| && c.ready[i] < |c.tasks| ==>
          1 <= c.tasks[c.ready[i]].prio <= QUANTUM_TIME_TOTAL)
    && (c.running.Some? && c.running.value < |c.tasks| ==>
          1 <= c.tasks[c.running.value].prio <= QUANTUM_TIME_TOTAL)
  }

  lemma FreshQuantum(c: Cpu)
    requires CpuShape(c) && Fresh(c)
    ensures !Expired(Dispatch(c))
  {
  }

  lemma FreshContenders(c: Cpu)
    requires CpuShape(c) && Fresh(c)
    ensures Fresh(Contenders(c, false))
  {
    hide Slot;
    ContendersAre(c, false);
  }

  lemma FreshInterrupt(c: Cpu)
    requires CpuShape(c) && Fresh(c)
    ensures !Expired(Interrupt(c, false)) && !Interrupt(c, false).newProcess
  {
    ContendersAre(c, false);
    FreshContenders(c);
    FreshQuantum(Contenders(c, false));
  }

  /** The measure: work, then non-resident processes, then the two flags that force an
      interrupt, folded into one number for at most `b` live processes. */
  function Rank(st: State, b: nat): nat {
    Todo(st) * (3 * b + 3) + 3 * Absent(st) + Flags(st)
  }

  lemma AbsentStep(st: State, s: Step)
    requires Calm(st) && Enabled(st, s) && !s.Create?
    ensures Absent(Apply(st, s)) <= |Apply(st, s).pcb| <= |st.pcb|
    ensures !Works(s) ==> Absent(Apply(st, s)) == Absent(st) - One(s.Load?)
  {
    hide Apply, MemOf, Proper, QueueOrder, QuantumOk, TextsOk, SemsOk, DevicesOk, CpuOk, LoadedIn, Drift;
    OnceWhenPlaced(st);
    ResidentCount(st.mem, st.pcb);
    MemFit(st, s);
    LoadedStep(st, s);
    StepMem(st, s);
    ResidentCount(Apply(st, s).mem, Apply(st, s).pcb);
    TotalKept(st, s);
  }

  lemma FlagsStep(st: State, s: Step)
    requires Calm(st) && Enabled(st, s) && (s.TakeNew? || s.Quantum?)
    ensures Flags(Apply(st, s)) < Flags(st)
  {
    hide Interrupt, QueueOrder, QuantumOk, TextsOk, NamesOk, SemsOk, DevicesOk, CpuOk, LoadedIn;
    OnceWhenPlaced(st);
    forall q | q in st.pcb && q < |st.cpu.tasks| ensures 1 <= st.cpu.tasks[q].prio <= QUANTUM_TIME_TOTAL {
      assert Proper(st.texts[q], st.cpu.tasks[q].prio);
    }
    FreshInterrupt(st.cpu);
  }

  /** Every step other than a creation lowers the measure. */
  lemma RankStep(st: State, s: Step, b: nat)
    requires Calm(st) && Enabled(st, s) && !s.Create? && |st.pcb| <= b
    ensures Rank(Apply(st, s), b) < Rank(st, b) && |Apply(st, s).pcb| <= b
  {
    hide Apply, Todo, Flags, AllFit, Proper, Expired;
    TodoStep(st, s);
    AbsentStep(st, s);
    ResidentCount(st.mem, st.pcb);
    if s.TakeNew? || s.Quantum? { FlagsStep(st, s); }
    Folded(Todo(st), Todo(Apply(st, s)), Absent(st), Absent(Apply(st, s)), Flags(st), Flags(Apply(st, s)), b);
  }

  lemma Folded(t: nat, t': nat, a: int, a': int, f: nat, f': nat, b: nat)
    requires 0 <= a <= b && 0 <= a' <= b && f <= 2 && f' <= 2
    requires t' == t - 1 || (t' == t && (a' == a - 1 || (a' == a && f' < f)))
    ensures 0 <= t' * (3 * b + 3) + 3 * a' + f' < t * (3 * b + 3) + 3 * a + f
  {
    if t' == t - 1 { assert t * (3 * b + 3) == t' * (3 * b + 3) + (3 * b + 3); }
  }

  ghost predicate NoCreate(run: seq<Step>) {
    forall i :: 0 <= i < |run| ==> !run[i].Create?
  }

  /** Whole-run termination: whatever the interleaving of the threads, a run without creations
      from a state where everything fits takes at most `Rank` steps. */
  lemma {:induction false} RunBound(st: State, run: seq<Step>, b: nat)
    requires Calm(st) && CanRun(st, run) && NoCreate(run) && |st.pcb| <= b
    ensures |run| <= Rank(st, b)
    decreases |run|
  {
    hide Apply, Enabled, Rank, Todo;
    if run != [] {
      CalmStep(st, run[0]);
      RankStep(st, run[0], b);
      RunBound(Apply(st, run[0]), run[1..], b);
    }
  }

  /** No thread but the user's can take a step. */
  ghost predicate Quiescent(st: State)
    requires Shape(st)
  {
    forall s: Step :: Enabled(st, s) ==> s.Create?
  }

  lemma QuietDevices(st: State)
    requires Sound(st) && Quiescent(st)
    ensures st.disk == [] && st.prints == [] && st.cpu.running == None && st.cpu.ready == []
  {
    if st.disk != [] {
      assert FirstEq(Tracks(st.disk), st.disk[0].track) == 0 by { assert Tracks(st.disk)[0] == st.disk[0].track; }
      assert Enabled(st, DiskServe(0));
    }
    assert !Enabled(st, PrintServe) && !Enabled(st, TakeNew);
    if st.cpu.running.Some? { CpuNeverStuck(st); }
  }

  lemma {:induction false} SumFinds(sems: seq<Sem>, q: nat)
    requires Sum(sems, WaitsFor(q)) > 0
    ensures exists i :: 0 <= i < |sems| && q in sems[i].waiting
  {
    if q in sems[0].waiting {
    } else {
      SumFinds(sems[1..], q);
      var i :| 0 <= i < |sems[1..]| && q in sems[1..][i].waiting;
      assert sems[i + 1] == sems[1..][i];
    }
  }

  ghost predicate FinishedOrWaits(st: State, q: nat)
    requires q < |st.cpu.tasks|
  {
    || st.cpu.tasks[q].status == Finished
    || exists i :: 0 <= i < |st.sems| && q in st.sems[i].waiting && st.sems[i].owner.Some?
  }

  /** Where the machine stops, every process has finished or sits in the wait list of a
      semaphore that somebody owns. */
  lemma QuiescentMeans(st: State, q: nat)
    requires Sound(st) && Quiescent(st) && q < |st.texts|
    ensures q < |st.cpu.tasks| && FinishedOrWaits(st, q)
  {
    QuietDevices(st);
    assert Times(st, q) == One(q in st.pcb);
    if q in st.pcb {
      SumFinds(st.sems, q);
      var i :| 0 <= i < |st.sems| && q in st.sems[i].waiting;
      assert SemOk(st.sems[i], st.cpu);
    }
  }

  // ---------- from the start ----------

  /** Whole-run termination.  After any run at all, with memory pressure and leaks in its past or
      not: once the live processes are proper and fit together, at most `Rank` steps follow
      without another creation, and where no thread can go on every process has finished or
      waits for a semaphore that somebody owns. */
  lemma RunsEnd(past: seq<Step>, run: seq<Step>, q: nat)
    requires CanRun(INIT, past) && AllFit(After(INIT, past)) && LiveProper(After(INIT, past))
    requires CanRun(After(INIT, past), run) && NoCreate(run)
    ensures var st := After(INIT, past); |run| <= Rank(st, |st.pcb|)
    ensures var r := After(After(INIT, past), run);
      Quiescent(r) && q < |r.texts| ==> q < |r.cpu.tasks| && FinishedOrWaits(r, q)
  {
    hide CanRun, After, Rank, Sound, Quiescent, AllFit, LiveProper, NoCreate, FinishedOrWaits;
    SoundInit();
    SoundRun(INIT, past);
    var st := After(INIT, past);
    RunBound(st, run, |st.pcb|);
    SoundRun(st, run);
    if Quiescent(After(st, run)) && q < |After(st, run).texts| { QuiescentMeans(After(st, run), q); }
  }
}
