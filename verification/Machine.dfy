/** The simulator as a step machine: its global state and one function for each routine of
    cpu/cpu.c and for the completion halves of disk/disk.c and print/print.c.

    Steps are atomic.  A process is the entry at its id in `cpu.tasks`, `mem.segs` and `texts`;
    the PCB and the queues hold ids. */
module Machine {
  import opened Seqs
  import opened Scheduler
  import opened Paging

  datatype Instr =
    | Exec(operand: int)
    | Read(track: int)
    | Write(track: int)
    | Print(time: int)
    | P(sem: char)
    | V(sem: char)

  /** The program text of a segment and how far it has run.  `program` is the text as read,
      `units` the EXEC units run, `held` the semaphores granted to the process and not yet
      released by a V of its own (all three history). */
  datatype Text = Text(program: seq<Instr>, code: seq<Instr>, pc: nat, exec: int,
                       units: int, held: set<char>)

  datatype Sem = Sem(name: char, owner: Option<nat>, waiting: seq<nat>)

  datatype DiskReq = DiskReq(pid: nat, track: int)

  datatype PrintReq = PrintReq(id: nat, pid: nat, time: int)

  /** `served` is the number of completed prints (history). */
  datatype State = State(
    cpu: Cpu, mem: Mem, texts: seq<Text>, pcb: seq<nat>,
    sems: seq<Sem>, disk: seq<DiskReq>, prints: seq<PrintReq>, nextPrint: nat, served: nat)

  /** A program file: header and instructions. */
  datatype Program = Program(prio: int, segId: int, pages: nat, sems: seq<char>, code: seq<Instr>)

  const INIT: State :=
    State(Cpu([], None, [], false, 0, 0, 0), Mem([], [], NUM_PAGES), [], [], [], [], [], 0, 0)

  /** Every id that a queue, list or request carries names a process. */
  ghost predicate Shape(st: State) {
    && CpuShape(st.cpu) && MemShape(st.mem)
    && |st.mem.segs| == |st.cpu.tasks| == |st.texts|
    && (forall i :: 0 <= i < |st.sems| ==> InRange(st.sems[i].waiting, |st.texts|))
    && (forall i :: 0 <= i < |st.disk| ==> st.disk[i].pid < |st.texts|)
    && (forall i :: 0 <= i < |st.prints| ==> st.prints[i].pid < |st.texts|)
  }

  // ---------- instructions ----------

  /** The EXEC case: one unit, and the operand put back at the end of the block. */
  function ExecUnit(t: Text): (r: Text)
    requires t.pc < |t.code| && t.code[t.pc].Exec?
  {
    var exec := t.exec + 1;
    var left := t.code[t.pc].operand - 1;
    if left == 0
    then t.(code := t.code[t.pc := Exec(exec)], pc := t.pc + 1, exec := 0, units := t.units + 1)
    else t.(code := t.code[t.pc := Exec(left)], exec := exec, units := t.units + 1)
  }

  function Next(t: Text): Text { t.(pc := t.pc + 1) }

  function SetText(st: State, p: nat, t: Text): (r: State)
    requires Shape(st) && p < |st.texts|
    ensures Shape(r)
  {
    st.(texts := st.texts[p := t])
  }

  function SemNames(sems: seq<Sem>): (r: seq<int>)
    ensures |r| == |sems|
  {
    seq(|sems|, i requires 0 <= i < |sems| => sems[i].name as int)
  }

  /** find on the semaphore list: the length of the list when there is none. */
  function FindSem(sems: seq<Sem>, name: char): (i: nat)
    ensures i <= |sems|
    ensures i < |sems| ==> sems[i].name == name
  {
    FirstEq(SemNames(sems), name as int)
  }

  /** There is a semaphore of that name. */
  ghost predicate Named(sems: seq<Sem>, name: char) {
    exists i :: 0 <= i < |sems| && sems[i].name == name
  }

  /** The P case with semaphore_p_syscall. */
  function DoP(st: State, p: nat, i: nat): (r: State)
    requires Shape(st) && p < |st.texts| && i < |st.sems|
    ensures Shape(r)
  {
    var sem := st.sems[i];
    var t := Next(st.texts[p]);
    if sem.owner == None || sem.owner == Some(p) then
      SetText(st, p, t.(held := t.held + {sem.name}))
        .(sems := st.sems[i := sem.(owner := Some(p))], cpu := PayLock(st.cpu, p))
    else
      SetText(st, p, t)
        .(sems := st.sems[i := sem.(waiting := sem.waiting + [p])],
          cpu := Interrupt(Stamp(st.cpu, p), true))
  }

  /** semaphore_v_syscall: the head of the wait list becomes owner and ready. */
  function Release(st: State, i: nat): (r: State)
    requires Shape(st) && i < |st.sems|
    ensures Shape(r)
  {
    var sem := st.sems[i];
    if sem.waiting == [] then st.(sems := st.sems[i := sem.(owner := None)])
    else
      var w := sem.waiting[0];
      var t := st.texts[w];
      SetText(st, w, t.(held := t.held + {sem.name}))
        .(sems := st.sems[i := Sem(sem.name, Some(w), sem.waiting[1..])], cpu := Wake(st.cpu, w))
  }

  function DoV(st: State, p: nat, i: nat): (r: State)
    requires Shape(st) && p < |st.texts| && i < |st.sems|
    ensures Shape(r)
  {
    var t := Next(st.texts[p]);
    Release(SetText(st, p, t.(held := t.held - {st.sems[i].name})), i)
  }

  function Tracks(disk: seq<DiskReq>): (r: seq<int>)
    ensures |r| == |disk|
  {
    seq(|disk|, i requires 0 <= i < |disk| => disk[i].track)
  }

  /** disk_requisition: interrupt first, then the request joins the disk list by track. */
  function DoDisk(st: State, p: nat, track: int): (r: State)
    requires Shape(st) && p < |st.texts|
    ensures Shape(r)
  {
    SetText(st, p, Next(st.texts[p]))
      .(cpu := Interrupt(st.cpu, true),
        disk := InsertAt(st.disk, Slot(Tracks(st.disk), track), DiskReq(p, track)))
  }

  /** print_requisition: interrupt first, then the request joins the print list. */
  function DoPrint(st: State, p: nat, time: int): (r: State)
    requires Shape(st) && p < |st.texts|
    ensures Shape(r)
  {
    SetText(st, p, Next(st.texts[p]))
      .(cpu := Interrupt(st.cpu, true),
        prints := st.prints + [PrintReq(st.nextPrint, p, time)], nextPrint := st.nextPrint + 1)
  }

  predicate OnDevice(c: Instr) { c.Read? || c.Write? || c.Print? }

  predicate OnSemaphore(c: Instr) { c.P? || c.V? }

  /** The PRINT, WRITE and READ cases. */
  function DoDevice(st: State, p: nat, c: Instr): (r: State)
    requires Shape(st) && p < |st.texts| && OnDevice(c)
    ensures Shape(r)
  {
    if c.Print? then DoPrint(st, p, c.time) else DoDisk(st, p, c.track)
  }

  /** The P and V cases: the semaphore is searched by name first. */
  function DoSemaphore(st: State, p: nat, c: Instr): (r: State)
    requires Shape(st) && p < |st.texts| && OnSemaphore(c) && FindSem(st.sems, c.sem) < |st.sems|
    ensures Shape(r)
  {
    var i := FindSem(st.sems, c.sem);
    if c.P? then DoP(st, p, i) else DoV(st, p, i)
  }

  /** There is a current instruction and, if it is a P or V, its semaphore is known. */
  predicate Executable(st: State, p: nat) {
    && p < |st.texts| && st.texts[p].pc < |st.texts[p].code|
    && var c := st.texts[p].code[st.texts[p].pc];
       (OnSemaphore(c) ==> FindSem(st.sems, c.sem) < |st.sems|)
  }

  /** process_instruction. */
  function Execute(st: State, p: nat): (r: State)
    requires Shape(st) && Executable(st, p)
    ensures Shape(r)
  {
    var t := st.texts[p];
    var c := t.code[t.pc];
    if c.Exec? then SetText(st, p, ExecUnit(t)).(cpu := RunUnit(st.cpu, p))
    else if OnDevice(c) then DoDevice(st, p, c)
    else DoSemaphore(st, p, c)
  }

  /** The body of cpu()'s inner loop for a loaded segment: mark it used and execute. */
  function InstrStep(st: State, p: nat): (r: State)
    requires Shape(st) && Executable(st, p)
    ensures Shape(r)
  {
    Execute(st.(mem := Touch(st.mem, p)), p)
  }

  // ---------- life cycle ----------

  /** memory_load_syscall. */
  function LoadStep(st: State, p: nat): (r: State)
    requires Shape(st) && p < |st.texts|
    ensures Shape(r)
  {
    var need := st.mem.segs[p].pages;
    st.(mem := Place(MakeRoom(st.mem, need), p), cpu := LoadCpu(st.cpu, p, Evicted(st.mem, need)))
  }

  /** delete_list by process id. */
  function Drop(s: seq<nat>, p: nat): (r: seq<nat>)
    ensures forall j :: 0 <= j < |r| ==> r[j] in s
    ensures p !in s ==> r == s
  {
    var i := FirstEq(s, p);
    if i < |s| then RemoveAt(s, i) else s
  }

  /** process_finish_syscall: unload, then out of the ready list and the PCB, then the next. */
  function FinishStep(st: State, p: nat): (r: State)
    requires Shape(st) && p < |st.texts|
    ensures Shape(r)
  {
    var cpu := SetStatus(st.cpu, p, Finished);
    st.(mem := Unload(st.mem, p), cpu := Forward(cpu.(ready := Drop(cpu.ready, p))),
        pcb := Drop(st.pcb, p))
  }

  /** The semaphore line of a program header: unknown names are added, free. */
  function Declare(sems: seq<Sem>, names: seq<char>): (r: seq<Sem>)
    ensures |sems| <= |r| && r[..|sems|] == sems
    ensures forall i :: |sems| <= i < |r| ==> r[i].waiting == [] && r[i].owner == None
    decreases names
  {
    if names == [] then sems
    else if FindSem(sems, names[0]) < |sems| then Declare(sems, names[1..])
    else Declare(sems + [Sem(names[0], None, [])], names[1..])
  }

  /** process_create_syscall. */
  function CreateStep(st: State, g: Program): (r: State)
    requires Shape(st) && g.prio != 0
    ensures Shape(r)
  {
    var p := |st.texts|;
    var sems := Declare(st.sems, g.sems);
    assert forall i :: 0 <= i < |st.sems| ==> sems[i] == sems[..|st.sems|][i];
    st.(cpu := CreateCpu(st.cpu, g.prio),
        mem := st.mem.(segs := st.mem.segs + [Segment(g.segId, g.pages, false, false)]),
        texts := st.texts + [Text(g.code, g.code, 0, 0, 0, {})],
        pcb := st.pcb + [p], sems := sems)
  }

  // ---------- device completions ----------

  /** fulfill_disk_request for the request at `i`: ready again, delete by track, interrupt. */
  function DiskDone(st: State, i: nat): (r: State)
    requires Shape(st) && i < |st.disk|
    ensures Shape(r)
  {
    var k := FirstEq(Tracks(st.disk), st.disk[i].track);
    assert k <= i by { assert Tracks(st.disk)[i] == st.disk[i].track; }
    st.(cpu := Interrupt(Wake(st.cpu, st.disk[i].pid), false), disk := RemoveAt(st.disk, k))
  }

  function PrintIds(prints: seq<PrintReq>): (r: seq<int>)
    ensures |r| == |prints|
  {
    seq(|prints|, i requires 0 <= i < |prints| => prints[i].id)
  }

  /** fulfill_print: the head request is served, deleted by id, then the interrupt. */
  function PrintDone(st: State): (r: State)
    requires Shape(st) && st.prints != []
    ensures Shape(r)
  {
    var k := FirstEq(PrintIds(st.prints), st.prints[0].id);
    assert k == 0 by { assert PrintIds(st.prints)[0] == st.prints[0].id; }
    st.(cpu := Interrupt(Wake(st.cpu, st.prints[0].pid), false), prints := RemoveAt(st.prints, k),
        served := st.served + 1)
  }

  // ---------- the steps ----------

  datatype Step =
    | Create(program: Program)
    | TakeNew
    | Load
    | Instruction
    | Quantum
    | Finish
    | DiskServe(index: nat)
    | PrintServe

  /** What the simulator needs of a program file: a non-zero priority, a segment that fits in
      memory and whose id no live process uses, and each P and V on a semaphore that exists or is in
      the header. */
  ghost predicate WellFormed(st: State, g: Program) {
    && g.prio != 0
    && g.pages <= NUM_PAGES
    && (forall q :: q in st.pcb && q < |st.mem.segs| ==> st.mem.segs[q].id != g.segId)
    && (forall i :: 0 <= i < |g.code| && OnSemaphore(g.code[i]) ==>
          Named(st.sems, g.code[i].sem) || g.code[i].sem in g.sems)
  }

  /** The guard of the inner loop of cpu(). */
  predicate CpuRuns(st: State, p: nat) {
    && p < |st.texts| && p < |st.cpu.tasks|
    && st.texts[p].pc < |st.texts[p].code| && st.cpu.tasks[p].remaining > 0 && !st.cpu.newProcess
  }

  ghost predicate Enabled(st: State, s: Step)
    requires Shape(st)
  {
    match s
    case Create(g) => WellFormed(st, g)
    case TakeNew => st.cpu.newProcess
    case DiskServe(i) => i < |st.disk| && FirstEq(Tracks(st.disk), st.disk[i].track) == i
    case PrintServe => st.prints != []
    case Load => st.cpu.running.Some? && var p := st.cpu.running.value; CpuRuns(st, p) && !st.mem.segs[p].present
    case Instruction => st.cpu.running.Some? && var p := st.cpu.running.value;
        CpuRuns(st, p) && st.mem.segs[p].present && Executable(st, p)
    case Quantum => st.cpu.running.Some? && var p := st.cpu.running.value;
        st.texts[p].pc < |st.texts[p].code| && st.cpu.tasks[p].remaining <= 0
    case Finish => st.cpu.running.Some? && var p := st.cpu.running.value; st.texts[p].pc >= |st.texts[p].code|
  }

  function Apply(st: State, s: Step): (r: State)
    requires Shape(st) && Enabled(st, s)
    ensures Shape(r)
  {
    match s
    case Create(g) => CreateStep(st, g)
    case TakeNew => st.(cpu := Interrupt(st.cpu, false))
    case Load => LoadStep(st, st.cpu.running.value)
    case Instruction => InstrStep(st, st.cpu.running.value)
    case Quantum => st.(cpu := Interrupt(st.cpu, false))
    case Finish => FinishStep(st, st.cpu.running.value)
    case DiskServe(i) => DiskDone(st, i)
    case PrintServe => PrintDone(st)
  }

  /** A run the threads can take from `st`. */
  ghost predicate CanRun(st: State, run: seq<Step>)
    requires Shape(st)
    decreases |run|
  {
    run == [] || (Enabled(st, run[0]) && CanRun(Apply(st, run[0]), run[1..]))
  }

  function After(st: State, run: seq<Step>): (r: State)
    requires Shape(st) && CanRun(st, run)
    ensures Shape(r)
    decreases |run|
  {
    if run == [] then st else After(Apply(st, run[0]), run[1..])
  }
}
