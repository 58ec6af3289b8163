/** What a step changes, field by field, read off the routines of the source.  These definitions
    name no routine of the model; the lemmas say that the model's steps do exactly this. */
module Effects {
  import opened Seqs
  import opened Scheduler
  import opened CpuMoves
  import opened Paging
  import opened Machine
  import opened Locations
  import opened Steps
  import opened MemoryRuns
  import opened Programs
  import opened Semaphores
  import opened Devices
  import opened Runs

  // ---------- the moves of the CPU side ----------

  /** What an interrupt leaves in the record of `q` before the next dispatch. */
  function Preempted(c: Cpu, q: nat, blocks: bool): Task
    requires q < |c.tasks|
  {
    var t := c.tasks[q];
    if c.running != Some(q) then t
    else if blocks then t.(status := Waiting)
    else t.(status := Ready, since := c.clock)
  }

  /** A dispatched process is RUNNING, with a whole quantum. */
  function Fresh(t: Task): Task
    requires t.prio != 0
  {
    t.(status := Running, remaining := 5000 / t.prio)
  }

  lemma InterruptTask(c: Cpu, blocks: bool, q: nat)
    requires CpuShape(c) && q < |c.tasks|
    ensures var r := Interrupt(c, blocks);
      && r.tasks[q] == (if r.running == Some(q) then Fresh(Preempted(c, q, blocks)) else Preempted(c, q, blocks))
      && !r.newProcess
  {
    hide Interrupt, InsertAt, Slot;
    ContendersAre(c, blocks);
  }

  lemma WakeTask(c: Cpu, p: nat, q: nat)
    requires CpuShape(c) && p < |c.tasks| && q < |c.tasks|
    ensures var r := Wake(c, p);
      && r.tasks[q] == (if q == p then c.tasks[q].(status := Ready, since := c.clock) else c.tasks[q])
      && r.running == c.running && r.newProcess == c.newProcess && r.clock == c.clock + 1
  {
    hide InsertAt, Slot;
  }

  lemma FinishTask(c: Cpu, p: nat, q: nat)
    requires CpuShape(c) && c.running == Some(p) && q < |c.tasks|
    ensures var r := Forward(SetStatus(c, p, Finished));
      var t := if q == p then c.tasks[q].(status := Finished) else c.tasks[q];
      && r.tasks[q] == (if r.running == Some(q) then Fresh(t) else t)
      && r.newProcess == c.newProcess
  {
    assert Requeue(SetStatus(c, p, Finished)) == SetStatus(c, p, Finished).(running := None);
  }

  lemma CreateTask(c: Cpu, prio: int, q: nat)
    requires CpuShape(c) && prio != 0 && q <= |c.tasks|
    ensures var r := CreateCpu(c, prio);
      && r.tasks[q] == (if q == |c.tasks| then Task(prio, Ready, 0, c.clock) else c.tasks[q])
      && r.running == c.running && r.newProcess && |r.tasks| == |c.tasks| + 1
  {
    hide InsertAt, Slot;
  }

  lemma LoadTask(c: Cpu, p: nat, evicted: seq<nat>, q: nat)
    requires CpuShape(c) && c.running == Some(p) && q < |c.tasks|
    ensures var r := LoadCpu(c, p, evicted);
      var t := if q == p then c.tasks[q].(status := Ready, since := c.clock)
        else if q in evicted then c.tasks[q].(status := Ready) else c.tasks[q];
      r.tasks[q] == if r.running == Some(q) then Fresh(t) else t
  {
    hide Interrupt;
    InterruptTask(MarkReady(SetStatus(c, p, Waiting), evicted), false, q);
  }

  /** What a move leaves in the record of `q` before any dispatch. */
  function Marked(c: Cpu, m: Move, q: nat): Task
    requires q < |c.tasks|
  {
    var t := c.tasks[q];
    var now := c.clock;
    var onCpu := c.running == Some(q);
    match m
    case Keep | Created(_) => t
    case Interrupted(blocks) => Preempted(c, q, blocks)
    case BlockedOnP(_) => if onCpu then t.(status := Waiting, since := now) else t
    case RanUnit(_) => if onCpu then t.(remaining := t.remaining - 1) else t
    case PaidLock(_) => if onCpu then t.(remaining := t.remaining - 200) else t
    case Woken(p) => if q == p then t.(status := Ready, since := now) else t
    case Served(p) =>
      if q == p then t.(status := Ready, since := now)
      else if onCpu then t.(status := Ready, since := now + 1) else t
    case AfterLoad(_, evicted) =>
      if onCpu then t.(status := Ready, since := now) else if q in evicted then t.(status := Ready) else t
    case Finishing(_) => if onCpu then t.(status := Finished) else t
  }

  lemma MoveTask(c: Cpu, pcb: seq<nat>, m: Move, q: nat)
    requires Legal(c, pcb, m) && Fits(c, m) && q < |c.tasks|
    ensures var r := Do(c, m);
      && r.tasks[q] == (if Dispatches(m) && r.running == Some(q) then Fresh(Marked(c, m, q)) else Marked(c, m, q))
      && (!Dispatches(m) ==> r.running == c.running)
  {
    hide Interrupt, Wake, Forward, InsertAt, Slot, CreateCpu, LoadCpu;
    match m
    case Interrupted(blocks) => InterruptTask(c, blocks, q);
    case BlockedOnP(p) => InterruptTask(Stamp(c, p), true, q);
    case Woken(p) => WakeTask(c, p, q);
    case Served(p) =>
      WakeTask(c, p, q);
      InterruptTask(Wake(c, p), false, q);
      assert c.running != Some(p);
    case AfterLoad(p, evicted) => LoadTask(c, p, evicted, q);
    case Finishing(p) => FinishTask(c, p, q);
    case Created(prio) => CreateTask(c, prio, q);
    case _ =>
  }

  lemma MoveFlag(c: Cpu, m: Move)
    requires CpuShape(c) && Fits(c, m)
    ensures Do(c, m).newProcess <==> m.Created? || (c.newProcess && (m.Finishing? || !Dispatches(m)))
  {
  }

  // ---------- the process records ----------

  /** The instruction an Instruction step executes. */
  function Current(st: State): Instr
    requires Shape(st) && Enabled(st, Instruction)
  {
    st.texts[st.cpu.running.value].code[st.texts[st.cpu.running.value].pc]
  }

  /** The semaphore that instruction names. */
  function CurrentSem(st: State): Sem
    requires Shape(st) && Enabled(st, Instruction) && OnSemaphore(Current(st))
  {
    st.sems[FindSem(st.sems, Current(st).sem)]
  }

  /** The step executes a P on a free semaphore, or on one its process owns. */
  predicate Grants(st: State, s: Step)
    requires Shape(st) && Enabled(st, s)
  {
    && s.Instruction? && Current(st).P?
    && (CurrentSem(st).owner == None || CurrentSem(st).owner == Some(st.cpu.running.value))
  }

  predicate BlocksOnP(st: State, s: Step)
    requires Shape(st) && Enabled(st, s)
  {
    s.Instruction? && Current(st).P? && !Grants(st, s)
  }

  /** The steps that run the scheduler: all interrupts, the finish, and the instructions that
      block. */
  predicate Reschedules(st: State, s: Step)
    requires Shape(st) && Enabled(st, s)
  {
    match s
    case Create(_) => false
    case Instruction => OnDevice(Current(st)) || BlocksOnP(st, s)
    case _ => true
  }

  /** A process behind a device is ready again, and the process on the CPU interrupted. */
  function Served(t: Task, served: bool, onCpu: bool, now: nat): Task {
    if served then t.(status := Ready, since := now)
    else if onCpu then t.(status := Ready, since := now + 1) else t
  }

  /** What a step leaves in the record of `q`, before any dispatch. */
  function RecordAfter(st: State, s: Step, q: nat): Task
    requires Shape(st) && Enabled(st, s) && q < |st.cpu.tasks|
  {
    var t := st.cpu.tasks[q];
    var now := st.cpu.clock;
    var onCpu := st.cpu.running == Some(q);
    match s
    case Create(_) => t
    case TakeNew | Quantum => if onCpu then t.(status := Ready, since := now) else t
    case Load =>
      if onCpu then t.(status := Ready, since := now)
      else if q in Evicted(st.mem, st.mem.segs[st.cpu.running.value].pages) then t.(status := Ready) else t
    case Finish => if onCpu then t.(status := Finished) else t
    case DiskServe(i) => Served(t, q == st.disk[i].pid, onCpu, now)
    case PrintServe => Served(t, q == st.prints[0].pid, onCpu, now)
    case Instruction =>
      match Current(st)
      case Exec(_) => if onCpu then t.(remaining := t.remaining - 1) else t
      case P(_) =>
        if !onCpu then t
        else if Grants(st, s) then t.(remaining := t.remaining - 200)
        else t.(status := Waiting, since := now)
      case V(_) =>
        var woken := CurrentSem(st).waiting != [] && CurrentSem(st).waiting[0] == q;
        if woken then t.(status := Ready, since := now) else t
      case _ => if onCpu then t.(status := Waiting) else t
  }

  lemma MarkedIs(st: State, s: Step, q: nat)
    requires Shape(st) && Enabled(st, s) && q < |st.cpu.tasks|
    ensures Marked(st.cpu, MoveOf(st, s), q) == RecordAfter(st, s, q)
  {
    hide Marked, RecordAfter, MoveOf;
    if s.Instruction? { MarkedInstr(st, q); } else { MarkedOther(st, s, q); }
  }

  lemma MarkedOther(st: State, s: Step, q: nat)
    requires Shape(st) && Enabled(st, s) && !s.Instruction? && q < |st.cpu.tasks|
    ensures Marked(st.cpu, MoveOf(st, s), q) == RecordAfter(st, s, q)
  {
    hide WellFormed, FirstEq, Evicted, Tracks, CpuRuns, CpuShape, MemShape, InRange;
  }

  lemma MarkedInstr(st: State, q: nat)
    requires Shape(st) && Enabled(st, Instruction) && q < |st.cpu.tasks|
    ensures Marked(st.cpu, MoveOf(st, Instruction), q) == RecordAfter(st, Instruction, q)
  {
  }

  /** Which moves run the scheduler. */
  lemma KindIs(st: State, s: Step)
    requires Shape(st) && Enabled(st, s)
    ensures Dispatches(MoveOf(st, s)) <==> Reschedules(st, s)
    ensures (MoveOf(st, s).Created? <==> s.Create?) && (MoveOf(st, s).Finishing? <==> s.Finish?)
  {
  }

  lemma MoveLegal(st: State, s: Step)
    requires Sound(st) && Enabled(st, s)
    ensures Fits(st.cpu, MoveOf(st, s)) && Legal(st.cpu, st.pcb, MoveOf(st, s))
    ensures Apply(st, s).cpu == Do(st.cpu, MoveOf(st, s))
  {
    hide Apply, Sound, MoveOf, Legal;
    SoundGives(st);
    OnceWhenPlaced(st);
    CpuPendingWhenLocated(st);
    StepLegal(st, s);
    StepCpu(st, s);
  }

  /** The record of every process after every step: status, quantum left, priority and arrival.
      A step that runs the scheduler gives whoever it dispatches a whole quantum; no other step
      changes who is running. */
  lemma RecordStep(st: State, s: Step, q: nat)
    requires Sound(st) && Enabled(st, s) && q < |st.cpu.tasks|
    ensures var r := Apply(st, s).cpu;
      && |r.tasks| == |st.cpu.tasks| + One(s.Create?)
      && RecordAfter(st, s, q).prio != 0
      && r.tasks[q] ==
           (if Reschedules(st, s) && r.running == Some(q) then Fresh(RecordAfter(st, s, q)) else RecordAfter(st, s, q))
      && (!Reschedules(st, s) ==> r.running == st.cpu.running)
  {
    hide Apply, Enabled, Sound, Marked, RecordAfter, Do, MoveOf, Legal, Reschedules;
    SoundGives(st);
    MoveLegal(st, s);
    KindIs(st, s);
    MarkedIs(st, s, q);
    LegalShape(st.cpu, st.pcb, MoveOf(st, s));
    MoveTask(st.cpu, st.pcb, MoveOf(st, s), q);
    MarkedPrio(st.cpu, MoveOf(st, s), q);
  }

  lemma LegalShape(c: Cpu, pcb: seq<nat>, m: Move)
    requires Legal(c, pcb, m)
    ensures CpuShape(c)
  {
  }

  lemma MarkedPrio(c: Cpu, m: Move, q: nat)
    requires CpuShape(c) && q < |c.tasks|
    ensures Marked(c, m, q).prio == c.tasks[q].prio != 0
  {
  }

  /** A creation adds a record with the priority of the program, ready, without a quantum, arrived
      now. */
  lemma NewRecord(st: State, g: Program)
    requires Sound(st) && Enabled(st, Create(g))
    ensures var r := Apply(st, Create(g)).cpu;
      |r.tasks| == |st.cpu.tasks| + 1 && r.tasks[|st.cpu.tasks|] == Task(g.prio, Ready, 0, st.cpu.clock)
  {
    hide Apply, Enabled, Sound, CreateCpu;
    SoundGives(st);
    SizeStep(st, Create(g));
    CreatesCpu(st, g);
    CreateTask(st.cpu, g.prio, |st.cpu.tasks|);
  }

  lemma CreatesCpu(st: State, g: Program)
    requires Shape(st) && Enabled(st, Create(g))
    ensures g.prio != 0 && Apply(st, Create(g)).cpu == CreateCpu(st.cpu, g.prio)
  {
  }

  lemma SizeStep(st: State, s: Step)
    requires Sound(st) && Enabled(st, s)
    ensures |Apply(st, s).cpu.tasks| == |st.cpu.tasks| + One(s.Create?)
  {
    hide Apply, Enabled, Sound, Do, MoveOf, Reschedules, Legal;
    SoundGives(st);
    MoveLegal(st, s);
    KindIs(st, s);
  }

  /** The flag after every step: raised by a creation, cleared by every interrupt, and otherwise,
      at a finish too, as it was. */
  lemma FlagStep(st: State, s: Step)
    requires Sound(st) && Enabled(st, s)
    ensures Apply(st, s).cpu.newProcess <==>
      s.Create? || (st.cpu.newProcess && (s.Finish? || !Reschedules(st, s)))
  {
    hide Apply, Enabled, Sound, Do, MoveOf, Reschedules, Legal;
    SoundGives(st);
    MoveLegal(st, s);
    LegalShape(st.cpu, st.pcb, MoveOf(st, s));
    MoveFlag(st.cpu, MoveOf(st, s));
    KindIs(st, s);
  }

  // ---------- memory ----------

  /** What a step other than a load leaves of the memory. */
  function MemAfter(st: State, s: Step): Mem
    requires Shape(st) && Enabled(st, s) && !s.Load?
  {
    var m := st.mem;
    match s
    case Create(g) => m.(segs := m.segs + [Segment(g.segId, g.pages, false, false)])
    case Instruction =>
      var p := st.cpu.running.value;
      m.(segs := m.segs[p := m.segs[p].(used := true)])
    case Finish =>
      var p := st.cpu.running.value;
      var i := FirstEq(m.resident, p);
      Mem(m.segs[p := m.segs[p].(present := false, used := false)],
          if i < |m.resident| then RemoveAt(m.resident, i) else m.resident,
          m.free + m.segs[p].pages)
    case _ => m
  }

  /** The memory after every step but a load: a creation adds an absent, unused segment, an
      instruction marks the segment of its process used and no other, a finish takes its segment
      off the list and its pages back, and nothing else touches it. */
  lemma MemStep(st: State, s: Step)
    requires Sound(st) && Enabled(st, s) && !s.Load?
    ensures Apply(st, s).mem == MemAfter(st, s)
  {
    hide Apply, Sound, Enabled;
    SoundGives(st);
    StepMem(st, s);
    MemOfIs(st, s);
  }

  lemma MemOfIs(st: State, s: Step)
    requires Shape(st) && Enabled(st, s) && !s.Load? && Located(st) && LoadedIn(st.mem, st.pcb)
    ensures MemOf(st, s) == MemAfter(st, s)
  {
    hide Placed, CpuOk, LoadedIn;
    if s.Finish? {
      OnceWhenPlaced(st);
      UnloadIs(st.mem, st.pcb, st.cpu.running.value);
    }
  }

  lemma UnloadIs(m: Mem, pcb: seq<nat>, p: nat)
    requires LoadedIn(m, pcb) && p in pcb && p < |m.segs|
    ensures var i := FirstEq(m.resident, p);
      Unload(m, p) == Mem(m.segs[p := m.segs[p].(present := false, used := false)],
                          if i < |m.resident| then RemoveAt(m.resident, i) else m.resident,
                          m.free + m.segs[p].pages)
  {
    hide Unload, RemoveAt;
    var i := FirstEq(m.resident, p);
    if i < |m.resident| { UnloadMeans(m, i); } else { UnloadAbsent(m, p); }
  }

  lemma UnloadAbsent(m: Mem, p: nat)
    requires MemOk(m) && OwnId(m, p) && p !in m.resident
    ensures Unload(m, p) ==
      Mem(m.segs[p := m.segs[p].(present := false, used := false)], m.resident, m.free + m.segs[p].pages)
  {
    UnloadIndex(m, p);
  }

  /** The memory after a load: as many swaps as it takes for the space to suffice and no more,
      then the segment stands present at the end of the list and its pages are taken. */
  lemma LoadMem(st: State)
    requires Sound(st) && Enabled(st, Load)
    ensures var p := st.cpu.running.value;
      var need, k := st.mem.segs[p].pages, |Evicted(st.mem, st.mem.segs[p].pages)|;
      && k <= |st.mem.resident|
      && (forall j :: 0 <= j < k ==> Swaps(st.mem, j).free < need)
      && var m := Swaps(st.mem, k);
         m.free >= need && p < |m.segs|
         && Apply(st, Load).mem == Mem(m.segs[p := m.segs[p].(present := true)], m.resident + [p], m.free - need)
  {
    hide Apply, Sound, Swaps, Evicted, MakeRoom, LoadedIn;
    SoundGives(st);
    StepMem(st, Load);
    LoadSwaps(st.mem, st.pcb, st.cpu.running.value);
    PlacedAt(st);
  }

  lemma PlacedAt(st: State)
    requires Shape(st) && Enabled(st, Load)
    ensures var p := st.cpu.running.value;
      var m := MakeRoom(st.mem, st.mem.segs[p].pages);
      && p < |m.segs|
      && MemOf(st, Load) == Mem(m.segs[p := m.segs[p].(present := true)], m.resident + [p], m.free - m.segs[p].pages)
  {
  }

  lemma LoadSwaps(m: Mem, pcb: seq<nat>, p: nat)
    requires LoadedIn(m, pcb) && Drift(m) >= 0 && p < |m.segs|
    ensures var need, k := m.segs[p].pages, |Evicted(m, m.segs[p].pages)|;
      && k <= |m.resident| && MakeRoom(m, need) == Swaps(m, k)
      && Swaps(m, k).free >= need && |Swaps(m, k).segs| == |m.segs| && Swaps(m, k).segs[p].pages == need
      && forall j :: 0 <= j < k ==> Swaps(m, j).free < need
  {
    hide Swaps, Evicted, MakeRoom, Drift;
    var need := m.segs[p].pages;
    EvictsNoMore(m, need, 0);
    MakeRoomOk(m, need);
    RoomIff(m, need);
    forall j | 0 <= j < |Evicted(m, need)| ensures Swaps(m, j).free < need { EvictsNoMore(m, need, j); }
  }

  // ---------- program texts ----------

  /** One unit of the current EXEC: the operand falls, and at 0 it is what ran, the program counter
      goes on and the count of units starts again. */
  function UnitRun(t: Text): Text
    requires t.pc < |t.code| && t.code[t.pc].Exec?
  {
    var left := t.code[t.pc].operand - 1;
    Text(t.program,
         t.code[t.pc := Exec(if left == 0 then t.exec + 1 else left)],
         if left == 0 then t.pc + 1 else t.pc,
         if left == 0 then 0 else t.exec + 1,
         t.units + 1, t.held)
  }

  /** The text of `q` after an instruction. */
  function TextAfter(st: State, q: nat): Text
    requires Shape(st) && Enabled(st, Instruction) && q < |st.texts|
  {
    var t := st.texts[q];
    var onCpu := st.cpu.running == Some(q);
    match Current(st)
    case Exec(_) => if onCpu then UnitRun(t) else t
    case P(c) =>
      if !onCpu then t
      else if Grants(st, Instruction) then t.(pc := t.pc + 1, held := t.held + {c})
      else t.(pc := t.pc + 1)
    case V(c) =>
      var released := if onCpu then t.(pc := t.pc + 1, held := t.held - {c}) else t;
      if CurrentSem(st).waiting != [] && CurrentSem(st).waiting[0] == q
      then released.(held := released.held + {c}) else released
    case _ => if onCpu then t.(pc := t.pc + 1) else t
  }

  lemma TextInstr(st: State, q: nat)
    requires Shape(st) && Enabled(st, Instruction) && q < |st.texts|
    ensures |Apply(st, Instruction).texts| == |st.texts|
    ensures Apply(st, Instruction).texts[q] == TextAfter(st, q)
  {
    hide Apply, TextAfter;
    match Current(st)
    case Exec(_) => TextOther(st, q);
    case P(_) => TextP(st, q);
    case V(_) => TextV(st, q);
    case _ => TextOther(st, q);
  }

  lemma TextOther(st: State, q: nat)
    requires Shape(st) && Enabled(st, Instruction) && q < |st.texts| && !OnSemaphore(Current(st))
    ensures |Apply(st, Instruction).texts| == |st.texts|
    ensures Apply(st, Instruction).texts[q] == TextAfter(st, q)
  {
    hide Interrupt, InsertAt, Slot, RunUnit;
  }

  lemma TextP(st: State, q: nat)
    requires Shape(st) && Enabled(st, Instruction) && q < |st.texts| && Current(st).P?
    ensures |Apply(st, Instruction).texts| == |st.texts|
    ensures Apply(st, Instruction).texts[q] == TextAfter(st, q)
  {
    hide Interrupt, PayLock;
  }

  lemma TextV(st: State, q: nat)
    requires Shape(st) && Enabled(st, Instruction) && q < |st.texts| && Current(st).V?
    ensures |Apply(st, Instruction).texts| == |st.texts|
    ensures Apply(st, Instruction).texts[q] == TextAfter(st, q)
  {
    hide Wake, InsertAt, Slot;
  }

  /** Every step: an instruction changes the text of its process, and at a V that of the waiter it
      wakes; a creation adds the text as read; no other step changes any. */
  lemma TextStep(st: State, s: Step)
    requires Sound(st) && Enabled(st, s)
    ensures s.Create? ==>
      Apply(st, s).texts == st.texts + [Text(s.program.code, s.program.code, 0, 0, 0, {})]
    ensures s.Instruction? ==>
      |Apply(st, s).texts| == |st.texts|
      && forall q :: 0 <= q < |st.texts| ==> Apply(st, s).texts[q] == TextAfter(st, q)
    ensures !s.Create? && !s.Instruction? ==> Apply(st, s).texts == st.texts
  {
    hide Apply, Sound, TextAfter;
    SoundGives(st);
    TextsCreate(st, s);
    if s.Instruction? {
      TextInstr(st, st.cpu.running.value);
      forall q | 0 <= q < |st.texts| ensures Apply(st, s).texts[q] == TextAfter(st, q) { TextInstr(st, q); }
    } else if !s.Create? {
      TextsSame(st, s);
    }
  }

  lemma TextsSame(st: State, s: Step)
    requires Shape(st) && Enabled(st, s) && !s.Create? && !s.Instruction?
    ensures Apply(st, s).texts == st.texts
  {
  }

  // ---------- semaphores ----------

  /** The semaphores after an instruction: a granted P makes its process owner, a blocked one
      queues it last, a V frees its semaphore or hands it to the first waiter. */
  function SemsAfterInstr(st: State): seq<Sem>
    requires Shape(st) && Enabled(st, Instruction)
  {
    var p := st.cpu.running.value;
    match Current(st)
    case P(c) =>
      var sem := CurrentSem(st);
      st.sems[FindSem(st.sems, c) :=
        if Grants(st, Instruction) then Sem(sem.name, Some(p), sem.waiting)
        else Sem(sem.name, sem.owner, sem.waiting + [p])]
    case V(c) =>
      var sem := CurrentSem(st);
      st.sems[FindSem(st.sems, c) :=
        if sem.waiting == [] then Sem(sem.name, None, [])
        else Sem(sem.name, Some(sem.waiting[0]), sem.waiting[1..])]
    case _ => st.sems
  }

  /** Every step: only instructions change a semaphore, and only a creation adds some
      (`Semaphores.DeclareMeans`). */
  lemma SemStep(st: State, s: Step)
    requires Sound(st) && Enabled(st, s)
    ensures s.Instruction? ==> Apply(st, s).sems == SemsAfterInstr(st)
    ensures s.Create? ==> Apply(st, s).sems == Declare(st.sems, s.program.sems)
    ensures !s.Create? && !s.Instruction? ==> Apply(st, s).sems == st.sems
  {
    hide Interrupt, Wake, InsertAt, Slot, PayLock, RunUnit, ExecUnit, Sound, Declare;
    SoundGives(st);
    if !s.Instruction? { SemsAfter(st, s); }
  }

  // ---------- lists ----------

  /** Every step: the PCB gains a created process at its end and loses a finished one. */
  lemma PcbStep(st: State, s: Step)
    requires Sound(st) && Enabled(st, s)
    ensures match s
      case Create(_) => Apply(st, s).pcb == st.pcb + [|st.texts|]
      case Finish =>
        var i := FirstEq(st.pcb, st.cpu.running.value);
        i < |st.pcb| && Apply(st, s).pcb == RemoveAt(st.pcb, i)
      case _ => Apply(st, s).pcb == st.pcb
  {
    hide Apply, Sound;
    SoundGives(st);
    OnceWhenPlaced(st);
    PcbIs(st, s);
    PcbOf(st, s);
  }

  /** Every step: the disk list gains a request of a READ or WRITE behind all of its track or
      smaller, and loses the one served. */
  lemma RequestStep(st: State, s: Step)
    requires Sound(st) && Enabled(st, s)
    ensures match s
      case DiskServe(i) => i < |st.disk| && Apply(st, s).disk == RemoveAt(st.disk, i)
      case Instruction =>
        (match Current(st)
         case Read(track) => Joined(st.disk, Apply(st, s).disk, DiskReq(st.cpu.running.value, track))
         case Write(track) => Joined(st.disk, Apply(st, s).disk, DiskReq(st.cpu.running.value, track))
         case _ => Apply(st, s).disk == st.disk)
      case _ => Apply(st, s).disk == st.disk
  {
    hide Apply, Joined, Sound;
    assert Ascending(Tracks(st.disk)) && Shape(st) by { DiskSorted(st); }
    match s
    case DiskServe(i) => ServedDisk(st, i);
    case Instruction => RequestInstr(st);
    case _ => DiskOthers(st, s);
  }

  lemma DiskSorted(st: State)
    requires Sound(st)
    ensures Ascending(Tracks(st.disk)) && Shape(st)
  {
  }

  lemma ServedDisk(st: State, i: nat)
    requires Shape(st) && Enabled(st, DiskServe(i)) && Ascending(Tracks(st.disk))
    ensures Apply(st, DiskServe(i)).disk == RemoveAt(st.disk, i)
  {
    hide Wake, Interrupt;
    DiskServed(st, i);
  }

  lemma RequestInstr(st: State)
    requires Shape(st) && Enabled(st, Instruction) && Ascending(Tracks(st.disk))
    ensures var d := Apply(st, Instruction).disk;
      match Current(st)
      case Read(track) => Joined(st.disk, d, DiskReq(st.cpu.running.value, track))
      case Write(track) => Joined(st.disk, d, DiskReq(st.cpu.running.value, track))
      case _ => d == st.disk
  {
    hide InstrStep, Joined;
    DiskInstr(st, st.cpu.running.value);
    match Current(st)
    case Read(track) => JoinsAtSlot(st.disk, DiskReq(st.cpu.running.value, track));
    case Write(track) => JoinsAtSlot(st.disk, DiskReq(st.cpu.running.value, track));
    case _ =>
  }

  lemma JoinsAtSlot(disk: seq<DiskReq>, x: DiskReq)
    requires Ascending(Tracks(disk))
    ensures Joined(disk, InsertAt(disk, Slot(Tracks(disk), x.track), x), x)
  {
    var keys := Tracks(disk);
    var k := Slot(keys, x.track);
    forall i | 0 <= i < |disk| ensures keys[i] == disk[i].track && (i < k <==> disk[i].track <= x.track) {
      if k <= i { assert keys[k] <= keys[i]; }
    }
  }

  /** `b` is `a` with `x` behind all requests of its track or smaller and in front of the others. */
  ghost predicate Joined(a: seq<DiskReq>, b: seq<DiskReq>, x: DiskReq) {
    exists k :: 0 <= k <= |a| && b == InsertAt(a, k, x)
      && (forall i :: 0 <= i < k ==> a[i].track <= x.track) && (forall i :: k <= i < |a| ==> x.track < a[i].track)
  }
}
