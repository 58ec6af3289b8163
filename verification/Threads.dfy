/** The four threads at the level of one atomic step: from any state the invariant allows, each
    carries out a step of the machine on the simulator's variables. */
module Threads {
  import opened Seqs
  import opened Paging
  import opened PageTable
  import opened Machine
  import opened Runs
  import opened PageRuns
  import opened Records
  import opened Kernel

  /** What memory_load_requisition relies on. */
  lemma LoadServes(st: State, p: nat)
    requires Sound(st) && p < |st.mem.segs|
    ensures MemOk(st.mem) && MakeRoom(st.mem, st.mem.segs[p].pages).free >= st.mem.segs[p].pages
    ensures forall q :: q in st.mem.resident ==> q in st.pcb
  {
    RoomIff(st.mem, st.mem.segs[p].pages);
  }

  lemma InstructionServes(st: State, p: nat)
    requires Sound(st) && p < |st.texts| && st.texts[p].pc < |st.texts[p].code|
    ensures Executable(st, p)
  {
  }

  /** One pass of cpu() up to its next step.  Without a running process or a new one the CPU
      waits. */
  method CpuTurn(k: Kernel) returns (ghost step: Option<Step>)
    requires k.Valid() && Sound(k.Abs())
    modifies k, k.repr
    ensures k.Valid() && Sound(k.Abs())
    ensures match step
      case Some(s) =>
        && Enabled(old(k.Abs()), s) && k.Abs() == Apply(old(k.Abs()), s)
        && k.memory.Entries() == TableStep(old(k.Abs()), s, old(k.memory.Entries()))
      case None =>
        && k.Abs() == old(k.Abs()) && old(k.Abs()).cpu.running == None && !old(k.Abs()).cpu.newProcess
        && k.memory.Entries() == old(k.memory.Entries())
  {
    hide Sound, k.Valid, k.Abs, Scheduler.Interrupt, Shape;
    ghost var st := k.Abs();
    k.Footprint();
    k.RunningIs();
    if k.newProcess {
      step := Some(TakeNew);
      k.ProcessInterrupt(NewProcessInterruption);
      SoundStep(st, TakeNew);
    } else if k.running == null {
      step := None;
    } else {
      ghost var s := RunTurn(k, k.running);
      step := Some(s);
    }
  }

  /** A process is on the CPU: an instruction or a load while the quantum lasts, then the end of
      the process or of its quantum. */
  method RunTurn(k: Kernel, p: Process) returns (ghost step: Step)
    requires k.Valid() && Sound(k.Abs()) && p == k.running && !k.newProcess
    modifies k, k.repr
    ensures k.Valid() && Sound(k.Abs())
    ensures Enabled(old(k.Abs()), step) && k.Abs() == Apply(old(k.Abs()), step)
    ensures k.memory.Entries() == TableStep(old(k.Abs()), step, old(k.memory.Entries()))
  {
    hide Sound, k.Valid, k.Abs, Shape, Scheduler.Interrupt, LoadStep, FinishStep, Execute, AddMany,
      DeleteMany, Evict;
    ghost var st := k.Abs();
    k.Footprint();
    k.RunningIs();
    k.ProcessIs(p);
    if p.pc >= |p.segment.instructions| {
      step := Finish;
      k.ProcessFinish(p);
    } else if p.remainingTime <= 0 {
      step := Quantum;
      k.ProcessInterrupt(QuantumInterruption);
    } else if !p.segment.presentBit {
      step := Load;
      LoadServes(st, p.id);
      k.MemoryLoad(p);
    } else {
      step := Instruction;
      InstructionServes(st, p.id);
      k.MarkUsed(p);
      k.ProcessInstruction(p);
    }
    SoundStep(st, step);
  }

  /** The UI thread creates a process. */
  method CreateTurn(k: Kernel, g: Program)
    requires k.Valid() && Sound(k.Abs()) && WellFormed(k.Abs(), g)
    modifies k, k.repr
    ensures k.Valid() && Sound(k.Abs()) && k.Abs() == Apply(old(k.Abs()), Create(g))
    ensures k.memory.Entries() == old(k.memory.Entries())
  {
    hide Sound, k.Valid, k.Abs;
    ghost var st := k.Abs();
    k.ProcessCreate(g);
    SoundStep(st, Create(g));
  }

  /** The disk thread serves the request it has arrived at. */
  method DiskTurn(k: Kernel, i: nat)
    requires k.Valid() && Sound(k.Abs()) && Enabled(k.Abs(), DiskServe(i))
    modifies k, k.repr
    ensures k.Valid() && Sound(k.Abs()) && k.Abs() == Apply(old(k.Abs()), DiskServe(i))
    ensures k.memory.Entries() == old(k.memory.Entries())
  {
    hide Sound, k.Valid, k.Abs, Shape, DiskDone;
    ghost var st := k.Abs();
    k.Footprint();
    k.DevicesAre();
    k.FulfillDisk(i);
    SoundStep(st, DiskServe(i));
  }

  /** One turn of the print thread's loop. */
  method PrintTurn(k: Kernel) returns (served: bool)
    requires k.Valid() && Sound(k.Abs())
    modifies k, k.repr
    ensures k.Valid() && Sound(k.Abs())
    ensures if served then Enabled(old(k.Abs()), PrintServe) && k.Abs() == Apply(old(k.Abs()), PrintServe)
      else old(k.Abs()).prints == [] && k.Abs() == old(k.Abs())
    ensures k.memory.Entries() == old(k.memory.Entries())
  {
    hide Sound, k.Valid, k.Abs, Shape, PrintDone;
    ghost var st := k.Abs();
    k.Footprint();
    k.DevicesAre();
    served := k.prints != [];
    if served {
      k.FulfillPrint();
      SoundStep(st, PrintServe);
    }
  }
}
