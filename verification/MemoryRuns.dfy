/** The memory account over whole runs of the machine. */
module MemoryRuns {
  import opened Seqs
  import opened Scheduler
  import opened Paging
  import opened Machine
  import opened Locations
  import opened Steps

  /** The pages a step credits without their having been taken: those of a process that
      finishes while its segment is not in memory (cpu/cpu.c:271). */
  function Leak(st: State, s: Step): (k: nat)
    requires Shape(st)
  {
    if s.Finish? && st.cpu.running.Some? && !st.mem.segs[st.cpu.running.value].present
    then st.mem.segs[st.cpu.running.value].pages else 0
  }

  /** The memory after a step. */
  function MemOf(st: State, s: Step): (r: Mem)
    requires Shape(st) && Enabled(st, s)
    ensures MemShape(r)
  {
    match s
    case Create(g) => st.mem.(segs := st.mem.segs + [Segment(g.segId, g.pages, false, false)])
    case Load =>
      var p := st.cpu.running.value;
      Place(MakeRoom(st.mem, st.mem.segs[p].pages), p)
    case Instruction => Touch(st.mem, st.cpu.running.value)
    case Finish => Unload(st.mem, st.cpu.running.value)
    case _ => st.mem
  }

  lemma StepMem(st: State, s: Step)
    requires Shape(st) && Enabled(st, s)
    ensures Apply(st, s).mem == MemOf(st, s)
  {
  }

  lemma MemKeeps(st: State, s: Step, pcb: seq<nat>)
    requires Shape(st) && InRange(st.pcb, |st.texts|) && Loaded(st) && Enabled(st, s)
    requires st.cpu.running.Some? ==> st.cpu.running.value in st.pcb
    requires if s.Finish? then forall q :: q in pcb <==> q in st.pcb && q != st.cpu.running.value
      else pcb == if s.Create? then st.pcb + [|st.texts|] else st.pcb
    ensures LoadedIn(MemOf(st, s), pcb) && Drift(MemOf(st, s)) == Drift(st.mem) + Leak(st, s)
  {
    match s
    case Create(g) =>
      forall q | q in st.pcb ensures q < |st.mem.segs| {}
      GrowKeeps(st.mem, st.pcb, Segment(g.segId, g.pages, false, false));
    case Load =>
      var p := st.cpu.running.value;
      RoomKeeps(st.mem, st.pcb, st.mem.segs[p].pages);
      PlaceKeeps(MakeRoom(st.mem, st.mem.segs[p].pages), st.pcb, p);
    case Instruction => TouchOk(st.mem, st.cpu.running.value);
    case Finish => UnloadKeeps(st.mem, st.pcb, pcb, st.cpu.running.value);
    case _ =>
  }

  lemma PcbOf(st: State, s: Step)
    requires Located(st) && Enabled(st, s)
    ensures var pcb := Apply(st, s).pcb;
      if s.Finish? then forall q :: q in pcb <==> q in st.pcb && q != st.cpu.running.value
      else pcb == if s.Create? then st.pcb + [|st.texts|] else st.pcb
  {
    hide Apply;
    OnceWhenPlaced(st);
    PcbIs(st, s);
    if s.Finish? { RemoveMembers(st.pcb, FirstEq(st.pcb, st.cpu.running.value)); }
  }

  /** Every step keeps the present bits equal to membership of the resident list, and moves the
      page counter away from the true count by exactly its leak. */
  lemma LoadedStep(st: State, s: Step)
    requires Located(st) && Loaded(st) && Enabled(st, s)
    ensures Loaded(Apply(st, s))
    ensures Drift(Apply(st, s).mem) == Drift(st.mem) + Leak(st, s)
  {
    OnceWhenPlaced(st);
    StepMem(st, s);
    PcbOf(st, s);
    MemKeeps(st, s, Apply(st, s).pcb);
  }
}
