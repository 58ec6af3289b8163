/** The page table along whole runs of the machine. */
module PageRuns {
  import opened Paging
  import opened PageTable
  import opened Machine
  import opened Locations
  import opened MemoryRuns
  import opened Runs

  /** What a step does to the page table. */
  function TableStep(st: State, s: Step, t: seq<Page>): (r: seq<Page>)
    requires Shape(st) && Enabled(st, s)
    ensures |r| == |t|
  {
    match s
    case Load =>
      var p := st.cpu.running.value;
      var x := st.mem.segs[p];
      AddMany(Evict(t, st.mem, x.pages), x.id, p, x.pages)
    case Finish =>
      var x := st.mem.segs[st.cpu.running.value];
      DeleteMany(t, x.id, x.pages)
    case _ => t
  }

  function TableAfter(st: State, run: seq<Step>, t: seq<Page>): (r: seq<Page>)
    requires Shape(st) && CanRun(st, run)
    ensures |r| == |t|
    decreases |run|
  {
    if run == [] then t else TableAfter(Apply(st, run[0]), run[1..], TableStep(st, run[0], t))
  }

  lemma BackedLoad(t: seq<Page>, m: Mem, pcb: seq<nat>, p: nat)
    requires LoadedIn(m, pcb) && p in pcb && p < |m.segs| && !m.segs[p].present
    requires Backed(t, m) && Drift(m) == 0
    ensures var x := m.segs[p];
      Backed(AddMany(Evict(t, m, x.pages), x.id, p, x.pages), Place(MakeRoom(m, x.pages), p))
  {
    hide MemOk, Drift, Backed, Evict, Place, LoadedIn;
    assert LoadedIn(m, pcb) && MemOk(m) && m.segs[p].pages <= NUM_PAGES by { RoomFor(m, pcb, p); }
    var need := m.segs[p].pages;
    BackedEvict(t, m, need);
    RoomKeeps(m, pcb, need);
    RoomIff(m, need);
    MakeRoomOk(m, need);
    RoomFor(MakeRoom(m, need), pcb, p);
    BackedPlace(Evict(t, m, need), MakeRoom(m, need), p);
  }

  lemma RoomFor(m: Mem, pcb: seq<nat>, p: nat)
    requires LoadedIn(m, pcb) && p in pcb && p < |m.segs|
    ensures MemOk(m) && m.segs[p].pages <= NUM_PAGES && OwnId(m, p)
  {
  }

  /** A step with a true counter keeps every resident segment in possession of its pages. */
  lemma BackedStep(st: State, s: Step, t: seq<Page>)
    requires Located(st) && Loaded(st) && Enabled(st, s)
    requires Drift(st.mem) == 0 && Backed(t, st.mem)
    ensures Backed(TableStep(st, s, t), Apply(st, s).mem)
  {
    hide Apply, LoadedIn, Unload, Place, Touch;
    StepMem(st, s);
    match s
    case Load => BackedLoad(t, st.mem, st.pcb, st.cpu.running.value);
    case Finish =>
      RoomFor(st.mem, st.pcb, st.cpu.running.value);
      BackedUnload(t, st.mem, st.cpu.running.value);
    case Instruction => BackedTouch(t, st.mem, st.cpu.running.value);
    case Create(g) => BackedGrow(t, st.mem, Segment(g.segId, g.pages, false, false));
    case _ =>
  }

  lemma BackedTouch(t: seq<Page>, m: Mem, p: nat)
    requires MemShape(m) && p < |m.segs| && Backed(t, m)
    ensures Backed(t, Touch(m, p))
  {
    BackedSame(t, m, Touch(m, p));
  }

  lemma BackedGrow(t: seq<Page>, m: Mem, x: Segment)
    requires MemShape(m) && Backed(t, m)
    ensures Backed(t, m.(segs := m.segs + [x]))
  {
    forall y | Absent(m.(segs := m.segs + [x]), y) ensures Held(t, y) == 0 { assert Absent(m, y); }
  }

  /** The page account: the counter is the number of free entries and NUM_PAGES minus the pages
      of the resident segments, each of which owns exactly its pages. */
  ghost predicate Accounted(t: seq<Page>, m: Mem) {
    && m.free == Free(t) == NUM_PAGES - Total(m.segs, m.resident)
    && Backed(t, m)
  }

  lemma AccountedWhenBacked(t: seq<Page>, m: Mem)
    requires MemOk(m) && Backed(t, m) && Drift(m) == 0
    ensures Accounted(t, m)
  {
    FreeEntries(t, m);
  }

  /** As long as nothing leaks, every run keeps the page account. */
  lemma {:induction false} TableRun(st: State, run: seq<Step>, t: seq<Page>)
    requires Sound(st) && CanRun(st, run)
    requires Drift(st.mem) == 0 && Backed(t, st.mem) && Leaks(st, run) == 0
    ensures Accounted(TableAfter(st, run, t), After(st, run).mem)
    decreases |run|
  {
    hide Backed, Drift, Accounted, Apply, Enabled, TableStep;
    if run == [] {
      AccountedWhenBacked(t, st.mem);
    } else {
      SoundStep(st, run[0]);
      LoadedStep(st, run[0]);
      BackedStep(st, run[0], t);
      TableRun(Apply(st, run[0]), run[1..], TableStep(st, run[0], t));
    }
  }

  /** The same from the start: a run from the initial state over an empty table. */
  lemma PagesConserved(run: seq<Step>, t: seq<Page>)
    requires CanRun(INIT, run) && Leaks(INIT, run) == 0
    requires |t| == NUM_PAGES && forall i :: 0 <= i < |t| ==> t[i].free
    ensures Accounted(TableAfter(INIT, run, t), After(INIT, run).mem)
  {
    hide Backed, Accounted, Sound, CanRun, After, TableAfter, Leaks;
    SoundInit();
    BackedInit(t);
    TableRun(INIT, run, t);
  }

  lemma BackedInit(t: seq<Page>)
    requires |t| == NUM_PAGES && forall i :: 0 <= i < |t| ==> t[i].free
    ensures Backed(t, INIT.mem)
  {
    forall x ensures Held(t, x) == 0 { NoneHeld(t, x); }
  }

  lemma {:induction false} NoneHeld(t: seq<Page>, x: int)
    requires forall i :: 0 <= i < |t| ==> t[i].free
    ensures Held(t, x) == 0
  {
    if t != [] { NoneHeld(t[1..], x); }
  }

  // ---------- the page search as written ----------

  /** What a step does to the page table with the search of add_page_memory as written. */
  function TableStepAsWritten(st: State, s: Step, t: seq<Page>): (r: seq<Page>)
    requires Shape(st) && Enabled(st, s)
    ensures |r| == |t|
  {
    match s
    case Load =>
      var p := st.cpu.running.value;
      var x := st.mem.segs[p];
      AddManyAsWritten(Evict(t, st.mem, x.pages), x.id, p, x.pages)
    case _ => TableStep(st, s, t)
  }

  function TableAfterAsWritten(st: State, run: seq<Step>, t: seq<Page>): (r: seq<Page>)
    requires Shape(st) && CanRun(st, run)
    ensures |r| == |t|
    decreases |run|
  {
    if run == [] then t else TableAfterAsWritten(Apply(st, run[0]), run[1..], TableStepAsWritten(st, run[0], t))
  }

  ghost predicate Unused(t: seq<Page>) { forall i :: 0 <= i < |t| ==> t[i].free }

  lemma {:induction false} AddsNothing(t: seq<Page>, id: int, pid: int, k: nat)
    requires Unused(t)
    ensures AddManyAsWritten(t, id, pid, k) == t
    decreases k
  {
    if k > 0 {
      assert FirstInUse(t) == |t|;
      AddsNothing(t, id, pid, k - 1);
    }
  }

  lemma {:induction false} EvictsNothing(t: seq<Page>, m: Mem, need: nat)
    requires Unused(t) && MemShape(m)
    ensures Evict(t, m, need) == t
    decreases |m.resident|
  {
    if m.free < need && m.resident != [] {
      var x := m.segs[VictimOf(m)];
      NoneHeld(t, x.id);
      DeleteNone(t, x.id, x.pages);
      EvictsNothing(t, Swap(m), need);
    }
  }

  lemma StepTakesNothing(st: State, s: Step, t: seq<Page>)
    requires Shape(st) && Enabled(st, s) && Unused(t)
    ensures TableStepAsWritten(st, s, t) == t
  {
    match s
    case Load =>
      var p := st.cpu.running.value;
      var x := st.mem.segs[p];
      EvictsNothing(t, st.mem, x.pages);
      AddsNothing(t, x.id, p, x.pages);
    case Finish =>
      var x := st.mem.segs[st.cpu.running.value];
      NoneHeld(t, x.id);
      DeleteNone(t, x.id, x.pages);
    case _ =>
  }

  lemma {:induction false} RunTakesNothing(st: State, run: seq<Step>, t: seq<Page>)
    requires Shape(st) && CanRun(st, run) && Unused(t)
    ensures TableAfterAsWritten(st, run, t) == t
    decreases |run|
  {
    hide Apply, Enabled, TableStepAsWritten, Unused;
    if run != [] {
      StepTakesNothing(st, run[0], t);
      RunTakesNothing(Apply(st, run[0]), run[1..], t);
    }
  }

  lemma {:induction false} AllUnused(t: seq<Page>)
    requires Unused(t)
    ensures Free(t) == |t|
  {
    if t != [] { AllUnused(t[1..]); }
  }

  /** With the search as written no run ever takes an entry of the table, so the counter is the
      number of free entries after a run if and only if the resident segments have as many pages
      as the run has leaked. */
  lemma AccountAsWritten(run: seq<Step>, t: seq<Page>)
    requires CanRun(INIT, run) && |t| == NUM_PAGES && Unused(t)
    ensures TableAfterAsWritten(INIT, run, t) == t
    ensures var m := After(INIT, run).mem;
      m.free == Free(TableAfterAsWritten(INIT, run, t)) <==> Total(m.segs, m.resident) == Leaks(INIT, run)
  {
    hide CanRun, After, TableAfterAsWritten, Leaks, Sound, Free, Total;
    SoundInit();
    PageAccount(INIT, run);
    RunTakesNothing(INIT, run, t);
    AllUnused(t);
  }
}
