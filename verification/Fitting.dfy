/** Runs without memory pressure: nobody is ever swapped out, so nothing leaks and the page
    account stays true. */
module Fitting {
  import opened Seqs
  import opened Scheduler
  import opened Paging
  import opened PageTable
  import opened Machine
  import opened Locations
  import opened MemoryRuns
  import opened Programs
  import opened Semaphores
  import opened Runs
  import opened PageRuns
  import opened Termination

  /** Everything fits, the counter is true, and every live process has an instruction to run and
      is in memory once it has started. */
  ghost predicate Snug(st: State) {
    && Sound(st) && AllFit(st) && Drift(st.mem) == 0
    && forall q :: q in st.pcb && q < |st.texts| && q < |st.mem.segs| ==>
         |st.texts[q].code| >= 1 && (st.texts[q].pc > 0 ==> st.mem.segs[q].present)
  }

  /** A created program has an instruction and fits beside all live processes. */
  ghost predicate Roomy(st: State, s: Step) {
    s.Create? ==> |s.program.code| >= 1 && Total(st.mem.segs, st.pcb) + s.program.pages <= NUM_PAGES
  }

  ghost predicate RoomyRun(st: State, run: seq<Step>)
    requires Shape(st) && CanRun(st, run)
    decreases |run|
  {
    run == [] || (Roomy(st, run[0]) && RoomyRun(Apply(st, run[0]), run[1..]))
  }

  /** Whoever finishes has started, so it is in memory. */
  lemma NoLeak(st: State, s: Step)
    requires Snug(st) && Enabled(st, s)
    ensures Leak(st, s) == 0
  {
    if s.Finish? {
      OnceWhenPlaced(st);
      assert st.cpu.running.value in st.pcb;
    }
  }

  lemma AccountStep(st: State, s: Step)
    requires Snug(st) && Enabled(st, s) && !s.Create?
    ensures Drift(Apply(st, s).mem) == 0 && AllFit(Apply(st, s))
  {
    hide Apply, MemOf, Leak;
    OnceWhenPlaced(st);
    NoLeak(st, s);
    LoadedStep(st, s);
    MemFit(st, s);
    StepMem(st, s);
    TotalKept(st, s);
  }

  lemma StartedPresent(st: State, s: Step, q: nat)
    requires Snug(st) && Enabled(st, s) && !s.Create? && q < |st.texts| && q in Apply(st, s).pcb
    ensures q < |Apply(st, s).texts| && q < |Apply(st, s).mem.segs| && |Apply(st, s).texts[q].code| >= 1
    ensures Apply(st, s).texts[q].pc > 0 ==> Apply(st, s).mem.segs[q].present
  {
    hide Apply, QueueOrder, QuantumOk, NamesOk, SemsOk, Devices.DevicesOk, CpuOk, LoadedIn;
    OnceWhenPlaced(st);
    PcbOf(st, s);
    StepMem(st, s);
    MemFit(st, s);
    TextsStep(st, s, q);
  }

  lemma SnugOther(st: State, s: Step)
    requires Snug(st) && Enabled(st, s) && !s.Create?
    ensures Snug(Apply(st, s))
  {
    hide Apply, AllFit, Sound;
    SoundGives(st);
    SoundStep(st, s);
    AccountStep(st, s);
    var r := Apply(st, s);
    TextsCreate(st, s);
    forall q | q in r.pcb && q < |r.texts| && q < |r.mem.segs|
      ensures |r.texts[q].code| >= 1 && (r.texts[q].pc > 0 ==> r.mem.segs[q].present)
    {
      StartedPresent(st, s, q);
    }
  }

  lemma AccountCreate(st: State, g: Program)
    requires Snug(st) && Enabled(st, Create(g)) && Roomy(st, Create(g))
    ensures var r := Apply(st, Create(g));
      && Drift(r.mem) == 0 && AllFit(r)
      && r.pcb == st.pcb + [|st.texts|] && |r.mem.segs| == |st.texts| + 1
      && forall q :: 0 <= q < |st.texts| ==> r.mem.segs[q] == st.mem.segs[q]
  {
    hide Sound, CreateCpu, Declare, LoadedIn, Drift, Named;
    var x := Segment(g.segId, g.pages, false, false);
    var p: nat := |st.texts|;
    SoundGives(st);
    assert |st.mem.segs| == |st.texts| && WellFormed(st, g);
    GrowKeeps(st.mem, st.pcb, x);
    TotalSame(st.mem.segs, st.mem.segs + [x], st.pcb);
    SumAppend(st.pcb, p, PagesOf(st.mem.segs + [x]));
    assert PagesOf(st.mem.segs + [x])(p) == g.pages;
  }

  lemma SnugCreate(st: State, g: Program)
    requires Snug(st) && Enabled(st, Create(g)) && Roomy(st, Create(g))
    ensures Snug(Apply(st, Create(g)))
  {
    hide Sound, Apply, Drift, AllFit;
    SoundGives(st);
    SoundStep(st, Create(g));
    AccountCreate(st, g);
    TextsCreate(st, Create(g));
    var r := Apply(st, Create(g));
    forall q | q in r.pcb && q < |r.texts| && q < |r.mem.segs|
      ensures |r.texts[q].code| >= 1 && (r.texts[q].pc > 0 ==> r.mem.segs[q].present)
    {
      if q < |st.texts| { assert q in st.pcb; }
    }
  }

  lemma SnugInit()
    ensures Snug(INIT)
  {
    hide Sound;
    SoundInit();
  }

  lemma {:induction false} SnugRun(st: State, run: seq<Step>)
    requires Snug(st) && CanRun(st, run) && RoomyRun(st, run)
    ensures Snug(After(st, run)) && Leaks(st, run) == 0
    decreases |run|
  {
    hide Apply, Enabled, Snug, Roomy, Leak;
    if run != [] {
      SnugShape(st);
      NoLeak(st, run[0]);
      if run[0].Create? { SnugCreate(st, run[0].program); } else { SnugOther(st, run[0]); }
      SnugRun(Apply(st, run[0]), run[1..]);
    }
  }

  lemma SnugShape(st: State)
    requires Snug(st)
    ensures Shape(st)
  {
  }

  /** A run whose programs have an instruction and fit beside those alive when they are created
      leaks nothing: the page account holds throughout, over a table that starts empty. */
  lemma FittingRunsAccount(run: seq<Step>, t: seq<Page>)
    requires CanRun(INIT, run) && RoomyRun(INIT, run)
    requires |t| == NUM_PAGES && forall i :: 0 <= i < |t| ==> t[i].free
    ensures Leaks(INIT, run) == 0 && Accounted(TableAfter(INIT, run, t), After(INIT, run).mem)
  {
    hide Snug, CanRun, RoomyRun, After, TableAfter, Accounted, Leaks;
    SnugInit();
    SnugRun(INIT, run);
    PagesConserved(run, t);
  }
}
