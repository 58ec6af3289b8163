/** What a dispatch costs and when it ends, over whole runs. */
module Quanta {
  import opened Seqs
  import opened Scheduler
  import opened Machine
  import opened Programs
  import opened Runs
  import opened Effects

  // ---------- the charge ----------

  /** An EXEC unit costs its process 1 of its quantum, a granted P 200, any other instruction that
      keeps the CPU nothing; nobody else is charged. */
  lemma InstructionCosts(st: State, q: nat)
    requires Sound(st) && Enabled(st, Instruction) && q < |st.cpu.tasks| && !Reschedules(st, Instruction)
    ensures var r := Apply(st, Instruction).cpu;
      && r.running == st.cpu.running && |r.tasks| == |st.cpu.tasks|
      && st.cpu.tasks[q].remaining - r.tasks[q].remaining ==
           if st.cpu.running != Some(q) then 0
           else if Current(st).Exec? then 1 else if Grants(st, Instruction) then 200 else 0
  {
    hide Apply, Sound;
    RecordStep(st, Instruction, q);
  }

  /** No step of the run runs the scheduler. */
  ghost predicate Undisturbed(st: State, run: seq<Step>)
    requires Shape(st) && CanRun(st, run)
    decreases |run|
  {
    run == [] || (!Reschedules(st, run[0]) && Undisturbed(Apply(st, run[0]), run[1..]))
  }

  /** The semaphores granted along a run. */
  function Grantings(st: State, run: seq<Step>): nat
    requires Shape(st) && CanRun(st, run)
    decreases |run|
  {
    if run == [] then 0 else One(Grants(st, run[0])) + Grantings(Apply(st, run[0]), run[1..])
  }

  /** What the process on the CPU has left of its quantum. */
  function Left(st: State, p: nat): int
    requires Shape(st) && p < |st.texts|
  {
    st.cpu.tasks[p].remaining
  }

  /** One step between two dispatches: what is left falls by the units run and 200 a grant, and a
      unit is only run while something is left. */
  lemma StepAccount(st: State, s: Step, p: nat)
    requires Sound(st) && Enabled(st, s) && st.cpu.running == Some(p) && !Reschedules(st, s)
    ensures var r := Apply(st, s);
      && r.cpu.running == Some(p) && p < |st.texts| && p < |r.texts|
      && Left(st, p) - Left(r, p) == (r.texts[p].units - st.texts[p].units) + 200 * One(Grants(st, s))
      && 0 <= r.texts[p].units - st.texts[p].units <= 1
      && (r.texts[p].units > st.texts[p].units ==> Left(st, p) > 0)
  {
    hide Apply, Sound;
    SoundGives(st);
    RecordStep(st, s, p);
    TextStep(st, s);
  }

  /** Between two dispatches, what the running process has left of its quantum falls by exactly the
      EXEC units it runs and 200 for each semaphore it is granted, and it runs no more units than
      it has left. */
  lemma {:induction false} DispatchAccount(st: State, run: seq<Step>, p: nat)
    requires Sound(st) && CanRun(st, run) && Undisturbed(st, run) && st.cpu.running == Some(p) && p < |st.texts|
    ensures var r := After(st, run);
      && r.cpu.running == Some(p) && p < |r.texts|
      && Left(st, p) - Left(r, p) == (r.texts[p].units - st.texts[p].units) + 200 * Grantings(st, run)
      && 0 <= r.texts[p].units - st.texts[p].units <= (if Left(st, p) > 0 then Left(st, p) else 0)
    decreases |run|
  {
    hide Apply, Enabled, Sound, Reschedules, Grants;
    if run != [] {
      SoundGives(st);
      StepAccount(st, run[0], p);
      SoundStep(st, run[0]);
      SoundGives(Apply(st, run[0]));
      DispatchAccount(Apply(st, run[0]), run[1..], p);
    }
  }

  /** Whoever a step dispatches starts with a whole quantum. */
  lemma DispatchFills(st: State, s: Step, p: nat)
    requires Sound(st) && Enabled(st, s) && Reschedules(st, s) && Apply(st, s).cpu.running == Some(p)
    ensures var r := Apply(st, s);
      p < |r.texts| && r.cpu.tasks[p].prio != 0 && Left(r, p) == 5000 / r.cpu.tasks[p].prio
  {
    hide Apply, Enabled, Sound, RecordAfter, Reschedules;
    SoundGives(st);
    SoundStep(st, s);
    SoundGives(Apply(st, s));
    SizeStep(st, s);
    NotCreated(st, s);
    RecordStep(st, s, p);
    PrioRecord(st, s, p);
  }

  lemma NotCreated(st: State, s: Step)
    requires Shape(st) && Enabled(st, s) && Reschedules(st, s)
    ensures !s.Create?
  {
  }

  /** A whole dispatch with quantum q, from the step that gives the CPU (`DispatchFills`) up to any
      moment before the scheduler runs again: at most q EXEC units, at most 199 more than q with
      the semaphores, and the quantum interrupt does not come before q is used up. */
  lemma WholeDispatch(a: State, run: seq<Step>, p: nat, q: nat)
    requires Sound(a) && CanRun(a, run) && Undisturbed(a, run)
    requires a.cpu.running == Some(p) && p < |a.texts| && a.cpu.tasks[p].prio > 0
    requires q == Left(a, p) == 5000 / a.cpu.tasks[p].prio
    ensures var r := After(a, run);
      && r.cpu.running == Some(p) && p < |r.texts|
      && var units := r.texts[p].units - a.texts[p].units;
      && 0 <= units <= q && units + 200 * Grantings(a, run) <= q + 199
      && (Enabled(r, Quantum) ==> units + 200 * Grantings(a, run) >= q)
  {
    hide Apply, Enabled, Sound, CanRun, After, Undisturbed, Grantings, Reschedules, Left;
    SoundGives(a);
    DispatchAccount(a, run, p);
    SoundRun(a, run);
    PrioKept(a, run, p);
    LeftBound(After(a, run), p);
  }

  lemma LeftBound(st: State, p: nat)
    requires Sound(st) && st.cpu.running == Some(p)
    ensures Shape(st) && p < |st.texts|
    ensures st.cpu.tasks[p].prio > 0 ==> Left(st, p) > -200
    ensures Enabled(st, Quantum) ==> Left(st, p) <= 0
  {
    hide Sound;
    SoundGives(st);
  }

  /** A priority number never changes. */
  lemma {:induction false} PrioKept(st: State, run: seq<Step>, q: nat)
    requires Sound(st) && CanRun(st, run) && q < |st.texts|
    ensures q < |After(st, run).texts| && q < |st.cpu.tasks| && q < |After(st, run).cpu.tasks|
    ensures After(st, run).cpu.tasks[q].prio == st.cpu.tasks[q].prio
    decreases |run|
  {
    hide Apply, Enabled, Sound, RecordAfter, Reschedules;
    SoundGives(st);
    if run != [] {
      SoundStep(st, run[0]);
      SoundGives(Apply(st, run[0]));
      RecordStep(st, run[0], q);
      PrioRecord(st, run[0], q);
      PrioKept(Apply(st, run[0]), run[1..], q);
    }
  }

  lemma PrioRecord(st: State, s: Step, q: nat)
    requires Shape(st) && Enabled(st, s) && q < |st.cpu.tasks|
    ensures RecordAfter(st, s, q).prio == st.cpu.tasks[q].prio
  {
  }

  /** A process that finishes has run its whole program: all its instructions, and as many units
      as its EXEC operands ask for. */
  lemma FinishesComplete(st: State)
    requires Sound(st) && Enabled(st, Finish)
    ensures var t := st.texts[st.cpu.running.value];
      t.pc == |t.program| && t.units == ExecTotal(t.program) && t.code == t.program
  {
    hide Sound;
    SoundGives(st);
    ConservedWhenOk(st.texts[st.cpu.running.value]);
  }
}
