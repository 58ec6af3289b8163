/** The invariant of the whole machine and what it says of every reachable state. */
module Runs {
  import opened Seqs
  import opened Scheduler
  import opened CpuMoves
  import opened Paging
  import opened Machine
  import opened Locations
  import opened Steps
  import opened MemoryRuns
  import opened Programs
  import opened Semaphores
  import opened Devices

  ghost predicate Sound(st: State) {
    && Located(st) && Loaded(st) && Drift(st.mem) >= 0
    && QueueOrder(st.cpu) && QuantumOk(st.cpu)
    && TextsOk(st) && NamesOk(st) && SemsOk(st) && DevicesOk(st)
  }

  lemma SoundGives(st: State)
    requires Sound(st)
    ensures Shape(st) && Located(st) && Loaded(st) && LoadedIn(st.mem, st.pcb) && Drift(st.mem) >= 0
    ensures InRange(st.pcb, |st.texts|) && forall q :: q in st.pcb ==> q < |st.texts|
    ensures TextsOk(st) && NamesOk(st) && SemsOk(st) && QueueOrder(st.cpu) && QuantumOk(st.cpu)
  {
  }

  lemma CpuKeeps(st: State, s: Step)
    requires Located(st) && Loaded(st) && Enabled(st, s)
    requires QueueOrder(st.cpu) && QuantumOk(st.cpu)
    ensures QueueOrder(Apply(st, s).cpu) && QuantumOk(Apply(st, s).cpu)
  {
    CpuPendingWhenLocated(st);
    StepLegal(st, s);
    StepCpu(st, s);
    MoveOrder(st.cpu, MoveOf(st, s), st.pcb);
    MoveQuantum(st.cpu, MoveOf(st, s), st.pcb);
  }

  lemma NamesKept(st: State, s: Step)
    requires Shape(st) && Enabled(st, s) && NamesOk(st)
    ensures NamesOk(Apply(st, s))
  {
    forall q | 0 <= q < |Apply(st, s).texts| ensures Known(Apply(st, s).texts[q], Apply(st, s).sems) {
      KnownStep(st, s, q);
    }
  }

  /** Every step of every thread keeps the invariant. */
  lemma SoundStep(st: State, s: Step)
    requires Sound(st) && Enabled(st, s)
    ensures Sound(Apply(st, s))
  {
    LocatedStep(st, s);
    LoadedStep(st, s);
    CpuKeeps(st, s);
    TextsOkStep(st, s);
    NamesKept(st, s);
    SemsStep(st, s);
    PrintStep(st, s);
  }

  lemma SoundInit()
    ensures Sound(INIT) && Drift(INIT.mem) == 0
  {
    hide Located, QueueOrder, SemsOk, DevicesOk, QuantumOk;
    LocatedInit();
    QueuesEmpty(INIT);
  }

  lemma QueuesEmpty(st: State)
    requires st.cpu.running == None && st.cpu.ready == [] && st.cpu.units == st.cpu.locks == 0
    requires st.sems == [] && st.disk == [] && st.prints == [] && st.nextPrint == st.served
    ensures QueueOrder(st.cpu) && QuantumOk(st.cpu) && SemsOk(st) && DevicesOk(st)
  {
  }

  lemma LocatedInit()
    ensures Located(INIT)
  {
    forall q ensures Times(INIT, q) == 0 {}
  }

  lemma {:induction false} SoundRun(st: State, run: seq<Step>)
    requires Sound(st) && CanRun(st, run)
    ensures Sound(After(st, run))
    decreases |run|
  {
    if run != [] {
      SoundStep(st, run[0]);
      SoundRun(Apply(st, run[0]), run[1..]);
    }
  }

  /** The states the simulator can reach. */
  ghost predicate Reachable(st: State) {
    exists run :: CanRun(INIT, run) && st == After(INIT, run)
  }

  lemma SoundWhenReachable(st: State)
    requires Reachable(st)
    ensures Sound(st)
  {
    var run :| CanRun(INIT, run) && st == After(INIT, run);
    SoundInit();
    SoundRun(INIT, run);
  }

  // ---------- what holds in every reachable state ----------

  /** Each live process is in exactly one place, and no other process is anywhere. */
  lemma LocationPartition(st: State, q: nat)
    requires Reachable(st)
    ensures Times(st, q) == One(q in st.pcb)
    ensures q < |st.texts| ==> (q !in st.pcb <==> st.cpu.tasks[q].status == Finished)
  {
    SoundWhenReachable(st);
  }

  /** Only the running process is RUNNING, every queued-ready process is READY, and an idle CPU
      has nothing ready unless a creation is pending. */
  lemma StatusAndWork(st: State, q: nat)
    requires Reachable(st) && q < |st.texts|
    ensures st.cpu.tasks[q].status == Running <==> st.cpu.running == Some(q)
    ensures q in st.cpu.ready ==> st.cpu.tasks[q].status == Ready
    ensures st.cpu.running == None ==> st.cpu.ready == [] || st.cpu.newProcess
  {
    SoundWhenReachable(st);
  }

  /** Whenever a step runs the scheduler, the process it dispatches goes before everybody it
      leaves in the queue, including the one it preempted. */
  lemma DispatchOrder(st: State, s: Step)
    requires Reachable(st) && Enabled(st, s) && Dispatches(MoveOf(st, s))
    ensures RunsFirst(Apply(st, s).cpu) && QueueOrder(Apply(st, s).cpu)
  {
    SoundWhenReachable(st);
    CpuPendingWhenLocated(st);
    StepLegal(st, s);
    StepCpu(st, s);
    CpuKeeps(st, s);
    MoveDispatchesFirst(st.cpu, MoveOf(st, s), st.pcb);
  }

  /** A dispatch with a positive priority number never consumes more than its quantum and 199. */
  lemma QuantumBound(st: State)
    requires Reachable(st) && st.cpu.running.Some?
    ensures var x := st.cpu.tasks[st.cpu.running.value];
      var q := QUANTUM_TIME_TOTAL / x.prio;
      && x.remaining == q - st.cpu.units - P_COST * st.cpu.locks
      && (x.prio > 0 ==> -199 <= x.remaining <= q && st.cpu.units + P_COST * st.cpu.locks <= q + 199)
  {
    SoundWhenReachable(st);
  }

  /** Waiters of a semaphore imply an owner, are distinct, exclude the owner, and stand in the
      order in which they blocked; a hand-off takes the first. */
  lemma SemaphoreProtocol(st: State, i: nat)
    requires Reachable(st) && i < |st.sems|
    ensures var sem := st.sems[i];
      && (sem.waiting != [] ==> sem.owner.Some?)
      && (sem.owner.Some? ==> sem.owner.value !in sem.waiting)
      && (forall a, b :: 0 <= a < b < |sem.waiting| ==>
            sem.waiting[a] != sem.waiting[b]
            && st.cpu.tasks[sem.waiting[a]].since < st.cpu.tasks[sem.waiting[b]].since)
  {
    SoundWhenReachable(st);
  }

  /** Every P or V a running process is about to execute finds its semaphore. */
  lemma SemaphoreFound(st: State)
    requires Reachable(st) && st.cpu.running.Some?
    requires st.texts[st.cpu.running.value].pc < |st.texts[st.cpu.running.value].code|
    ensures Executable(st, st.cpu.running.value)
  {
    SoundWhenReachable(st);
  }

  lemma NoNames()
    ensures NamesApart(INIT.sems)
  {
  }

  /** No two semaphores share a name, so a P or V means the same semaphore in every program. */
  lemma SemaphoreNamesApart(st: State)
    requires Reachable(st)
    ensures NamesApart(st.sems)
  {
    hide NamesApart, CanRun, After;
    var run :| CanRun(INIT, run) && st == After(INIT, run);
    assert NamesApart(INIT.sems) by { NoNames(); }
    ApartRun(INIT, run);
  }

  /** Every load finds room: the swapping loop never meets an empty segment list. */
  lemma LoadFindsRoom(st: State, p: nat)
    requires Reachable(st) && p < |st.texts|
    ensures MakeRoom(st.mem, st.mem.segs[p].pages).free >= st.mem.segs[p].pages
  {
    SoundWhenReachable(st);
    RoomIff(st.mem, st.mem.segs[p].pages);
  }

  /** The delete from the ready list at a finish never finds anything: nobody on the CPU is
      queued. */
  lemma FinishDeletesNothing(st: State, p: nat)
    requires Reachable(st) && st.cpu.running == Some(p)
    ensures p !in st.cpu.ready && Drop(st.cpu.ready, p) == st.cpu.ready
  {
    SoundWhenReachable(st);
    OnceWhenPlaced(st);
  }

  /** With a process on the CPU, the CPU thread can always take a step. */
  lemma CpuNeverStuck(st: State)
    requires Shape(st) && NamesOk(st) && st.cpu.running.Some?
    ensures Enabled(st, TakeNew) || Enabled(st, Load) || Enabled(st, Instruction)
      || Enabled(st, Quantum) || Enabled(st, Finish)
  {
  }

  // ---------- the page account ----------

  /** The pages leaked along a run. */
  function Leaks(st: State, run: seq<Step>): nat
    requires Shape(st) && CanRun(st, run)
    decreases |run|
  {
    if run == [] then 0 else Leak(st, run[0]) + Leaks(Apply(st, run[0]), run[1..])
  }

  /** Along any run the page counter moves away from the number of pages that are not resident
      by exactly what finishing while swapped out leaks.  It starts true (`SoundInit`), so it is
      true after a run if and only if nothing leaked. */
  lemma {:induction false} PageAccount(st: State, run: seq<Step>)
    requires Sound(st) && CanRun(st, run)
    ensures Drift(After(st, run).mem) == Drift(st.mem) + Leaks(st, run)
    ensures Drift(st.mem) == 0 ==> (Drift(After(st, run).mem) == 0 <==> Leaks(st, run) == 0)
    decreases |run|
  {
    if run != [] {
      SoundStep(st, run[0]);
      LoadedStep(st, run[0]);
      PageAccount(Apply(st, run[0]), run[1..]);
    }
  }

  /** The present bit of a segment says whether it is on the resident list. */
  lemma PresentIffResident(st: State, p: nat)
    requires Reachable(st) && p < |st.texts|
    ensures st.mem.segs[p].present <==> p in st.mem.resident
  {
    SoundWhenReachable(st);
  }
}
