/** A creation interrupts whoever runs. */
module Creations {
  import opened Seqs
  import opened Scheduler
  import opened CpuMoves
  import opened Machine
  import opened Locations
  import opened Steps
  import opened Runs
  import opened Effects

  ghost predicate OnlyCreates(run: seq<Step>) { forall i :: 0 <= i < |run| ==> run[i].Create? }

  /** `p` waits in the ready queue and the flag is up. */
  ghost predicate Announced(st: State, p: nat) {
    Sound(st) && st.cpu.newProcess && p in st.cpu.ready
  }

  lemma EnqueueHas(c: Cpu, p: nat)
    requires CpuShape(c) && p < |c.tasks|
    ensures p in Enqueue(c, p).ready && forall q :: q in c.ready ==> q in Enqueue(c, p).ready
  {
    hide Slot;
    var k := Slot(Prios(c.tasks, c.ready), c.tasks[p].prio);
    var r := Enqueue(c, p).ready;
    assert r[k] == p;
    forall q | q in c.ready ensures q in r {
      var i :| 0 <= i < |c.ready| && c.ready[i] == q;
      assert r[if i < k then i else i + 1] == q;
    }
  }

  /** A creation raises the flag and queues the new process, whether or not the CPU is busy, and
      takes nobody's place or quantum. */
  lemma CreateAnnounces(st: State, g: Program)
    requires Sound(st) && Enabled(st, Create(g))
    ensures Announced(Apply(st, Create(g)), |st.texts|)
    ensures forall q :: Announced(st, q) ==> Announced(Apply(st, Create(g)), q)
    ensures Apply(st, Create(g)).cpu.running == st.cpu.running
  {
    hide Sound, Enqueue, Apply;
    SoundGives(st);
    SoundStep(st, Create(g));
    QueuesNew(st, g);
  }

  lemma QueuesNew(st: State, g: Program)
    requires Shape(st) && Enabled(st, Create(g))
    ensures var r := Apply(st, Create(g)).cpu;
      && r.newProcess && r.running == st.cpu.running && |st.texts| in r.ready
      && forall q :: q in st.cpu.ready ==> q in r.ready
  {
    hide InsertAt, Slot, Declare;
    EnqueueHas(st.cpu.(tasks := st.cpu.tasks + [Task(g.prio, Ready, 0, 0)]), |st.texts|);
  }

  lemma {:induction false} StaysAnnounced(st: State, run: seq<Step>, p: nat)
    requires Announced(st, p) && Shape(st) && CanRun(st, run) && OnlyCreates(run)
    ensures Announced(After(st, run), p) && After(st, run).cpu.running == st.cpu.running
    decreases |run|
  {
    hide Apply, Enabled, Announced, Sound;
    if run != [] {
      assert Sound(st) by { AnnouncedSound(st, p); }
      CreateAnnounces(st, run[0].program);
      AnnouncedSound(Apply(st, run[0]), p);
      StaysAnnounced(Apply(st, run[0]), run[1..], p);
    }
  }

  lemma AnnouncedSound(st: State, p: nat)
    requires Announced(st, p)
    ensures Sound(st) && Shape(st) && Once(st.cpu)
  {
    OnceWhenPlaced(st);
  }

  /** The scheduler keeps a queued process on the CPU or in the queue, and then has somebody to
      dispatch. */
  lemma QueuedMove(c: Cpu, m: Move, q: nat)
    requires CpuShape(c) && Fits(c, m) && Once(c) && q in c.ready
    requires m == Interrupted(false) || m.Served? || m.AfterLoad? || (m.Finishing? && c.running == Some(m.p))
    ensures var r := Do(c, m); r.running.Some? && (r.running == Some(q) || q in r.ready)
  {
    hide Interrupt, Wake, Dispatch, Requeue;
    assert multiset(c.ready)[q] > 0;
    match m
    case Interrupted(_) =>
      QueuedInterrupt(c, false, q);
      InterruptFills(c, false);
    case Served(p) =>
      QueuedWake(c, p, q);
      QueuedInterrupt(Wake(c, p), false, q);
      InterruptFills(Wake(c, p), false);
    case AfterLoad(p, evicted) =>
      QueuedInterrupt(MarkReady(SetStatus(c, p, Waiting), evicted), false, q);
      InterruptFills(MarkReady(SetStatus(c, p, Waiting), evicted), false);
    case Finishing(p) =>
      QueuedFinish(c, p, q);
      DispatchFills(Requeue(SetStatus(c, p, Finished)));
  }

  lemma DispatchFills(c: Cpu)
    requires CpuShape(c)
    ensures Dispatch(c).running == None ==> Dispatch(c).ready == []
  {
  }

  lemma InterruptFills(c: Cpu, blocks: bool)
    requires CpuShape(c)
    ensures Interrupt(c, blocks).running == None ==> Interrupt(c, blocks).ready == []
  {
    ContendersAre(c, blocks);
    DispatchFills(Contenders(c, blocks));
  }

  lemma QueuedFinish(c: Cpu, p: nat, q: nat)
    requires CpuShape(c) && c.running == Some(p) && q != p
    ensures Queued(Forward(SetStatus(c, p, Finished)), q) == Queued(c, q)
  {
    hide Dispatch;
    assert Requeue(SetStatus(c, p, Finished)) == SetStatus(c, p, Finished).(running := None);
    QueuedDispatch(SetStatus(c, p, Finished).(running := None), q);
  }

  /** Once a process is announced, neither a load nor an instruction can happen; whatever does
      happen, other than a creation, runs the scheduler, and whoever it dispatches is the new
      process or goes before it. */
  lemma AnnouncedServed(st: State, s: Step, p: nat)
    requires Announced(st, p) && Shape(st)
    ensures Enabled(st, TakeNew) && !Enabled(st, Load) && !Enabled(st, Instruction)
    ensures Enabled(st, s) && !s.Create? ==>
      var r := Apply(st, s).cpu;
      && Reschedules(st, s) && r.running.Some? && r.running.value < |r.tasks| && p < |r.tasks|
      && (r.running == Some(p) || (p in r.ready && Before(r.tasks[r.running.value], r.tasks[p])))
  {
    hide Sound, Apply, Reschedules;
    if Enabled(st, s) && !s.Create? { AnnouncedStep(st, s, p); }
  }

  lemma AnnouncedStep(st: State, s: Step, p: nat)
    requires Announced(st, p) && Shape(st) && Enabled(st, s) && !s.Create?
    ensures var r := Apply(st, s).cpu;
      && Reschedules(st, s) && r.running.Some? && r.running.value < |r.tasks| && p < |r.tasks|
      && (r.running == Some(p) || (p in r.ready && Before(r.tasks[r.running.value], r.tasks[p])))
  {
    hide Apply, Enabled, Do, MoveOf, Sound, RunsFirst, Announced, Reschedules;
    AnnouncedSound(st, p);
    SoundGives(st);
    AnnouncedKind(st, s, p);
    MoveLegal(st, s);
    KindIs(st, s);
    LegalShape(st.cpu, st.pcb, MoveOf(st, s));
    QueuedMove(st.cpu, MoveOf(st, s), p);
    MoveDispatchesFirst(st.cpu, MoveOf(st, s), st.pcb);
    GoesFirst(Do(st.cpu, MoveOf(st, s)), p);
  }

  lemma GoesFirst(c: Cpu, p: nat)
    requires CpuShape(c) && RunsFirst(c) && c.running.Some? && (c.running == Some(p) || p in c.ready)
    ensures c.running.value < |c.tasks| && p < |c.tasks|
    ensures c.running == Some(p) || Before(c.tasks[c.running.value], c.tasks[p])
  {
    if p in c.ready { var i :| 0 <= i < |c.ready| && c.ready[i] == p; }
  }

  lemma AnnouncedKind(st: State, s: Step, p: nat)
    requires Shape(st) && Announced(st, p) && Enabled(st, s) && !s.Create?
    ensures Reschedules(st, s) && p in st.cpu.ready
    ensures var m := MoveOf(st, s);
      m == Interrupted(false) || m.Served? || m.AfterLoad? || (m.Finishing? && st.cpu.running == Some(m.p))
  {
  }

  /** A creation, any number of further ones, then the next step of any thread: the creation has
      stopped loads and instructions, and that step dispatches the new process, or one that goes
      before it. */
  lemma CreationInterrupts(st: State, g: Program, more: seq<Step>, s: Step)
    requires Sound(st) && Enabled(st, Create(g))
    requires CanRun(Apply(st, Create(g)), more) && OnlyCreates(more)
    ensures var a := After(Apply(st, Create(g)), more);
      && a.cpu.newProcess && a.cpu.running == st.cpu.running
      && Enabled(a, TakeNew) && !Enabled(a, Load) && !Enabled(a, Instruction)
      && (Enabled(a, s) && !s.Create? ==>
            var r := Apply(a, s).cpu;
            && Reschedules(a, s) && r.running.Some? && r.running.value < |r.tasks| && |st.texts| < |r.tasks|
            && (r.running == Some(|st.texts|)
                || (|st.texts| in r.ready && Before(r.tasks[r.running.value], r.tasks[|st.texts|]))))
  {
    hide Apply, Enabled, Sound, After, CanRun, Reschedules;
    SoundGives(st);
    CreateAnnounces(st, g);
    AnnouncedSound(Apply(st, Create(g)), |st.texts|);
    StaysAnnounced(Apply(st, Create(g)), more, |st.texts|);
    AnnouncedServed(After(Apply(st, Create(g)), more), s, |st.texts|);
  }
}
