/** Two runs the simulator can take: one after which the page counter is wrong, and one, as long
    as one likes, in which no instruction is executed. */
module Counterexamples {
  import opened Seqs
  import opened SecondChance
  import opened Scheduler
  import opened Paging
  import opened Machine
  import opened MemoryRuns
  import opened Runs

  // ---------- runs, one step at a time ----------

  lemma RunFrom(st: State, s: Step, rest: seq<Step>)
    requires Shape(st) && Enabled(st, s) && CanRun(Apply(st, s), rest)
    ensures CanRun(st, [s] + rest) && After(st, [s] + rest) == After(Apply(st, s), rest)
    ensures Leaks(st, [s] + rest) == Leak(st, s) + Leaks(Apply(st, s), rest)
  {
    assert ([s] + rest)[1..] == rest;
  }

  // ---------- pages leak ----------

  const WHOLE: nat := NUM_PAGES
  /** Fills the memory and blocks on its last instruction. */
  const A: Program := Program(1, 1, WHOLE, [], [Print(1)])
  /** Needs the whole memory while the first waits. */
  const B: Program := Program(1, 2, WHOLE, [], [Exec(1)])

  const TEXT_A: Text := Text([Print(1)], [Print(1)], 0, 0, 0, {})
  const TEXT_B: Text := Text([Exec(1)], [Exec(1)], 0, 0, 0, {})

  const S1: State := INIT.(
    cpu := Cpu([Task(1, Ready, 0, 0)], None, [0], true, 1, 0, 0),
    mem := Mem([Segment(1, WHOLE, false, false)], [], WHOLE), texts := [TEXT_A], pcb := [0])

  const S2: State := S1.(cpu := Cpu([Task(1, Running, 5000, 0)], Some(0), [], false, 1, 0, 0))

  const S3: State := S2.(
    cpu := Cpu([Task(1, Running, 5000, 1)], Some(0), [], false, 2, 0, 0),
    mem := Mem([Segment(1, WHOLE, true, false)], [0], 0))

  const S4: State := S3.(
    cpu := Cpu([Task(1, Waiting, 5000, 1)], None, [], false, 2, 0, 0),
    mem := Mem([Segment(1, WHOLE, true, true)], [0], 0),
    texts := [TEXT_A.(pc := 1)], prints := [PrintReq(0, 0, 1)], nextPrint := 1)

  lemma Step1()
    ensures Shape(INIT) && Enabled(INIT, Create(A)) && Apply(INIT, Create(A)) == S1
  {
  }

  lemma Step2()
    ensures Shape(S1) && Enabled(S1, TakeNew) && Apply(S1, TakeNew) == S2
  {
  }

  lemma Step3()
    ensures Shape(S2) && Enabled(S2, Load) && Apply(S2, Load) == S3
  {
    hide LoadCpu, Place, MakeRoom, Evicted;
    Cpu3();
    Mem3();
  }

  lemma Cpu3()
    ensures CpuShape(S2.cpu) && LoadCpu(S2.cpu, 0, []) == S3.cpu
  {
  }

  lemma Mem3()
    ensures MemShape(S2.mem) && MakeRoom(S2.mem, WHOLE) == S2.mem && Evicted(S2.mem, WHOLE) == []
    ensures Place(S2.mem, 0) == S3.mem
  {
  }

  lemma Step4()
    ensures Shape(S3) && Enabled(S3, Instruction) && Apply(S3, Instruction) == S4
  {
  }

  const S5: State := S4.(
    cpu := Cpu([Task(1, Waiting, 5000, 1), Task(1, Ready, 0, 2)], None, [1], true, 3, 0, 0),
    mem := Mem([Segment(1, WHOLE, true, true), Segment(2, WHOLE, false, false)], [0], 0),
    texts := [TEXT_A.(pc := 1), TEXT_B], pcb := [0, 1])

  const S6: State := S5.(
    cpu := Cpu([Task(1, Waiting, 5000, 1), Task(1, Running, 5000, 2)], Some(1), [], false, 3, 0, 0))

  const S7: State := S6.(
    cpu := Cpu([Task(1, Ready, 5000, 1), Task(1, Running, 5000, 3)], Some(1), [], false, 4, 0, 0),
    mem := Mem([Segment(1, WHOLE, false, false), Segment(2, WHOLE, true, false)], [1], 0))

  const S8: State := S7.(
    cpu := Cpu([Task(1, Running, 5000, 4), Task(1, Ready, 5000, 5)], Some(0), [1], false, 6, 0, 0),
    prints := [], served := 1)

  lemma Step5()
    ensures Shape(S4) && Enabled(S4, Create(B)) && Apply(S4, Create(B)) == S5
  {
  }

  lemma Step6()
    ensures Shape(S5) && Enabled(S5, TakeNew) && Apply(S5, TakeNew) == S6
  {
  }

  lemma Step7()
    ensures Shape(S6) && Enabled(S6, Load) && Apply(S6, Load) == S7
  {
    hide LoadCpu, Place, MakeRoom, Evicted;
    Cpu7();
    Mem7();
  }

  lemma Cpu7()
    ensures CpuShape(S6.cpu) && LoadCpu(S6.cpu, 1, [0]) == S7.cpu
  {
    var c := MarkReady(SetStatus(S6.cpu, 1, Waiting), [0]);
    assert c.tasks == [Task(1, Ready, 5000, 1), Task(1, Waiting, 5000, 2)];
  }

  const SWAPPED: Mem := Mem([Segment(1, WHOLE, false, false), Segment(2, WHOLE, false, false)], [], WHOLE)

  lemma Mem7()
    ensures MemShape(S6.mem) && Evicted(S6.mem, WHOLE) == [0]
    ensures Place(MakeRoom(S6.mem, WHOLE), 1) == S7.mem
  {
    hide Swap, VictimOf;
    Swap7();
    assert MakeRoom(SWAPPED, WHOLE) == SWAPPED && Evicted(SWAPPED, WHOLE) == [];
  }

  /** A's segment was used, loses its bit to the scan and is evicted all the same. */
  lemma Swap7()
    ensures MemShape(S6.mem) && Swap(S6.mem) == SWAPPED && VictimOf(S6.mem) == 0
  {
    var m := S6.mem;
    assert UsedBits(m) == [true];
    VictimIsFirstClear([true], 0);
    assert m.resident[..1] == [0];
    Unload7();
  }

  lemma Unload7()
    ensures ClearUsed(S6.mem, [0]) ==
      S6.mem.(segs := [Segment(1, WHOLE, true, false), Segment(2, WHOLE, false, false)])
    ensures Unload(ClearUsed(S6.mem, [0]), 0) == SWAPPED
  {
    var m := ClearUsed(S6.mem, [0]);
    assert Ids(m) == [1];
  }

  const WOKEN: Cpu :=
    Cpu([Task(1, Ready, 5000, 4), Task(1, Running, 5000, 3)], Some(1), [0], false, 5, 0, 0)

  lemma Step8()
    ensures Shape(S7) && Enabled(S7, PrintServe) && Apply(S7, PrintServe) == S8
  {
    hide Wake, Interrupt, CpuShape;
    Wakes8();
    Interrupts8();
    assert FirstEq(PrintIds(S7.prints), 0) == 0 by { assert PrintIds(S7.prints)[0] == 0; }
  }

  lemma Wakes8()
    ensures CpuShape(S7.cpu) && Wake(S7.cpu, 0) == WOKEN
  {
  }

  lemma Interrupts8()
    ensures CpuShape(WOKEN) && Interrupt(WOKEN, false) == S8.cpu
  {
    ContendersAre(WOKEN, false);
    assert Prios(WOKEN.tasks, WOKEN.ready) == [1];
  }

  lemma Step9()
    ensures Shape(S8) && Enabled(S8, Finish) && Leak(S8, Finish) == WHOLE
  {
  }

  /** A run from `st` that leaks the whole memory. */
  ghost predicate LeaksFrom(st: State, run: seq<Step>) {
    Shape(st) && CanRun(st, run) && Leaks(st, run) == WHOLE
  }

  lemma LeakLater(st: State, s: Step, next: State, rest: seq<Step>)
    requires Shape(st) && Enabled(st, s) && Apply(st, s) == next && LeaksFrom(next, rest)
    requires !s.Finish?
    ensures LeaksFrom(st, [s] + rest)
  {
    RunFrom(st, s, rest);
  }

  lemma From8() returns (r: seq<Step>)
    ensures LeaksFrom(S8, r)
  {
    hide Apply;
    Step9();
    assert CanRun(Apply(S8, Finish), []);
    RunFrom(S8, Finish, []);
    r := [Finish] + [];
  }

  lemma From4() returns (r: seq<Step>)
    ensures LeaksFrom(S4, r)
  {
    hide Apply, Enabled, Shape, LeaksFrom;
    r := From8();
    Step8();
    LeakLater(S7, PrintServe, S8, r);
    r := [PrintServe] + r;
    Step7();
    LeakLater(S6, Load, S7, r);
    r := [Load] + r;
    Step6();
    LeakLater(S5, TakeNew, S6, r);
    r := [TakeNew] + r;
    Step5();
    LeakLater(S4, Create(B), S5, r);
    r := [Create(B)] + r;
  }

  /** A run the simulator can take after which the page counter is wrong: a process blocks on
      its last instruction, is swapped out, and on finishing gives back pages it no longer has. */
  lemma LeakHappens() returns (r: seq<Step>)
    ensures CanRun(INIT, r) && Leaks(INIT, r) == NUM_PAGES
  {
    hide Apply, Enabled, Shape;
    r := From4();
    Step4();
    LeakLater(S3, Instruction, S4, r);
    r := [Instruction] + r;
    Step3();
    LeakLater(S2, Load, S3, r);
    r := [Load] + r;
    Step2();
    LeakLater(S1, TakeNew, S2, r);
    r := [TakeNew] + r;
    Step1();
    LeakLater(INIT, Create(A), S1, r);
    r := [Create(A)] + r;
  }

  // ---------- two processes that evict each other ----------

  /** A large process on the CPU is absent, the other is ready and fills the memory. */
  ghost predicate Thrashing(st: State) {
    && Shape(st) && |st.texts| == 2 && !st.cpu.newProcess
    && st.cpu.running.Some? && st.cpu.running.value < 2
    && var p, q := st.cpu.running.value, 1 - st.cpu.running.value;
    && st.cpu.ready == [q] && st.cpu.tasks[p].prio == st.cpu.tasks[q].prio == 1 && st.cpu.tasks[p].remaining > 0
    && st.texts[p].pc < |st.texts[p].code| && st.texts[q].pc < |st.texts[q].code|
    && st.mem.resident == [q] && st.mem.free == 0
    && st.mem.segs[p].id != st.mem.segs[q].id
    && st.mem.segs[p] == Segment(st.mem.segs[p].id, WHOLE, false, false)
    && st.mem.segs[q] == Segment(st.mem.segs[q].id, WHOLE, true, false)
  }

  lemma ThrashCpu(st: State)
    requires Thrashing(st)
    ensures var p, q := st.cpu.running.value, 1 - st.cpu.running.value;
      var c := LoadCpu(st.cpu, p, [q]);
      && c.running == Some(q) && c.ready == [p] && !c.newProcess && |c.tasks| == 2
      && c.tasks[p].prio == c.tasks[q].prio == 1 && c.tasks[q].remaining == 5000
  {
    hide Interrupt;
    var p, q := st.cpu.running.value, 1 - st.cpu.running.value;
    PreemptsEqual(MarkReady(SetStatus(st.cpu, p, Waiting), [q]), p, q);
  }

  /** A preempted process goes behind an equal. */
  lemma PreemptsEqual(c: Cpu, p: nat, q: nat)
    requires CpuShape(c) && |c.tasks| == 2 && p < 2 && q == 1 - p
    requires c.running == Some(p) && c.ready == [q] && c.tasks[p].prio == c.tasks[q].prio == 1
    ensures var r := Interrupt(c, false);
      && r.running == Some(q) && r.ready == [p] && !r.newProcess && |r.tasks| == 2
      && r.tasks[p].prio == r.tasks[q].prio == 1 && r.tasks[q].remaining == 5000
  {
    hide Interrupt;
    ContendersAre(c, false);
    assert Prios(SetStatus(c, p, Ready).tasks, c.ready) == [1];
  }

  lemma ThrashMem(m: Mem, p: nat, q: nat)
    requires |m.segs| == 2 && p < 2 && q == 1 - p && m.resident == [q] && m.free == 0 && m.segs[p].id != m.segs[q].id
    requires m.segs[p] == Segment(m.segs[p].id, WHOLE, false, false)
    requires m.segs[q] == Segment(m.segs[q].id, WHOLE, true, false)
    ensures MemShape(m) && Evicted(m, WHOLE) == [q]
    ensures Place(MakeRoom(m, WHOLE), p) == Mem(
      m.segs[p := m.segs[p].(present := true)][q := m.segs[q].(present := false)], [p], 0)
  {
    hide Swap, VictimOf;
    ThrashSwap(m, p, q);
    var r := Swap(m);
    assert MakeRoom(r, WHOLE) == r && Evicted(r, WHOLE) == [];
  }

  lemma ThrashSwap(m: Mem, p: nat, q: nat)
    requires |m.segs| == 2 && p < 2 && q == 1 - p && m.resident == [q] && m.free == 0
    requires m.segs[q] == Segment(m.segs[q].id, WHOLE, true, false)
    ensures MemShape(m) && VictimOf(m) == q
    ensures Swap(m) == Mem(m.segs[q := m.segs[q].(present := false)], [], WHOLE)
  {
    assert UsedBits(m) == [false];
    VictimIsFirstClear([false], 0);
    assert ClearUsed(m, []) == m && m.resident[..0] == [] && Ids(m) == [m.segs[q].id];
  }

  /** A load preempts its process before the segment is ever used, so the other process's load
      evicts it again. */
  lemma ThrashOn(st: State)
    requires Thrashing(st)
    ensures Enabled(st, Load) && Thrashing(Apply(st, Load))
    ensures Apply(st, Load).texts == st.texts
  {
    hide LoadCpu, Place, MakeRoom, Evicted;
    var p, q := st.cpu.running.value, 1 - st.cpu.running.value;
    ThrashCpu(st);
    ThrashMem(st.mem, p, q);
  }

  /** So however long the run, the two may never execute an instruction: there is no progress
      under memory pressure, and termination is stated for processes that fit together. */
  lemma {:induction false} ThrashForever(st: State, n: nat) returns (run: seq<Step>)
    requires Thrashing(st)
    ensures |run| == n && CanRun(st, run) && After(st, run).texts == st.texts
    ensures forall k :: 0 <= k < n ==> run[k] == Load
    decreases n
  {
    hide Thrashing, Apply, Enabled;
    run := [];
    if n > 0 {
      ThrashShape(st);
      ThrashOn(st);
      var rest := ThrashForever(Apply(st, Load), n - 1);
      RunFrom(st, Load, rest);
      run := [Load] + rest;
    }
  }

  lemma ThrashShape(st: State)
    requires Thrashing(st)
    ensures Shape(st)
  {
  }

  const T2: State := S1.(
    cpu := Cpu([Task(1, Ready, 0, 0), Task(1, Ready, 0, 1)], None, [0, 1], true, 2, 0, 0),
    mem := Mem([Segment(1, WHOLE, false, false), Segment(2, WHOLE, false, false)], [], WHOLE),
    texts := [TEXT_A, TEXT_B], pcb := [0, 1])

  const T3: State := T2.(
    cpu := Cpu([Task(1, Running, 5000, 0), Task(1, Ready, 0, 1)], Some(0), [1], false, 2, 0, 0))

  lemma StepT2()
    ensures Shape(S1) && Enabled(S1, Create(B)) && Apply(S1, Create(B)) == T2
  {
    hide CreateCpu;
    CpuT2();
  }

  lemma CpuT2()
    ensures CpuShape(S1.cpu) && CreateCpu(S1.cpu, 1) == T2.cpu
  {
    assert Prios(S1.cpu.tasks + [Task(1, Ready, 0, 0)], [0]) == [1];
  }

  lemma StepT3()
    ensures Shape(T2) && Enabled(T2, TakeNew) && Apply(T2, TakeNew) == T3
  {
  }

  lemma StepT4()
    ensures Shape(T3) && Enabled(T3, Load) && Thrashing(Apply(T3, Load))
  {
    hide LoadCpu, Place, MakeRoom, Evicted;
    CpuT4();
    assert MakeRoom(T3.mem, WHOLE) == T3.mem && Evicted(T3.mem, WHOLE) == [] by { MemT4(); }
    MemT4();
  }

  lemma CpuT4()
    ensures CpuShape(T3.cpu)
    ensures var c := LoadCpu(T3.cpu, 0, []);
      && c.running == Some(1) && c.ready == [0] && !c.newProcess && |c.tasks| == 2
      && c.tasks[0].prio == c.tasks[1].prio == 1 && c.tasks[1].remaining == 5000
  {
    hide Interrupt;
    PreemptsEqual(MarkReady(SetStatus(T3.cpu, 0, Waiting), []), 0, 1);
  }

  lemma MemT4()
    ensures MemShape(T3.mem) && MakeRoom(T3.mem, WHOLE) == T3.mem && Evicted(T3.mem, WHOLE) == []
    ensures Place(T3.mem, 0) ==
      Mem([Segment(1, WHOLE, true, false), Segment(2, WHOLE, false, false)], [0], 0)
  {
  }

  /** Two processes of the size of the memory get there from the start. */
  lemma ThrashReachable() returns (run: seq<Step>)
    ensures CanRun(INIT, run) && Thrashing(After(INIT, run))
  {
    hide Apply, Enabled, Shape, Thrashing;
    StepT4();
    assert CanRun(Apply(T3, Load), []) && After(Apply(T3, Load), []) == Apply(T3, Load);
    RunFrom(T3, Load, []);
    StepT3();
    RunFrom(T2, TakeNew, [Load] + []);
    StepT2();
    RunFrom(S1, Create(B), [TakeNew] + ([Load] + []));
    Step1();
    RunFrom(INIT, Create(A), [Create(B)] + ([TakeNew] + ([Load] + [])));
    run := [Create(A)] + ([Create(B)] + ([TakeNew] + ([Load] + [])));
  }
}
