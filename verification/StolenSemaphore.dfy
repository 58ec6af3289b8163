/** A run the simulator can take in which a process releases a semaphore another one holds and
    then acquires it itself: both are between their P and their V. */
module StolenSemaphore {
  import opened Seqs
  import opened Scheduler
  import opened Paging
  import opened Machine
  import Counterexamples
  import opened Exclusion

  /** Acquires the semaphore and blocks on the printer. */
  const OWNER: Program := Program(1, 1, 1, ['s'], [P('s'), Print(1)])
  /** Releases the semaphore it does not own, then acquires it. */
  const THIEF: Program := Program(1, 2, 1, ['s'], [V('s'), P('s')])

  const OWNER_TEXT: Text := Text(OWNER.code, OWNER.code, 0, 0, 0, {})
  const THIEF_TEXT: Text := Text(THIEF.code, THIEF.code, 0, 0, 0, {})

  const S1: State := INIT.(
    cpu := Cpu([Task(1, Ready, 0, 0)], None, [0], true, 1, 0, 0),
    mem := Mem([Segment(1, 1, false, false)], [], NUM_PAGES), texts := [OWNER_TEXT], pcb := [0],
    sems := [Sem('s', None, [])])

  const S2: State := S1.(cpu := Cpu([Task(1, Running, 5000, 0)], Some(0), [], false, 1, 0, 0))

  const S3: State := S2.(
    cpu := Cpu([Task(1, Running, 5000, 1)], Some(0), [], false, 2, 0, 0),
    mem := Mem([Segment(1, 1, true, false)], [0], NUM_PAGES - 1))

  const S4: State := S3.(
    cpu := Cpu([Task(1, Running, 4800, 1)], Some(0), [], false, 2, 0, 1),
    mem := Mem([Segment(1, 1, true, true)], [0], NUM_PAGES - 1),
    texts := [OWNER_TEXT.(pc := 1, held := {'s'})], sems := [Sem('s', Some(0), [])])

  const S5: State := S4.(
    cpu := Cpu([Task(1, Waiting, 4800, 1)], None, [], false, 2, 0, 0),
    texts := [OWNER_TEXT.(pc := 2, held := {'s'})], prints := [PrintReq(0, 0, 1)], nextPrint := 1)

  const S6: State := S5.(
    cpu := Cpu([Task(1, Waiting, 4800, 1), Task(1, Ready, 0, 2)], None, [1], true, 3, 0, 0),
    mem := Mem([Segment(1, 1, true, true), Segment(2, 1, false, false)], [0], NUM_PAGES - 1),
    texts := [OWNER_TEXT.(pc := 2, held := {'s'}), THIEF_TEXT], pcb := [0, 1])

  const S7: State := S6.(
    cpu := Cpu([Task(1, Waiting, 4800, 1), Task(1, Running, 5000, 2)], Some(1), [], false, 3, 0, 0))

  const S8: State := S7.(
    cpu := Cpu([Task(1, Waiting, 4800, 1), Task(1, Running, 5000, 3)], Some(1), [], false, 4, 0, 0),
    mem := Mem([Segment(1, 1, true, true), Segment(2, 1, true, false)], [0, 1], NUM_PAGES - 2))

  const S9: State := S8.(
    mem := Mem([Segment(1, 1, true, true), Segment(2, 1, true, true)], [0, 1], NUM_PAGES - 2),
    texts := [OWNER_TEXT.(pc := 2, held := {'s'}), THIEF_TEXT.(pc := 1)], sems := [Sem('s', None, [])])

  const S10: State := S9.(
    cpu := Cpu([Task(1, Waiting, 4800, 1), Task(1, Running, 4800, 3)], Some(1), [], false, 4, 0, 1),
    texts := [OWNER_TEXT.(pc := 2, held := {'s'}), THIEF_TEXT.(pc := 2, held := {'s'})],
    sems := [Sem('s', Some(1), [])])

  ghost predicate Goes(st: State, s: Step, next: State) {
    Shape(st) && Enabled(st, s) && Apply(st, s) == next
  }

  /** A run that leads from `st` to `end`. */
  ghost predicate Leads(st: State, run: seq<Step>, end: State) {
    Shape(st) && CanRun(st, run) && After(st, run) == end
  }

  lemma LeadsThen(st: State, s: Step, next: State, rest: seq<Step>, end: State)
    requires Goes(st, s, next) && Leads(next, rest, end)
    ensures Leads(st, [s] + rest, end)
  {
    Counterexamples.RunFrom(st, s, rest);
  }

  lemma Step1()
    ensures Goes(INIT, Create(OWNER), S1)
  {
  }

  lemma Step2()
    ensures Goes(S1, TakeNew, S2)
  {
  }

  lemma Step3()
    ensures Goes(S2, Load, S3)
  {
    hide LoadCpu, Place, MakeRoom, Evicted;
    Cpu3();
    Mem3();
  }

  lemma Cpu3()
    ensures CpuShape(S2.cpu) && LoadCpu(S2.cpu, 0, []) == S3.cpu
  {
  }

  lemma Mem3()
    ensures MemShape(S2.mem) && MakeRoom(S2.mem, 1) == S2.mem && Evicted(S2.mem, 1) == []
    ensures Place(S2.mem, 0) == S3.mem
  {
  }

  lemma FindS(sems: seq<Sem>)
    requires |sems| == 1 && sems[0].name == 's'
    ensures FindSem(sems, 's') == 0
  {
    assert SemNames(sems)[0] == 's' as int;
  }

  lemma Step4()
    ensures Goes(S3, Instruction, S4)
  {
    FindS(S3.sems);
    assert S3.texts[0].held + {'s'} == {'s'};
  }

  lemma Step5()
    ensures Goes(S4, Instruction, S5)
  {
    hide Interrupt;
    Cpu5();
  }

  lemma Cpu5()
    ensures CpuShape(S4.cpu) && Interrupt(S4.cpu, true) == S5.cpu
  {
  }

  lemma Step6()
    ensures Goes(S5, Create(THIEF), S6)
  {
    FindS(S5.sems);
  }

  lemma Step7()
    ensures Goes(S6, TakeNew, S7)
  {
  }

  lemma Step8()
    ensures Goes(S7, Load, S8)
  {
    hide LoadCpu, Place, MakeRoom, Evicted;
    Cpu8();
    Mem8();
  }

  lemma Cpu8()
    ensures CpuShape(S7.cpu) && LoadCpu(S7.cpu, 1, []) == S8.cpu
  {
    hide Interrupt;
    var c := MarkReady(SetStatus(S7.cpu, 1, Waiting), []);
    assert c.tasks == [Task(1, Waiting, 4800, 1), Task(1, Waiting, 5000, 2)];
    ContendersAre(c, false);
  }

  lemma Mem8()
    ensures MemShape(S7.mem) && MakeRoom(S7.mem, 1) == S7.mem && Evicted(S7.mem, 1) == []
    ensures Place(S7.mem, 1) == S8.mem
  {
  }

  lemma Step9()
    ensures Goes(S8, Instruction, S9)
  {
    FindS(S8.sems);
    assert S8.texts[1].held - {'s'} == {};
  }

  lemma Step10()
    ensures Goes(S9, Instruction, S10)
  {
    FindS(S9.sems);
    assert S9.texts[1].held + {'s'} == {'s'};
  }

  lemma LeadsNowhere()
    ensures Leads(S10, [], S10)
  {
  }

  lemma From5() returns (run: seq<Step>)
    ensures Leads(S5, run, S10)
  {
    hide Goes, Leads;
    LeadsNowhere();
    Step10();
    LeadsThen(S9, Instruction, S10, [], S10);
    run := [Instruction] + [];
    Step9();
    LeadsThen(S8, Instruction, S9, run, S10);
    run := [Instruction] + run;
    Step8();
    LeadsThen(S7, Load, S8, run, S10);
    run := [Load] + run;
    Step7();
    LeadsThen(S6, TakeNew, S7, run, S10);
    run := [TakeNew] + run;
    Step6();
    LeadsThen(S5, Create(THIEF), S6, run, S10);
    run := [Create(THIEF)] + run;
  }

  lemma FromInit() returns (run: seq<Step>)
    ensures Leads(INIT, run, S10)
  {
    hide Goes, Leads;
    run := From5();
    Step5();
    LeadsThen(S4, Instruction, S5, run, S10);
    run := [Instruction] + run;
    Step4();
    LeadsThen(S3, Instruction, S4, run, S10);
    run := [Instruction] + run;
    Step3();
    LeadsThen(S2, Load, S3, run, S10);
    run := [Load] + run;
    Step2();
    LeadsThen(S1, TakeNew, S2, run, S10);
    run := [TakeNew] + run;
    Step1();
    LeadsThen(INIT, Create(OWNER), S1, run, S10);
    run := [Create(OWNER)] + run;
  }

  /** After this run two live processes hold the same semaphore, so one of its Vs released a
      semaphore that another process held. */
  lemma SemaphoreStolen() returns (run: seq<Step>)
    ensures CanRun(INIT, run)
    ensures var st := After(INIT, run);
      && |st.texts| == 2 && 0 in st.pcb && 1 in st.pcb
      && 's' in st.texts[0].held && 's' in st.texts[1].held
    ensures !DisciplinedRun(INIT, run)
  {
    hide CanRun, After, DisciplinedRun;
    run := FromInit();
    if DisciplinedRun(INIT, run) { MutualExclusion(run, 0, 1); }
  }
}
