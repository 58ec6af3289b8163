/** What a program has run: EXEC conservation across preemption, blocking and swapping. */
module Programs {
  import opened Seqs
  import opened Scheduler
  import opened Paging
  import opened Machine

  /** The EXEC units a text asks for. */
  function ExecTotal(s: seq<Instr>): int {
    if s == [] then 0
    else ExecTotal(s[..|s| - 1]) + (if s[|s| - 1].Exec? then s[|s| - 1].operand else 0)
  }

  /** At a current EXEC, what is left plus what ran is the original operand; everywhere else the
      text is as read.  The units run are those of the blocks passed plus the current one. */
  ghost predicate TextOk(t: Text) {
    && |t.code| == |t.program| && t.pc <= |t.code|
    && (forall i :: 0 <= i < |t.code| && i != t.pc ==> t.code[i] == t.program[i])
    && (t.pc < |t.code| ==>
          t.code[t.pc] == if t.program[t.pc].Exec? then Exec(t.program[t.pc].operand - t.exec)
                          else t.program[t.pc])
    && ((t.pc < |t.code| && t.program[t.pc].Exec?) || t.exec == 0)
    && t.units == ExecTotal(t.program[..t.pc]) + t.exec
  }

  /** What the current instruction makes of a text, up to the semaphores held. */
  function Ran(t: Text): Text
    requires t.pc < |t.code|
  {
    if t.code[t.pc].Exec? then ExecUnit(t) else Next(t)
  }

  lemma RanOk(t: Text)
    requires TextOk(t) && t.pc < |t.code|
    ensures TextOk(Ran(t))
  {
    assert t.program[..t.pc + 1][..t.pc] == t.program[..t.pc];
  }

  lemma FreshOk(code: seq<Instr>)
    ensures TextOk(Text(code, code, 0, 0, 0, {}))
  {
  }

  /** `b` is `a` except for the semaphores held. */
  ghost predicate SameRun(a: Text, b: Text) { b == a.(held := b.held) }

  lemma TextsSemaphore(st: State, p: nat, c: Instr, q: nat)
    requires Shape(st) && p < |st.texts| && q < |st.texts|
    requires OnSemaphore(c) && FindSem(st.sems, c.sem) < |st.sems|
    ensures |DoSemaphore(st, p, c).texts| == |st.texts|
    ensures SameRun(if p == q then Next(st.texts[q]) else st.texts[q], DoSemaphore(st, p, c).texts[q])
  {
  }

  lemma TextsInstr(st: State, p: nat, q: nat)
    requires Shape(st) && Executable(st, p) && q < |st.texts|
    ensures |InstrStep(st, p).texts| == |st.texts|
    ensures SameRun(if p == q then Ran(st.texts[q]) else st.texts[q], InstrStep(st, p).texts[q])
  {
    var c := st.texts[p].code[st.texts[p].pc];
    if OnSemaphore(c) { TextsSemaphore(st.(mem := Touch(st.mem, p)), p, c, q); }
  }

  /** A step runs one instruction, or one unit, of the running process and of no other. */
  lemma TextsStep(st: State, s: Step, q: nat)
    requires Shape(st) && Enabled(st, s) && q < |st.texts|
    ensures |Apply(st, s).texts| == |st.texts| + One(s.Create?)
    ensures SameRun(if s.Instruction? && st.cpu.running == Some(q) then Ran(st.texts[q]) else st.texts[q],
                    Apply(st, s).texts[q])
  {
    if s.Instruction? { TextsInstr(st, st.cpu.running.value, q); }
  }

  ghost predicate TextsOk(st: State) {
    forall q :: 0 <= q < |st.texts| ==> TextOk(st.texts[q])
  }

  lemma TextOkStep(st: State, s: Step, q: nat)
    requires Shape(st) && Enabled(st, s) && q < |st.texts| && TextOk(st.texts[q])
    ensures q < |Apply(st, s).texts| && TextOk(Apply(st, s).texts[q])
  {
    TextsStep(st, s, q);
    if s.Instruction? && st.cpu.running == Some(q) { RanOk(st.texts[q]); }
  }

  lemma TextsCreate(st: State, s: Step)
    requires Shape(st) && Enabled(st, s)
    ensures var r := Apply(st, s);
      if s.Create? then r.texts == st.texts + [Text(s.program.code, s.program.code, 0, 0, 0, {})]
      else |r.texts| == |st.texts|
  {
    if s.Instruction? { TextsInstr(st, st.cpu.running.value, st.cpu.running.value); }
  }

  /** Every step conserves EXEC work. */
  lemma TextsOkStep(st: State, s: Step)
    requires Shape(st) && Enabled(st, s) && TextsOk(st)
    ensures TextsOk(Apply(st, s))
  {
    TextsCreate(st, s);
    if s.Create? { FreshOk(s.program.code); }
    forall q | 0 <= q < |st.texts| ensures TextOk(Apply(st, s).texts[q]) { TextOkStep(st, s, q); }
  }

  lemma {:induction false} TextsOkRun(st: State, run: seq<Step>)
    requires Shape(st) && CanRun(st, run) && TextsOk(st)
    ensures TextsOk(After(st, run))
    decreases |run|
  {
    if run != [] {
      TextsOkStep(st, run[0]);
      TextsOkRun(Apply(st, run[0]), run[1..]);
    }
  }

  /** An EXEC the process is in has its remaining operand plus the units counted in the segment
      equal to the operand of the program; at its end a process has run exactly the sum of its
      program's EXEC operands, and its text is back as it was read. */
  ghost predicate Conserved(t: Text) {
    && |t.code| == |t.program|
    && (t.pc < |t.code| && t.code[t.pc].Exec? ==>
          t.program[t.pc].Exec? && t.code[t.pc].operand + t.exec == t.program[t.pc].operand)
    && (t.pc >= |t.code| || !t.code[t.pc].Exec? ==> t.exec == 0)
    && (t.pc >= |t.code| ==> t.units == ExecTotal(t.program) && t.code == t.program)
  }

  lemma ConservedWhenOk(t: Text)
    requires TextOk(t)
    ensures Conserved(t)
  {
    assert t.program[..|t.program|] == t.program;
  }

  /** EXEC work is conserved by every run, whatever preempts, blocks or swaps the process. */
  lemma ExecConserved(run: seq<Step>, q: nat)
    requires CanRun(INIT, run) && q < |After(INIT, run).texts|
    ensures Conserved(After(INIT, run).texts[q])
  {
    TextsOkRun(INIT, run);
    ConservedWhenOk(After(INIT, run).texts[q]);
  }
}
