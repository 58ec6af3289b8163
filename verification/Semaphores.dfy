/** The semaphore protocol over whole runs: hand-off, first-come-first-served grants, and mutual
    exclusion for programs that release only what they own. */
module Semaphores {
  import opened Seqs
  import opened Scheduler
  import opened CpuMoves
  import opened Machine
  import opened Locations
  import opened Programs
  import opened Steps

  /** Somebody waits only while somebody owns, nobody waits for what it owns, and the waiters
      stand in the order in which they blocked. */
  ghost predicate SemOk(sem: Sem, c: Cpu) {
    && (sem.waiting != [] ==> sem.owner.Some?)
    && (sem.owner.Some? ==> sem.owner.value !in sem.waiting)
    && (forall a, b :: 0 <= a < b < |sem.waiting| && sem.waiting[a] < |c.tasks| && sem.waiting[b] < |c.tasks| ==>
          c.tasks[sem.waiting[a]].since < c.tasks[sem.waiting[b]].since)
    && (forall a :: 0 <= a < |sem.waiting| && sem.waiting[a] < |c.tasks| ==>
          c.tasks[sem.waiting[a]].since < c.clock)
  }

  ghost predicate SemsOk(st: State) {
    forall i :: 0 <= i < |st.sems| ==> SemOk(st.sems[i], st.cpu)
  }

  lemma SemFrame(sem: Sem, c: Cpu, c': Cpu)
    requires SemOk(sem, c) && |c.tasks| <= |c'.tasks| && c.clock <= c'.clock
    requires forall a :: 0 <= a < |sem.waiting| ==> sem.waiting[a] < |c.tasks|
    requires forall a :: 0 <= a < |sem.waiting| ==>
      c'.tasks[sem.waiting[a]].since == c.tasks[sem.waiting[a]].since
    ensures SemOk(sem, c')
  {
  }

  /** A process waits in one place of one list only. */
  lemma WaitsOnce(st: State, i: nat, j: nat, a: nat, b: nat)
    requires Placed(st) && i < |st.sems| && j < |st.sems|
    requires a < |st.sems[i].waiting| && b < |st.sems[j].waiting|
    requires st.sems[i].waiting[a] == st.sems[j].waiting[b]
    ensures i == j && a == b
  {
    var q := st.sems[i].waiting[a];
    assert Times(st, q) <= 1;
    SumRemove(st.sems, i, WaitsFor(q));
    if i != j {
      var j' := if j < i then j else j - 1;
      assert RemoveAt(st.sems, i)[j'] == st.sems[j];
      SumWaits(RemoveAt(st.sems, i), j', q);
    } else {
      DistinctMultiset(st.sems[i].waiting);
      forall x ensures multiset(st.sems[i].waiting)[x] <= 1 {
        SumWaits(st.sems, i, x);
        assert Times(st, x) <= 1;
      }
    }
  }

  /** A move that wakes none of its waiters leaves a semaphore in order. */
  lemma SemUnmoved(st: State, m: Move, j: nat)
    requires Located(st) && SemsOk(st) && j < |st.sems|
    requires Legal(st.cpu, st.pcb, m)
    requires (m.Woken? || m.Served?) ==> m.p !in st.sems[j].waiting
    ensures SemOk(st.sems[j], Do(st.cpu, m))
  {
    var w := st.sems[j].waiting;
    forall a | 0 <= a < |w| ensures Do(st.cpu, m).tasks[w[a]].since == st.cpu.tasks[w[a]].since {
      WaiterElsewhere(st, j, w[a]);
      MoveSince(st.cpu, m, w[a]);
    }
    SemFrame(st.sems[j], st.cpu, Do(st.cpu, m));
  }

  /** A process on the CPU waits nowhere. */
  lemma RunningWaitsNowhere(st: State, i: nat)
    requires Placed(st) && i < |st.sems| && st.cpu.running.Some?
    ensures st.cpu.running.value !in st.sems[i].waiting
  {
    if st.cpu.running.value in st.sems[i].waiting { WaiterElsewhere(st, i, st.cpu.running.value); }
  }

  lemma SemBlocked(st: State, p: nat, i: nat)
    requires Located(st) && SemsOk(st) && st.cpu.running == Some(p) && i < |st.sems|
    requires st.sems[i].owner.Some? && st.sems[i].owner != Some(p)
    requires Legal(st.cpu, st.pcb, BlockedOnP(p))
    ensures var sem := st.sems[i];
      SemOk(sem.(waiting := sem.waiting + [p]), Do(st.cpu, BlockedOnP(p)))
  {
    hide Placed, CpuOk, Dispatch, Requeue, Slot, InsertAt;
    SemUnmoved(st, BlockedOnP(p), i);
    SinceInterrupt(Stamp(st.cpu, p), true, p);
    var w := st.sems[i].waiting;
    var c := Do(st.cpu, BlockedOnP(p));
    assert c.tasks[p].since == st.cpu.clock < c.clock;
    forall a | 0 <= a < |w| ensures c.tasks[w[a]].since < st.cpu.clock {
      WaiterElsewhere(st, i, w[a]);
      MoveSince(st.cpu, BlockedOnP(p), w[a]);
    }
  }

  lemma SemsDoP(st: State, p: nat, i: nat)
    requires Located(st) && SemsOk(st) && st.cpu.running == Some(p) && i < |st.sems|
    requires CpuPending(st.cpu, st.pcb) && st.cpu.tasks[p].remaining > 0
    ensures SemsOk(DoP(st, p, i))
  {
    hide Dispatch, Requeue, Slot, InsertAt;
    var sem := st.sems[i];
    var grant := sem.owner == None || sem.owner == Some(p);
    var m := if grant then PaidLock(p) else BlockedOnP(p);
    RunningWaitsNowhere(st, i);
    if !grant { SemBlocked(st, p, i); }
    forall j | 0 <= j < |st.sems| ensures SemOk(DoP(st, p, i).sems[j], DoP(st, p, i).cpu) {
      SemUnmoved(st, m, j);
    }
  }

  /** A hand-off takes the longest-blocked process and leaves the others in order. */
  lemma SemsRelease(st: State, i: nat)
    requires Located(st) && SemsOk(st) && i < |st.sems| && st.cpu.running.Some?
    requires CpuPending(st.cpu, st.pcb)
    ensures SemsOk(Release(st, i))
    ensures var w, r := st.sems[i].waiting, Release(st, i).sems;
      if w == [] then r == st.sems[i := st.sems[i].(owner := None)]
      else
        && r == st.sems[i := Sem(st.sems[i].name, Some(w[0]), w[1..])]
        && forall a :: 0 < a < |w| ==> st.cpu.tasks[w[0]].since < st.cpu.tasks[w[a]].since
  {
    hide Wake;
    var sem := st.sems[i];
    if sem.waiting != [] {
      var w := sem.waiting[0];
      var m := Woken(w);
      WaiterElsewhere(st, i, w);
      forall j | 0 <= j < |st.sems| && j != i ensures SemOk(st.sems[j], Do(st.cpu, m)) {
        if w in st.sems[j].waiting {
          var b :| 0 <= b < |st.sems[j].waiting| && st.sems[j].waiting[b] == w;
          WaitsOnce(st, i, j, 0, b);
        }
        SemUnmoved(st, m, j);
      }
      SemHandOff(st, i);
    }
  }

  lemma SemHandOff(st: State, i: nat)
    requires Located(st) && SemsOk(st) && i < |st.sems| && st.sems[i].waiting != []
    ensures var sem := st.sems[i];
      SemOk(Sem(sem.name, Some(sem.waiting[0]), sem.waiting[1..]), Wake(st.cpu, sem.waiting[0]))
  {
    hide Wake;
    var sem := st.sems[i];
    SinceWake(st.cpu, sem.waiting[0]);
    HandedOn(sem, st.cpu, Wake(st.cpu, sem.waiting[0]));
  }

  lemma SinceWake(c: Cpu, p: nat)
    requires CpuShape(c) && p < |c.tasks|
    ensures forall q :: 0 <= q < |c.tasks| && q != p ==> Wake(c, p).tasks[q].since == c.tasks[q].since
  {
    hide InsertAt, Slot;
  }

  lemma HandedOn(sem: Sem, c: Cpu, c': Cpu)
    requires SemOk(sem, c) && InRange(sem.waiting, |c.tasks|) && sem.waiting != []
    requires |c'.tasks| == |c.tasks| && c'.clock >= c.clock
    requires forall q :: 0 <= q < |c.tasks| && q != sem.waiting[0] ==> c'.tasks[q].since == c.tasks[q].since
    ensures SemOk(Sem(sem.name, Some(sem.waiting[0]), sem.waiting[1..]), c')
  {
    var w := sem.waiting;
    assert forall a :: 0 <= a < |w[1..]| ==> w[1..][a] == w[a + 1];
  }

  lemma SemsRun(st: State, p: nat)
    requires Located(st) && SemsOk(st) && st.cpu.running == Some(p) && Executable(st, p)
    requires CpuPending(st.cpu, st.pcb) && st.cpu.tasks[p].remaining > 0
    requires !OnSemaphore(st.texts[p].code[st.texts[p].pc])
    ensures SemsOk(InstrStep(st, p))
  {
    hide Placed, CpuOk, InsertAt, Slot, Interrupt;
    var c := st.texts[p].code[st.texts[p].pc];
    var m := if c.Exec? then RanUnit(p) else Interrupted(true);
    forall j | 0 <= j < |st.sems| ensures SemOk(st.sems[j], Do(st.cpu, m)) { SemUnmoved(st, m, j); }
  }

  lemma SemsInstr(st: State, p: nat)
    requires Located(st) && SemsOk(st) && st.cpu.running == Some(p) && Executable(st, p)
    requires CpuPending(st.cpu, st.pcb) && st.cpu.tasks[p].remaining > 0
    ensures SemsOk(InstrStep(st, p))
  {
    hide Placed, CpuOk, DoDevice, ExecUnit, Interrupt, Wake, InsertAt, Slot, SemOk;
    var c := st.texts[p].code[st.texts[p].pc];
    if !OnSemaphore(c) { SemsRun(st, p); }
    else if c.P? { SemsDoP(st, p, FindSem(st.sems, c.sem)); }
    else { SemsRelease(st, FindSem(st.sems, c.sem)); }
  }

  /** A process behind a device waits for no semaphore. */
  lemma ServedWaitsNowhere(st: State, q: nat, j: nat)
    requires Placed(st) && j < |st.sems|
    requires Sum(st.disk, DiskOf(q)) + Sum(st.prints, PrintOf(q)) > 0
    ensures q !in st.sems[j].waiting
  {
    assert Times(st, q) <= 1;
    if q in st.sems[j].waiting { SumWaits(st.sems, j, q); }
  }

  lemma SemsOther(st: State, s: Step, j: nat)
    requires Located(st) && Loaded(st) && SemsOk(st) && Enabled(st, s) && !s.Instruction? && j < |st.sems|
    ensures SemOk(st.sems[j], Do(st.cpu, MoveOf(st, s)))
  {
    CpuPendingWhenLocated(st);
    StepLegal(st, s);
    match s {
      case DiskServe(i) => SumRemove(st.disk, i, DiskOf(st.disk[i].pid)); ServedWaitsNowhere(st, st.disk[i].pid, j);
      case PrintServe =>
        SumRemove(st.prints, 0, PrintOf(st.prints[0].pid));
        ServedWaitsNowhere(st, st.prints[0].pid, j);
      case _ =>
    }
    SemUnmoved(st, MoveOf(st, s), j);
  }

  lemma SemsAfter(st: State, s: Step)
    requires Shape(st) && Enabled(st, s) && !s.Instruction?
    ensures Apply(st, s).sems == if s.Create? then Declare(st.sems, s.program.sems) else st.sems
  {
  }

  lemma SemsStep(st: State, s: Step)
    requires Located(st) && Loaded(st) && SemsOk(st) && Enabled(st, s)
    ensures SemsOk(Apply(st, s))
  {
    CpuPendingWhenLocated(st);
    if s.Instruction? {
      SemsInstr(st, st.cpu.running.value);
    } else {
      StepCpu(st, s);
      SemsAfter(st, s);
      var sems := Apply(st, s).sems;
      forall j | 0 <= j < |sems| ensures SemOk(sems[j], Apply(st, s).cpu) {
        if j < |st.sems| {
          assert sems[j] == sems[..|st.sems|][j];
          SemsOther(st, s, j);
        }
      }
    }
  }

  // ---------- known names ----------

  lemma FindSemSame(sems: seq<Sem>, i: nat, x: Sem, c: char)
    requires i < |sems| && x.name == sems[i].name
    ensures FindSem(sems[i := x], c) == FindSem(sems, c)
  {
    assert SemNames(sems[i := x]) == SemNames(sems);
  }

  lemma {:induction false} FindSemDeclared(sems: seq<Sem>, names: seq<char>, c: char)
    ensures FindSem(sems, c) < |sems| ==> FindSem(Declare(sems, names), c) == FindSem(sems, c)
    decreases names
  {
    if names != [] {
      if FindSem(sems, names[0]) < |sems| {
        FindSemDeclared(sems, names[1..], c);
      } else {
        var more := sems + [Sem(names[0], None, [])];
        FindSemDeclared(more, names[1..], c);
        if FindSem(sems, c) < |sems| {
          assert SemNames(more)[..|sems|] == SemNames(sems);
          FirstEqPrefix(SemNames(sems), SemNames(more), c as int);
        }
      }
    }
  }

  lemma FirstEqPrefix(a: seq<int>, b: seq<int>, k: int)
    requires |a| <= |b| && b[..|a|] == a && FirstEq(a, k) < |a|
    ensures FirstEq(b, k) == FirstEq(a, k)
  {
    var i := FirstEq(a, k);
    assert b[i] == b[..|a|][i];
    forall j | 0 <= j < i ensures b[j] != k { assert b[j] == b[..|a|][j]; }
  }

  lemma FindNamed(sems: seq<Sem>, c: char)
    ensures FindSem(sems, c) < |sems| <==> Named(sems, c)
  {
    if i :| 0 <= i < |sems| && sems[i].name == c { assert SemNames(sems)[i] == c as int; }
  }

  /** The semaphore line of a header leaves the semaphores there are, and adds, free and with
      nobody waiting, exactly the names it lists that are new, each once. */
  lemma {:induction false} DeclareMeans(sems: seq<Sem>, names: seq<char>)
    ensures var r := Declare(sems, names);
      && (forall c :: Named(r, c) <==> Named(sems, c) || c in names)
      && r[..|sems|] == sems
      && (forall i :: |sems| <= i < |r| ==>
            r[i].owner == None && r[i].waiting == [] && r[i].name in names && !Named(sems, r[i].name))
      && (forall i, j :: 0 <= i < j < |r| && |sems| <= j ==> r[i].name != r[j].name)
    decreases names
  {
    if names == [] { return; }
    FindNamed(sems, names[0]);
    var known := FindSem(sems, names[0]) < |sems|;
    var more := if known then sems else sems + [Sem(names[0], None, [])];
    var r := Declare(more, names[1..]);
    DeclareMeans(more, names[1..]);
    if !known {
      NamedMore(sems, Sem(names[0], None, []));
      assert r[..|more|][..|sems|] == sems && r[|sems|] == r[..|more|][|sems|];
      forall i, j | 0 <= i < j < |r| && |sems| <= j ensures r[i].name != r[j].name {
        if j == |sems| { assert r[i] == r[..|more|][i] == sems[i]; }
      }
      forall i | |sems| <= i < |r|
        ensures r[i].owner == None && r[i].waiting == [] && r[i].name in names && !Named(sems, r[i].name)
      {
        if i > |sems| { assert i >= |more|; }
      }
    }
  }

  lemma NamedMore(sems: seq<Sem>, x: Sem)
    ensures forall c :: Named(sems + [x], c) <==> Named(sems, c) || c == x.name
  {
    forall c ensures Named(sems + [x], c) <==> Named(sems, c) || c == x.name {
      if i :| 0 <= i < |sems| && sems[i].name == c { assert (sems + [x])[i].name == c; }
      if c == x.name { assert (sems + [x])[|sems|].name == c; }
    }
  }

  lemma InstrSems(st: State, p: nat, c: char)
    requires Shape(st) && Executable(st, p)
    ensures |InstrStep(st, p).sems| == |st.sems| && FindSem(InstrStep(st, p).sems, c) == FindSem(st.sems, c)
  {
    var op := st.texts[p].code[st.texts[p].pc];
    if OnSemaphore(op) {
      var i := FindSem(st.sems, op.sem);
      FindSemSame(st.sems, i, InstrStep(st, p).sems[i], c);
    }
  }

  /** A known semaphore name stays known, at the same place. */
  lemma NamesStep(st: State, s: Step, c: char)
    requires Shape(st) && Enabled(st, s) && FindSem(st.sems, c) < |st.sems|
    ensures FindSem(Apply(st, s).sems, c) == FindSem(st.sems, c) < |Apply(st, s).sems|
  {
    if s.Instruction? {
      InstrSems(st, st.cpu.running.value, c);
    } else {
      SemsAfter(st, s);
      if s.Create? { FindSemDeclared(st.sems, s.program.sems, c); }
    }
  }

  /** Every P and V of every text names a semaphore of the system. */
  ghost predicate Known(t: Text, sems: seq<Sem>) {
    forall i :: 0 <= i < |t.code| && OnSemaphore(t.code[i]) ==> FindSem(sems, t.code[i].sem) < |sems|
  }

  ghost predicate NamesOk(st: State) {
    forall q :: 0 <= q < |st.texts| ==> Known(st.texts[q], st.sems)
  }

  lemma RanSame(t: Text, i: nat)
    requires t.pc < |t.code| && i < |t.code|
    ensures |Ran(t).code| == |t.code|
    ensures OnSemaphore(Ran(t).code[i]) ==> Ran(t).code[i] == t.code[i]
  {
  }

  /** Every P and V of a new program names a semaphore that exists after the header is read. */
  lemma KnownCreate(st: State, g: Program)
    requires Shape(st) && WellFormed(st, g)
    ensures Known(Text(g.code, g.code, 0, 0, 0, {}), Declare(st.sems, g.sems))
  {
    hide Declare, FindSem, Named;
    var sems := Declare(st.sems, g.sems);
    DeclareMeans(st.sems, g.sems);
    forall i | 0 <= i < |g.code| && OnSemaphore(g.code[i]) ensures FindSem(sems, g.code[i].sem) < |sems| {
      FindNamed(sems, g.code[i].sem);
    }
  }

  /** No two semaphores share a name. */
  ghost predicate NamesApart(sems: seq<Sem>) {
    forall i, j :: 0 <= i < j < |sems| ==> sems[i].name != sems[j].name
  }

  lemma ApartStep(st: State, s: Step)
    requires Shape(st) && Enabled(st, s) && NamesApart(st.sems)
    ensures NamesApart(Apply(st, s).sems)
  {
    hide Apply, Declare;
    if s.Create? {
      SemsAfter(st, s);
      DeclareMeans(st.sems, s.program.sems);
      var r := Declare(st.sems, s.program.sems);
      forall i, j | 0 <= i < j < |r| ensures r[i].name != r[j].name {
        if j < |st.sems| { assert r[i] == r[..|st.sems|][i] && r[j] == r[..|st.sems|][j]; }
      }
    } else {
      SameNames(st, s);
    }
  }

  lemma SameNames(st: State, s: Step)
    requires Shape(st) && Enabled(st, s) && !s.Create?
    ensures |Apply(st, s).sems| == |st.sems|
    ensures forall i :: 0 <= i < |st.sems| ==> Apply(st, s).sems[i].name == st.sems[i].name
  {
    hide Interrupt, Wake, PayLock, InsertAt, Slot, ExecUnit;
    if !s.Instruction? { SemsAfter(st, s); }
  }

  lemma {:induction false} ApartRun(st: State, run: seq<Step>)
    requires Shape(st) && CanRun(st, run) && NamesApart(st.sems)
    ensures NamesApart(After(st, run).sems)
    decreases |run|
  {
    hide Apply, Enabled;
    if run != [] {
      ApartStep(st, run[0]);
      ApartRun(Apply(st, run[0]), run[1..]);
    }
  }

  lemma KnownStep(st: State, s: Step, q: nat)
    requires Shape(st) && Enabled(st, s) && NamesOk(st) && q < |Apply(st, s).texts|
    ensures Known(Apply(st, s).texts[q], Apply(st, s).sems)
  {
    hide Apply;
    TextsCreate(st, s);
    if s.Create? {
      SemsAfter(st, s);
      DeclareMeans(st.sems, s.program.sems);
    }
    if q == |st.texts| {
      KnownCreate(st, s.program);
    } else if q < |st.texts| {
      TextsStep(st, s, q);
      var t := st.texts[q];
      var ran := s.Instruction? && st.cpu.running == Some(q);
      forall i | 0 <= i < |t.code| && OnSemaphore((if ran then Ran(t) else t).code[i])
        ensures FindSem(Apply(st, s).sems, t.code[i].sem) < |Apply(st, s).sems|
      {
        if ran { RanSame(t, i); }
        NamesStep(st, s, t.code[i].sem);
      }
    }
  }
}
