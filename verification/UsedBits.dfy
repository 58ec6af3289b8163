/** The second chance over whole runs: a segment that was used is passed over. */
module UsedBits {
  import opened Seqs
  import opened Paging
  import opened Machine
  import opened Runs
  import opened Effects

  /** An executed instruction marks the segment of its process used, and no other. */
  lemma ExecutingMarks(st: State, q: nat)
    requires Sound(st) && Enabled(st, Instruction) && q < |st.mem.segs|
    ensures var segs := Apply(st, Instruction).mem.segs;
      && |segs| == |st.mem.segs|
      && segs[q].used == (st.cpu.running == Some(q) || st.mem.segs[q].used)
      && segs[q] == st.mem.segs[q].(used := segs[q].used)
  {
    hide Apply, Sound;
    SoundGives(st);
    MemStep(st, Instruction);
  }

  /** The next swap takes the used bit of `q`: its segment is the victim or in front of it, or all
      bits are set. */
  ghost predicate Loses(m: Mem, q: nat)
    requires MemShape(m)
  {
    exists v: nat, i: nat ::
      FirstClear(m, v) && 0 <= i < |m.resident| && m.resident[i] == q && (i <= v || m.segs[m.resident[v]].used)
  }

  /** A swap takes the used bit from exactly those. */
  lemma SwapTakes(m: Mem, q: nat)
    requires MemOk(m) && m.resident != [] && q < |m.segs| && m.segs[q].used
    ensures !Swap(m).segs[q].used <==> Loses(m, q)
  {
    hide Swap, VictimOf, RemoveAt, FirstClear, MemOk;
    var v := SwapMeans(m);
    var i := PlaceOf(m, q);
    if Loses(m, q) {
      var v': nat, i': nat :| FirstClear(m, v') && 0 <= i' < |m.resident| && m.resident[i'] == q
        && (i' <= v' || m.segs[m.resident[v']].used);
      FirstClearOne(m, v, v');
      assert i == i';
    }
  }

  lemma PlaceOf(m: Mem, q: nat) returns (i: nat)
    requires MemOk(m) && q < |m.segs| && m.segs[q].used
    ensures MemShape(m) && i < |m.resident| && m.resident[i] == q
    ensures forall j :: 0 <= j < |m.resident| && j != i ==> m.resident[j] != q
  {
    i :| 0 <= i < |m.resident| && m.resident[i] == q;
  }

  lemma FirstClearOne(m: Mem, v: nat, w: nat)
    requires MemShape(m) && FirstClear(m, v) && FirstClear(m, w)
    ensures v == w
  {
  }

  /** As long as some resident segment has a clear bit, no swap evicts one whose bit is set. */
  lemma UsedNotVictim(m: Mem, q: nat)
    requires MemOk(m) && q < |m.segs| && m.segs[q].used
    requires exists r :: r in m.resident && r < |m.segs| && !m.segs[r].used
    ensures m.resident != [] && VictimOf(m) != q
  {
    hide VictimOf;
    var r :| r in m.resident && r < |m.segs| && !m.segs[r].used;
    var v := SwapMeans(m);
    var i :| 0 <= i < |m.resident| && m.resident[i] == r;
  }

  /** The step neither takes the used bit of `q` in one of its swaps nor unloads it. */
  ghost predicate Spares(st: State, s: Step, q: nat)
    requires Shape(st) && Enabled(st, s)
  {
    && (s.Finish? ==> st.cpu.running != Some(q))
    && (s.Load? ==> SparedBy(st.mem, st.mem.segs[st.cpu.running.value].pages, q, |st.mem.resident| + 1))
  }

  /** None of the first `n` swaps for `need` pages takes the used bit of `q`. */
  ghost predicate SparedBy(m: Mem, need: nat, q: nat, n: nat)
    requires MemShape(m)
  {
    forall j :: 0 <= j < n && j < |Evicted(m, need)| && j <= |m.resident| ==> !Loses(Swaps(m, j), q)
  }

  lemma {:induction false} SwapsKeep(m: Mem, need: nat, q: nat, n: nat)
    requires MemOk(m) && q < |m.segs| && m.segs[q].used && n <= |Evicted(m, need)| && SparedBy(m, need, q, n)
    ensures n <= |m.resident| && MemOk(Swaps(m, n)) && |Swaps(m, n).segs| == |m.segs| && Swaps(m, n).segs[q].used
    decreases n
  {
    hide Swap, VictimOf, Drift, Loses, Evicted;
    EvictsNoMore(m, need, 0);
    if n > 0 {
      SwapsKeep(m, need, q, n - 1);
      SwapsAt(m, need, n - 1);
      SwapTakes(Swaps(m, n - 1), q);
      SwapOk(Swaps(m, n - 1));
    }
  }

  /** A used segment stays used until a scan takes its bit or it is unloaded. */
  lemma UsedStep(st: State, s: Step, q: nat)
    requires Sound(st) && Enabled(st, s) && q < |st.mem.segs| && st.mem.segs[q].used && Spares(st, s, q)
    ensures q < |Apply(st, s).mem.segs| && Apply(st, s).mem.segs[q].used
  {
    hide Apply, Sound, Swaps, Evicted, SparedBy;
    SoundGives(st);
    if s.Load? {
      LoadMem(st);
      UsedLoad(st, q);
    } else {
      MemStep(st, s);
    }
  }

  lemma UsedLoad(st: State, q: nat)
    requires Sound(st) && Enabled(st, Load) && q < |st.mem.segs| && st.mem.segs[q].used && Spares(st, Load, q)
    ensures var k := |Evicted(st.mem, st.mem.segs[st.cpu.running.value].pages)|;
      k <= |st.mem.resident| && q < |Swaps(st.mem, k).segs| && Swaps(st.mem, k).segs[q].used
  {
    hide Sound, Swaps, Evicted, Loses;
    SoundGives(st);
    var need := st.mem.segs[st.cpu.running.value].pages;
    EvictsNoMore(st.mem, need, 0);
    SwapsKeep(st.mem, need, q, |Evicted(st.mem, need)|);
  }

  ghost predicate SparesRun(st: State, run: seq<Step>, q: nat)
    requires Shape(st) && CanRun(st, run)
    decreases |run|
  {
    run == [] || (Spares(st, run[0], q) && SparesRun(Apply(st, run[0]), run[1..], q))
  }

  lemma {:induction false} UsedRun(st: State, run: seq<Step>, q: nat)
    requires Sound(st) && CanRun(st, run) && SparesRun(st, run, q) && q < |st.mem.segs| && st.mem.segs[q].used
    ensures q < |After(st, run).mem.segs| && After(st, run).mem.segs[q].used
    decreases |run|
  {
    hide Apply, Enabled, Sound, Spares;
    if run != [] {
      SoundGives(st);
      UsedStep(st, run[0], q);
      SoundStep(st, run[0]);
      SoundGives(Apply(st, run[0]));
      UsedRun(Apply(st, run[0]), run[1..], q);
    }
  }

  /** The second chance.  A process executes; then any run follows in which no scan takes its
      segment's bit; then a load swaps, and its first `j` swaps do not take the bit either.  The
      next swap does not evict that segment while some resident segment has a clear bit. */
  lemma SecondChanceGiven(st: State, run: seq<Step>, p: nat, j: nat)
    requires Sound(st) && Enabled(st, Instruction) && st.cpu.running == Some(p) && p < |st.mem.segs|
    requires CanRun(Apply(st, Instruction), run) && SparesRun(Apply(st, Instruction), run, p)
    requires Enabled(After(Apply(st, Instruction), run), Load)
    requires var m := After(Apply(st, Instruction), run).mem;
      var need := m.segs[After(Apply(st, Instruction), run).cpu.running.value].pages;
      && j < |Evicted(m, need)| && j <= |m.resident| && SparedBy(m, need, p, j)
      && exists r :: r in Swaps(m, j).resident && r < |Swaps(m, j).segs| && !Swaps(m, j).segs[r].used
    ensures var m := After(Apply(st, Instruction), run).mem;
      Evicted(m, m.segs[After(Apply(st, Instruction), run).cpu.running.value].pages)[j] != p
  {
    hide Apply, Sound, Swaps, Evicted, SparedBy, SparesRun, CanRun, After;
    SoundGives(st);
    var a := Apply(st, Instruction);
    ExecutingMarks(st, p);
    SoundStep(st, Instruction);
    UsedRun(a, run, p);
    SoundRun(a, run);
    var m := After(a, run).mem;
    SoundGives(After(a, run));
    var need := m.segs[After(a, run).cpu.running.value].pages;
    SwapsKeep(m, need, p, j);
    SwapsAt(m, need, j);
    UsedNotVictim(Swaps(m, j), p);
  }
}
