/** Mutual exclusion on the named semaphores. */
module Exclusion {
  import opened Seqs
  import opened Machine
  import opened Programs
  import opened Semaphores
  import opened Runs

  predicate OwnerIs(sems: seq<Sem>, c: char, q: nat) {
    FindSem(sems, c) < |sems| && sems[FindSem(sems, c)].owner == Some(q)
  }

  /** A process that was granted a semaphore and has not released it is its owner. */
  ghost predicate Owned(st: State) {
    forall q, c :: 0 <= q < |st.texts| && c in st.texts[q].held ==> OwnerIs(st.sems, c, q)
  }

  lemma OwnedDoP(st: State, p: nat, i: nat)
    requires Shape(st) && Owned(st) && p < |st.texts| && i < |st.sems| && i == FindSem(st.sems, st.sems[i].name)
    ensures Owned(DoP(st, p, i))
  {
    var r := DoP(st, p, i);
    forall q, d | 0 <= q < |r.texts| && d in r.texts[q].held ensures OwnerIs(r.sems, d, q) {
      FindSemSame(st.sems, i, r.sems[i], d);
      assert d in st.texts[q].held ==> OwnerIs(st.sems, d, q);
    }
  }

  /** What DoV makes of the semaphores held: `p` gives up the name, the waiter that becomes
      owner, if any, gets it. */
  lemma HeldAfterV(st: State, p: nat, i: nat, q: nat)
    requires Shape(st) && p < |st.texts| && i < |st.sems| && q < |st.texts|
    ensures var r := DoV(st, p, i);
      var c := st.sems[i].name;
      && |r.texts| == |st.texts|
      && r.sems == st.sems[i := r.sems[i]] && r.sems[i].name == c
      && r.sems[i].owner == (if st.sems[i].waiting == [] then None else Some(st.sems[i].waiting[0]))
      && r.texts[q].held == (if p == q then st.texts[q].held - {c} else st.texts[q].held)
                            + (if r.sems[i].owner == Some(q) then {c} else {})
  {
  }

  lemma OwnedDoV(st: State, p: nat, i: nat)
    requires Shape(st) && Owned(st) && p < |st.texts| && i < |st.sems| && i == FindSem(st.sems, st.sems[i].name)
    requires forall q :: 0 <= q < |st.texts| && q != p ==> st.sems[i].name !in st.texts[q].held
    ensures Owned(DoV(st, p, i))
  {
    var r := DoV(st, p, i);
    HeldAfterV(st, p, i, p);
    forall q, d | 0 <= q < |r.texts| && d in r.texts[q].held ensures OwnerIs(r.sems, d, q) {
      HeldAfterV(st, p, i, q);
      FindSemSame(st.sems, i, r.sems[i], d);
      assert d in st.texts[q].held ==> OwnerIs(st.sems, d, q);
    }
  }

  /** A V keeps ownership true exactly when nobody but its caller holds the semaphore: when the
      caller owns it, or its owner was granted nothing. */
  lemma ReleaseKeepsOwnedIff(st: State, p: nat, i: nat)
    requires Shape(st) && Owned(st) && SemsOk(st)
    requires p < |st.texts| && i < |st.sems| && i == FindSem(st.sems, st.sems[i].name)
    ensures Owned(DoV(st, p, i)) <==>
      forall q :: 0 <= q < |st.texts| && q != p ==> st.sems[i].name !in st.texts[q].held
  {
    var c := st.sems[i].name;
    if q :| 0 <= q < |st.texts| && q != p && c in st.texts[q].held {
      assert OwnerIs(st.sems, c, q);
      HeldAfterV(st, p, i, q);
      FindSemSame(st.sems, i, DoV(st, p, i).sems[i], c);
      assert c in DoV(st, p, i).texts[q].held && !OwnerIs(DoV(st, p, i).sems, c, q);
    } else {
      OwnedDoV(st, p, i);
    }
  }

  /** The current instruction of `p`, if it is a V, names a semaphore that nobody else holds. */
  ghost predicate ReleasesNoOther(st: State, p: nat)
    requires p < |st.texts| && st.texts[p].pc < |st.texts[p].code|
  {
    match st.texts[p].code[st.texts[p].pc]
    case V(c) => forall q :: 0 <= q < |st.texts| && q != p ==> c !in st.texts[q].held
    case _ => true
  }

  /** The step releases no semaphore that another process holds. */
  ghost predicate Disciplined(st: State, s: Step) {
    s.Instruction? && st.cpu.running.Some? ==>
      var p := st.cpu.running.value;
      p < |st.texts| && st.texts[p].pc < |st.texts[p].code| ==> ReleasesNoOther(st, p)
  }

  lemma OwnedOther(st: State, s: Step)
    requires Shape(st) && Enabled(st, s) && Owned(st) && !s.Instruction?
    ensures Owned(Apply(st, s))
  {
    var r := Apply(st, s);
    TextsCreate(st, s);
    forall q, d | 0 <= q < |r.texts| && d in r.texts[q].held ensures OwnerIs(r.sems, d, q) {
      assert q < |st.texts| && r.texts[q] == st.texts[q];
      assert OwnerIs(st.sems, d, q);
      NamesStep(st, s, d);
      SemsAfter(st, s);
      if s.Create? { assert r.sems[FindSem(st.sems, d)] == r.sems[..|st.sems|][FindSem(st.sems, d)]; }
    }
  }

  lemma OwnedInstr(st: State, p: nat)
    requires Shape(st) && Owned(st) && SemsOk(st) && Executable(st, p)
    ensures Owned(InstrStep(st, p)) <==> ReleasesNoOther(st, p)
  {
    hide DoP, DoV;
    var st1 := st.(mem := Paging.Touch(st.mem, p));
    match st.texts[p].code[st.texts[p].pc]
    case P(c) =>
      OwnedDoP(st1, p, FindSem(st.sems, c));
    case V(c) =>
      ReleaseKeepsOwnedIff(st1, p, FindSem(st.sems, c));
    case _ =>
  }

  lemma OwnedStep(st: State, s: Step)
    requires Shape(st) && Enabled(st, s) && Owned(st) && SemsOk(st)
    ensures Owned(Apply(st, s)) <==> Disciplined(st, s)
  {
    if s.Instruction? { OwnedInstr(st, st.cpu.running.value); } else { OwnedOther(st, s); }
  }

  ghost predicate DisciplinedRun(st: State, run: seq<Step>)
    requires Shape(st) && CanRun(st, run)
    decreases |run|
  {
    run == [] || (Disciplined(st, run[0]) && DisciplinedRun(Apply(st, run[0]), run[1..]))
  }

  ghost predicate OwnedThroughout(st: State, run: seq<Step>)
    requires Shape(st) && CanRun(st, run)
    decreases |run|
  {
    Owned(st) && (run == [] || OwnedThroughout(Apply(st, run[0]), run[1..]))
  }

  /** Granted and not released means owner throughout a run if and only if no V of the run
      releases a semaphore that another process holds. */
  lemma {:induction false} OwnedRunIff(st: State, run: seq<Step>)
    requires Sound(st) && CanRun(st, run) && Owned(st)
    ensures OwnedThroughout(st, run) <==> DisciplinedRun(st, run)
    ensures DisciplinedRun(st, run) ==> Owned(After(st, run))
    decreases |run|
  {
    hide Apply, Enabled, Disciplined, Owned, Sound;
    if run != [] {
      SoundGives(st);
      OwnedStep(st, run[0]);
      if Disciplined(st, run[0]) {
        SoundStep(st, run[0]);
        OwnedRunIff(Apply(st, run[0]), run[1..]);
      } else {
        NotOwned(Apply(st, run[0]), run[1..]);
      }
    }
  }

  lemma NotOwned(st: State, run: seq<Step>)
    requires Shape(st) && CanRun(st, run) && !Owned(st)
    ensures !OwnedThroughout(st, run)
  {
  }

  /** As long as no V releases a semaphore that another process holds, at most one process is
      between a granted P of a semaphore and its V. */
  lemma MutualExclusion(run: seq<Step>, q: nat, r: nat)
    requires CanRun(INIT, run) && DisciplinedRun(INIT, run)
    requires q < |After(INIT, run).texts| && r < |After(INIT, run).texts| && q != r
    ensures After(INIT, run).texts[q].held !! After(INIT, run).texts[r].held
  {
    hide Sound;
    SoundInit();
    OwnedRunIff(INIT, run);
    var st := After(INIT, run);
    forall c | c in st.texts[q].held ensures c !in st.texts[r].held {
      assert OwnerIs(st.sems, c, q);
    }
  }
}
