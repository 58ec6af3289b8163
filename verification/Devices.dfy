/** The request lists of the two devices as the machine sees them. */
module Devices {
  import opened Seqs
  import opened Scheduler
  import opened Machine

  /** The disk list is sorted by track; the print list holds the ids from the number of prints
      served up to the next id, in order. */
  ghost predicate DevicesOk(st: State) {
    && Ascending(Tracks(st.disk))
    && st.nextPrint == st.served + |st.prints|
    && forall i :: 0 <= i < |st.prints| ==> st.prints[i].id == st.served + i
  }

  /** The request an executed READ or WRITE makes. */
  function DiskMade(st: State, s: Step): seq<DiskReq>
    requires Shape(st) && Enabled(st, s)
  {
    if !s.Instruction? then []
    else
      var p := st.cpu.running.value;
      var c := st.texts[p].code[st.texts[p].pc];
      if c.Read? || c.Write? then [DiskReq(p, c.track)] else []
  }

  /** The request an executed PRINT makes. */
  function PrintMade(st: State, s: Step): seq<PrintReq>
    requires Shape(st) && Enabled(st, s)
  {
    if !s.Instruction? then []
    else
      var p := st.cpu.running.value;
      var c := st.texts[p].code[st.texts[p].pc];
      if c.Print? then [PrintReq(st.nextPrint, p, c.time)] else []
  }

  lemma TracksInsert(disk: seq<DiskReq>, x: DiskReq)
    requires Ascending(Tracks(disk))
    ensures Ascending(Tracks(InsertAt(disk, Slot(Tracks(disk), x.track), x)))
  {
    var i := Slot(Tracks(disk), x.track);
    InsertAscending(Tracks(disk), x.track);
    assert Tracks(InsertAt(disk, i, x)) == InsertAt(Tracks(disk), i, x.track);
  }

  lemma DiskOthers(st: State, s: Step)
    requires Shape(st) && Enabled(st, s) && !s.DiskServe? && !s.Instruction?
    ensures Apply(st, s).disk == st.disk
  {
  }

  lemma DiskServed(st: State, i: nat)
    requires Shape(st) && i < |st.disk| && FirstEq(Tracks(st.disk), st.disk[i].track) == i
    requires Ascending(Tracks(st.disk))
    ensures DiskDone(st, i).disk == RemoveAt(st.disk, i) && Ascending(Tracks(RemoveAt(st.disk, i)))
  {
    var r := RemoveAt(st.disk, i);
    assert forall j :: 0 <= j < |r| ==> Tracks(r)[j] == Tracks(st.disk)[if j < i then j else j + 1];
  }

  /** The disk list only gains the requests READ and WRITE make and only loses the one that a
      completion serves, and it stays sorted by track. */
  lemma DiskStep(st: State, s: Step)
    requires Shape(st) && Enabled(st, s) && Ascending(Tracks(st.disk))
    ensures Ascending(Tracks(Apply(st, s).disk))
    ensures multiset(Apply(st, s).disk) + (if s.DiskServe? then multiset{st.disk[s.index]} else multiset{})
      == multiset(st.disk) + multiset(DiskMade(st, s))
  {
    if s.DiskServe? {
      DiskServed(st, s.index);
    } else if s.Instruction? {
      DiskInstr(st, st.cpu.running.value);
    } else {
      DiskOthers(st, s);
    }
  }

  lemma DiskInstr(st: State, p: nat)
    requires Shape(st) && Executable(st, p) && Ascending(Tracks(st.disk))
    ensures var c := st.texts[p].code[st.texts[p].pc];
      InstrStep(st, p).disk == if c.Read? || c.Write?
        then InsertAt(st.disk, Slot(Tracks(st.disk), c.track), DiskReq(p, c.track)) else st.disk
    ensures Ascending(Tracks(InstrStep(st, p).disk))
  {
    var c := st.texts[p].code[st.texts[p].pc];
    if c.Read? || c.Write? { TracksInsert(st.disk, DiskReq(p, c.track)); }
  }

  lemma PrintInstr(st: State, p: nat)
    requires Shape(st) && Executable(st, p)
    ensures var c := st.texts[p].code[st.texts[p].pc];
      && InstrStep(st, p).prints == (if c.Print? then st.prints + [PrintReq(st.nextPrint, p, c.time)] else st.prints)
      && InstrStep(st, p).nextPrint == st.nextPrint + One(c.Print?)
      && InstrStep(st, p).served == st.served
  {
  }

  lemma PrintsOf(st: State, s: Step)
    requires Shape(st) && Enabled(st, s)
    ensures var r := Apply(st, s);
      && r.prints == (if s.PrintServe? then st.prints[1..] else st.prints + PrintMade(st, s))
      && r.nextPrint == st.nextPrint + |PrintMade(st, s)|
      && r.served == st.served + One(s.PrintServe?)
  {
    if s.Instruction? { PrintInstr(st, st.cpu.running.value); }
    if s.PrintServe? { PrintHead(st); }
  }

  /** The print list is a queue: PRINT appends its request, a completion takes the first one,
      whose id is the number of prints served before it.  So every print is served once, in
      the order of creation. */
  lemma PrintStep(st: State, s: Step)
    requires Shape(st) && Enabled(st, s) && DevicesOk(st)
    ensures DevicesOk(Apply(st, s))
    ensures (if s.PrintServe? then [st.prints[0]] else []) + Apply(st, s).prints == st.prints + PrintMade(st, s)
    ensures s.PrintServe? ==> st.prints[0].id == st.served && Apply(st, s).served == st.served + 1
  {
    hide Apply;
    DiskStep(st, s);
    PrintsOf(st, s);
  }

  lemma PrintHead(st: State)
    requires Shape(st) && st.prints != []
    ensures PrintDone(st).prints == st.prints[1..]
  {
    assert FirstEq(PrintIds(st.prints), st.prints[0].id) == 0 by { assert PrintIds(st.prints)[0] == st.prints[0].id; }
  }
}
