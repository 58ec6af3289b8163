/** The sweep of `DiskSweep` seen from the machine: its insertions and fulfilments are the
    machine's steps on the disk list, whose requests are told apart by track alone. */
module DiskSteps {
  import opened Seqs
  import opened Machine
  import Devices
  import W = DiskSweep

  /** The two lists hold requests for the same tracks in the same order. */
  ghost predicate Alike(d: W.Disk, st: State) { W.Tracks(d.requests) == Tracks(st.disk) }

  /** A fulfilment of the sweep is a disk completion of the machine, at the position where the
      request in hand stands; and the machine allows no completion at another position of that
      track. */
  lemma FulfilIsServe(d: W.Disk, st: State)
    requires W.DiskOk(d) && d.inHand.Some? && Shape(st) && Alike(d, st)
    ensures W.Enabled(d, W.Fulfill)
    ensures var k := FirstEq(Tracks(st.disk), d.inHand.value.track);
      && k < |st.disk| && d.requests[k] == d.inHand.value && Enabled(st, DiskServe(k))
      && Alike(W.DoFulfill(d), Apply(st, DiskServe(k)))
      && forall i :: 0 <= i < |st.disk| && Enabled(st, DiskServe(i)) ==>
           st.disk[i].track == d.inHand.value.track ==> i == k
  {
    hide W.Cursor, W.Swept, W.Logged, W.Once;
    W.SweepCanFulfill(d);
    var j :| 0 <= j < |d.requests| && d.requests[j] == d.inHand.value;
    W.DeletesServed(d, j);
    var k := FirstEq(Tracks(st.disk), d.inHand.value.track);
    assert Tracks(st.disk)[k] == st.disk[k].track;
    RemovedAlike(d, st, k);
  }

  lemma RemovedAlike(d: W.Disk, st: State, k: nat)
    requires Alike(d, st) && k < |d.requests|
    ensures |d.requests| == |st.disk|
    ensures W.Tracks(RemoveAt(d.requests, k)) == Tracks(RemoveAt(st.disk, k))
  {
    assert |W.Tracks(d.requests)| == |Tracks(st.disk)|;
    forall i | 0 <= i < |d.requests| ensures d.requests[i].track == st.disk[i].track {
      assert W.Tracks(d.requests)[i] == Tracks(st.disk)[i];
    }
  }

  /** A READ or WRITE of the machine is an insertion into the sweep's list. */
  lemma RequestIsInsert(d: W.Disk, st: State, p: nat)
    requires Alike(d, st) && Shape(st) && Executable(st, p) && Ascending(Tracks(st.disk))
    requires var c := st.texts[p].code[st.texts[p].pc]; c.Read? || c.Write?
    ensures var c := st.texts[p].code[st.texts[p].pc];
      Alike(W.DoInsert(d, c.track), InstrStep(st, p))
  {
    var track := st.texts[p].code[st.texts[p].pc].track;
    var k := Slot(Tracks(st.disk), track);
    Devices.DiskInstr(st, p);
    InsertedAlike(d, st, k, W.Request(d.created, track, d.sweeps), DiskReq(p, track));
  }

  lemma InsertedAlike(d: W.Disk, st: State, k: nat, x: W.Request, y: DiskReq)
    requires Alike(d, st) && k <= |d.requests| && x.track == y.track
    ensures |d.requests| == |st.disk|
    ensures W.Tracks(InsertAt(d.requests, k, x)) == Tracks(InsertAt(st.disk, k, y))
  {
    assert |W.Tracks(d.requests)| == |Tracks(st.disk)|;
    forall i | 0 <= i < |d.requests| ensures d.requests[i].track == st.disk[i].track {
      assert W.Tracks(d.requests)[i] == Tracks(st.disk)[i];
    }
  }

  /** Every other action of the sweep, and every other step of the machine, leaves its list. */
  lemma OthersAlike(d: W.Disk, a: W.Action, st: State, s: Step)
    requires Alike(d, st) && W.Enabled(d, a) && !a.Insert? && !a.Fulfill?
    requires Shape(st) && Enabled(st, s) && Ascending(Tracks(st.disk)) && !s.DiskServe?
    requires s.Instruction? ==>
      var p := st.cpu.running.value; var c := st.texts[p].code[st.texts[p].pc]; !c.Read? && !c.Write?
    ensures Alike(W.Act(d, a), st) && Alike(d, Apply(st, s))
  {
    if s.Instruction? { Devices.DiskInstr(st, st.cpu.running.value); } else { Devices.DiskOthers(st, s); }
  }
}
