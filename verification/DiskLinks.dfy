/** The disk list as written, with the `prev` links its sorted insert leaves and its delete by
    track relies on.  `DiskSweep` has the list with these links repaired; this module says when
    the code as written serves and removes the same requests. */
module DiskLinks {
  import opened Seqs
  import opened DiskSweep

  /** `prev` holds, for each listed node, the id of the request its `prev` leads to, if any. */
  datatype Links = Links(disk: Disk, prev: seq<Option<nat>>)

  const START := Links(EMPTY, [])

  ghost predicate Paired(l: Links) { |l.prev| == |l.disk.requests| }

  /** add_disk_request as written: in front the new node has no predecessor, at the end the last
      node, and between two others itself; no other link is set. */
  function InsertAsWritten(l: Links, track: int): (r: Links)
    requires Paired(l)
    ensures Paired(r)
  {
    var d := l.disk;
    var k := Slot(Tracks(d.requests), track);
    var link := if k == 0 then None
      else if k == |d.requests| then Some(d.requests[k - 1].id) else Some(d.created);
    Links(DoInsert(d, track), InsertAt(l.prev, k, link))
  }

  /** The position of the request a fulfilment deletes. */
  function Place(d: Disk): (k: nat)
    requires Enabled(d, Fulfill)
    ensures k < |d.requests|
  {
    FirstEq(Tracks(d.requests), d.inHand.value.track)
  }

  /** delete_list finds its node at the header, or with its predecessor in `prev`. */
  predicate Right(l: Links)
    requires Paired(l) && Enabled(l.disk, Fulfill)
  {
    var k := Place(l.disk);
    k == 0 || l.prev[k] == Some(l.disk.requests[k - 1].id)
  }

  /** fulfill_disk_request as written, where it is right. */
  function FulfillAsWritten(l: Links): (r: Links)
    requires Paired(l) && Enabled(l.disk, Fulfill) && Right(l)
    ensures Paired(r)
  {
    var k := Place(l.disk);
    var prev := if 0 < k && k + 1 < |l.prev| then l.prev[k + 1 := l.prev[k]] else l.prev;
    Links(DoFulfill(l.disk), RemoveAt(prev, k))
  }

  predicate Allowed(l: Links, a: Action)
    requires Paired(l)
  {
    Enabled(l.disk, a) && (a.Fulfill? ==> Right(l))
  }

  function Step(l: Links, a: Action): (r: Links)
    requires Paired(l) && Allowed(l, a)
    ensures Paired(r) && r.disk == Act(l.disk, a)
  {
    match a
    case Insert(track) => InsertAsWritten(l, track)
    case Fulfill => FulfillAsWritten(l)
    case _ => Links(Act(l.disk, a), l.prev)
  }

  /** A run of the code as written in which every delete is right. */
  ghost predicate RightRun(l: Links, run: seq<Action>)
    requires Paired(l)
    decreases |run|
  {
    run == [] || (Allowed(l, run[0]) && RightRun(Step(l, run[0]), run[1..]))
  }

  function AfterRight(l: Links, run: seq<Action>): (r: Links)
    requires Paired(l) && RightRun(l, run)
    ensures Paired(r)
    decreases |run|
  {
    if run == [] then l else AfterRight(Step(l, run[0]), run[1..])
  }

  // ---------- when the delete is right ----------

  /** Node `j`, unless it is the header, does not lead back to the node before it. */
  ghost predicate Lost(l: Links, j: nat)
    requires Paired(l) && j < |l.prev|
  {
    j > 0 ==> l.prev[j] != Some(l.disk.requests[j - 1].id)
  }

  /** Node `j` is the next to be deleted: it is in hand, or it is the one after that and does not
      follow the one in hand. */
  ghost predicate Exposed(d: Disk, j: nat)
    requires j < |d.requests|
  {
    || Some(d.requests[j]) == d.inHand
    || (Some(d.requests[j].id) == d.next && (j > 0 ==> Some(d.requests[j - 1]) != d.inHand))
  }

  ghost predicate LinksOk(l: Links) {
    && Paired(l)
    && (forall i, x :: 0 <= i < |l.prev| && l.prev[i] == Some(x) ==> x < l.disk.created)
    && (forall j :: 0 <= j < |l.prev| && Exposed(l.disk, j) ==> Lost(l, j))
  }

  lemma InsertOk(l: Links, track: int)
    requires LinksOk(l) && DiskOk(l.disk)
    ensures LinksOk(InsertAsWritten(l, track))
  {
    hide Slot, InsertAt, Lost, Exposed, DiskOk;
    var r := InsertAsWritten(l, track);
    forall j | 0 <= j < |r.prev|
      ensures forall x :: r.prev[j] == Some(x) ==> x < r.disk.created
      ensures Exposed(r.disk, j) ==> Lost(r, j)
    {
      InsertBelow(l, track, j);
      if Exposed(r.disk, j) { InsertLost(l, track, j); }
    }
  }

  lemma InsertBelow(l: Links, track: int, j: nat)
    requires LinksOk(l) && DiskOk(l.disk) && j < |l.prev| + 1
    ensures var r := InsertAsWritten(l, track); forall x :: r.prev[j] == Some(x) ==> x < r.disk.created
  {
    hide Slot, InsertAt, Lost, Exposed, Cursor, Hand, Swept, Logged, Once;
    var p := Slot(Tracks(l.disk.requests), track);
    if j != p { assert InsertAsWritten(l, track).prev[j] == l.prev[if j < p then j else j - 1]; }
  }

  lemma InsertLost(l: Links, track: int, j: nat)
    requires LinksOk(l) && DiskOk(l.disk) && j < |l.prev| + 1
    requires Exposed(InsertAsWritten(l, track).disk, j)
    ensures Lost(InsertAsWritten(l, track), j)
  {
    hide Slot, InsertAt, Behind, Swept, Logged, Once;
    var p := Slot(Tracks(l.disk.requests), track);
    Inserted(l.disk, track, j);
    if j > 0 { Inserted(l.disk, track, j - 1); }
    if j < p {
      assert Exposed(l.disk, j);
    } else if p + 1 < j {
      assert Exposed(l.disk, j - 1);
    }
  }

  lemma FetchOk(l: Links)
    requires LinksOk(l) && DiskOk(l.disk) && Enabled(l.disk, Fetch)
    ensures LinksOk(Step(l, Fetch))
  {
    hide Behind, Swept, Logged, Once, FirstEq;
    FetchAt(l.disk);
    var i := FirstEq(Ids(l.disk.requests), l.disk.next.value);
    assert Exposed(l.disk, i);
  }

  /** The delete of a fulfilment is right exactly at the header. */
  lemma RightAtHeader(l: Links)
    requires LinksOk(l) && DiskOk(l.disk) && l.disk.inHand.Some?
    ensures Enabled(l.disk, Fulfill) && l.disk.requests != []
    ensures Right(l) <==> Place(l.disk) == 0
    ensures Place(l.disk) == 0 <==> l.disk.requests[0] == l.disk.inHand.value
  {
    hide Cursor, Behind, Swept, Logged, Once, FirstEq;
    var k :| 0 <= k < |l.disk.requests| && l.disk.requests[k] == l.disk.inHand.value;
    SweepCanFulfill(l.disk);
    DeletesServed(l.disk, k);
    assert Exposed(l.disk, k);
  }

  lemma FulfillOk(l: Links)
    requires LinksOk(l) && DiskOk(l.disk) && Allowed(l, Fulfill)
    ensures LinksOk(FulfillAsWritten(l))
  {
    hide Behind, Cursor, Swept, Logged, Once, FirstEq;
    RightAtHeader(l);
    var r := FulfillAsWritten(l);
    forall j | 0 <= j < |r.prev|
      ensures forall x :: r.prev[j] == Some(x) ==> x < r.disk.created
      ensures Exposed(r.disk, j) ==> Lost(r, j)
    {
      assert r.prev[j] == l.prev[j + 1] && r.disk.requests[j] == l.disk.requests[j + 1];
      if j > 0 && Exposed(r.disk, j) {
        assert r.disk.requests[j - 1] == l.disk.requests[j];
        assert Exposed(l.disk, j + 1);
      }
    }
  }

  lemma StepOk(l: Links, a: Action)
    requires LinksOk(l) && DiskOk(l.disk) && Allowed(l, a)
    ensures LinksOk(Step(l, a)) && DiskOk(Step(l, a).disk)
  {
    hide DiskOk, DoInsert, DoFulfill;
    ActKeeps(l.disk, a);
    match a
    case Insert(track) => InsertOk(l, track);
    case Start => StartOk(l);
    case Fetch => FetchOk(l);
    case Fulfill => FulfillOk(l);
    case End =>
  }

  lemma StartOk(l: Links)
    requires LinksOk(l) && DiskOk(l.disk) && Enabled(l.disk, Start)
    ensures LinksOk(Step(l, Start))
  {
    hide Behind, Swept, Logged, Once;
  }

  // ---------- whole runs ----------

  /** Every fulfilment of the run serves the header. */
  ghost predicate HeadServed(d: Disk, run: seq<Action>)
    requires CanRun(d, run)
    decreases |run|
  {
    run == [] || ((run[0].Fulfill? ==> d.inHand == Some(d.requests[0])) && HeadServed(Act(d, run[0]), run[1..]))
  }

  lemma {:induction false} RightFrom(l: Links, run: seq<Action>)
    requires LinksOk(l) && DiskOk(l.disk) && CanRun(l.disk, run)
    ensures RightRun(l, run) <==> HeadServed(l.disk, run)
    ensures RightRun(l, run) ==> AfterRight(l, run).disk == After(l.disk, run) && LinksOk(AfterRight(l, run))
    decreases |run|
  {
    hide DiskOk, LinksOk, Enabled, Right, Step, Act;
    if run != [] {
      PairedWhenOk(l);
      if run[0].Fulfill? { FulfillAllowed(l); }
      if Allowed(l, run[0]) {
        StepOk(l, run[0]);
        RightFrom(Step(l, run[0]), run[1..]);
      }
    }
  }

  lemma PairedWhenOk(l: Links)
    requires LinksOk(l)
    ensures Paired(l)
  {
  }

  lemma FulfillAllowed(l: Links)
    requires LinksOk(l) && DiskOk(l.disk) && Enabled(l.disk, Fulfill)
    ensures Right(l) <==> l.disk.inHand == Some(l.disk.requests[0])
  {
    hide DiskOk, LinksOk, Right;
    RightAtHeader(l);
  }

  lemma StartsOk()
    ensures LinksOk(START) && DiskOk(START.disk)
  {
    EmptyOk();
  }

  /** The code as written, under any interleaving: all its deletes remove exactly the requests
      served if and only if it always serves the header of the list. */
  lemma RightIffHeadServed(run: seq<Action>)
    requires CanRun(EMPTY, run)
    ensures RightRun(START, run) <==> HeadServed(EMPTY, run)
  {
    hide DiskOk, LinksOk;
    StartsOk();
    RightFrom(START, run);
  }

  /** And so at each fulfilment: after deletes that were all right, the next is right if and only
      if nothing has been inserted in front of the request in hand. */
  lemma FulfillRightIff(run: seq<Action>)
    requires CanRun(EMPTY, run) && RightRun(START, run) && After(EMPTY, run).inHand.Some?
    ensures var l := AfterRight(START, run);
      && l.disk == After(EMPTY, run) && Enabled(l.disk, Fulfill)
      && (Right(l) <==> l.disk.requests[0] == l.disk.inHand.value)
  {
    hide DiskOk, LinksOk, Right, Reachable;
    StartsOk();
    RightFrom(START, run);
    RunKeeps(EMPTY, run);
    RightAtHeader(AfterRight(START, run));
  }

  // ---------- which insertions do no harm ----------

  /** The sweep stands at the front of the list. */
  ghost predicate AtFront(d: Disk) {
    && (d.inHand.Some? ==> d.requests != [] && d.requests[0] == d.inHand.value)
    && (d.next.Some? ==>
          var j := if d.inHand.Some? then 1 else 0;
          j < |d.requests| && d.requests[j].id == d.next.value)
  }

  /** The track is not in front of the request in hand, nor of the next. */
  ghost predicate Behindhand(d: Disk, track: int) {
    && (d.inHand.Some? ==> d.inHand.value.track <= track)
    && forall j :: 0 <= j < |d.requests| && Some(d.requests[j].id) == d.next ==> d.requests[j].track <= track
  }

  /** An insertion leaves the sweep at the front if and only if it goes behind both. */
  lemma InsertKeepsFront(d: Disk, track: int)
    requires DiskOk(d) && AtFront(d)
    ensures AtFront(DoInsert(d, track)) <==> Behindhand(d, track)
  {
    hide Slot, InsertAt, Behind, Swept, Logged, Once;
    Inserted(d, track, 0);
    if |d.requests| > 0 { Inserted(d, track, 1); }
    var p := Slot(Tracks(d.requests), track);
    if p < |d.requests| { assert Tracks(d.requests)[p] == d.requests[p].track; }
    if p > 0 { assert Tracks(d.requests)[0] == d.requests[0].track; }
    if p > 1 { assert Tracks(d.requests)[1] == d.requests[1].track; }
  }

  lemma FrontStep(d: Disk, a: Action)
    requires DiskOk(d) && AtFront(d) && Enabled(d, a) && (a.Insert? ==> Behindhand(d, a.track))
    ensures AtFront(Act(d, a))
  {
    hide DoInsert, Slot, InsertAt, Behind, Swept, Logged, Once;
    match a
    case Insert(track) => InsertKeepsFront(d, track);
    case Fetch => FetchAt(d);
    case Fulfill => DeletesServed(d, 0);
    case _ =>
  }

  lemma FrontServed(d: Disk)
    requires AtFront(d) && Enabled(d, Fulfill)
    ensures d.inHand == Some(d.requests[0])
  {
  }

  ghost predicate NoneAhead(d: Disk, run: seq<Action>)
    requires CanRun(d, run)
    decreases |run|
  {
    run == [] || ((run[0].Insert? ==> Behindhand(d, run[0].track)) && NoneAhead(Act(d, run[0]), run[1..]))
  }

  lemma {:induction false} FrontRun(d: Disk, run: seq<Action>)
    requires DiskOk(d) && AtFront(d) && CanRun(d, run) && NoneAhead(d, run)
    ensures HeadServed(d, run)
    decreases |run|
  {
    hide DiskOk, Act, Enabled, Behindhand;
    if run != [] {
      ActKeeps(d, run[0]);
      FrontStep(d, run[0]);
      if run[0].Fulfill? { FrontServed(d); }
      FrontRun(Act(d, run[0]), run[1..]);
    }
  }

  /** As long as no request is inserted in front of the one in hand or the next, the code as
      written is right. */
  lemma RightWhenNoneAhead(run: seq<Action>)
    requires CanRun(EMPTY, run) && NoneAhead(EMPTY, run)
    ensures RightRun(START, run)
  {
    hide DiskOk;
    EmptyOk();
    FrontRun(EMPTY, run);
    RightIffHeadServed(run);
  }

  // ---------- a run that goes wrong ----------

  const FAR := Request(0, 50, 0)
  const NEAR := Request(1, 30, 1)

  const LISTED: Links := Links(EMPTY.(requests := [FAR], made := [FAR], created := 1), [None])
  const SWEPT: Links := LISTED.(disk := LISTED.disk.(sweeping := true, next := Some(0), sweeps := 1))
  const TAKEN: Links := SWEPT.(disk :=
    SWEPT.disk.(inHand := Some(FAR), next := None, currTrack := 50, log := [FAR], time := 10000))
  const AHEAD: Links := Links(
    TAKEN.disk.(requests := [NEAR, FAR], made := [FAR, NEAR], created := 2), [None, None])

  lemma WrongSteps()
    ensures Goes(START, Insert(50), LISTED) && Goes(LISTED, Start, SWEPT)
  {
    assert Slot(Tracks(EMPTY.requests), 50) == 0;
  }

  lemma WrongFetch()
    ensures Goes(SWEPT, Fetch, TAKEN)
  {
    assert Ids(SWEPT.disk.requests) == [0] && FirstEq([0], 0) == 0;
  }

  lemma WrongInsert()
    ensures Goes(TAKEN, Insert(30), AHEAD) && Paired(AHEAD)
  {
    assert Tracks(TAKEN.disk.requests) == [50] && Slot([50], 30) == 0;
  }

  /** A right run leads from `l` to `end`. */
  ghost predicate Leads(l: Links, run: seq<Action>, end: Links) {
    Paired(l) && RightRun(l, run) && AfterRight(l, run) == end
  }

  ghost predicate Goes(l: Links, a: Action, next: Links) {
    Paired(l) && Allowed(l, a) && Step(l, a) == next
  }

  lemma LeadsThen(l: Links, a: Action, next: Links, run: seq<Action>, end: Links)
    requires run != [] && run[0] == a && Goes(l, a, next) && Leads(next, run[1..], end)
    ensures Leads(l, run, end)
  {
  }

  lemma LeadsNowhere(l: Links)
    requires Paired(l)
    ensures Leads(l, [], l)
  {
  }

  lemma LeadsFour(l: Links, run: seq<Action>, l1: Links, l2: Links, l3: Links, end: Links)
    requires |run| == 4 && Goes(l, run[0], l1) && Goes(l1, run[1], l2) && Goes(l2, run[2], l3)
    requires Goes(l3, run[3], end) && Paired(end)
    ensures Leads(l, run, end)
  {
    hide Goes, Leads;
    LeadsNowhere(end);
    assert run[3..][1..] == [] && run[2..][1..] == run[3..] && run[1..][1..] == run[2..];
    LeadsThen(l3, run[3], end, run[3..], end);
    LeadsThen(l2, run[2], l3, run[2..], end);
    LeadsThen(l1, run[1], l2, run[1..], end);
    LeadsThen(l, run[0], l1, run, end);
  }

  /** Track 50 is being served when a request for track 30 arrives: the request in hand is no
      longer the header, its `prev` is NULL, and the delete as written dereferences it. */
  lemma WrongRun()
    ensures Leads(START, [Insert(50), Start, Fetch, Insert(30)], AHEAD)
    ensures Enabled(AHEAD.disk, Fulfill) && !Right(AHEAD) && Place(AHEAD.disk) == 1 && AHEAD.prev[1] == None
  {
    hide Goes, Leads, Right, Enabled, Place;
    WrongSteps();
    WrongFetch();
    WrongInsert();
    LeadsFour(START, [Insert(50), Start, Fetch, Insert(30)], LISTED, SWEPT, TAKEN, AHEAD);
    WrongPlace();
  }

  lemma WrongPlace()
    ensures Enabled(AHEAD.disk, Fulfill) && !Right(AHEAD) && Place(AHEAD.disk) == 1 && AHEAD.prev[1] == None
  {
    assert Tracks(AHEAD.disk.requests) == [30, 50] && FirstEq([30, 50], 50) == 1;
  }
}
