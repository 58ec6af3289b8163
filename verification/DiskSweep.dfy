/** disk/disk.c at its real grain: the sweep walks the request list with a saved successor, and
    the CPU thread may insert requests between any two of its actions.

    A list node is known by the id of its request.  Fields marked (history) exist only to state
    properties: no action reads them. */
module DiskSweep {
  import opened Seqs

  const MAX_DISK_TRACK := 200
  const DISK_OPERATION_TIME := 5000
  const DISK_TRACK_MOVE_TIME := 100

  /** `born` is the number of sweeps started when the request was inserted (history). */
  datatype Request = Request(id: nat, track: int, born: nat)

  /** `next` is the local request_fulfilled, `inHand` the local request_fulfilled_data between
      its fetch and its deletion.  `log` are the requests fetched in the current sweep, `made` all
      those inserted and `served` all those fulfilled ever, `time` the sum of the times computed
      in the current sweep, and `created` and `sweeps` count insertions and sweeps (all history). */
  datatype Disk = Disk(
    requests: seq<Request>, sweeping: bool, next: Option<nat>, inHand: Option<Request>, currTrack: int,
    log: seq<Request>, made: seq<Request>, served: seq<Request>, time: int, created: nat, sweeps: nat)

  const EMPTY := Disk([], false, None, None, 0, [], [], [], 0, 0, 0)

  function Tracks(s: seq<Request>): (r: seq<int>)
    ensures |r| == |s|
  {
    seq(|s|, i requires 0 <= i < |s| => s[i].track)
  }

  function Ids(s: seq<Request>): (r: seq<int>)
    ensures |r| == |s|
  {
    seq(|s|, i requires 0 <= i < |s| => s[i].id)
  }

  datatype Action = Insert(track: int) | Start | Fetch | Fulfill | End

  predicate Enabled(d: Disk, a: Action) {
    match a
    case Insert(_) => true
    case Start => !d.sweeping && d.requests != []
    case Fetch =>
      && d.sweeping && d.inHand == None && d.next.Some? && d.currTrack < MAX_DISK_TRACK
      && FirstEq(Ids(d.requests), d.next.value) < |d.requests|
    case Fulfill => d.inHand.Some? && FirstEq(Tracks(d.requests), d.inHand.value.track) < |d.requests|
    case End => d.sweeping && d.inHand == None && (d.next == None || d.currTrack >= MAX_DISK_TRACK)
  }

  /** create_IO_request and add_disk_request. */
  function DoInsert(d: Disk, track: int): Disk {
    var r := Request(d.created, track, d.sweeps);
    d.(requests := InsertAt(d.requests, Slot(Tracks(d.requests), track), r), made := d.made + [r],
       created := d.created + 1)
  }

  function DoStart(d: Disk): Disk
    requires d.requests != []
  {
    d.(sweeping := true, next := Some(d.requests[0].id), currTrack := 0, log := [], time := 0,
       sweeps := d.sweeps + 1)
  }

  /** The unlocked half of an iteration: the successor is saved before the request is served. */
  function DoFetch(d: Disk): Disk
    requires Enabled(d, Fetch)
  {
    var i := FirstEq(Ids(d.requests), d.next.value);
    var r := d.requests[i];
    d.(inHand := Some(r), next := if i + 1 < |d.requests| then Some(d.requests[i + 1].id) else None,
       currTrack := r.track, log := d.log + [r],
       time := d.time + (r.track - d.currTrack) * DISK_TRACK_MOVE_TIME + DISK_OPERATION_TIME)
  }

  /** The locked half: the request is served, and the first node of its track is deleted. */
  function DoFulfill(d: Disk): Disk
    requires Enabled(d, Fulfill)
  {
    d.(requests := RemoveAt(d.requests, FirstEq(Tracks(d.requests), d.inHand.value.track)),
       served := d.served + [d.inHand.value], inHand := None)
  }

  function Act(d: Disk, a: Action): Disk
    requires Enabled(d, a)
  {
    match a
    case Insert(track) => DoInsert(d, track)
    case Start => DoStart(d)
    case Fetch => DoFetch(d)
    case Fulfill => DoFulfill(d)
    case End => d.(sweeping := false, next := None)
  }

  ghost predicate CanRun(d: Disk, run: seq<Action>)
    decreases |run|
  {
    run == [] || (Enabled(d, run[0]) && CanRun(Act(d, run[0]), run[1..]))
  }

  function After(d: Disk, run: seq<Action>): Disk
    requires CanRun(d, run)
    decreases |run|
  {
    if run == [] then d else After(Act(d, run[0]), run[1..])
  }

  // ---------- the invariant ----------

  /** The list is sorted by track, ids are distinct and below `created`. */
  ghost predicate Listed(d: Disk) {
    && (forall i, j :: 0 <= i < j < |d.requests| ==>
          d.requests[i].track <= d.requests[j].track && d.requests[i].id != d.requests[j].id)
    && (forall i :: 0 <= i < |d.requests| ==> d.requests[i].id < d.created && d.requests[i].born <= d.sweeps)
  }

  /** What stands before a node the sweep points at: requests of strictly smaller tracks that
      were inserted during this sweep, or the request in hand. */
  ghost predicate Behind(d: Disk, j: nat)
    requires j < |d.requests|
  {
    forall i :: 0 <= i < j ==>
      Some(d.requests[i]) == d.inHand
      || (d.requests[i].track < d.requests[j].track && d.requests[i].born == d.sweeps)
  }

  ghost predicate Cursor(d: Disk) {
    && (d.next.Some? ==> exists j :: 0 <= j < |d.requests| && d.requests[j].id == d.next.value)
    && (forall j :: 0 <= j < |d.requests| && d.next == Some(d.requests[j].id) ==>
          Behind(d, j) && (d.log != [] ==> d.currTrack <= d.requests[j].track) && Some(d.requests[j]) != d.inHand)
    && (d.sweeping && d.next == None ==>
          forall i :: 0 <= i < |d.requests| ==> d.requests[i].born == d.sweeps || Some(d.requests[i]) == d.inHand)
    && (!d.sweeping ==> d.next == None && d.inHand == None)
  }

  ghost predicate Hand(d: Disk) {
    d.inHand.Some? ==>
      && (exists k :: 0 <= k < |d.requests| && d.requests[k] == d.inHand.value)
      && (forall k :: 0 <= k < |d.requests| && d.requests[k] == d.inHand.value ==> Behind(d, k))
      && d.inHand.value.track == d.currTrack
  }

  /** Between sweeps every listed request was inserted since the last one started, unless its
      track is off the disk. */
  ghost predicate Swept(d: Disk) {
    !d.sweeping ==>
      forall i :: 0 <= i < |d.requests| && d.requests[i].born < d.sweeps ==> d.requests[i].track >= MAX_DISK_TRACK
  }

  /** The log of a sweep ascends, ends at the current track, and accounts for the time; only its
      last request may lie off the disk. */
  ghost predicate Logged(d: Disk) {
    && (forall i :: 0 <= i < |d.log| - 1 ==> d.log[i].track < MAX_DISK_TRACK)
    && (forall i, j :: 0 <= i < j < |d.log| ==> d.log[i].track <= d.log[j].track)
    && (d.log != [] ==> d.log[|d.log| - 1].track == d.currTrack)
    && (d.log == [] ==> d.currTrack == 0)
    && d.time == d.currTrack * DISK_TRACK_MOVE_TIME + |d.log| * DISK_OPERATION_TIME
  }

  function Is(x: Request): Request -> nat { (r: Request) => if r == x then 1 else 0 }

  /** Every request made is either listed or served, and only once. */
  ghost predicate Once(d: Disk) {
    && |d.made| == d.created && (forall i :: 0 <= i < |d.made| ==> d.made[i].id == i)
    && forall x :: Sum(d.requests, Is(x)) + Sum(d.served, Is(x)) == Sum(d.made, Is(x))
  }

  ghost predicate DiskOk(d: Disk) {
    Listed(d) && Cursor(d) && Hand(d) && Swept(d) && Logged(d) && Once(d)
  }

  // ---------- the actions keep it ----------

  /** Deletion by track removes exactly the request in hand. */
  lemma DeletesServed(d: Disk, k: nat)
    requires Hand(d) && k < |d.requests| && d.inHand == Some(d.requests[k]) && Listed(d)
    ensures FirstEq(Tracks(d.requests), d.inHand.value.track) == k
  {
    assert Tracks(d.requests)[k] == d.inHand.value.track;
  }

  /** What an insert puts where: the old requests in their order around the new one, which
      stands behind every request of its track. */
  lemma Inserted(d: Disk, track: int, i: nat)
    requires i <= |d.requests|
    ensures var r := DoInsert(d, track).requests;
      var p := Slot(Tracks(d.requests), track);
      && |r| == |d.requests| + 1 && p < |r|
      && (i != p ==> r[i] == d.requests[if i < p then i else i - 1])
      && r[p] == Request(d.created, track, d.sweeps)
      && (i < p ==> r[i].track <= track) && (p < i && Listed(d) ==> track < r[i].track)
  {
    var p := Slot(Tracks(d.requests), track);
    if p < i {
      assert Tracks(d.requests)[p] == d.requests[p].track > track;
    } else if i < p {
      assert Tracks(d.requests)[i] <= track;
    }
  }

  lemma InsertListed(d: Disk, track: int)
    requires Listed(d)
    ensures Listed(DoInsert(d, track))
  {
    hide Slot, InsertAt;
    var r := DoInsert(d, track);
    forall i | 0 <= i < |r.requests| ensures r.requests[i].id < r.created && r.requests[i].born <= r.sweeps {
      Inserted(d, track, i);
    }
    forall i, j | 0 <= i < j < |r.requests|
      ensures r.requests[i].track <= r.requests[j].track && r.requests[i].id != r.requests[j].id
    {
      Inserted(d, track, i);
      Inserted(d, track, j);
    }
  }

  lemma InsertBehind(d: Disk, track: int, j: nat, j': nat)
    requires Listed(d) && j < |d.requests| && Behind(d, j)
    requires j' == if j < Slot(Tracks(d.requests), track) then j else j + 1
    ensures DoInsert(d, track).requests[j'] == d.requests[j] && Behind(DoInsert(d, track), j')
  {
    hide Slot, InsertAt;
    Inserted(d, track, j');
    forall i | 0 <= i < j' { Inserted(d, track, i); }
  }

  lemma InsertCursor(d: Disk, track: int)
    requires Listed(d) && Cursor(d)
    ensures Cursor(DoInsert(d, track))
  {
    hide Slot, InsertAt, Behind;
    var r := DoInsert(d, track);
    var p := Slot(Tracks(d.requests), track);
    if d.next.Some? {
      var j :| 0 <= j < |d.requests| && d.requests[j].id == d.next.value;
      InsertBehind(d, track, j, if j < p then j else j + 1);
    }
    forall j | 0 <= j < |r.requests|
      ensures r.next == Some(r.requests[j].id) ==>
        Behind(r, j) && (r.log != [] ==> r.currTrack <= r.requests[j].track) && Some(r.requests[j]) != r.inHand
      ensures r.sweeping && r.next == None ==> r.requests[j].born == r.sweeps || Some(r.requests[j]) == r.inHand
    {
      Inserted(d, track, j);
      if j != p && r.next == Some(r.requests[j].id) { InsertBehind(d, track, if j < p then j else j - 1, j); }
    }
  }

  lemma InsertHand(d: Disk, track: int)
    requires Listed(d) && Hand(d)
    ensures Hand(DoInsert(d, track))
  {
    hide Slot, InsertAt, Behind;
    var r := DoInsert(d, track);
    var p := Slot(Tracks(d.requests), track);
    if d.inHand.Some? {
      var k :| 0 <= k < |d.requests| && d.requests[k] == d.inHand.value;
      InsertBehind(d, track, k, if k < p then k else k + 1);
      forall j | 0 <= j < |r.requests| && r.requests[j] == r.inHand.value ensures Behind(r, j) {
        Inserted(d, track, j);
        if j != p { InsertBehind(d, track, if j < p then j else j - 1, j); }
      }
    }
  }

  lemma InsertRest(d: Disk, track: int)
    requires Listed(d) && Swept(d) && Logged(d) && Once(d)
    ensures Swept(DoInsert(d, track)) && Logged(DoInsert(d, track)) && Once(DoInsert(d, track))
  {
    hide Slot, InsertAt;
    var r := DoInsert(d, track);
    forall i | 0 <= i < |r.requests|
      ensures r.requests[i].born < r.sweeps && !r.sweeping ==> r.requests[i].track >= MAX_DISK_TRACK
    {
      Inserted(d, track, i);
    }
    var made := Request(d.created, track, d.sweeps);
    forall x ensures Sum(r.requests, Is(x)) + Sum(r.served, Is(x)) == Sum(r.made, Is(x)) {
      SumInsert(d.requests, Slot(Tracks(d.requests), track), made, Is(x));
      SumAppend(d.made, made, Is(x));
    }
  }

  lemma StartKeeps(d: Disk)
    requires DiskOk(d) && Enabled(d, Start)
    ensures DiskOk(DoStart(d))
  {
    hide Once;
    assert Once(DoStart(d)) by { OnceSame(d, DoStart(d)); }
  }

  lemma OnceSame(d: Disk, r: Disk)
    requires Once(d) && r.requests == d.requests && r.made == d.made && r.served == d.served && r.created == d.created
    ensures Once(r)
  {
    forall x ensures Sum(r.requests, Is(x)) + Sum(r.served, Is(x)) == Sum(r.made, Is(x)) {
      assert Sum(d.requests, Is(x)) + Sum(d.served, Is(x)) == Sum(d.made, Is(x));
    }
  }

  lemma FetchAt(d: Disk)
    requires Listed(d) && Enabled(d, Fetch)
    ensures var i := FirstEq(Ids(d.requests), d.next.value);
      d.requests[i].id == d.next.value
  {
    assert Ids(d.requests)[FirstEq(Ids(d.requests), d.next.value)] == d.next.value;
  }

  lemma FetchCursor(d: Disk)
    requires Listed(d) && Cursor(d) && Enabled(d, Fetch)
    ensures Cursor(DoFetch(d)) && Hand(DoFetch(d)) && Listed(DoFetch(d)) && Swept(DoFetch(d))
  {
    hide FirstEq;
    FetchAt(d);
    var i := FirstEq(Ids(d.requests), d.next.value);
    assert Behind(d, i);
  }

  lemma FetchLogged(d: Disk)
    requires Listed(d) && Cursor(d) && Logged(d) && Enabled(d, Fetch)
    ensures Logged(DoFetch(d))
  {
    hide FirstEq, Behind;
    FetchAt(d);
  }

  lemma FulfillListed(d: Disk, k: nat)
    requires DiskOk(d) && d.inHand.Some? && k < |d.requests| && d.requests[k] == d.inHand.value
    ensures Enabled(d, Fulfill)
    ensures var r := DoFulfill(d);
      Listed(r) && Hand(r) && Swept(r) && Logged(r)
  {
    hide FirstEq, Once;
    DeletesServed(d, k);
  }

  lemma FulfillBehind(d: Disk, k: nat, j: nat)
    requires Listed(d) && Hand(d) && d.inHand.Some? && k < |d.requests| && d.requests[k] == d.inHand.value
    requires j + 1 < |d.requests| && Behind(d, if j < k then j else j + 1)
    ensures Enabled(d, Fulfill) && Behind(DoFulfill(d), j)
  {
    hide FirstEq;
    DeletesServed(d, k);
    var r := DoFulfill(d);
    forall i | 0 <= i < j
      ensures r.requests[i].track < r.requests[j].track && r.requests[i].born == r.sweeps
    {
      assert r.requests[i] == d.requests[if i < k then i else i + 1];
    }
  }

  lemma FulfillCursor(d: Disk, k: nat)
    requires DiskOk(d) && d.inHand.Some? && k < |d.requests| && d.requests[k] == d.inHand.value
    ensures Enabled(d, Fulfill) && Cursor(DoFulfill(d))
  {
    hide FirstEq, Once, Behind, Logged, Swept;
    DeletesServed(d, k);
    var r := DoFulfill(d);
    if d.next.Some? {
      var j :| 0 <= j < |d.requests| && d.requests[j].id == d.next.value;
      assert r.requests[if j < k then j else j - 1] == d.requests[j];
    }
    forall j | 0 <= j < |r.requests| && r.next == Some(r.requests[j].id) ensures Behind(r, j) {
      assert r.requests[j] == d.requests[if j < k then j else j + 1];
      FulfillBehind(d, k, j);
    }
  }

  lemma FulfillOnce(d: Disk, k: nat)
    requires DiskOk(d) && d.inHand.Some? && k < |d.requests| && d.requests[k] == d.inHand.value
    ensures Enabled(d, Fulfill) && Once(DoFulfill(d))
  {
    hide FirstEq, Cursor, Behind;
    DeletesServed(d, k);
    var r := DoFulfill(d);
    forall x ensures Sum(r.requests, Is(x)) + Sum(r.served, Is(x)) == Sum(d.made, Is(x)) {
      SumRemove(d.requests, k, Is(x));
      SumAppend(d.served, d.inHand.value, Is(x));
    }
  }

  /** Whatever the sweep and the inserting thread do next, the invariant stays. */
  lemma ActKeeps(d: Disk, a: Action)
    requires DiskOk(d) && Enabled(d, a)
    ensures DiskOk(Act(d, a))
  {
    hide Listed, Cursor, Hand, Swept, Logged, Once, DoInsert, DoFetch, DoFulfill, DoStart;
    match a
    case Insert(track) =>
      InsertListed(d, track);
      InsertCursor(d, track);
      InsertHand(d, track);
      InsertRest(d, track);
    case Start => StartKeeps(d);
    case Fetch => FetchKeeps(d);
    case Fulfill => FulfillKeeps(d);
    case End => EndKeeps(d);
  }

  lemma FetchKeeps(d: Disk)
    requires DiskOk(d) && Enabled(d, Fetch)
    ensures DiskOk(DoFetch(d))
  {
    hide Listed, Cursor, Hand, Swept, Logged, Once, FirstEq;
    FetchCursor(d);
    FetchLogged(d);
    OnceSame(d, DoFetch(d));
  }

  lemma FulfillKeeps(d: Disk)
    requires DiskOk(d) && Enabled(d, Fulfill)
    ensures DiskOk(DoFulfill(d))
  {
    hide Once, Behind, FirstEq, DoFulfill, Cursor;
    var k :| 0 <= k < |d.requests| && d.requests[k] == d.inHand.value;
    FulfillListed(d, k);
    FulfillCursor(d, k);
    FulfillOnce(d, k);
  }

  lemma EndKeeps(d: Disk)
    requires DiskOk(d) && Enabled(d, End)
    ensures DiskOk(Act(d, End))
  {
    hide Once, FirstEq;
    OnceSame(d, Act(d, End));
  }

  lemma {:induction false} RunKeeps(d: Disk, run: seq<Action>)
    requires DiskOk(d) && CanRun(d, run)
    ensures DiskOk(After(d, run))
    decreases |run|
  {
    if run != [] {
      ActKeeps(d, run[0]);
      RunKeeps(Act(d, run[0]), run[1..]);
    }
  }

  lemma EmptyOk()
    ensures DiskOk(EMPTY)
  {
  }

  /** The states the disk can reach, under any interleaving of insertions with the sweep. */
  ghost predicate Reachable(d: Disk) {
    exists run :: CanRun(EMPTY, run) && d == After(EMPTY, run)
  }

  lemma OkWhenReachable(d: Disk)
    requires Reachable(d)
    ensures DiskOk(d)
  {
    hide DiskOk;
    var run :| CanRun(EMPTY, run) && d == After(EMPTY, run);
    EmptyOk();
    RunKeeps(EMPTY, run);
  }

  // ---------- what holds in every reachable state ----------

  /** The delete by track of a fulfilment removes the request just served and no other, whatever
      tracks repeat and whenever requests were inserted. */
  lemma FulfillRemovesServed(d: Disk)
    requires Reachable(d) && d.inHand.Some?
    ensures Enabled(d, Fulfill)
    ensures var r := DoFulfill(d);
      && r.served == d.served + [d.inHand.value]
      && (forall x :: x in r.requests <==> x in d.requests && x != d.inHand.value)
  {
    hide Reachable, Once, Cursor;
    OkWhenReachable(d);
    var k :| 0 <= k < |d.requests| && d.requests[k] == d.inHand.value;
    DeletesServed(d, k);
    assert Distinct(d.requests);
    RemoveMembers(d.requests, k);
  }

  /** The sweep never loses its way: until it ends, it can fetch or fulfil. */
  lemma SweepNeverStuck(d: Disk)
    requires Reachable(d) && d.sweeping
    ensures Enabled(d, Fetch) || Enabled(d, Fulfill) || Enabled(d, End)
  {
    hide Reachable, Listed, Cursor, Hand, Swept, Logged, Once;
    OkWhenReachable(d);
    if d.inHand.Some? {
      SweepCanFulfill(d);
    } else if d.next.Some? && d.currTrack < MAX_DISK_TRACK {
      SweepCanFetch(d);
    }
  }

  /** SCAN completeness: once the sweep that started after its insertion is over, a request on
      the disk's tracks has been served.  So each is served in the sweep it was inserted in or
      in the next. */
  lemma ServedBySweepEnd(d: Disk, r: Request)
    requires Reachable(d) && !d.sweeping && r in d.made && r.born < d.sweeps && r.track < 200
    ensures r in d.served && r !in d.requests
  {
    hide Reachable, DiskOk;
    OkWhenReachable(d);
    ServedWhenGone(d, r);
  }

  lemma SweptWhenReachable(d: Disk)
    requires Reachable(d)
    ensures Swept(d) && Once(d)
  {
    hide Reachable, Listed, Cursor, Hand, Logged, Swept, Once;
    OkWhenReachable(d);
  }

  function Inserts(run: seq<Action>): nat {
    if run == [] then 0 else (if run[0].Insert? then 1 else 0) + Inserts(run[1..])
  }

  function Starts(run: seq<Action>): nat {
    if run == [] then 0 else (if run[0].Start? then 1 else 0) + Starts(run[1..])
  }

  /** The history is what its name says: the requests made are the insertions, in order, and the
      sweeps are the starts. */
  lemma {:induction false} HistoryIs(d: Disk, run: seq<Action>)
    requires DiskOk(d) && CanRun(d, run)
    ensures var r := After(d, run);
      d.made <= r.made && |r.made| == |d.made| + Inserts(run) && r.sweeps == d.sweeps + Starts(run)
    decreases |run|
  {
    hide Listed, Cursor, Hand, Swept, Logged, Once;
    if run != [] {
      ActKeeps(d, run[0]);
      HistoryIs(Act(d, run[0]), run[1..]);
    }
  }

  lemma {:induction false} AfterBoth(d: Disk, a: seq<Action>, b: seq<Action>)
    requires CanRun(d, a + b)
    ensures CanRun(d, a) && CanRun(After(d, a), b) && After(d, a + b) == After(After(d, a), b)
    decreases |a|
  {
    if a == [] {
      assert a + b == b;
    } else {
      assert (a + b)[0] == a[0] && (a + b)[1..] == a[1..] + b;
      AfterBoth(Act(d, a[0]), a[1..], b);
    }
  }

  /** SCAN completeness of runs: if a request for a track of the disk is inserted, a sweep starts
      later and no sweep is under way at the end, then the request has been served.  Whatever else
      is inserted and whenever. */
  lemma ServedByRunEnd(before: seq<Action>, track: int, later: seq<Action>)
    requires CanRun(EMPTY, before + ([Insert(track)] + later)) && track < 200 && Starts(later) > 0
    requires !After(EMPTY, before + ([Insert(track)] + later)).sweeping
    ensures var r := After(EMPTY, before + ([Insert(track)] + later));
      var k := Inserts(before);
      k < |r.made| && r.made[k].track == track && r.made[k] in r.served && r.made[k] !in r.requests
  {
    hide Reachable, DiskOk, DoFetch, DoFulfill, DoStart, Starts, Inserts, CanRun, After, InsertAt, Slot;
    var run := before + ([Insert(track)] + later);
    AfterBoth(EMPTY, before, [Insert(track)] + later);
    var d := After(EMPTY, before);
    AfterBoth(d, [Insert(track)], later);
    InsertAfter(d, track);
    EmptyOk();
    RunKeeps(EMPTY, before);
    HistoryIs(EMPTY, before);
    ActKeeps(d, Insert(track));
    HistoryIs(DoInsert(d, track), later);
    RunKeeps(EMPTY, run);
    MadeLast(d, track, After(EMPTY, run));
    ServedWhenGone(After(EMPTY, run), After(EMPTY, run).made[Inserts(before)]);
  }

  lemma InsertAfter(d: Disk, track: int)
    ensures CanRun(d, [Insert(track)]) && After(d, [Insert(track)]) == DoInsert(d, track)
  {
    assert [Insert(track)][1..] == [];
  }

  lemma MadeLast(d: Disk, track: int, r: Disk)
    requires DoInsert(d, track).made <= r.made
    ensures |d.made| < |r.made| && r.made[|d.made|] == Request(d.created, track, d.sweeps)
  {
    assert DoInsert(d, track).made[|d.made|] == Request(d.created, track, d.sweeps);
  }

  /** Every request made is listed or served, never both and never twice, and no other is. */
  lemma ExactlyOnce(d: Disk, x: Request)
    requires Reachable(d)
    ensures Sum(d.requests, Is(x)) + Sum(d.served, Is(x)) == if x in d.made then 1 else 0
  {
    hide Reachable;
    SweptWhenReachable(d);
    assert Sum(d.requests, Is(x)) + Sum(d.served, Is(x)) == Sum(d.made, Is(x));
    if x in d.made {
      var i :| 0 <= i < |d.made| && d.made[i] == x;
      SumRemove(d.made, i, Is(x));
      var rest := RemoveAt(d.made, i);
      assert forall j :: 0 <= j < |rest| ==> rest[j] == d.made[if j < i then j else j + 1];
      Absent(rest, x);
    } else {
      Absent(d.made, x);
    }
  }

  lemma {:induction false} Absent(s: seq<Request>, x: Request)
    requires x !in s
    ensures Sum(s, Is(x)) == 0
  {
    if s != [] { Absent(s[1..], x); }
  }

  lemma Present(s: seq<Request>, x: Request)
    requires Sum(s, Is(x)) > 0
    ensures x in s
  {
    if x !in s { Absent(s, x); }
  }

  /** Within a sweep the tracks served never decrease, and the computed times add up to the way
      to the last track plus one operation per request.  A sweep ends at the first request off
      the disk's 200 tracks, if there is one. */
  lemma SweepAscends(d: Disk)
    requires Reachable(d)
    ensures forall i :: 0 <= i < |d.log| - 1 ==> d.log[i].track < 200
    ensures forall i, j :: 0 <= i < j < |d.log| ==> d.log[i].track <= d.log[j].track
    ensures d.log != [] ==> d.time == 100 * d.log[|d.log| - 1].track + 5000 * |d.log|
  {
    hide Reachable, Cursor, Hand, Once, Swept, Listed;
    OkWhenReachable(d);
  }

  lemma SweepCanFetch(d: Disk)
    requires Cursor(d) && d.sweeping && d.inHand == None && d.next.Some? && d.currTrack < MAX_DISK_TRACK
    ensures Enabled(d, Fetch)
  {
    hide Behind;
    var j :| 0 <= j < |d.requests| && d.requests[j].id == d.next.value;
    assert Ids(d.requests)[j] == d.next.value;
  }

  lemma SweepCanFulfill(d: Disk)
    requires Listed(d) && Hand(d) && d.inHand.Some?
    ensures Enabled(d, Fulfill)
  {
    hide Behind;
    var k :| 0 <= k < |d.requests| && d.requests[k] == d.inHand.value;
    assert Tracks(d.requests)[k] == d.inHand.value.track;
  }

  lemma ListedMade(d: Disk, r: Request)
    requires DiskOk(d) && r in d.requests
    ensures r in d.made && r.born <= d.sweeps
  {
    hide Cursor, Hand, Swept, Logged;
    var i :| 0 <= i < |d.requests| && d.requests[i] == r;
    SumRemove(d.requests, i, Is(r));
    assert Sum(d.requests, Is(r)) + Sum(d.served, Is(r)) == Sum(d.made, Is(r));
    Present(d.made, r);
  }

  lemma InPrefix(a: seq<Request>, b: seq<Request>, r: Request)
    requires a <= b && r in a
    ensures r in b
  {
    var i :| 0 <= i < |a| && a[i] == r;
    assert b[i] == r;
  }

  /** Between sweeps, a request made before the last one started is served. */
  lemma ServedWhenGone(d: Disk, r: Request)
    requires DiskOk(d) && !d.sweeping && r in d.made && r.born < d.sweeps && r.track < MAX_DISK_TRACK
    ensures r in d.served && r !in d.requests
  {
    hide Listed, Cursor, Hand, Logged;
    var i :| 0 <= i < |d.made| && d.made[i] == r;
    SumRemove(d.made, i, Is(r));
    assert Sum(d.requests, Is(r)) + Sum(d.served, Is(r)) == Sum(d.made, Is(r));
    Absent(d.requests, r);
    Present(d.served, r);
  }

  // ---------- the code ----------

  /** The disk with its thread; the locals of disk_sweep are parameters of `View`. */
  class DiskThread {
    var requests: seq<Request>
    var currTrack: int
    var created: nat
    var sweeps: nat
    ghost var log: seq<Request>
    ghost var made: seq<Request>
    ghost var served: seq<Request>
    ghost var time: int

    ghost function View(sweeping: bool, next: Option<nat>, inHand: Option<Request>): Disk
      reads this
    {
      Disk(requests, sweeping, next, inHand, currTrack, log, made, served, time, created, sweeps)
    }

    constructor ()
      ensures View(false, None, None) == EMPTY && DiskOk(View(false, None, None))
    {
      requests, currTrack, created, sweeps, log, made, served, time := [], 0, 0, 0, [], [], [], 0;
      new;
      EmptyOk();
    }

    /** add_disk_request, by the CPU thread, at any moment of a sweep. */
    method AddRequest(track: int, ghost sweeping: bool, ghost next: Option<nat>, ghost inHand: Option<Request>)
      modifies this
      ensures View(sweeping, next, inHand) == DoInsert(old(View(sweeping, next, inHand)), track)
    {
      var aux := 0;
      ghost var keys := Tracks(requests);
      while aux < |requests| && requests[aux].track <= track
        invariant 0 <= aux <= |requests|
        invariant forall j :: 0 <= j < aux ==> keys[j] <= track
      {
        aux := aux + 1;
      }
      SlotFound(keys, track, aux);
      var request := Request(created, track, sweeps);
      requests := requests[..aux] + [request] + requests[aux..];
      made := made + [request];
      created := created + 1;
    }

    /** The requests other threads make while the sweep is between two of its actions. */
    method Interfere(tracks: seq<int>, ghost next: Option<nat>, ghost inHand: Option<Request>)
      requires DiskOk(View(true, next, inHand))
      modifies this
      ensures DiskOk(View(true, next, inHand))
      ensures currTrack == old(currTrack) && sweeps == old(sweeps) && log == old(log) && old(made) <= made
      ensures |requests| == |old(requests)| + |tracks|
    {
      for i := 0 to |tracks|
        invariant DiskOk(View(true, next, inHand))
        invariant currTrack == old(currTrack) && sweeps == old(sweeps) && log == old(log) && old(made) <= made
        invariant |requests| == |old(requests)| + i
      {
        ghost var d := View(true, next, inHand);
        AddRequest(tracks[i], true, next, inHand);
        ActKeeps(d, Insert(tracks[i]));
      }
    }

    /** The node a saved pointer leads to. */
    method Follow(id: nat) returns (i: nat)
      requires FirstEq(Ids(requests), id) < |requests|
      ensures i == FirstEq(Ids(requests), id)
    {
      i := 0;
      while requests[i].id != id
        invariant i <= FirstEq(Ids(requests), id)
        decreases |requests| - i
      {
        assert Ids(requests)[i] == requests[i].id;
        i := i + 1;
      }
      assert Ids(requests)[i] == requests[i].id;
    }

    /** The unlocked half of an iteration of disk_sweep. */
    method FetchNext(node: nat) returns (request: Request, next: Option<nat>)
      requires Enabled(View(true, Some(node), None), Fetch)
      modifies this
      ensures View(true, next, Some(request)) == DoFetch(old(View(true, Some(node), None)))
    {
      var i := Follow(node);
      request := requests[i];
      next := if i + 1 < |requests| then Some(requests[i + 1].id) else None;
      time := time + (request.track - currTrack) * DISK_TRACK_MOVE_TIME + DISK_OPERATION_TIME;
      currTrack, log := request.track, log + [request];
    }

    /** fulfill_disk_request, under the disk lock. */
    method FulfillRequest(request: Request, ghost next: Option<nat>)
      requires Enabled(View(true, next, Some(request)), Fulfill)
      modifies this
      ensures View(true, next, None) == DoFulfill(old(View(true, next, Some(request))))
    {
      DeleteByTrack(request.track);
      served := served + [request];
    }

    /** One iteration of disk_sweep, with what other threads insert before the fetch and before
        the lock is taken. */
    method Iterate(node: nat, early: seq<int>, late: seq<int>) returns (next: Option<nat>)
      requires DiskOk(View(true, Some(node), None)) && currTrack < MAX_DISK_TRACK
      modifies this
      ensures DiskOk(View(true, next, None)) && sweeps == old(sweeps) && log != [] && old(made) <= made
      ensures |requests| == |old(requests)| + |early| + |late| - 1
    {
      hide Listed, Hand, Swept, Logged, Once, FirstEq, Behind, InsertAt, Slot;
      Interfere(early, Some(node), None);
      ghost var d := View(true, Some(node), None);
      SweepCanFetch(d);
      var request;
      request, next := FetchNext(node);
      ActKeeps(d, Fetch);
      Interfere(late, next, Some(request));
      d := View(true, next, Some(request));
      SweepCanFulfill(d);
      FulfillRequest(request, next);
      ActKeeps(d, Fulfill);
    }

    /** disk_sweep.  `arrivals` lists what the other threads insert at each point where they can
        get in between.  Whatever they insert, every request listed when the sweep starts, on a
        track of the disk, is served by its end. */
    method Sweep(arrivals: seq<(seq<int>, seq<int>)>)
      requires DiskOk(View(false, None, None)) && requests != []
      modifies this
      ensures DiskOk(View(false, None, None)) && sweeps == old(sweeps) + 1
      ensures forall r :: r in old(requests) && r.track < 200 ==> r !in requests && r in served
      ensures log != [] && time == 100 * currTrack + 5000 * |log|
    {
      hide Cursor, Hand, Once;
      ghost var d := View(false, None, None);
      ActKeeps(d, Start);
      currTrack, log, time, sweeps := 0, [], 0, sweeps + 1;
      var next := Some(requests[0].id);
      var k := 0;
      while next.Some? && currTrack < MAX_DISK_TRACK
        invariant DiskOk(View(true, next, None)) && sweeps == old(sweeps) + 1 && old(made) <= made
        invariant log == [] ==> next.Some? && currTrack == 0
        decreases if k < |arrivals| then |arrivals| - k else 0, |requests|
      {
        if k < |arrivals| {
          next := Iterate(next.value, arrivals[k].0, arrivals[k].1);
          k := k + 1;
        } else {
          next := Iterate(next.value, [], []);
        }
      }
      ActKeeps(View(true, next, None), End);
      forall r | r in old(requests) && r.track < MAX_DISK_TRACK ensures r !in requests && r in served {
        ListedMade(d, r);
        assert r in made by { InPrefix(d.made, made, r); }
        ServedWhenGone(View(false, None, None), r);
      }
    }

    /** delete_list on the requests. */
    method DeleteByTrack(track: int)
      requires FirstEq(Tracks(requests), track) < |requests|
      modifies `requests
      ensures requests == RemoveAt(old(requests), FirstEq(Tracks(old(requests)), track))
    {
      var i := 0;
      while requests[i].track != track
        invariant i <= FirstEq(Tracks(requests), track)
        decreases |requests| - i
      {
        assert Tracks(requests)[i] == requests[i].track;
        i := i + 1;
      }
      assert Tracks(requests)[i] == requests[i].track;
      requests := requests[..i] + requests[i + 1..];
    }
  }
}
