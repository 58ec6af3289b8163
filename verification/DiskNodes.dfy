/** The disk list as the nodes it is: the insert and the delete of `LinkedList` do what
    `DiskLinks` says of the list as written. */
module DiskNodes {
  import opened Seqs
  import opened DiskSweep
  import opened LinkedList
  import opened DiskLinks

  function ByTrack(): Request -> int { (r: Request) => r.track }

  /** Where a node's `prev` leads, as the id of the request there. */
  ghost function PrevId(n: Node<Request>): Option<nat>
    reads n, n.prev
  {
    if n.prev == null then None else Some(n.prev.data.id)
  }

  /** Nodes `s` carry the requests and links of `l`; a `prev` that leads off them leads to a node
      whose request is not listed any more. */
  ghost predicate Carries(s: seq<Node<Request>>, l: Links)
    reads s, set n | n in s && n.prev != null :: n.prev
  {
    && |s| == |l.prev| == |l.disk.requests|
    && (forall i :: 0 <= i < |s| ==> s[i].data == l.disk.requests[i] && PrevId(s[i]) == l.prev[i])
    && (forall i, j :: 0 <= i < |s| && 0 <= j < |s| && s[i].prev != null && s[i].prev.data.id == s[j].data.id ==>
          s[i].prev == s[j])
  }

  ghost predicate Represents(list: List<Request>, l: Links)
    reads list, list.nodes, list.Prevs()
  {
    list.Chain() && Carries(list.nodes, l)
  }

  lemma KeysAreTracks(s: seq<Request>)
    ensures Keys(s, ByTrack()) == Tracks(s)
  {
  }

  lemma MatchesTrack(s: seq<Request>, track: int)
    ensures FirstWhere(s, (r: Request) => r.track == track) == FirstEq(Tracks(s), track)
  {
    var k := FirstWhere(s, (r: Request) => r.track == track);
    assert k < |s| ==> Tracks(s)[k] == track;
    assert forall i :: 0 <= i < k ==> Tracks(s)[i] == s[i].track;
    var f := FirstEq(Tracks(s), track);
    assert f < |s| ==> s[f].track == track;
  }

  lemma ValuesAre(list: List<Request>, l: Links)
    requires Represents(list, l)
    ensures Paired(l) && list.Values() == l.disk.requests
  {
  }

  lemma LinkIs(list: List<Request>, l: Links, k: nat)
    requires Represents(list, l) && k < |list.nodes|
    ensures Paired(l) && (list.PrevOf(k) == null <==> l.prev[k] == None)
    ensures k > 0 ==> (list.PrevOf(k) == list.nodes[k - 1] <==> l.prev[k] == Some(l.disk.requests[k - 1].id))
  {
  }

  /** delete_list by track on the nodes: it removes the request served and no other exactly when
      `Right` says so, and then leaves the links `DiskLinks` says; it dereferences NULL exactly
      when the request is not the header and its `prev` is NULL. */
  method FulfillNode(list: List<Request>, ghost l: Links, request: Request) returns (outcome: Outcome)
    requires Represents(list, l) && l.disk.inHand == Some(request) && Enabled(l.disk, Fulfill)
    modifies list, list.nodes, list.Prevs()
    ensures (outcome == Done && list.Holds(RemoveAt(old(list.nodes), Place(l.disk)))) <==> Right(l)
    ensures outcome == NullDereference <==> Place(l.disk) > 0 && l.prev[Place(l.disk)] == None
    ensures Right(l) ==> Represents(list, FulfillAsWritten(l))
  {
    hide Slot, FirstWhere, FirstEq, RemoveAt, Carries, Tracks;
    ghost var was, k := list.nodes, Place(l.disk);
    ValuesAre(list, l);
    MatchesTrack(list.Values(), request.track);
    LinkIs(list, l, k);
    outcome := DeleteBeside(list, l, k, (r: Request) => r.track == request.track);
    if Right(l) { CarriesDeleted(was, l); }
  }

  /** The nodes would carry `l` if their `prev` were `links`. */
  ghost predicate WouldCarry(was: seq<Node<Request>>, links: seq<Node?<Request>>, l: Links)
    reads was`data, links`data
  {
    && |was| == |links| == |l.prev| == |l.disk.requests|
    && (forall i :: 0 <= i < |was| ==> was[i].data == l.disk.requests[i])
    && (forall i :: 0 <= i < |was| ==> l.prev[i] == if links[i] == null then None else Some(links[i].data.id))
    && (forall i, j :: 0 <= i < |was| && 0 <= j < |was| && links[i] != null && links[i].data.id == was[j].data.id ==>
          links[i] == was[j])
  }

  /** What the nodes other than `k` carry once `k` is unlinked. */
  ghost predicate CarriesBut(was: seq<Node<Request>>, l: Links, k: nat)
    reads was, set n | n in was && n.prev != null :: n.prev
  {
    && k < |was| == |l.prev| == |l.disk.requests|
    && (forall i :: 0 <= i < |was| && i != k ==>
          was[i].data == l.disk.requests[i] && PrevId(was[i]) == l.prev[if 0 < k && i == k + 1 then k else i])
    && (forall i, j :: 0 <= i < |was| && 0 <= j < |was| && i != k && j != k && was[i].prev != null ==>
          was[i].prev.data.id == was[j].data.id ==> was[i].prev == was[j])
  }

  lemma CarriesLeft(list: List<Request>, was: seq<Node<Request>>, links: seq<Node?<Request>>, l: Links, k: nat)
    requires WouldCarry(was, links, l) && k < |was| && list.LinksLeft(was, links, k)
    ensures CarriesBut(was, l, k)
  {
  }

  lemma WouldWhenCarries(list: List<Request>, l: Links)
    requires Carries(list.nodes, l)
    ensures WouldCarry(list.nodes, list.Links(), l)
  {
    forall i | 0 <= i < |list.nodes|
      ensures l.prev[i] == if list.Links()[i] == null then None else Some(list.Links()[i].data.id)
    {
      assert PrevId(list.nodes[i]) == l.prev[i];
    }
  }

  lemma CarriesDeleted(was: seq<Node<Request>>, l: Links)
    requires Paired(l) && Enabled(l.disk, Fulfill) && Right(l) && CarriesBut(was, l, Place(l.disk))
    ensures Carries(RemoveAt(was, Place(l.disk)), FulfillAsWritten(l))
  {
    hide RemoveAt, FirstEq;
    var k := Place(l.disk);
    var s, r := RemoveAt(was, k), FulfillAsWritten(l);
    forall i | 0 <= i < |s| ensures s[i].data == r.disk.requests[i] && PrevId(s[i]) == r.prev[i] {
      assert s[i] == was[if i < k then i else i + 1];
    }
    forall i, j | 0 <= i < |s| && 0 <= j < |s| && s[i].prev != null && s[i].prev.data.id == s[j].data.id
      ensures s[i].prev == s[j]
    {
      assert s[i] == was[if i < k then i else i + 1] && s[j] == was[if j < k then j else j + 1];
    }
  }

  /** The delete leaves what the other nodes carry, except for the link it sets. */
  method DeleteBeside(list: List<Request>, ghost l: Links, ghost k: nat, p: Request -> bool)
    returns (outcome: Outcome)
    requires Represents(list, l) && k == list.First(p) < |list.nodes|
    modifies list, list.nodes, list.Prevs()
    ensures (outcome == Done && list.Holds(RemoveAt(old(list.nodes), k))) <==>
      k == 0 || old(list.PrevOf(k)) == old(list.nodes)[k - 1]
    ensures outcome == NullDereference <==> 0 < k && old(list.PrevOf(k)) == null
    ensures k == 0 || old(list.PrevOf(k)) == old(list.nodes)[k - 1] ==>
      list.Chain() && list.nodes == RemoveAt(old(list.nodes), k) && CarriesBut(old(list.nodes), l, k)
  {
    hide FirstWhere, RemoveAt, list.Holds, list.Linked, list.Values, list.Cut, list.LinksLeft,
      list.Links, Carries, CarriesBut,
      list.Prevs, list.First, Distinct;
    ghost var was, links, q := list.nodes, list.Links(), list.PrevOf(k);
    WouldWhenCarries(list, l);
    PrevsApart(list);
    outcome := list.Delete(p);
    assert forall i :: 0 <= i < |was| ==> was[i].data == old(was[i].data);
    assert forall i :: 0 <= i < |was| && links[i] != null ==> links[i].data == old(links[i].data);
    assert WouldCarry(was, links, l);
    if k == 0 {
      list.HeadRemoved(was);
    } else if q == was[k - 1] {
      list.CutMeans(was, k, q);
    }
    if outcome == Done { CarriesLeft(list, was, links, l, k); }
  }

  /** add_disk_request on the nodes. */
  method InsertNode(list: List<Request>, ghost l: Links, request: Request) returns (node: Node<Request>)
    requires Represents(list, l) && LinksOk(l) && Listed(l.disk)
    requires request == Request(l.disk.created, request.track, l.disk.sweeps)
    modifies list, list.nodes
    ensures fresh(node) && list.nodes == InsertAt(old(list.nodes), Slot(Tracks(l.disk.requests), request.track), node)
    ensures Represents(list, InsertAsWritten(l, request.track))
  {
    hide Slot, InsertAt, Carries, LinksOk, Listed, InsertAsWritten;
    ghost var was := list.nodes;
    ValuesAre(list, l);
    KeysAreTracks(list.Values());
    PrevsApart(list);
    node := AddBeside(list, l, request);
    CarriesInserted(was, l, node);
  }

  /** The insert leaves what the other nodes carry. */
  method AddBeside(list: List<Request>, ghost l: Links, request: Request) returns (node: Node<Request>)
    requires Represents(list, l)
    modifies list, list.nodes
    ensures fresh(node) && list.Chain() && node.data == request && Carries(old(list.nodes), l)
    ensures var k := Slot(Keys(old(list.Values()), ByTrack()), request.track);
      && list.nodes == InsertAt(old(list.nodes), k, node)
      && node.prev == if k == 0 then null else if k == |old(list.nodes)| then old(list.nodes)[k - 1] else node
  {
    hide Slot, InsertAt, Keys, Distinct, list.Holds, list.Linked, list.Values;
    ghost var was := list.nodes;
    node := list.AddSorted(request, ByTrack());
    forall i | 0 <= i < |was| ensures was[i].data == l.disk.requests[i] && PrevId(was[i]) == l.prev[i] {
      assert was[i] in was && old(PrevId(was[i])) == l.prev[i];
    }
  }

  lemma PrevsApart(list: List<Request>)
    requires list.Chain()
    ensures Distinct(list.nodes)
  {
  }

  lemma CarriesInserted(was: seq<Node<Request>>, l: Links, node: Node<Request>)
    requires Carries(was, l) && LinksOk(l) && Listed(l.disk) && node !in was && Distinct(was)
    requires node.data == Request(l.disk.created, node.data.track, l.disk.sweeps)
    requires var k := Slot(Tracks(l.disk.requests), node.data.track);
      node.prev == if k == 0 then null else if k == |was| then was[k - 1] else node
    ensures var k := Slot(Tracks(l.disk.requests), node.data.track);
      Carries(InsertAt(was, k, node), InsertAsWritten(l, node.data.track))
  {
    hide Slot, InsertAt, LinksOk;
    var k := Slot(Tracks(l.disk.requests), node.data.track);
    var s, r := InsertAt(was, k, node), InsertAsWritten(l, node.data.track);
    PairedWhenOk(l);
    forall i | 0 <= i < |s| ensures s[i].data == r.disk.requests[i] && PrevId(s[i]) == r.prev[i] {
      if i != k { assert s[i] == was[if i < k then i else i - 1]; }
    }
    forall i, j | 0 <= i < |s| && 0 <= j < |s| && s[i].prev != null && s[i].prev.data.id == s[j].data.id
      ensures s[i].prev == s[j]
    {
      InsertedLink(was, l, node, k, i, j);
    }
  }

  /** Ids tell the nodes on the list apart, and the new one from all that links lead to. */
  lemma InsertedLink(was: seq<Node<Request>>, l: Links, node: Node<Request>, k: nat, i: nat, j: nat)
    requires Carries(was, l) && LinksOk(l) && Listed(l.disk) && k <= |was|
    requires node.data.id == l.disk.created
    requires node.prev == if k == 0 then null else if k == |was| then was[k - 1] else node
    requires var s := InsertAt(was, k, node);
      i < |s| && j < |s| && s[i].prev != null && s[i].prev.data.id == s[j].data.id
    ensures InsertAt(was, k, node)[i].prev == InsertAt(was, k, node)[j]
  {
    var s := InsertAt(was, k, node);
    if i != k { assert s[i] == was[if i < k then i else i - 1] && PrevId(s[i]) == Some(s[i].prev.data.id); }
    if j != k { assert s[j] == was[if j < k then j else j - 1]; }
  }

  /** An empty list stands for the start, and neither the start of a sweep nor a fetch touches
      the nodes. */
  lemma CarriesSame(list: List<Request>, l: Links, d: Disk)
    requires list.Chain()
    ensures list.nodes == [] ==> Represents(list, START)
    ensures Represents(list, l) && d.requests == l.disk.requests ==> Represents(list, Links(d, l.prev))
  {
  }

  /** At the end of the run that goes wrong, the nodes fulfil by dereferencing NULL. */
  method FulfillAhead(list: List<Request>) returns (outcome: Outcome)
    requires Represents(list, AHEAD)
    modifies list, list.nodes, list.Prevs()
    ensures outcome == NullDereference
  {
    hide Represents;
    WrongPlace();
    outcome := FulfillNode(list, AHEAD, FAR);
  }
}
