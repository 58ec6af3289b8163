/** The doubly linked list of list/list.c on the heap, and the sorted insert that
    scheduler/scheduler.c and disk/disk.c each carry out on such a list.

    The code keeps the `next` chain and `tail` right in every routine.  It does not keep the
    `prev` links: `Chain` and `Linked` separate the two. */
module LinkedList {
  import opened Seqs

  class Node<T> {
    var data: T
    var next: Node?<T>
    var prev: Node?<T>

    constructor (data: T)
      ensures this.data == data && next == null && prev == null
    {
      this.data, next, prev := data, null, null;
    }
  }

  /** How delete_list ends. */
  datatype Outcome = Done | NullDereference

  function Keys<T>(s: seq<T>, key: T -> int): (r: seq<int>)
    ensures |r| == |s|
  {
    seq(|s|, i requires 0 <= i < |s| => key(s[i]))
  }

  class List<T> {
    var header: Node?<T>
    var tail: Node?<T>
    ghost var nodes: seq<Node<T>>

    /** The `next` chain runs through `s` and, if there are any nodes, ends at `tail`; the tail
        of an empty list is not looked at. */
    ghost predicate Holds(s: seq<Node<T>>)
      reads `header, `tail, s`next
    {
      && Distinct(s)
      && header == (if s == [] then null else s[0])
      && (s != [] ==> tail == s[|s| - 1] && tail.next == null)
      && forall i, j :: 0 <= i && j == i + 1 && j < |s| ==> s[i].next == s[j]
    }

    ghost predicate Chain()
      reads `header, `tail, `nodes, nodes`next
    {
      Holds(nodes)
    }

    /** Every node but the header has its predecessor in `prev`. */
    ghost predicate Linked()
      reads `nodes, nodes`prev
    {
      forall i, j :: 0 <= i && j == i + 1 && j < |nodes| ==> nodes[j].prev == nodes[i]
    }

    /** What the list holds, in order. */
    ghost function Values(): (r: seq<T>)
      reads this, nodes
      ensures |r| == |nodes|
    {
      seq(|nodes|, i requires 0 <= i < |nodes| reads this, nodes => nodes[i].data)
    }

    /** create_list. */
    constructor ()
      ensures Chain() && Linked() && nodes == []
    {
      header, tail, nodes := null, null, [];
    }

    method Push(data: T)
      requires Chain()
      modifies this, nodes
      ensures Chain() && Values() == old(Values()) + [data]
      ensures |nodes| == |old(nodes)| + 1 && nodes[..|old(nodes)|] == old(nodes) && fresh(nodes[|old(nodes)|])
      ensures old(Linked()) ==> Linked()
    {
      var node := new Node(data);
      if header == null {
        header, tail := node, node;
      } else {
        tail.next := node;
        node.prev := tail;
        tail := node;
      }
      nodes := nodes + [node];
    }

    method Pop() returns (node: Node?<T>)
      requires Chain()
      modifies this, nodes
      ensures Chain() && (old(Linked()) ==> Linked())
      ensures old(nodes) == [] ==> node == null && nodes == []
      ensures old(nodes) != [] ==> node == old(nodes)[0] && nodes == old(nodes)[1..]
      ensures old(nodes) != [] ==> node.data == old(Values())[0] && Values() == old(Values())[1..]
    {
      node := header;
      if header != null {
        assert 1 < |nodes| ==> nodes[0].next == nodes[1];
        header := header.next;
        if header != null { header.prev := null; }
        nodes := nodes[1..];
      }
    }

    /** find: the first node that matches, or null. */
    method Find(p: T -> bool) returns (node: Node?<T>)
      requires Chain()
      ensures var k := FirstWhere(Values(), p);
        node == if k < |nodes| then nodes[k] else null
    {
      node := header;
      ghost var i := 0;
      while node != null
        invariant 0 <= i <= |nodes| && node == (if i < |nodes| then nodes[i] else null)
        invariant i <= FirstWhere(Values(), p)
        decreases |nodes| - i
      {
        assert node.data == Values()[i];
        if p(node.data) { return; }
        node := node.next;
        i := i + 1;
      }
    }

    /** The position of the first match, or the length. */
    ghost function First(p: T -> bool): (k: nat)
      reads this, nodes
      ensures k == FirstWhere(Values(), p) <= |nodes|
    {
      FirstWhere(Values(), p)
    }

    /** Where the `prev` links lead, on the list or off it. */
    ghost function Prevs(): (r: set<Node<T>>)
      reads this, nodes
      ensures forall n :: n in nodes && n.prev != null ==> n.prev in r
    {
      set n | n in nodes && n.prev != null :: n.prev
    }

    /** delete_list, whatever the `prev` links.  It removes exactly the first match if and only if
        there is none, or it is the header, or its `prev` is its predecessor.  Otherwise it
        dereferences NULL, or cuts out everything behind the node that `prev` leads back to, or
        unlinks nothing, and then may leave `tail` off the list or close a circle. */
    method Delete(p: T -> bool) returns (outcome: Outcome)
      requires Chain()
      modifies this, nodes, Prevs()
      ensures var k, was := old(First(p)), old(nodes);
        outcome == Done && Holds(if k < |was| then RemoveAt(was, k) else was) <==>
          k == 0 || k == |was| || old(PrevOf(First(p))) == was[k - 1]
      ensures outcome == NullDereference <==> 0 < old(First(p)) < |old(nodes)| && old(PrevOf(First(p))) == null
      ensures outcome == NullDereference || old(First(p)) == |old(nodes)| ==> Chain() && nodes == old(nodes)
      ensures old(First(p)) == 0 < |old(nodes)| ==> Chain() && nodes == old(nodes)[1..]
      ensures 0 < old(First(p)) < |old(nodes)| && outcome == Done ==>
        Cut(old(nodes), old(First(p)), old(PrevOf(First(p))))
      ensures old(Linked()) ==> outcome == Done && Chain() && Linked()
      ensures forall n :: n in old(nodes) || n in old(Prevs()) ==> n.data == old(n.data)
      ensures LinksLeft(old(nodes), old(Links()), if outcome == Done then old(First(p)) else |old(nodes)|)
    {
      hide Distinct, Holds, Cut, FirstWhere, Values, RemoveAt;
      var place := Find(p);
      ghost var k, was := FirstWhere(Values(), p), nodes;
      outcome := Done;
      if place == null { return; }
      Positions(k);
      if header == place {
        DeleteHeader(place);
      } else if place.prev == null {
        outcome := NullDereference;
        NotRemoved(was, k);
      } else {
        DeleteBehind(place, k);
      }
    }

    ghost function Links(): (r: seq<Node?<T>>)
      reads this, nodes
      ensures |r| == |nodes|
      ensures forall i :: 0 <= i < |r| ==> r[i] == nodes[i].prev && (r[i] != null ==> r[i] in Prevs())
    {
      seq(|nodes|, i requires 0 <= i < |nodes| reads this, nodes => nodes[i].prev)
    }

    /** The `prev` links of `was` once position `k` is unlinked: the next node has its `prev`. */
    ghost predicate LinksLeft(was: seq<Node<T>>, links: seq<Node?<T>>, k: nat)
      requires |links| == |was|
      reads was`prev
    {
      forall i :: 0 <= i < |was| && i != k ==>
        was[i].prev == links[if 0 < k && i == k + 1 then k else i]
    }

    ghost function PrevOf(k: nat): Node?<T>
      reads this, nodes
    {
      if k < |nodes| then nodes[k].prev else null
    }

    /** The two branches of delete_list behind the header. */
    method DeleteBehind(place: Node<T>, ghost k: nat)
      requires Chain() && 0 < k < |nodes| && place == nodes[k] && place.prev != null
      modifies this, nodes, place.prev
      ensures Cut(old(nodes), k, old(place.prev))
      ensures Holds(RemoveAt(old(nodes), k)) <==> old(place.prev) == old(nodes)[k - 1]
      ensures old(Linked()) ==> Chain() && Linked()
      ensures forall n :: n in old(nodes) || n == old(place.prev) ==> n.data == old(n.data)
      ensures LinksLeft(old(nodes), old(Links()), k)
    {
      hide Distinct, Holds, Cut, LedPast, RemoveAt;
      ghost var was, q := nodes, place.prev;
      Positions(k);
      if tail == place { DeleteTail(place, k); } else { DeleteMiddle(place, k, nodes[k + 1]); }
      Recut(k, q);
      CutMeans(was, k, q);
      if q == was[k - 1] { StillLinked(was, k); }
    }

    lemma Positions(k: nat)
      requires Chain() && k < |nodes|
      ensures Distinct(nodes) && (nodes[k] == header <==> k == 0) && (nodes[k] == tail <==> k + 1 == |nodes|)
      ensures forall i :: 0 <= i < |nodes| && i != k ==> nodes[i] != nodes[k]
      ensures k > 0 ==> nodes[k - 1].next == nodes[k] && (Linked() ==> nodes[k].prev == nodes[k - 1])
    {
    }

    /** What unlinking position `k` of `was` through the pointer `q` leaves, in its three cases. */
    ghost predicate Cut(was: seq<Node<T>>, k: nat, q: Node?<T>)
      requires 0 < k < |was|
      reads `header, `tail, `nodes, nodes`next, was`next
    {
      && (forall j :: 0 <= j <= k && q == was[j] ==> Chain() && nodes == was[..j + 1] + was[k + 1..])
      && (forall j :: k < j < |was| && q == was[j] ==> nodes == was && was[j].next == was[k + 1])
      && (q !in was ==> nodes == was && (Chain() <==> k + 1 < |was|) && (k + 1 == |was| ==> tail == q))
    }

    /** As long as the predecessor still leads to it, a node has not been removed. */
    lemma NotRemoved(was: seq<Node<T>>, k: nat)
      requires 0 < k < |was| && Distinct(was) && was[k - 1].next == was[k]
      ensures !Holds(RemoveAt(was, k))
    {
      var r := RemoveAt(was, k);
      assert r[k - 1] == was[k - 1];
      if k + 1 < |was| { assert r[k] == was[k + 1] != was[k]; }
    }

    /** The chain through `was` with the link behind `j` led past `k`. */
    ghost predicate Bent(was: seq<Node<T>>, j: nat, k: nat)
      reads `header, `tail, was`next
    {
      && j <= k < |was| && Distinct(was) && header == was[0]
      && (forall i, i' :: 0 <= i && i' == i + 1 && i' < |was| && i != j ==> was[i].next == was[i'])
      && was[j].next == (if k + 1 < |was| then was[k + 1] else null)
      && tail == (if k + 1 < |was| then was[|was| - 1] else was[j]) && tail.next == null
    }

    lemma BentHolds(was: seq<Node<T>>, j: nat, k: nat)
      requires Bent(was, j, k)
      ensures Holds(was[..j + 1] + was[k + 1..])
      ensures 0 < k && j != k - 1 ==> was[k - 1].next == was[k]
    {
    }

    method DeleteHeader(place: Node<T>)
      requires Chain() && nodes != [] && place == nodes[0]
      modifies this, place
      ensures Chain() && (old(Linked()) ==> Linked()) && nodes == old(nodes)[1..] == RemoveAt(old(nodes), 0)
      ensures place.data == old(place.data)
    {
      if place.prev != null { place.prev := null; }
      assert 1 < |nodes| ==> nodes[0].next == nodes[1];
      header := place.next;
      nodes := nodes[1..];
    }

    /** The chain after the pointers around `k` were led past it through `q`: bent if `q` is in
        front of `k` or `k` itself, and otherwise as it was up to `k`. */
    ghost predicate LedPast(was: seq<Node<T>>, k: nat, q: Node<T>)
      requires 0 < k < |was|
      reads `header, `tail, was`next
    {
      && Distinct(was)
      && (forall j :: 0 <= j <= k && q == was[j] ==> Bent(was, j, k))
      && (forall j :: k < j < |was| && q == was[j] ==> was[j].next == was[k + 1])
      && (q !in was ==> (Holds(was) <==> k + 1 < |was|) && (k + 1 == |was| ==> tail == q))
      && (q != was[k - 1] ==> was[k - 1].next == was[k])
    }

    method DeleteTail(place: Node<T>, ghost k: nat)
      requires Chain() && 0 < k == |nodes| - 1 && place == nodes[k] && place.prev != null
      modifies `tail, place.prev`next
      ensures LedPast(nodes, k, old(place.prev))
    {
      place.prev.next := null;
      tail := place.prev;
    }

    method DeleteMiddle(place: Node<T>, ghost k: nat, ghost after: Node<T>)
      requires Chain() && 0 < k < |nodes| - 1 && place == nodes[k] && place.prev != null && after == nodes[k + 1]
      modifies place.prev`next, after`prev
      ensures LedPast(nodes, k, old(place.prev)) && after.prev == old(place.prev)
    {
      assert place.next == nodes[k + 1];
      place.prev.next := place.next;
      place.next.prev := place.prev;
    }

    /** The nodes that are left, where the pointers still form a chain. */
    ghost method Recut(k: nat, q: Node<T>)
      requires 0 < k < |nodes| && LedPast(nodes, k, q)
      modifies `nodes
      ensures Cut(old(nodes), k, q)
      ensures Holds(RemoveAt(old(nodes), k)) <==> q == old(nodes)[k - 1]
    {
      hide Holds, Bent;
      var was := nodes;
      if j :| 0 <= j <= k && q == was[j] {
        nodes := was[..j + 1] + was[k + 1..];
        BentHolds(was, j, k);
      }
      assert was[..k - 1 + 1] == was[..k];
      RemovedIff(was, k, q);
    }

    lemma StillLinked(was: seq<Node<T>>, k: nat)
      requires 0 < k < |was| && nodes == RemoveAt(was, k)
      requires k + 1 < |was| ==> was[k + 1].prev == was[k - 1]
      ensures (forall i, j :: 0 <= i && j == i + 1 && j < |was| && j != k && j != k + 1 ==> was[j].prev == was[i]) ==>
        Linked()
    {
    }

    lemma RemovedIff(was: seq<Node<T>>, k: nat, q: Node<T>)
      requires 0 < k < |was| && Distinct(was)
      requires q != was[k - 1] ==> was[k - 1].next == was[k]
      requires q == was[k - 1] ==> Holds(was[..k] + was[k + 1..])
      ensures Holds(RemoveAt(was, k)) <==> q == was[k - 1]
    {
      if q == was[k - 1] { assert RemoveAt(was, k) == was[..k] + was[k + 1..]; } else { NotRemoved(was, k); }
    }

    // ---------- sorted insert ----------

    /** The search loop: the last node whose key is at most `k`, given that the header's is. */
    method LastNotLarger(key: T -> int, k: int) returns (aux: Node<T>, ghost i: nat)
      requires Chain() && nodes != [] && key(header.data) <= k
      ensures var s := Slot(Keys(Values(), key), k); 0 < s && aux == nodes[s - 1] && i == s
    {
      aux, i := header, 1;
      ghost var keys := Keys(Values(), key);
      assert keys[0] == key(nodes[0].data);
      while aux.next != null
        invariant 0 < i <= |nodes| && aux == nodes[i - 1]
        invariant forall j :: 0 <= j < i ==> keys[j] <= k
        decreases |nodes| - i
      {
        assert i < |nodes| && aux.next == nodes[i] && keys[i] == key(nodes[i].data);
        if key(aux.next.data) > k { break; }
        aux, i := aux.next, i + 1;
      }
      assert i < |nodes| ==> aux.next == nodes[i] && keys[i] == key(nodes[i].data);
      SlotFound(keys, k, i);
    }

    /** add_process_scheduler and add_disk_request, as written.  The value lands behind every
        value of an equal or smaller key and nothing else moves.  Of the `prev` links, the new
        node's is right only at the end of the list: in front it is null and the old header's
        is not set; in the middle the new node points at itself.  So the insert keeps `Linked`
        exactly when it appends. */
    method AddSorted(data: T, key: T -> int) returns (node: Node<T>)
      requires Chain()
      modifies this, nodes
      ensures fresh(node) && Chain() && node.data == data
      ensures var k := Slot(Keys(old(Values()), key), key(data));
        && nodes == InsertAt(old(nodes), k, node)
        && Values() == InsertAt(old(Values()), k, data)
        && node.prev == (if k == 0 then null else if k == |old(nodes)| then old(nodes)[k - 1] else node)
        && (old(Linked()) ==> (Linked() <==> k == |old(nodes)|))
      ensures forall n :: n in old(nodes) ==> n.data == old(n.data) && n.prev == old(n.prev)
    {
      hide InsertAt, Slot;
      node := new Node(data);
      InsertNode(node, key);
      ValuesInserted(node, Slot(old(Keys(Values(), key)), key(data)));
    }

    /** The three branches of the insert, for a node that is not on the list. */
    method InsertNode(node: Node<T>, key: T -> int)
      requires Chain() && node !in nodes && node.next == null && node.prev == null
      requires nodes != [] ==> nodes[0].prev != node
      modifies this, nodes, node
      ensures Chain() && node.data == old(node.data)
      ensures var k := Slot(Keys(old(Values()), key), key(node.data));
        && nodes == InsertAt(old(nodes), k, node)
        && node.prev == (if k == 0 then null else if k == |old(nodes)| then old(nodes)[k - 1] else node)
        && (old(Linked()) ==> (Linked() <==> k == |old(nodes)|))
      ensures forall n :: n in old(nodes) ==> n.data == old(n.data) && n.prev == old(n.prev)
    {
      hide InsertAt, Chain, Linked;
      HeaderIsFirst(key);
      if header == null {
        PutOnly(node);
      } else if key(node.data) < key(header.data) {
        PutFirst(node);
      } else {
        InsertBehind(node, key);
      }
    }

    lemma HeaderIsFirst(key: T -> int)
      requires Chain()
      ensures header == if nodes == [] then null else nodes[0]
      ensures nodes != [] ==> Keys(Values(), key)[0] == key(nodes[0].data)
    {
    }

    /** The last branch: the search and the insert behind the node it ends at. */
    method InsertBehind(node: Node<T>, key: T -> int)
      requires Chain() && nodes != [] && node !in nodes && key(header.data) <= key(node.data)
      modifies this, nodes, node
      ensures Chain() && node.data == old(node.data)
      ensures var k := Slot(Keys(old(Values()), key), key(node.data));
        && 0 < k && nodes == InsertAt(old(nodes), k, node)
        && node.prev == (if k == |old(nodes)| then old(nodes)[k - 1] else node)
        && (old(Linked()) ==> (Linked() <==> k == |old(nodes)|))
      ensures forall n :: n in old(nodes) ==> n.data == old(n.data) && n.prev == old(n.prev)
    {
      hide InsertAt, Slot, Distinct;
      var aux, k := LastNotLarger(key, key(node.data));
      Splice(node, aux, k);
    }

    /** The insert into an empty list. */
    method PutOnly(node: Node<T>)
      requires Chain() && nodes == [] && node.next == null
      modifies this
      ensures Chain() && Linked() && nodes == InsertAt(old(nodes), 0, node)
    {
      header, tail := node, node;
      nodes := InsertAt(nodes, 0, node);
    }

    twostate lemma ValuesInserted(new node: Node<T>, k: nat)
      requires k <= |old(nodes)| && nodes == InsertAt(old(nodes), k, node)
      requires forall n :: n in old(nodes) ==> n.data == old(n.data)
      ensures Values() == InsertAt(old(Values()), k, node.data)
    {
    }

    /** The pointer assignments of the insert in front. */
    method PutFirst(node: Node<T>)
      requires Chain() && nodes != [] && node !in nodes && node.prev == null
      requires nodes[0].prev != node
      modifies this, node
      ensures Chain() && nodes == InsertAt(old(nodes), 0, node) && !Linked()
      ensures node.data == old(node.data) && node.prev == null
    {
      node.next := header;
      header := node;
      nodes := InsertAt(nodes, 0, node);
      assert nodes[1].prev != nodes[0];
    }

    /** The pointer assignments of the insert behind `aux`. */
    method Splice(node: Node<T>, aux: Node<T>, ghost k: nat)
      requires Chain() && 0 < k <= |nodes| && aux == nodes[k - 1] && node !in nodes
      modifies this, nodes, node
      ensures Chain() && nodes == InsertAt(old(nodes), k, node)
      ensures node.data == old(node.data)
      ensures node.prev == if k == |old(nodes)| then aux else node
      ensures old(Linked()) ==> (Linked() <==> k == |old(nodes)|)
      ensures forall n :: n in old(nodes) ==> n.data == old(n.data) && n.prev == old(n.prev)
    {
      assert k < |nodes| ==> aux.next == nodes[k];
      node.next := aux.next;
      node.prev := aux;
      aux.next := node;
      if node.next == null {
        tail := node;
      } else {
        aux.next.prev := node;
      }
      nodes := InsertAt(nodes, k, node);
      assert nodes[k] == node && nodes[k - 1] == aux;
    }

    /** What the missing links cost.  On a list whose links are right, delete_list after an insert
        as written removes exactly the first match unless that is the value behind the new one,
        or the new value itself and between two others.  Then the new value stays, or goes with
        the one behind it, or NULL is dereferenced. */
    method InsertThenDelete(data: T, key: T -> int, p: T -> bool) returns (outcome: Outcome)
      requires Chain() && Linked()
      modifies this, nodes, Prevs()
      ensures var n, k := |old(nodes)|, Slot(Keys(old(Values()), key), key(data));
        var with := InsertAt(old(Values()), k, data);
        var f := FirstWhere(with, p);
        && (outcome == Done && Chain() && Values() == (if f < |with| then RemoveAt(with, f) else with) <==>
              !(k < n && (f == k + 1 || 0 < f == k)))
        && (0 < f == k < n ==> outcome == Done && Chain() && Values() == with)
        && (0 < k < n && f == k + 1 ==> outcome == Done && Chain() && Values() == with[..k] + with[k + 2..])
        && (0 == k < n && f == 1 && old(header.prev) == null ==> outcome == NullDereference)
    {
      hide InsertAt, RemoveAt, Slot, FirstWhere, Holds, Values;
      ghost var was, k := nodes, Slot(Keys(Values(), key), key(data));
      HeaderIsFirst(key);
      var node := AddSorted(data, key);
      outcome := DeleteAfter(was, k, node, p);
    }

    /** The delete, on the list the insert of `node` has left. */
    method DeleteAfter(ghost was: seq<Node<T>>, ghost k: nat, node: Node<T>, p: T -> bool) returns (outcome: Outcome)
      requires Chain() && k <= |was| && nodes == InsertAt(was, k, node)
      requires forall i, j :: 0 <= i && j == i + 1 && j < |was| ==> was[j].prev == was[i]
      requires was != [] ==> was[0].prev != node
      requires node.prev == if k == 0 then null else if k == |was| then was[k - 1] else node
      modifies this, nodes, Prevs()
      ensures var n, with, f := |was|, old(Values()), FirstWhere(old(Values()), p);
        && (outcome == Done && Chain() && Values() == (if f < |with| then RemoveAt(with, f) else with) <==>
              !(k < n && (f == k + 1 || 0 < f == k)))
        && (0 < f == k < n ==> outcome == Done && Chain() && Values() == with)
        && (0 < k < n && f == k + 1 ==> outcome == Done && Chain() && Values() == with[..k] + with[k + 2..])
        && (0 == k < n && f == 1 && old(was[0].prev) == null ==> outcome == NullDereference)
    {
      hide InsertAt, RemoveAt, FirstWhere, Distinct, Cut, Holds, Values;
      ghost var ins, f := nodes, FirstWhere(Values(), p);
      if 0 < f < |nodes| { LinkAt(was, k, node, f); }
      if nodes != [] { Positions(0); }
      ghost var q := if 0 < f < |nodes| then nodes[f].prev else null;
      outcome := Delete(p);
      if 0 < f < |ins| && outcome == Done { CutMeans(ins, f, q); }
      if f == 0 { HeadRemoved(ins); }
      ValuesDeleted(f);
    }

    lemma HeadRemoved<S>(s: seq<S>)
      requires s != []
      ensures s[1..] == RemoveAt(s, 0)
    {
    }

    /** The cases of `Cut` that follow an insert. */
    lemma CutMeans(ins: seq<Node<T>>, f: nat, q: Node?<T>)
      requires 0 < f < |ins| && Distinct(ins) && Cut(ins, f, q)
      ensures q == ins[f - 1] ==> Chain() && nodes == RemoveAt(ins, f)
      ensures f >= 2 && q == ins[f - 2] ==> Chain() && nodes == ins[..f - 1] + ins[f + 1..]
      ensures q == ins[f] ==> Chain()
      ensures (forall j :: 0 <= j < f ==> q != ins[j]) ==> nodes == ins
    {
      if q == ins[f - 1] {
        assert nodes == ins[..f - 1 + 1] + ins[f + 1..] == RemoveAt(ins, f);
      } else if q == ins[f] {
        assert nodes == ins[..f + 1] + ins[f + 1..] == ins;
      } else if q in ins {
        var j :| 0 <= j < |ins| && q == ins[j];
      }
    }

    /** The nodes a delete leaves carry the values they carried. */
    twostate lemma ValuesDeleted(f: nat)
      requires f <= |old(nodes)| && forall n :: n in old(nodes) ==> n.data == old(n.data)
      ensures nodes == old(nodes) ==> Values() == old(Values())
      ensures f < |old(nodes)| && nodes == RemoveAt(old(nodes), f) ==> Values() == RemoveAt(old(Values()), f)
      ensures 2 <= f < |old(nodes)| && nodes == old(nodes)[..f - 1] + old(nodes)[f + 1..] ==>
        Values() == old(Values())[..f - 1] + old(Values())[f + 1..]
    {
    }

    /** The `prev` links after an insert as written. */
    lemma LinkAt(was: seq<Node<T>>, k: nat, node: Node<T>, f: nat)
      requires Chain() && k <= |was| && nodes == InsertAt(was, k, node) && 0 < f < |nodes|
      requires forall i, j :: 0 <= i && j == i + 1 && j < |was| ==> was[j].prev == was[i]
      requires was != [] ==> was[0].prev != node
      requires node.prev == if k == 0 then null else if k == |was| then was[k - 1] else node
      ensures nodes[f].prev == nodes[f - 1] <==> !(k < |was| && (f == k || f == k + 1))
      ensures 0 < f == k < |was| ==> nodes[f].prev == nodes[f]
      ensures 0 < k && f == k + 1 ==> nodes[f].prev == nodes[k - 1]
      ensures k == 0 && f == 1 ==> nodes[f] == was[0]
    {
      if f < k {
        assert nodes[f] == was[f] && nodes[f - 1] == was[f - 1];
      } else if f > k {
        assert nodes[f] == was[f - 1];
        if f > k + 1 {
          assert nodes[f - 1] == was[f - 2] && was[f - 1].prev == was[f - 2];
        } else if k > 0 {
          assert nodes[k - 1] == was[k - 1] && was[k].prev == was[k - 1] != nodes[k];
        }
      }
    }

    // ---------- the insert with its `prev` links repaired ----------

    /** The same insert, with the following node's `prev` set to the new node. */
    method AddRepaired(data: T, key: T -> int) returns (node: Node<T>)
      requires Chain() && Linked()
      modifies this, nodes
      ensures fresh(node) && Chain() && Linked()
      ensures var k := Slot(Keys(old(Values()), key), key(data));
        && nodes == InsertAt(old(nodes), k, node)
        && Values() == InsertAt(old(Values()), k, data)
    {
      hide InsertAt, Slot;
      node := new Node(data);
      InsertRepaired(node, key);
      ValuesInserted(node, Slot(old(Keys(Values(), key)), key(data)));
    }

    method InsertRepaired(node: Node<T>, key: T -> int)
      requires Chain() && Linked() && node !in nodes && node.next == null
      modifies this, nodes, node
      ensures Chain() && Linked() && node.data == old(node.data)
      ensures nodes == InsertAt(old(nodes), Slot(Keys(old(Values()), key), key(node.data)), node)
      ensures forall n :: n in old(nodes) ==> n.data == old(n.data)
    {
      hide InsertAt, Chain, Linked;
      HeaderIsFirst(key);
      if header == null {
        PutOnly(node);
      } else if key(node.data) < key(header.data) {
        LinkFirst(node);
      } else {
        LinkBehind(node, key);
      }
    }

    method LinkFirst(node: Node<T>)
      requires Chain() && Linked() && nodes != [] && node !in nodes
      modifies this, node, nodes
      ensures Chain() && Linked() && nodes == InsertAt(old(nodes), 0, node)
      ensures node.data == old(node.data)
      ensures forall n :: n in old(nodes) ==> n.data == old(n.data)
    {
      node.next := header;
      header.prev := node;
      header := node;
      nodes := InsertAt(nodes, 0, node);
    }

    method LinkBehind(node: Node<T>, key: T -> int)
      requires Chain() && Linked() && nodes != [] && node !in nodes && key(header.data) <= key(node.data)
      modifies this, nodes, node
      ensures Chain() && Linked() && node.data == old(node.data)
      ensures nodes == InsertAt(old(nodes), Slot(Keys(old(Values()), key), key(node.data)), node)
      ensures forall n :: n in old(nodes) ==> n.data == old(n.data)
    {
      hide InsertAt, Slot, Distinct, Linked;
      var aux, k := LastNotLarger(key, key(node.data));
      Link(node, aux, k);
    }

    method Link(node: Node<T>, aux: Node<T>, ghost k: nat)
      requires Chain() && Linked() && 0 < k <= |nodes| && aux == nodes[k - 1] && node !in nodes
      modifies this, nodes, node
      ensures Chain() && Linked() && nodes == InsertAt(old(nodes), k, node)
      ensures node.data == old(node.data)
      ensures forall n :: n in old(nodes) ==> n.data == old(n.data)
    {
      hide Distinct, InsertAt;
      Splice(node, aux, k);
      assert k + 1 < |nodes| ==> nodes[k].next == nodes[k + 1];
      node.prev := aux;
      if node.next != null { node.next.prev := node; }
    }
  }

  // ---------- sequences ----------

  /** The insert keeps a list sorted, and puts the value behind every value of the same key. */
  lemma SortedInsert<T>(s: seq<T>, x: T, key: T -> int)
    requires Ascending(Keys(s, key))
    ensures var k := Slot(Keys(s, key), key(x));
      && Ascending(Keys(InsertAt(s, k, x), key))
      && forall i :: 0 <= i < |s| ==> (i < k <==> key(s[i]) <= key(x))
  {
    var keys := Keys(s, key);
    var k := Slot(keys, key(x));
    InsertAscending(keys, key(x));
    assert Keys(InsertAt(s, k, x), key) == InsertAt(keys, k, key(x));
    forall i | 0 <= i < |s| ensures i < k <==> key(s[i]) <= key(x) {
      assert keys[i] == key(s[i]);
      if k <= i { assert keys[k] <= keys[i]; }
    }
  }
}
