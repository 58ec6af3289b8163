/** Sequence vocabulary shared by the lists of the simulator: where a stable priority insert
    lands, which element a delete-by-key removes, and how multiplicities follow. */
module Seqs {

  datatype Option<+T> = None | Some(value: T)

  /** The place a priority insert chooses: in front of the first strictly larger key. */
  function Slot(keys: seq<int>, k: int): (i: nat)
    ensures i <= |keys|
    ensures forall j :: 0 <= j < i ==> keys[j] <= k
    ensures i < |keys| ==> k < keys[i]
  {
    if keys == [] || k < keys[0] then 0 else 1 + Slot(keys[1..], k)
  }

  /** The search that stops in front of the first strictly larger key finds `Slot`. */
  lemma SlotFound(keys: seq<int>, k: int, i: nat)
    requires i <= |keys| && (forall j :: 0 <= j < i ==> keys[j] <= k) && (i < |keys| ==> k < keys[i])
    ensures i == Slot(keys, k)
  {
    if i > 0 {
      assert keys[0] <= k;
      SlotFound(keys[1..], k, i - 1);
    }
  }

  /** The element a search by key finds: the first one that matches, or the length if none does. */
  function FirstEq(keys: seq<int>, k: int): (i: nat)
    ensures i <= |keys|
    ensures forall j :: 0 <= j < i ==> keys[j] != k
    ensures i < |keys| ==> keys[i] == k
  {
    if keys == [] || keys[0] == k then 0 else 1 + FirstEq(keys[1..], k)
  }

  /** The first position whose value satisfies `p`, or the length. */
  function FirstWhere<T>(s: seq<T>, p: T -> bool): (k: nat)
    ensures k <= |s|
    ensures forall i :: 0 <= i < k ==> !p(s[i])
    ensures k < |s| ==> p(s[k])
  {
    if s == [] || p(s[0]) then 0 else 1 + FirstWhere(s[1..], p)
  }

  function InsertAt<T>(s: seq<T>, i: nat, x: T): (r: seq<T>)
    requires i <= |s|
    ensures |r| == |s| + 1 && r[i] == x
    ensures forall j :: 0 <= j < i ==> r[j] == s[j]
    ensures forall j :: i < j < |r| ==> r[j] == s[j - 1]
    ensures multiset(r) == multiset(s) + multiset{x}
  {
    assert s == s[..i] + s[i..];
    s[..i] + [x] + s[i..]
  }

  function RemoveAt<T>(s: seq<T>, i: nat): (r: seq<T>)
    requires i < |s|
    ensures |r| == |s| - 1
    ensures forall j :: 0 <= j < i ==> r[j] == s[j]
    ensures forall j :: i <= j < |r| ==> r[j] == s[j + 1]
    ensures multiset(s) == multiset(r) + multiset{s[i]}
  {
    assert s == s[..i] + [s[i]] + s[i + 1..];
    s[..i] + s[i + 1..]
  }

  ghost predicate Ascending(keys: seq<int>) {
    forall i, j :: 0 <= i < j < |keys| ==> keys[i] <= keys[j]
  }

  /** No element occurs twice. */
  ghost predicate Distinct<T>(s: seq<T>) {
    forall i, j :: 0 <= i < j < |s| ==> s[i] != s[j]
  }

  lemma {:induction false} DistinctMultiset<T>(s: seq<T>)
    ensures Distinct(s) <==> forall x :: multiset(s)[x] <= 1
  {
    if s == [] { return; }
    var last := |s| - 1;
    var front := s[..last];
    assert s == front + [s[last]];
    DistinctMultiset(front);
    var ms := multiset(front) + multiset{s[last]};
    assert multiset(s) == ms;
    if Distinct(s) {
      assert Distinct(front) && s[last] !in front;
    } else if Distinct(front) {
      assert s[last] in front;
      assert ms[s[last]] >= 2;
    } else {
      var x :| multiset(front)[x] > 1;
      assert ms[x] > 1;
    }
  }

  /** A priority insert into an ascending list keeps it ascending. */
  lemma InsertAscending(keys: seq<int>, k: int)
    requires Ascending(keys)
    ensures Ascending(InsertAt(keys, Slot(keys, k), k))
  {
  }

  lemma HeadTail<T>(s: seq<T>)
    requires s != []
    ensures multiset(s) == multiset{s[0]} + multiset(s[1..])
  {
    assert s == [s[0]] + s[1..];
  }

  lemma DistinctInsert<T>(s: seq<T>, i: nat, x: T)
    requires Distinct(s) && x !in s && i <= |s|
    ensures Distinct(InsertAt(s, i, x))
  {
    var r := InsertAt(s, i, x);
    forall a, b | 0 <= a < b < |r| ensures r[a] != r[b] {
      if a == i || b == i {
        var o := if a == i then b else a;
        assert r[o] == s[if o < i then o else o - 1];
      } else {
        assert r[a] == s[if a < i then a else a - 1] && r[b] == s[if b < i then b else b - 1];
      }
    }
  }

  lemma RemoveMembers<T>(s: seq<T>, i: nat)
    requires Distinct(s) && i < |s|
    ensures Distinct(RemoveAt(s, i))
    ensures forall q :: q in RemoveAt(s, i) <==> q in s && q != s[i]
  {
    var r := RemoveAt(s, i);
    forall q | q in s && q != s[i] ensures q in r {
      var j :| 0 <= j < |s| && s[j] == q;
      assert r[if j < i then j else j - 1] == q;
    }
    forall q | q in r ensures q in s && q != s[i] {
      var j :| 0 <= j < |r| && r[j] == q;
      assert s[if j < i then j else j + 1] == q;
    }
    forall a, b | 0 <= a < b < |r| ensures r[a] != r[b] {
      assert r[a] == s[if a < i then a else a + 1] && r[b] == s[if b < i then b else b + 1];
    }
  }

  // ---------- sums over a sequence ----------

  function Sum<R>(s: seq<R>, f: R -> nat): nat {
    if s == [] then 0 else f(s[0]) + Sum(s[1..], f)
  }

  lemma {:induction false} SumSplit<R>(a: seq<R>, b: seq<R>, f: R -> nat)
    ensures Sum(a + b, f) == Sum(a, f) + Sum(b, f)
  {
    if a == [] {
      assert a + b == b;
    } else {
      assert (a + b)[1..] == a[1..] + b;
      SumSplit(a[1..], b, f);
    }
  }

  lemma {:induction false} SumRemove<R>(s: seq<R>, i: nat, f: R -> nat)
    requires i < |s|
    ensures Sum(s, f) == Sum(RemoveAt(s, i), f) + f(s[i])
  {
    if i == 0 {
      assert RemoveAt(s, 0) == s[1..];
    } else {
      var rest := RemoveAt(s[1..], i - 1);
      SumRemove(s[1..], i - 1, f);
      assert RemoveAt(s, i) == [s[0]] + rest && ([s[0]] + rest)[1..] == rest;
    }
  }

  lemma SumInsert<R>(s: seq<R>, i: nat, x: R, f: R -> nat)
    requires i <= |s|
    ensures Sum(InsertAt(s, i, x), f) == Sum(s, f) + f(x)
  {
    SumRemove(InsertAt(s, i, x), i, f);
    assert RemoveAt(InsertAt(s, i, x), i) == s;
  }

  lemma SumUpdate<R>(s: seq<R>, i: nat, x: R, f: R -> nat)
    requires i < |s|
    ensures Sum(s[i := x], f) + f(s[i]) == Sum(s, f) + f(x)
  {
    SumRemove(s, i, f);
    SumRemove(s[i := x], i, f);
    assert RemoveAt(s[i := x], i) == RemoveAt(s, i);
  }

  lemma SumAppend<R>(s: seq<R>, x: R, f: R -> nat)
    ensures Sum(s + [x], f) == Sum(s, f) + f(x)
  {
    SumSplit(s, [x], f);
  }

  /** A sum over some of the elements is at most the sum over all of them. */
  lemma {:induction false} SubsetSum<T>(a: seq<T>, b: seq<T>, f: T -> nat)
    requires Distinct(a) && forall x :: x in a ==> x in b
    ensures Sum(a, f) <= Sum(b, f)
  {
    if a != [] {
      assert a[0] in b;
      var i :| 0 <= i < |b| && b[i] == a[0];
      var b' := RemoveAt(b, i);
      SumRemove(b, i, f);
      forall x | x in a[1..] ensures x in b' {
        assert x in b && x != a[0];
        var j :| 0 <= j < |b| && b[j] == x;
        assert b'[if j < i then j else j - 1] == x;
      }
      SubsetSum(a[1..], b', f);
    }
  }

  lemma {:induction false} SumOnes<T>(a: seq<T>, f: T -> nat)
    requires forall x :: f(x) == 1
    ensures Sum(a, f) == |a|
  {
    if a != [] { SumOnes(a[1..], f); }
  }

  lemma {:induction false} SumPointwise<R>(a: seq<R>, b: seq<R>, f: R -> nat)
    requires |a| == |b| && forall i :: 0 <= i < |a| ==> f(a[i]) == f(b[i])
    ensures Sum(a, f) == Sum(b, f)
  {
    if a != [] { SumPointwise(a[1..], b[1..], f); }
  }
}
