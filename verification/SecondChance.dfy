/** The second-chance choice of memory/memory.c, on the used bits of the resident segments. */
module SecondChance {

  /** The length of the run of set bits the scan meets before a clear one. */
  function SetRun(bits: seq<bool>): (k: nat)
    ensures k <= |bits|
    ensures forall j :: 0 <= j < k ==> bits[j]
    ensures k < |bits| ==> !bits[k]
  {
    if bits == [] || !bits[0] then 0 else 1 + SetRun(bits[1..])
  }

  /** The index met after `k` steps of a circular walk over `n` nodes from `start`. */
  function Around(n: nat, start: nat, k: nat): (i: nat)
    requires start < n && k <= n
    ensures i < n
  {
    if start + k < n then start + k else start + k - n
  }

  /** After how many steps of that walk index `i` is met. */
  function Distance(n: nat, start: nat, i: nat): (k: nat)
    requires start < n && i < n
    ensures k < n && Around(n, start, k) == i
  {
    if start <= i then i - start else i + n - start
  }

  /** The bits in the order the scan meets them. */
  function Rotated(bits: seq<bool>, start: nat): (r: seq<bool>)
    requires start < |bits|
    ensures |r| == |bits| && forall k :: 0 <= k < |bits| ==> r[k] == bits[Around(|bits|, start, k)]
  {
    bits[start..] + bits[..start]
  }

  /** How many segments the scan skips, giving each a second chance. */
  function Skips(bits: seq<bool>, start: nat): (k: nat)
    requires start < |bits|
    ensures k <= |bits|
  {
    SetRun(Rotated(bits, start))
  }

  /** The segment the scan evicts. */
  function Victim(bits: seq<bool>, start: nat): (v: nat)
    requires start < |bits|
    ensures v < |bits|
  {
    Around(|bits|, start, Skips(bits, start))
  }

  /** The bits once the scan has skipped the first `k` segments. */
  function ClearedUpTo(bits: seq<bool>, start: nat, k: nat): (r: seq<bool>)
    requires start < |bits|
    ensures |r| == |bits|
  {
    seq(|bits|, i requires 0 <= i < |bits| => bits[i] && Distance(|bits|, start, i) >= k)
  }

  /** The bits the scan leaves behind. */
  function Cleared(bits: seq<bool>, start: nat): (r: seq<bool>)
    requires start < |bits|
    ensures |r| == |bits|
  {
    ClearedUpTo(bits, start, Skips(bits, start))
  }

  /** One inspection: the scan stops at the next node exactly when it has skipped all it will,
      and otherwise clears that node's bit. */
  lemma Inspect(bits: seq<bool>, start: nat, k: nat)
    requires start < |bits| && k <= Skips(bits, start)
    ensures var i := Around(|bits|, start, k);
      && (ClearedUpTo(bits, start, k)[i] <==> k < Skips(bits, start))
      && ClearedUpTo(bits, start, k + 1) == ClearedUpTo(bits, start, k)[i := false]
  {
    var n, i := |bits|, Around(|bits|, start, k);
    if k < n {
      assert Distance(n, start, i) == k && Rotated(bits, start)[k] == bits[i];
    } else {
      assert Distance(n, start, i) == 0;
    }
    assert ClearedUpTo(bits, start, k + 1) == ClearedUpTo(bits, start, k)[i := false];
  }

  lemma WalkStarts(bits: seq<bool>, start: nat)
    requires start < |bits|
    ensures Around(|bits|, start, 0) == start && ClearedUpTo(bits, start, 0) == bits
  {
  }

  lemma WalkGoesOn(n: nat, start: nat, k: nat)
    requires start < n && k < n
    ensures var i := Around(n, start, k); Around(n, start, k + 1) == if i + 1 < n then i + 1 else 0
  {
  }

  /** The victim is the segment with a clear bit that is nearest in circular order, and only the
      segments in front of it are skipped; when every bit is set, a full circle ends at the
      start node. */
  lemma VictimIsFirstClear(bits: seq<bool>, start: nat)
    requires start < |bits|
    ensures var v := Victim(bits, start);
      if exists i :: 0 <= i < |bits| && !bits[i]
      then !bits[v] && Skips(bits, start) == Distance(|bits|, start, v)
        && forall i :: 0 <= i < |bits| && !bits[i] ==> Distance(|bits|, start, v) <= Distance(|bits|, start, i)
      else v == start && Skips(bits, start) == |bits|
  {
    var n, k, r := |bits|, Skips(bits, start), Rotated(bits, start);
    forall i | 0 <= i < n && !bits[i] ensures k <= Distance(n, start, i) < n {
      assert r[Distance(n, start, i)] == bits[i];
    }
    if k < n { assert !r[k] && !bits[Around(n, start, k)]; }
  }

  /** Exactly the skipped bits are lost: with a clear bit in reach those in front of the
      victim, otherwise all. */
  lemma ClearedMeans(bits: seq<bool>, start: nat, i: nat)
    requires start < |bits| && i < |bits|
    ensures var v := Victim(bits, start);
      Cleared(bits, start)[i] <==>
        bits[i] && !bits[v] && Distance(|bits|, start, i) > Distance(|bits|, start, v)
  {
    VictimIsFirstClear(bits, start);
    assert Rotated(bits, start)[Distance(|bits|, start, i)] == bits[i];
    if bits[Victim(bits, start)] { assert forall j :: 0 <= j < |bits| ==> bits[j]; }
  }
}
