/** The memory side of the simulator at the level of memory/memory.c's counters and resident
    list; `PageTable` has the page entries behind it.  Segments are indexed by owner id. */
module Paging {
  import opened Seqs
  import opened SecondChance

  const NUM_PAGES: nat := 131072

  datatype Segment = Segment(id: int, pages: nat, present: bool, used: bool)

  /** `free` is num_free_pages; `resident` is memory->segments, by owner. */
  datatype Mem = Mem(segs: seq<Segment>, resident: seq<nat>, free: int)

  ghost predicate MemShape(m: Mem) {
    forall i :: 0 <= i < |m.resident| ==> m.resident[i] < |m.segs|
  }

  function Ids(m: Mem): (r: seq<int>)
    requires MemShape(m)
    ensures |r| == |m.resident|
  {
    seq(|m.resident|, i requires 0 <= i < |m.resident| => m.segs[m.resident[i]].id)
  }

  function UsedBits(m: Mem): (r: seq<bool>)
    requires MemShape(m)
    ensures |r| == |m.resident|
  {
    seq(|m.resident|, i requires 0 <= i < |m.resident| => m.segs[m.resident[i]].used)
  }

  /** memory_unload_segment.  As in the source, the segment need not be resident: the page
      counter rises either way, and the list delete by segment id then finds nothing. */
  function Unload(m: Mem, p: nat): (r: Mem)
    requires MemShape(m) && p < |m.segs|
    ensures MemShape(r) && |r.segs| == |m.segs|
  {
    var i := FirstEq(Ids(m), m.segs[p].id);
    Mem(m.segs[p := m.segs[p].(present := false, used := false)],
        if i < |m.resident| then RemoveAt(m.resident, i) else m.resident,
        m.free + m.segs[p].pages)
  }

  function ClearUsed(m: Mem, skipped: seq<nat>): (r: Mem)
    requires MemShape(m)
    ensures MemShape(r) && |r.segs| == |m.segs|
  {
    m.(segs := seq(|m.segs|, q requires 0 <= q < |m.segs| =>
                 if q in skipped then m.segs[q].(used := false) else m.segs[q]))
  }

  function VictimOf(m: Mem): (v: nat)
    requires MemShape(m) && m.resident != []
    ensures v < |m.segs| && v in m.resident
  {
    m.resident[Victim(UsedBits(m), 0)]
  }

  /** swap_segment.  The scan starts at the list header: next_swapped is never set, because the
      assignment at memory/memory.c:104 is only reached with a NULL node. */
  function Swap(m: Mem): (r: Mem)
    requires MemShape(m) && m.resident != []
    ensures MemShape(r) && |r.segs| == |m.segs| && |r.resident| == |m.resident| - 1
  {
    var m' := ClearUsed(m, m.resident[..Skips(UsedBits(m), 0)]);
    assert Ids(m')[Victim(UsedBits(m), 0)] == m'.segs[VictimOf(m)].id;
    Unload(m', VictimOf(m))
  }

  /** The swapping loop of memory_load_requisition.  The model stops at an empty list, where
      the source would follow a NULL pointer; `RoomIff` says when that happens. */
  function MakeRoom(m: Mem, need: nat): (r: Mem)
    requires MemShape(m)
    ensures MemShape(r) && |r.segs| == |m.segs|
    ensures r.free >= need || r.resident == []
    decreases |m.resident|
  {
    if m.free >= need || m.resident == [] then m else MakeRoom(Swap(m), need)
  }

  /** The owners of the segments the swapping loop evicts, in order. */
  function Evicted(m: Mem, need: nat): (r: seq<nat>)
    requires MemShape(m)
    decreases |m.resident|
  {
    if m.free >= need || m.resident == [] then [] else [VictimOf(m)] + Evicted(Swap(m), need)
  }

  /** load_segment and the push on the segment list. */
  function Place(m: Mem, p: nat): (r: Mem)
    requires MemShape(m) && p < |m.segs|
    ensures MemShape(r) && |r.segs| == |m.segs|
  {
    Mem(m.segs[p := m.segs[p].(present := true)], m.resident + [p], m.free - m.segs[p].pages)
  }

  function Touch(m: Mem, p: nat): (r: Mem)
    requires MemShape(m) && p < |m.segs|
    ensures MemShape(r) && |r.segs| == |m.segs|
  {
    m.(segs := m.segs[p := m.segs[p].(used := true)])
  }

  // ---------- what every operation keeps ----------

  /** The present bit is set exactly on the members of the resident list, a used segment is
      resident, and resident segments have different ids. */
  ghost predicate MemOk(m: Mem) {
    && MemShape(m)
    && Distinct(m.resident)
    && (forall q :: 0 <= q < |m.segs| ==> (m.segs[q].present <==> q in m.resident))
    && (forall q :: 0 <= q < |m.segs| && m.segs[q].used ==> m.segs[q].present)
    && (forall q, r :: q in m.resident && r in m.resident && q != r && q < |m.segs| && r < |m.segs| ==>
          m.segs[q].id != m.segs[r].id)
  }

  /** No other resident segment has the id of `p`'s. */
  ghost predicate OwnId(m: Mem, p: nat) {
    p < |m.segs| && forall q :: q in m.resident && q != p && q < |m.segs| ==> m.segs[q].id != m.segs[p].id
  }

  function PagesOf(segs: seq<Segment>): nat -> nat {
    (q: nat) => if q < |segs| then segs[q].pages else 0
  }

  /** The pages of the segments of the processes in `s`. */
  function Total(segs: seq<Segment>, s: seq<nat>): nat {
    Sum(s, PagesOf(segs))
  }

  /** How far the page counter is from NUM_PAGES minus the resident pages. */
  function Drift(m: Mem): int {
    m.free - (NUM_PAGES - Total(m.segs, m.resident))
  }

  lemma {:induction false} TotalSame(segs: seq<Segment>, segs': seq<Segment>, s: seq<nat>)
    requires forall i :: 0 <= i < |s| ==> PagesOf(segs)(s[i]) == PagesOf(segs')(s[i])
    ensures Total(segs, s) == Total(segs', s)
  {
    if s != [] { TotalSame(segs, segs', s[1..]); }
  }

  /** Which list node an unload deletes: the segment's own, or none when it is absent. */
  lemma UnloadIndex(m: Mem, p: nat)
    requires MemOk(m) && OwnId(m, p)
    ensures var i := FirstEq(Ids(m), m.segs[p].id);
      if m.segs[p].present then i < |m.resident| && m.resident[i] == p else i == |m.resident|
  {
    var i := FirstEq(Ids(m), m.segs[p].id);
    if m.segs[p].present {
      var j :| 0 <= j < |m.resident| && m.resident[j] == p;
      assert Ids(m)[j] == m.segs[p].id;
    }
    if i < |m.resident| {
      assert Ids(m)[i] == m.segs[m.resident[i]].id && m.resident[i] in m.resident;
    }
  }

  /** An unload keeps the bits in step with the list, and drifts by exactly the pages of a
      segment that was not there. */
  lemma UnloadOk(m: Mem, p: nat)
    requires MemOk(m) && OwnId(m, p)
    ensures MemOk(Unload(m, p))
    ensures Drift(Unload(m, p)) == Drift(m) + if m.segs[p].present then 0 else m.segs[p].pages
    ensures forall q :: q in Unload(m, p).resident <==> q in m.resident && q != p
    ensures SameSizes(m, Unload(m, p))
  {
    UnloadIndex(m, p);
    var r := Unload(m, p);
    var i := FirstEq(Ids(m), m.segs[p].id);
    TotalSame(m.segs, r.segs, r.resident);
    if i < |m.resident| {
      SumRemove(m.resident, i, PagesOf(m.segs));
      RemoveMembers(m.resident, i);
    }
  }

  ghost predicate SameSizes(m: Mem, r: Mem) {
    && |r.segs| == |m.segs|
    && forall q :: 0 <= q < |m.segs| ==> r.segs[q].pages == m.segs[q].pages && r.segs[q].id == m.segs[q].id
  }

  lemma ClearOk(m: Mem, skipped: seq<nat>)
    requires MemOk(m)
    ensures MemOk(ClearUsed(m, skipped)) && Drift(ClearUsed(m, skipped)) == Drift(m)
    ensures SameSizes(m, ClearUsed(m, skipped))
  {
    TotalSame(m.segs, ClearUsed(m, skipped).segs, m.resident);
  }

  lemma SwapOk(m: Mem)
    requires MemOk(m) && m.resident != []
    ensures MemOk(Swap(m)) && Drift(Swap(m)) == Drift(m) && SameSizes(m, Swap(m))
    ensures forall q :: q in Swap(m).resident <==> q in m.resident && q != VictimOf(m)
  {
    var skipped := m.resident[..Skips(UsedBits(m), 0)];
    ClearOk(m, skipped);
    UnloadOk(ClearUsed(m, skipped), VictimOf(m));
  }

  /** The first segment of the list whose used bit is clear, or the header if there is none. */
  ghost predicate FirstClear(m: Mem, v: nat)
    requires MemShape(m)
  {
    && v < |m.resident|
    && (forall i :: 0 <= i < v ==> m.segs[m.resident[i]].used)
    && (m.segs[m.resident[v]].used ==> v == 0 && forall i :: 0 <= i < |m.resident| ==> m.segs[m.resident[i]].used)
  }

  /** A swap, said in terms of the list and the bits: the first segment with a clear bit goes,
      with its bits cleared and its pages counted free, and those in front of it lose their used
      bit; if all bits are set, the header goes and all lose theirs.  Nothing else changes. */
  lemma SwapMeans(m: Mem) returns (v: nat)
    requires MemOk(m) && m.resident != []
    ensures FirstClear(m, v) && VictimOf(m) == m.resident[v]
    ensures var r := Swap(m);
      && r.resident == RemoveAt(m.resident, v) && r.free == m.free + m.segs[m.resident[v]].pages
      && |r.segs| == |m.segs|
      && r.segs[m.resident[v]] == m.segs[m.resident[v]].(present := false, used := false)
      && (forall q :: 0 <= q < |m.segs| && q !in m.resident ==> r.segs[q] == m.segs[q])
      && (forall i :: 0 <= i < |m.resident| && i != v ==>
            var q := m.resident[i];
            r.segs[q] == if i < v || m.segs[m.resident[v]].used then m.segs[q].(used := false) else m.segs[q])
  {
    hide Skips, Victim, UsedBits, ClearUsed, Unload, RemoveAt;
    v := Victim(UsedBits(m), 0);
    SwapVictim(m, v);
    var k := Skips(UsedBits(m), 0);
    var m' := ClearUsed(m, m.resident[..k]);
    ClearOk(m, m.resident[..k]);
    ClearMeans(m, k);
    UnloadMeans(m', v);
    assert Apart(m, v) by { ResidentApart(m, v); }
  }

  /** The segment at `v` of the list stands at no other place of it. */
  ghost predicate Apart(m: Mem, v: nat) {
    v < |m.resident| && forall i :: 0 <= i < |m.resident| && i != v ==> m.resident[i] != m.resident[v]
  }

  lemma ResidentApart(m: Mem, v: nat)
    requires MemOk(m) && v < |m.resident|
    ensures Apart(m, v)
  {
  }

  lemma ClearMeans(m: Mem, k: nat)
    requires MemOk(m) && k <= |m.resident|
    ensures var r := ClearUsed(m, m.resident[..k]);
      && r.resident == m.resident && r.free == m.free && |r.segs| == |m.segs|
      && (forall q :: 0 <= q < |m.segs| && q !in m.resident ==> r.segs[q] == m.segs[q])
      && forall i :: 0 <= i < |m.resident| ==>
           r.segs[m.resident[i]] == if i < k then m.segs[m.resident[i]].(used := false) else m.segs[m.resident[i]]
  {
    var skipped := m.resident[..k];
    forall i | 0 <= i < |m.resident| ensures m.resident[i] in skipped <==> i < k {
      if i < k { assert skipped[i] == m.resident[i]; }
    }
  }

  lemma UnloadMeans(m: Mem, v: nat)
    requires MemOk(m) && v < |m.resident|
    ensures var p := m.resident[v];
      Unload(m, p) == Mem(m.segs[p := m.segs[p].(present := false, used := false)], RemoveAt(m.resident, v),
                          m.free + m.segs[p].pages)
  {
    UnloadIndex(m, m.resident[v]);
  }

  lemma SwapVictim(m: Mem, v: nat)
    requires MemOk(m) && m.resident != [] && v == Victim(UsedBits(m), 0)
    ensures FirstClear(m, v) && VictimOf(m) == m.resident[v]
    ensures Skips(UsedBits(m), 0) == if m.segs[m.resident[v]].used then |m.resident| else v
  {
    hide Rotated, SetRun;
    var bits := UsedBits(m);
    VictimIsFirstClear(bits, 0);
    forall i | 0 <= i < |m.resident| ensures bits[i] == m.segs[m.resident[i]].used && Distance(|bits|, 0, i) == i {}
  }

  /** The swapping loop keeps the bits and the page account, evicts exactly `Evicted`, each of
      them once and all of them resident. */
  lemma {:induction false} MakeRoomOk(m: Mem, need: nat)
    requires MemOk(m)
    ensures MemOk(MakeRoom(m, need)) && Drift(MakeRoom(m, need)) == Drift(m)
    ensures forall q :: q in MakeRoom(m, need).resident <==> q in m.resident && q !in Evicted(m, need)
    ensures forall q :: q in Evicted(m, need) ==> q in m.resident
    ensures SameSizes(m, MakeRoom(m, need))
    decreases |m.resident|
  {
    if m.free < need && m.resident != [] {
      SwapOk(m);
      MakeRoomOk(Swap(m), need);
    }
  }

  /** Swapping makes room exactly for what fits in an empty memory: with a true account, the
      source meets an empty segment list if and only if the segment is larger than memory. */
  lemma RoomIff(m: Mem, need: nat)
    requires MemOk(m) && Drift(m) >= 0
    ensures need <= NUM_PAGES ==> MakeRoom(m, need).free >= need
    ensures Drift(m) == 0 ==> (MakeRoom(m, need).free >= need <==> need <= NUM_PAGES)
  {
    MakeRoomOk(m, need);
  }

  /** The memory after the first `k` swaps. */
  function Swaps(m: Mem, k: nat): (r: Mem)
    requires MemShape(m) && k <= |m.resident|
    ensures MemShape(r)
    decreases k
  {
    if k == 0 then m else Swaps(Swap(m), k - 1)
  }

  /** No eviction is superfluous: before each of them the space did not suffice. */
  lemma {:induction false} EvictsNoMore(m: Mem, need: nat, k: nat)
    requires MemShape(m)
    ensures |Evicted(m, need)| <= |m.resident|
    ensures MakeRoom(m, need) == Swaps(m, |Evicted(m, need)|)
    ensures k < |Evicted(m, need)| ==> Swaps(m, k).free < need
    decreases |m.resident|
  {
    hide Swap, VictimOf;
    if m.free < need && m.resident != [] {
      EvictsNoMore(Swap(m), need, if k > 0 then k - 1 else 0);
    }
  }

  /** The `k`-th of the swaps evicts the `k`-th of the evicted. */
  lemma {:induction false} SwapsAt(m: Mem, need: nat, k: nat)
    requires MemOk(m) && k < |Evicted(m, need)|
    ensures k < |m.resident| && MemOk(Swaps(m, k)) && Swaps(m, k).resident != []
    ensures VictimOf(Swaps(m, k)) == Evicted(m, need)[k] && Swaps(m, k + 1) == Swap(Swaps(m, k))
    ensures SameSizes(m, Swaps(m, k))
    decreases k
  {
    hide Swap, VictimOf, Drift;
    EvictsNoMore(m, need, k);
    if k > 0 {
      SwapOk(m);
      SwapsAt(Swap(m), need, k - 1);
    }
  }

  lemma PlaceOk(m: Mem, p: nat)
    requires MemOk(m) && OwnId(m, p) && !m.segs[p].present
    ensures MemOk(Place(m, p)) && Drift(Place(m, p)) == Drift(m)
    ensures forall q :: q in Place(m, p).resident <==> q in m.resident || q == p
  {
    var r := Place(m, p);
    TotalSame(m.segs, r.segs, m.resident);
    SumAppend(m.resident, p, PagesOf(r.segs));
    assert forall q :: q in r.resident <==> q in m.resident || q == p;
  }

  lemma TouchOk(m: Mem, p: nat)
    requires MemOk(m) && p < |m.segs| && m.segs[p].present
    ensures MemOk(Touch(m, p)) && Drift(Touch(m, p)) == Drift(m)
  {
    TotalSame(m.segs, Touch(m, p).segs, m.resident);
  }

  // ---------- against the set of live processes ----------

  /** The resident list names live processes, whose segments have different ids and fit. */
  ghost predicate LoadedIn(m: Mem, pcb: seq<nat>) {
    && MemOk(m)
    && (forall q :: q in m.resident ==> q in pcb)
    && (forall q, r :: q in pcb && r in pcb && q != r && q < |m.segs| && r < |m.segs| ==>
          m.segs[q].id != m.segs[r].id)
    && (forall q :: 0 <= q < |m.segs| ==> m.segs[q].pages <= NUM_PAGES)
  }

  lemma RoomKeeps(m: Mem, pcb: seq<nat>, need: nat)
    requires LoadedIn(m, pcb)
    ensures LoadedIn(MakeRoom(m, need), pcb) && Drift(MakeRoom(m, need)) == Drift(m)
    ensures forall p :: 0 <= p < |m.segs| && !m.segs[p].present ==> !MakeRoom(m, need).segs[p].present
  {
    MakeRoomOk(m, need);
  }

  lemma PlaceKeeps(m: Mem, pcb: seq<nat>, p: nat)
    requires LoadedIn(m, pcb) && p in pcb && p < |m.segs| && !m.segs[p].present
    ensures LoadedIn(Place(m, p), pcb) && Drift(Place(m, p)) == Drift(m)
  {
    PlaceOk(m, p);
  }

  lemma UnloadKeeps(m: Mem, pcb: seq<nat>, pcb': seq<nat>, p: nat)
    requires LoadedIn(m, pcb) && p in pcb && p < |m.segs|
    requires forall q :: q in pcb' <==> q in pcb && q != p
    ensures LoadedIn(Unload(m, p), pcb')
    ensures Drift(Unload(m, p)) == Drift(m) + if m.segs[p].present then 0 else m.segs[p].pages
  {
    hide Unload, Drift;
    UnloadOk(m, p);
  }

  lemma GrowKeeps(m: Mem, pcb: seq<nat>, x: Segment)
    requires LoadedIn(m, pcb) && x.pages <= NUM_PAGES && !x.present && !x.used
    requires forall q :: q in pcb && q < |m.segs| ==> m.segs[q].id != x.id
    requires forall q :: q in pcb ==> q < |m.segs|
    ensures var r := m.(segs := m.segs + [x]);
      LoadedIn(r, pcb + [|m.segs|]) && Drift(r) == Drift(m)
  {
    TotalSame(m.segs, m.segs + [x], m.resident);
    assert forall q :: q in pcb + [|m.segs|] <==> q in pcb || q == |m.segs|;
  }
}
