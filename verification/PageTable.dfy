/** The page table of memory/memory.c: an array of entries searched entry by entry, with the
    counter of free pages beside it. */
module PageTable {
  import opened Seqs
  import opened Paging

  datatype Page = Page(number: nat, segmentId: int, processId: int, free: bool)

  predicate Holds(e: Page, id: int) { !e.free && e.segmentId == id }

  function Free(t: seq<Page>): nat { Sum(t, (e: Page) => if e.free then 1 else 0) }

  function Held(t: seq<Page>, id: int): nat { Sum(t, (e: Page) => if Holds(e, id) then 1 else 0) }

  function FirstFree(t: seq<Page>): (i: nat)
    ensures i <= |t|
  {
    FirstWhere(t, (e: Page) => e.free)
  }

  function FirstHeld(t: seq<Page>, id: int): (i: nat)
    ensures i <= |t|
  {
    FirstWhere(t, (e: Page) => Holds(e, id))
  }

  /** One page to a segment, when there is a free one. */
  function Add(t: seq<Page>, id: int, pid: int): (r: seq<Page>)
    ensures |r| == |t|
  {
    var i := FirstFree(t);
    if i < |t| then t[i := Page(i, id, pid, false)] else t
  }

  /** One page of a segment back, when it has one. */
  function Delete(t: seq<Page>, id: int): (r: seq<Page>)
    ensures |r| == |t|
  {
    var i := FirstHeld(t, id);
    if i < |t| then t[i := Page(t[i].number, -1, -1, true)] else t
  }

  /** A page goes to the first free entry, numbered by its place, and no other entry changes; to
      none if none is free. */
  lemma AddMeans(t: seq<Page>, id: int, pid: int, i: nat)
    requires i < |t|
    ensures var r := Add(t, id, pid);
      if t[i].free && forall j :: 0 <= j < i ==> !t[j].free
      then r[i] == Page(i, id, pid, false) else r[i] == t[i]
  {
  }

  /** The first entry in use by the segment becomes free, and no other entry changes. */
  lemma DeleteMeans(t: seq<Page>, id: int, i: nat)
    requires i < |t|
    ensures var r := Delete(t, id);
      if !t[i].free && t[i].segmentId == id && forall j :: 0 <= j < i ==> t[j].free || t[j].segmentId != id
      then r[i] == Page(t[i].number, -1, -1, true) else r[i] == t[i]
  {
  }

  function AddMany(t: seq<Page>, id: int, pid: int, k: nat): (r: seq<Page>)
    ensures |r| == |t|
  {
    if k == 0 then t else Add(AddMany(t, id, pid, k - 1), id, pid)
  }

  function DeleteMany(t: seq<Page>, id: int, k: nat): (r: seq<Page>)
    ensures |r| == |t|
  {
    if k == 0 then t else Delete(DeleteMany(t, id, k - 1), id)
  }

  // ---------- the array ----------

  /** `pages` has one cell more than the table: the memory behind it, which memory_delete_page
      writes when its segment has no page left. */
  class Table {
    const pages: array<Page>
    var numFreePages: int

    ghost predicate Valid() { pages.Length == NUM_PAGES + 1 }

    ghost function Entries(): (r: seq<Page>)
      requires Valid()
      reads pages
      ensures |r| == NUM_PAGES
    {
      pages[..NUM_PAGES]
    }

    /** init_memory. */
    constructor ()
      ensures Valid() && fresh(pages) && numFreePages == NUM_PAGES
      ensures forall i :: 0 <= i < NUM_PAGES ==> Entries()[i].free && Entries()[i].number == i
    {
      pages := new Page[NUM_PAGES + 1](i requires 0 <= i => Page(i, 0, 0, true));
      numFreePages := NUM_PAGES;
    }

    /** memory_delete_page: the first page of the segment is freed.  If there is none, the
        search ends behind the table, and the counter rises all the same. */
    method DeletePage(id: int)
      requires Valid()
      modifies pages, this`numFreePages
      ensures Entries() == Delete(old(Entries()), id)
      ensures numFreePages == old(numFreePages) + 1
    {
      ghost var t := Entries();
      var i := 0;
      while i < NUM_PAGES
        invariant 0 <= i <= NUM_PAGES && i <= FirstHeld(t, id)
      {
        if Holds(pages[i], id) { break; }
        i := i + 1;
      }
      pages[i] := Page(pages[i].number, -1, -1, true);
      numFreePages := numFreePages + 1;
    }

    /** add_page_memory with the search its comment announces: the first free page. */
    method AddPage(id: int, pid: int)
      requires Valid()
      modifies pages, this`numFreePages
      ensures Entries() == Add(old(Entries()), id, pid)
      ensures numFreePages == old(numFreePages) - 1
    {
      ghost var t := Entries();
      var i := 0;
      while i < NUM_PAGES && !pages[i].free
        invariant 0 <= i <= NUM_PAGES && i <= FirstFree(t)
      {
        i := i + 1;
      }
      pages[i] := Page(i, id, pid, false);
      numFreePages := numFreePages - 1;
    }

    /** The search of add_page_memory as written, which passes over the free pages: it never
        finds a free entry of the table. */
    method FindPageAsWritten() returns (i: nat)
      requires Valid()
      ensures i == FirstInUse(Entries())
      ensures i < NUM_PAGES ==> !Entries()[i].free
    {
      i := 0;
      while pages[i].free && i < NUM_PAGES
        invariant 0 <= i <= NUM_PAGES && i <= FirstInUse(Entries())
      {
        i := i + 1;
      }
    }

    /** load_segment. */
    method LoadSegment(id: int, pid: int, numPages: nat)
      requires Valid()
      modifies pages, this`numFreePages
      ensures Entries() == AddMany(old(Entries()), id, pid, numPages)
      ensures numFreePages == old(numFreePages) - numPages
    {
      for i := 0 to numPages
        invariant Entries() == AddMany(old(Entries()), id, pid, i)
        invariant numFreePages == old(numFreePages) - i
      {
        AddPage(id, pid);
      }
    }

    /** The page loop of memory_unload_segment. */
    method UnloadPages(id: int, numPages: nat)
      requires Valid()
      modifies pages, this`numFreePages
      ensures Entries() == DeleteMany(old(Entries()), id, numPages)
      ensures numFreePages == old(numFreePages) + numPages
    {
      for i := 0 to numPages
        invariant Entries() == DeleteMany(old(Entries()), id, i)
        invariant numFreePages == old(numFreePages) + i
      {
        DeletePage(id);
      }
    }
  }

  // ---------- the search as written ----------

  function FirstInUse(t: seq<Page>): (i: nat)
    ensures i <= |t|
  {
    FirstWhere(t, (e: Page) => !e.free)
  }

  function AddAsWritten(t: seq<Page>, id: int, pid: int): (r: seq<Page>)
    ensures |r| == |t|
  {
    var i := FirstInUse(t);
    if i < |t| then t[i := Page(i, id, pid, false)] else t
  }

  function AddManyAsWritten(t: seq<Page>, id: int, pid: int, k: nat): (r: seq<Page>)
    ensures |r| == |t|
    decreases k
  {
    if k == 0 then t else AddManyAsWritten(AddAsWritten(t, id, pid), id, pid, k - 1)
  }

  /** As written, loading a segment takes no free page, whatever the table, while the counter
      falls by one a page: it stays true exactly for a segment without pages. */
  lemma {:induction false} LoadAsWritten(t: seq<Page>, id: int, pid: int, k: nat, counter: int)
    requires counter == Free(t)
    ensures Free(AddManyAsWritten(t, id, pid, k)) == Free(t)
    ensures counter - k == Free(AddManyAsWritten(t, id, pid, k)) <==> k == 0
    decreases k
  {
    if k > 0 {
      var i := FirstInUse(t);
      if i < |t| { SumUpdate(t, i, Page(i, id, pid, false), (e: Page) => if e.free then 1 else 0); }
      LoadAsWritten(AddAsWritten(t, id, pid), id, pid, k - 1, counter);
    }
  }

  // ---------- who owns what ----------

  lemma {:induction false} PositiveSum<T>(s: seq<T>, f: T -> nat)
    requires Sum(s, f) > 0
    ensures exists i :: 0 <= i < |s| && f(s[i]) > 0
  {
    if f(s[0]) == 0 {
      PositiveSum(s[1..], f);
      var i :| 0 <= i < |s| - 1 && f(s[1..][i]) > 0;
      assert s[i + 1] == s[1..][i];
    }
  }

  lemma AddCounts(t: seq<Page>, id: int, pid: int)
    requires Free(t) > 0
    ensures Free(Add(t, id, pid)) == Free(t) - 1
    ensures forall x :: Held(Add(t, id, pid), x) == Held(t, x) + if x == id then 1 else 0
  {
    var i := FirstFree(t);
    PositiveSum(t, (e: Page) => if e.free then 1 else 0);
    SumUpdate(t, i, Page(i, id, pid, false), (e: Page) => if e.free then 1 else 0);
    forall x ensures Held(Add(t, id, pid), x) == Held(t, x) + if x == id then 1 else 0 {
      SumUpdate(t, i, Page(i, id, pid, false), (e: Page) => if Holds(e, x) then 1 else 0);
    }
  }

  lemma DeleteCounts(t: seq<Page>, id: int)
    requires Held(t, id) > 0
    ensures Free(Delete(t, id)) == Free(t) + 1
    ensures forall x :: Held(Delete(t, id), x) == Held(t, x) - if x == id then 1 else 0
  {
    var i := FirstHeld(t, id);
    var e := Page(t[if i < |t| then i else 0].number, -1, -1, true);
    PositiveSum(t, (e: Page) => if Holds(e, id) then 1 else 0);
    SumUpdate(t, i, e, (e: Page) => if e.free then 1 else 0);
    forall x ensures Held(Delete(t, id), x) == Held(t, x) - if x == id then 1 else 0 {
      SumUpdate(t, i, e, (e: Page) => if Holds(e, x) then 1 else 0);
    }
  }

  /** A load that finds room gives the segment exactly its pages, from the free ones. */
  lemma {:induction false} AddManyCounts(t: seq<Page>, id: int, pid: int, k: nat)
    requires k <= Free(t)
    ensures Free(AddMany(t, id, pid, k)) == Free(t) - k
    ensures forall x :: Held(AddMany(t, id, pid, k), x) == Held(t, x) + if x == id then k else 0
  {
    if k > 0 {
      AddManyCounts(t, id, pid, k - 1);
      AddCounts(AddMany(t, id, pid, k - 1), id, pid);
    }
  }

  lemma {:induction false} DeleteManyCounts(t: seq<Page>, id: int, k: nat)
    requires k <= Held(t, id)
    ensures Free(DeleteMany(t, id, k)) == Free(t) + k
    ensures forall x :: Held(DeleteMany(t, id, k), x) == Held(t, x) - if x == id then k else 0
  {
    if k > 0 {
      DeleteManyCounts(t, id, k - 1);
      DeleteCounts(DeleteMany(t, id, k - 1), id);
    }
  }

  /** An unload of a segment without pages changes nothing in the table. */
  lemma {:induction false} DeleteNone(t: seq<Page>, id: int, k: nat)
    requires Held(t, id) == 0
    ensures DeleteMany(t, id, k) == t
  {
    if k > 0 {
      DeleteNone(t, id, k - 1);
      var i := FirstHeld(t, id);
      if i < |t| { SumRemove(t, i, (e: Page) => if Holds(e, id) then 1 else 0); }
    }
  }

  // ---------- the table behind the resident list ----------

  /** Each resident segment holds exactly its number of entries, and nobody else holds any.
      An entry has one segment id, so the entries of two segments are disjoint. */
  ghost predicate Backed(t: seq<Page>, m: Mem) {
    && |t| == NUM_PAGES
    && (forall q :: q in m.resident && q < |m.segs| ==> Held(t, m.segs[q].id) == m.segs[q].pages)
    && (forall x :: Absent(m, x) ==> Held(t, x) == 0)
  }

  ghost predicate Absent(m: Mem, x: int) {
    forall q :: q in m.resident && q < |m.segs| ==> m.segs[q].id != x
  }

  lemma {:induction false} AllFree(t: seq<Page>)
    requires forall x :: Held(t, x) == 0
    ensures Free(t) == |t|
  {
    if t != [] {
      var x := t[0].segmentId;
      assert Held(t, x) == (if Holds(t[0], x) then 1 else 0) + Held(t[1..], x);
      forall x ensures Held(t[1..], x) == 0 {
        assert Held(t, x) == (if Holds(t[0], x) then 1 else 0) + Held(t[1..], x);
      }
      AllFree(t[1..]);
    }
  }

  /** The entries split into the free ones and those of each resident segment. */
  lemma {:induction false} EntriesSplit(t: seq<Page>, m: Mem, s: seq<nat>)
    requires MemShape(m) && InSegs(m, s) && Distinct(s)
    requires forall i, j :: 0 <= i < j < |s| ==> m.segs[s[i]].id != m.segs[s[j]].id
    requires forall i :: 0 <= i < |s| ==> Held(t, m.segs[s[i]].id) == m.segs[s[i]].pages
    requires forall x :: (forall i :: 0 <= i < |s| ==> m.segs[s[i]].id != x) ==> Held(t, x) == 0
    ensures Free(t) + Total(m.segs, s) == |t|
    decreases |s|
  {
    hide Held, Free, DeleteMany, MemShape;
    if s == [] {
      AllFree(t);
    } else {
      var x := m.segs[s[0]];
      var t' := DeleteMany(t, x.id, x.pages);
      DeleteManyCounts(t, x.id, x.pages);
      var rest := s[1..];
      forall y | forall i :: 0 <= i < |rest| ==> m.segs[rest[i]].id != y ensures Held(t', y) == 0 {
        if y != x.id {
          forall i | 0 <= i < |s| ensures m.segs[s[i]].id != y { assert i > 0 ==> rest[i - 1] == s[i]; }
        }
      }
      EntriesSplit(t', m, rest);
    }
  }

  predicate InSegs(m: Mem, s: seq<nat>) { forall i :: 0 <= i < |s| ==> s[i] < |m.segs| }

  /** With the table behind the list, the number of free entries is NUM_PAGES minus the pages
      of the resident segments; the counter is off by the drift. */
  lemma FreeEntries(t: seq<Page>, m: Mem)
    requires MemOk(m) && Backed(t, m)
    ensures Free(t) == NUM_PAGES - Total(m.segs, m.resident) == m.free - Drift(m)
  {
    forall x | forall i :: 0 <= i < |m.resident| ==> m.segs[m.resident[i]].id != x ensures Held(t, x) == 0 {
      assert Absent(m, x);
    }
    forall i, j | 0 <= i < j < |m.resident| ensures m.segs[m.resident[i]].id != m.segs[m.resident[j]].id {
      assert m.resident[i] in m.resident && m.resident[j] in m.resident;
    }
    EntriesSplit(t, m, m.resident);
  }

  lemma BackedUnload(t: seq<Page>, m: Mem, p: nat)
    requires MemOk(m) && OwnId(m, p) && Backed(t, m)
    ensures Backed(DeleteMany(t, m.segs[p].id, m.segs[p].pages), Unload(m, p))
  {
    var x := m.segs[p];
    var r := Unload(m, p);
    UnloadOk(m, p);
    if x.present {
      DeleteManyCounts(t, x.id, x.pages);
    } else {
      assert Absent(m, x.id);
      DeleteNone(t, x.id, x.pages);
    }
    forall y | Absent(r, y) ensures Held(DeleteMany(t, x.id, x.pages), y) == 0 {
      if y != x.id { assert Absent(m, y); }
    }
  }

  lemma BackedPlace(t: seq<Page>, m: Mem, p: nat)
    requires MemOk(m) && OwnId(m, p) && Backed(t, m) && !m.segs[p].present
    requires Drift(m) == 0 && m.segs[p].pages <= m.free
    ensures Backed(AddMany(t, m.segs[p].id, p, m.segs[p].pages), Place(m, p))
  {
    var x := m.segs[p];
    var r := Place(m, p);
    FreeEntries(t, m);
    PlaceOk(m, p);
    AddManyCounts(t, x.id, p, x.pages);
    assert Absent(m, x.id);
    forall y | Absent(r, y) ensures Held(AddMany(t, x.id, p, x.pages), y) == 0 {
      assert y != x.id && Absent(m, y);
    }
  }

  lemma BackedSame(t: seq<Page>, m: Mem, r: Mem)
    requires Backed(t, m) && r.resident == m.resident && SameSizes(m, r)
    ensures Backed(t, r)
  {
    forall x | Absent(r, x) ensures Held(t, x) == 0 { assert Absent(m, x); }
  }

  /** The table after the swapping loop. */
  function Evict(t: seq<Page>, m: Mem, need: nat): (r: seq<Page>)
    requires MemShape(m)
    ensures |r| == |t|
    decreases |m.resident|
  {
    if m.free >= need || m.resident == [] then t
    else
      var x := m.segs[VictimOf(m)];
      Evict(DeleteMany(t, x.id, x.pages), Swap(m), need)
  }

  lemma BackedSwap(t: seq<Page>, m: Mem)
    requires MemOk(m) && m.resident != [] && Backed(t, m)
    ensures var x := m.segs[VictimOf(m)]; Backed(DeleteMany(t, x.id, x.pages), Swap(m))
  {
    var skipped := m.resident[..SecondChance.Skips(UsedBits(m), 0)];
    ClearOk(m, skipped);
    BackedSame(t, m, ClearUsed(m, skipped));
    BackedUnload(t, ClearUsed(m, skipped), VictimOf(m));
  }

  lemma {:induction false} BackedEvict(t: seq<Page>, m: Mem, need: nat)
    requires MemOk(m) && Backed(t, m)
    ensures Backed(Evict(t, m, need), MakeRoom(m, need))
    decreases |m.resident|
  {
    if m.free < need && m.resident != [] {
      var x := m.segs[VictimOf(m)];
      SwapOk(m);
      BackedSwap(t, m);
      BackedEvict(DeleteMany(t, x.id, x.pages), Swap(m), need);
    }
  }
}
