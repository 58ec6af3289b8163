/** The ready queue as the linked list it is: the insert on nodes and the insert of the kernel
    model agree. */
module ReadyList {
  import opened Seqs
  import opened Records
  import opened LinkedList
  import opened Kernel

  function ByPriority(): Process -> int { (p: Process) => p.priority }

  lemma KeysAgree(k: Kernel)
    requires k.Valid()
    ensures Keys(k.ready, ByPriority()) == S.Prios(k.Abs().cpu.tasks, k.Abs().cpu.ready)
  {
  }

  /** Known processes with the same ids are the same. */
  lemma SameIds(k: Kernel, a: seq<Process>, b: seq<Process>)
    requires k.AllKnown(a) && k.AllKnown(b) && Ids(a) == Ids(b)
    ensures a == b
  {
    forall i | 0 <= i < |a| ensures a[i] == b[i] { assert Ids(a)[i] == Ids(b)[i]; }
  }

  /** Where add_process_scheduler puts the process. */
  method Enqueue(k: Kernel, p: Process)
    requires k.Valid() && k.Known(p)
    modifies k`ready, k`clock, p`since
    ensures k.Valid() && k.Abs().cpu == S.Enqueue(old(k.Abs()).cpu, p.id)
    ensures k.ready == InsertAt(old(k.ready), Slot(Keys(old(k.ready), ByPriority()), p.priority), p)
  {
    hide k.Valid, k.Abs, Slot, InsertAt, Keys, Ids;
    ghost var ready := k.ready;
    ghost var i := Slot(Keys(ready, ByPriority()), p.priority);
    KeysAgree(k);
    k.ReadyIs();
    k.ProcessIs(p);
    k.AddProcessScheduler(p);
    k.ReadyIs();
    IdsInsert(ready, i, p);
    InsertKnown(k, ready, i, p);
    SameIds(k, k.ready, InsertAt(ready, i, p));
  }

  /** The list of nodes holds the ready queue, apart from the kernel's own objects. */
  ghost predicate HoldsReady(list: List<Process>, k: Kernel)
    reads list, list.nodes, k
  {
    && list.Chain() && list.Values() == k.ready
    && list !in k.repr && forall n :: n in list.nodes ==> n !in k.repr
  }

  /** A list of nodes that holds the ready queue holds it again after add_process_scheduler has
      run on both. */
  method AddToBoth(list: List<Process>, k: Kernel, p: Process)
    requires k.Valid() && k.Known(p) && HoldsReady(list, k)
    modifies list, list.nodes, k`ready, k`clock, p`since
    ensures k.Valid() && HoldsReady(list, k) && k.Abs().cpu == S.Enqueue(old(k.Abs()).cpu, p.id)
    ensures forall n :: n in list.nodes ==> n in old(list.nodes) || fresh(n)
  {
    hide k.Valid, k.Abs, Slot, InsertAt, Keys, Ids, S.Enqueue;
    ghost var st := k.Abs();
    AddNode(list, p);
    assert k.Valid() && k.Abs() == st;
    Enqueue(k, p);
  }

  method AddNode(list: List<Process>, p: Process)
    requires list.Chain()
    modifies list, list.nodes
    ensures list.Chain()
    ensures list.Values() == InsertAt(old(list.Values()), Slot(Keys(old(list.Values()), ByPriority()), p.priority), p)
    ensures forall n :: n in list.nodes ==> n in old(list.nodes) || fresh(n)
  {
    hide Slot, Keys;
    var node := list.AddSorted(p, ByPriority());
  }

  /** forward_scheduling on both: the insert of whoever can still run, and the pop of the head. */
  method ForwardBoth(list: List<Process>, k: Kernel)
    requires k.Valid() && HoldsReady(list, k)
    modifies list, list.nodes, k`running, k`ready, k`clock, k`units, k`locks
    modifies k.all`status, k.all`remainingTime, k.all`since
    ensures k.Valid() && HoldsReady(list, k) && k.Abs().cpu == S.Forward(old(k.Abs()).cpu)
  {
    hide k.Valid, k.Abs, S.Forward, S.Enqueue, S.Dispatch, S.CpuShape;
    k.Footprint();
    k.RunningIs();
    ForwardIs(k.Abs().cpu);
    var former := k.running;
    if former != null && (former.status == S.Ready || former.status == S.Running) {
      AddToBoth(list, k, former);
    }
    assert forall i :: 0 <= i < |list.nodes| ==> list.nodes[i] in old(list.nodes) || fresh(list.nodes[i]);
    DispatchBoth(list, k);
  }

  method DispatchBoth(list: List<Process>, k: Kernel)
    requires k.Valid() && HoldsReady(list, k)
    modifies list, list.nodes, k`running, k`ready, k`units, k`locks, k.all`status, k.all`remainingTime
    ensures k.Valid() && HoldsReady(list, k) && k.Abs().cpu == S.Dispatch(old(k.Abs()).cpu)
  {
    hide k.Valid, k.Abs, Ids;
    ghost var ready := k.ready;
    k.ReadyIs();
    var node := list.Pop();
    k.Dispatch();
    k.ReadyIs();
    if ready != [] {
      IdsRest(ready);
      RestKnown(k, ready);
      SameIds(k, k.ready, ready[1..]);
    } else {
      assert Ids(ready) == [] && k.ready == [];
    }
  }

  lemma RestKnown(k: Kernel, s: seq<Process>)
    requires s != [] && k.AllKnown(s)
    ensures k.AllKnown(s[1..])
  {
  }

  lemma InsertKnown(k: Kernel, s: seq<Process>, i: nat, p: Process)
    requires k.AllKnown(s) && k.Known(p) && i <= |s|
    ensures k.AllKnown(InsertAt(s, i, p))
  {
  }
}
