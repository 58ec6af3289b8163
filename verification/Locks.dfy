/** The host semaphores of main.c as binary locks, and what every routine of the four threads
    does to them and to what they protect.  Everything else a routine does is left out, and so are
    the conditions of its branches: a branch that takes locks is a parameter of the call.

    All nestings ascend in the order disk < interrupt < {scheduler, process} < log, and the print
    lock is only ever held alone.  So no interleaving of any number of threads deadlocks.  Every
    access stands inside the lock of what it changes.  So no two threads are at one together. */
module Locks {
  import opened Seqs

  datatype Lock = Disk | Interrupt | Scheduler | Process | Log | Print

  /** What the threads change under a lock: the ready list, the running process, the new_process
      flag, the disk and the print list, the log, and the status of a process that
      process_interrupt takes off the CPU. */
  datatype Shared =
    | ReadyList | RunningProcess | NewProcessFlag | DiskRequests | PrintRequests | LogMessages | Interruption

  datatype Op = Acquire(lock: Lock) | Release(lock: Lock) | Access(object: Shared)

  /** The lock that protects an object. */
  function Guard(o: Shared): Lock {
    match o
    case ReadyList | RunningProcess => Scheduler
    case NewProcessFlag => Process
    case DiskRequests => Disk
    case PrintRequests => Print
    case LogMessages => Log
    case Interruption => Interrupt
  }

  function Rank(l: Lock): nat {
    match l
    case Disk | Print => 0
    case Interrupt => 1
    case Scheduler | Process => 2
    case Log => 3
  }

  // ---------- the routines ----------

  function Section(l: Lock, body: seq<Op>): seq<Op> { [Acquire(l)] + body + [Release(l)] }

  /** `n` messages through append_log_message. */
  function Logs(n: nat): seq<Op> { if n == 0 then [] else Section(Log, [Access(LogMessages)]) + Logs(n - 1) }

  function UpdateFlag(): seq<Op> { Section(Process, [Access(NewProcessFlag)]) }

  /** One change of the ready list: an insert or a delete. */
  function Queue(): seq<Op> { Section(Scheduler, [Access(ReadyList)]) }

  /** forward_scheduling: a process that can still run is queued again, the head is popped and
      becomes the running process. */
  function ForwardScheduling(requeued: bool, dispatched: bool): seq<Op> {
    Section(Scheduler,
      (if requeued then [Access(ReadyList)] else []) + [Access(ReadyList), Access(RunningProcess)]
      + Logs(if dispatched then 1 else 0))
  }

  /** What an interrupt finds: a running process, in the middle of an EXEC block, that is queued
      again, somebody to dispatch, a pending creation. */
  datatype Scene = Scene(running: bool, midExec: bool, requeued: bool, dispatched: bool, pending: bool)

  function ProcessInterrupt(s: Scene): seq<Op> {
    (if s.running then [Access(Interruption)] else [])
    + Logs(if s.running then if s.midExec then 2 else 1 else 0)
    + ForwardScheduling(s.requeued, s.dispatched)
    + if s.pending then UpdateFlag() else []
  }

  function Interrupted(s: Scene): seq<Op> { Section(Interrupt, ProcessInterrupt(s)) }

  /** memory_unload_syscall: the request, its completion and three lines about the space. */
  function Unload(): seq<Op> { Logs(1) + Logs(4) }

  function Unloads(n: nat): seq<Op> { if n == 0 then [] else Unload() + Unloads(n - 1) }

  /** The calls at the top of the four threads' loops. */
  datatype Call =
    | Create
    | TakeNew(scene: Scene)
    | ExecUnit(over: bool)
    | AcquireSem(granted: bool, scene: Scene)
    | ReleaseSem(waiter: bool)
    | DiskRequisition(scene: Scene)
    | PrintRequisition(scene: Scene)
    | Load(swaps: nat, scene: Scene)
    | Quantum(scene: Scene)
    | Finish(dispatched: bool)
    | ServeDisk(scene: Scene)
    | ServePrint(scene: Scene)

  function Ops(c: Call): seq<Op> {
    match c
    case Create => Queue() + Logs(1) + UpdateFlag()
    case TakeNew(s) => Interrupted(s) + UpdateFlag()
    case ExecUnit(over) => Logs(if over then 1 else 0)
    case AcquireSem(granted, s) => Logs(1) + if granted then [] else Interrupted(s)
    case ReleaseSem(waiter) => Logs(1) + if waiter then Queue() + Logs(1) else []
    case DiskRequisition(s) => Interrupted(s) + Section(Disk, [Access(DiskRequests)])
    case PrintRequisition(s) => Interrupted(s) + Section(Print, [Access(PrintRequests)])
    case Load(swaps, s) => Logs(1) + Unloads(swaps) + Interrupted(s) + Logs(4)
    case Quantum(s) => Interrupted(s)
    case Finish(dispatched) => Logs(1) + Unload() + Queue() + ForwardScheduling(false, dispatched)
    case ServeDisk(s) => Section(Disk, Logs(1) + Queue() + [Access(DiskRequests)] + Interrupted(s))
    case ServePrint(s) => Logs(1) + Queue() + Section(Print, [Access(PrintRequests)]) + Interrupted(s)
  }

  // ---------- the order of nesting ----------

  ghost predicate Below(held: set<Lock>, r: nat) { forall h :: h in held ==> Rank(h) < r }

  /** The locks held after `ops`, if every lock is acquired above all those held and released
      while held, and every access is made with its lock held. */
  ghost function Held(ops: seq<Op>, held: set<Lock>): Option<set<Lock>> {
    if ops == [] then Some(held)
    else match ops[0]
      case Acquire(l) => if Below(held, Rank(l)) then Held(ops[1..], held + {l}) else None
      case Release(l) => if l in held then Held(ops[1..], held - {l}) else None
      case Access(o) => if Guard(o) in held then Held(ops[1..], held) else None
  }

  /** `ops` may run on top of any locks below rank `r` that include `need`, and gives back what
      it takes. */
  ghost predicate Neutral(ops: seq<Op>, r: nat, need: set<Lock>) {
    forall held :: Below(held, r) && need <= held ==> Held(ops, held) == Some(held)
  }

  lemma {:induction false} HeldSeq(a: seq<Op>, b: seq<Op>, held: set<Lock>)
    ensures Held(a + b, held) == match Held(a, held) case Some(h) => Held(b, h) case None => None
  {
    if a == [] {
      assert a + b == b;
    } else {
      assert (a + b)[1..] == a[1..] + b;
      match a[0]
      case Acquire(l) => HeldSeq(a[1..], b, held + {l});
      case Release(l) => HeldSeq(a[1..], b, held - {l});
      case Access(o) => HeldSeq(a[1..], b, held);
    }
  }

  lemma NeutralSeq(a: seq<Op>, b: seq<Op>, r: nat, need: set<Lock>)
    requires Neutral(a, r, need) && Neutral(b, r, need)
    ensures Neutral(a + b, r, need)
  {
    forall held | Below(held, r) && need <= held ensures Held(a + b, held) == Some(held) { HeldSeq(a, b, held); }
  }

  /** A critical section fits below its own lock if its body fits above it. */
  lemma NeutralSection(l: Lock, body: seq<Op>, r: nat, need: set<Lock>)
    requires r <= Rank(l) && Neutral(body, Rank(l) + 1, {l})
    ensures Neutral(Section(l, body), r, need)
  {
    forall held | Below(held, r) && need <= held ensures Held(Section(l, body), held) == Some(held) {
      var rest := body + [Release(l)];
      assert Section(l, body) == [Acquire(l)] + rest && Section(l, body)[1..] == rest;
      HeldSeq(body, [Release(l)], held + {l});
      assert held + {l} - {l} == held;
    }
  }

  lemma Nothing(r: nat, need: set<Lock>)
    ensures Neutral([], r, need)
  {
  }

  lemma AccessNeutral(o: Shared, r: nat)
    ensures Neutral([Access(o)], r, {Guard(o)})
  {
  }

  /** An object changed in a section of its own. */
  lemma AccessSection(o: Shared, r: nat, need: set<Lock>)
    requires r <= Rank(Guard(o))
    ensures Neutral(Section(Guard(o), [Access(o)]), r, need)
  {
    AccessNeutral(o, Rank(Guard(o)) + 1);
    NeutralSection(Guard(o), [Access(o)], r, need);
  }

  lemma {:induction false} LogsNeutral(n: nat, r: nat, need: set<Lock>)
    requires r <= 3
    ensures Neutral(Logs(n), r, need)
  {
    Nothing(r, need);
    if n > 0 {
      AccessSection(LogMessages, r, need);
      LogsNeutral(n - 1, r, need);
      NeutralSeq(Section(Log, [Access(LogMessages)]), Logs(n - 1), r, need);
    }
  }

  lemma {:induction false} UnloadsNeutral(n: nat)
    ensures Neutral(Unloads(n), 0, {}) && Neutral(Unload(), 0, {})
  {
    Nothing(0, {});
    LogsNeutral(1, 0, {});
    LogsNeutral(4, 0, {});
    NeutralSeq(Logs(1), Logs(4), 0, {});
    if n > 0 {
      UnloadsNeutral(n - 1);
      NeutralSeq(Unload(), Unloads(n - 1), 0, {});
    }
  }

  lemma ForwardNeutral(requeued: bool, dispatched: bool, r: nat, need: set<Lock>)
    requires r <= 2
    ensures Neutral(ForwardScheduling(requeued, dispatched), r, need)
  {
    hide Neutral;
    var first := if requeued then [Access(ReadyList)] else [];
    var n := if dispatched then 1 else 0;
    Nothing(3, {Scheduler});
    AccessNeutral(ReadyList, 3);
    AccessNeutral(RunningProcess, 3);
    LogsNeutral(n, 3, {Scheduler});
    NeutralSeq([Access(ReadyList)], [Access(RunningProcess)], 3, {Scheduler});
    assert [Access(ReadyList)] + [Access(RunningProcess)] == [Access(ReadyList), Access(RunningProcess)];
    NeutralSeq(first, [Access(ReadyList), Access(RunningProcess)], 3, {Scheduler});
    NeutralSeq(first + [Access(ReadyList), Access(RunningProcess)], Logs(n), 3, {Scheduler});
    NeutralSection(Scheduler, first + [Access(ReadyList), Access(RunningProcess)] + Logs(n), r, need);
  }

  lemma InterruptedNeutral(s: Scene, r: nat, need: set<Lock>)
    requires r <= 1
    ensures Neutral(Interrupted(s), r, need)
  {
    hide Neutral;
    var i := {Interrupt};
    var mark := if s.running then [Access(Interruption)] else [];
    var logs := Logs(if s.running then if s.midExec then 2 else 1 else 0);
    var forward := ForwardScheduling(s.requeued, s.dispatched);
    var flag := if s.pending then UpdateFlag() else [];
    Nothing(2, i);
    AccessNeutral(Interruption, 2);
    LogsNeutral(if s.running then if s.midExec then 2 else 1 else 0, 2, i);
    ForwardNeutral(s.requeued, s.dispatched, 2, i);
    AccessSection(NewProcessFlag, 2, i);
    NeutralSeq(mark, logs, 2, i);
    NeutralSeq(mark + logs, forward, 2, i);
    NeutralSeq(mark + logs + forward, flag, 2, i);
    NeutralSection(Interrupt, ProcessInterrupt(s), r, need);
  }

  /** Every call keeps the order and makes its accesses under their locks, starting and ending
      without a lock. */
  lemma CallsOrdered(c: Call)
    ensures Held(Ops(c), {}) == Some({})
  {
    hide Neutral, Held, Section;
    assert Neutral(Ops(c), 0, {}) by { CallNeutral(c); }
    NeutralMeans(Ops(c));
  }

  lemma NeutralMeans(ops: seq<Op>)
    requires Neutral(ops, 0, {})
    ensures Held(ops, {}) == Some({})
  {
  }

  lemma CallNeutral(c: Call)
    ensures Neutral(Ops(c), 0, {})
  {
    hide Neutral, Section, Logs, Unloads, Interrupted, ForwardScheduling;
    var none: set<Lock> := {};
    LogsNeutral(1, 0, none);
    Nothing(0, none);
    AccessSection(ReadyList, 0, none);
    AccessSection(NewProcessFlag, 0, none);
    AccessSection(DiskRequests, 0, none);
    AccessSection(PrintRequests, 0, none);
    match c
    case Create =>
      NeutralSeq(Queue(), Logs(1), 0, none);
      NeutralSeq(Queue() + Logs(1), UpdateFlag(), 0, none);
    case TakeNew(s) =>
      InterruptedNeutral(s, 0, none);
      NeutralSeq(Interrupted(s), UpdateFlag(), 0, none);
    case ExecUnit(over) => LogsNeutral(0, 0, none);
    case AcquireSem(granted, s) =>
      InterruptedNeutral(s, 0, none);
      NeutralSeq(Logs(1), if granted then [] else Interrupted(s), 0, none);
    case ReleaseSem(waiter) =>
      NeutralSeq(Queue(), Logs(1), 0, none);
      NeutralSeq(Logs(1), if waiter then Queue() + Logs(1) else [], 0, none);
    case DiskRequisition(s) =>
      InterruptedNeutral(s, 0, none);
      NeutralSeq(Interrupted(s), Section(Disk, [Access(DiskRequests)]), 0, none);
    case PrintRequisition(s) =>
      InterruptedNeutral(s, 0, none);
      NeutralSeq(Interrupted(s), Section(Print, [Access(PrintRequests)]), 0, none);
    case Load(swaps, s) =>
      UnloadsNeutral(swaps);
      InterruptedNeutral(s, 0, none);
      LogsNeutral(4, 0, none);
      NeutralSeq(Logs(1), Unloads(swaps), 0, none);
      NeutralSeq(Logs(1) + Unloads(swaps), Interrupted(s), 0, none);
      NeutralSeq(Logs(1) + Unloads(swaps) + Interrupted(s), Logs(4), 0, none);
    case Quantum(s) => InterruptedNeutral(s, 0, none);
    case Finish(dispatched) =>
      UnloadsNeutral(0);
      ForwardNeutral(false, dispatched, 0, none);
      NeutralSeq(Logs(1), Unload(), 0, none);
      NeutralSeq(Logs(1) + Unload(), Queue(), 0, none);
      NeutralSeq(Logs(1) + Unload() + Queue(), ForwardScheduling(false, dispatched), 0, none);
    case ServeDisk(s) => ServeDiskNeutral(s);
    case ServePrint(s) =>
      InterruptedNeutral(s, 0, none);
      NeutralSeq(Logs(1), Queue(), 0, none);
      NeutralSeq(Logs(1) + Queue(), Section(Print, [Access(PrintRequests)]), 0, none);
      NeutralSeq(Logs(1) + Queue() + Section(Print, [Access(PrintRequests)]), Interrupted(s), 0, none);
  }

  lemma ServeDiskNeutral(s: Scene)
    ensures Neutral(Ops(ServeDisk(s)), 0, {})
  {
    hide Neutral, Section, Logs, Interrupted;
    var d := {Disk};
    LogsNeutral(1, 1, d);
    AccessSection(ReadyList, 1, d);
    AccessNeutral(DiskRequests, 1);
    InterruptedNeutral(s, 1, d);
    NeutralSeq(Logs(1), Queue(), 1, d);
    NeutralSeq(Logs(1) + Queue(), [Access(DiskRequests)], 1, d);
    NeutralSeq(Logs(1) + Queue() + [Access(DiskRequests)], Interrupted(s), 1, d);
    NeutralSection(Disk, Logs(1) + Queue() + [Access(DiskRequests)] + Interrupted(s), 0, {});
  }

  // ---------- what the calls change ----------

  /** The objects a sequence of operations changes, in order. */
  function Changes(ops: seq<Op>): seq<Shared> {
    if ops == [] then []
    else (match ops[0] case Access(o) => [o] case _ => []) + Changes(ops[1..])
  }

  lemma {:induction false} ChangesSeq(a: seq<Op>, b: seq<Op>)
    ensures Changes(a + b) == Changes(a) + Changes(b)
  {
    if a == [] {
      assert a + b == b;
    } else {
      assert (a + b)[1..] == a[1..] + b;
      ChangesSeq(a[1..], b);
    }
  }

  lemma ChangesSection(l: Lock, body: seq<Op>)
    ensures Changes(Section(l, body)) == Changes(body)
  {
    ChangesSeq([Acquire(l)] + body, [Release(l)]);
    ChangesSeq([Acquire(l)], body);
    assert Changes([Release(l)]) == [];
  }

  function Messages(n: nat): (r: seq<Shared>)
    ensures |r| == n
  {
    seq(n, _ => LogMessages)
  }

  lemma {:induction false} ChangesLogs(n: nat)
    ensures Changes(Logs(n)) == Messages(n)
  {
    if n > 0 {
      ChangesSection(Log, [Access(LogMessages)]);
      ChangesSeq(Section(Log, [Access(LogMessages)]), Logs(n - 1));
      ChangesLogs(n - 1);
      assert Changes([Access(LogMessages)]) == [LogMessages];
    }
  }

  lemma MessagesAdd(m: nat, n: nat)
    ensures Messages(m) + Messages(n) == Messages(m + n)
  {
  }

  lemma {:induction false} ChangesUnloads(n: nat)
    ensures Changes(Unload()) == Messages(5) && Changes(Unloads(n)) == Messages(5 * n)
  {
    hide Changes, Logs, Messages;
    ChangesLogs(1);
    ChangesLogs(4);
    ChangesSeq(Logs(1), Logs(4));
    MessagesAdd(1, 4);
    ChangesNothing();
    if n > 0 {
      ChangesUnloads(n - 1);
      ChangesSeq(Unload(), Unloads(n - 1));
      MessagesAdd(5, 5 * (n - 1));
    }
  }

  lemma ChangesNothing()
    ensures Changes([]) == Messages(0)
  {
  }

  function If(b: bool, s: seq<Shared>): seq<Shared> { if b then s else [] }

  lemma ChangesForward(requeued: bool, dispatched: bool)
    ensures Changes(ForwardScheduling(requeued, dispatched)) ==
      If(requeued, [ReadyList]) + [ReadyList, RunningProcess] + If(dispatched, [LogMessages])
  {
    var first := if requeued then [Access(ReadyList)] else [];
    var n := if dispatched then 1 else 0;
    var mid := [Access(ReadyList), Access(RunningProcess)];
    ChangesSection(Scheduler, first + mid + Logs(n));
    ChangesSeq(first + mid, Logs(n));
    ChangesSeq(first, mid);
    ChangesLogs(n);
    assert mid[1..] == [Access(RunningProcess)] && Changes(mid) == [ReadyList, RunningProcess];
    assert Changes(first) == If(requeued, [ReadyList]) && Messages(n) == If(dispatched, [LogMessages]);
  }

  /** What an interrupt changes: the status of the running process, the ready list twice if that
      process is queued again and else once, the running process, and a pending flag. */
  function ByInterrupt(s: Scene): seq<Shared> {
    If(s.running, [Interruption, LogMessages]) + If(s.running && s.midExec, [LogMessages])
    + (If(s.requeued, [ReadyList]) + [ReadyList, RunningProcess] + If(s.dispatched, [LogMessages]))
    + If(s.pending, [NewProcessFlag])
  }

  lemma ChangesInterrupt(s: Scene)
    ensures Changes(Interrupted(s)) == ByInterrupt(s)
  {
    hide ForwardScheduling;
    var mark := if s.running then [Access(Interruption)] else [];
    var n := if s.running then if s.midExec then 2 else 1 else 0;
    var forward := ForwardScheduling(s.requeued, s.dispatched);
    var flag := if s.pending then UpdateFlag() else [];
    ChangesSection(Interrupt, ProcessInterrupt(s));
    ChangesSeq(mark + Logs(n) + forward, flag);
    ChangesSeq(mark + Logs(n), forward);
    ChangesSeq(mark, Logs(n));
    ChangesLogs(n);
    ChangesForward(s.requeued, s.dispatched);
    ChangesSection(Process, [Access(NewProcessFlag)]);
    assert Changes([Access(NewProcessFlag)]) == [NewProcessFlag];
    assert Changes(mark) + Messages(n) ==
      If(s.running, [Interruption, LogMessages]) + If(s.running && s.midExec, [LogMessages]);
  }

  /** Which objects each call changes, in the order of the source. */
  function ChangedBy(c: Call): seq<Shared> {
    match c
    case Create => [ReadyList, LogMessages, NewProcessFlag]
    case TakeNew(s) => ByInterrupt(s) + [NewProcessFlag]
    case ExecUnit(over) => If(over, [LogMessages])
    case AcquireSem(granted, s) => [LogMessages] + If(!granted, ByInterrupt(s))
    case ReleaseSem(waiter) => [LogMessages] + If(waiter, [ReadyList, LogMessages])
    case DiskRequisition(s) => ByInterrupt(s) + [DiskRequests]
    case PrintRequisition(s) => ByInterrupt(s) + [PrintRequests]
    case Load(swaps, s) => Messages(1 + 5 * swaps) + ByInterrupt(s) + Messages(4)
    case Quantum(s) => ByInterrupt(s)
    case Finish(dispatched) => Messages(6) + [ReadyList, ReadyList, RunningProcess] + If(dispatched, [LogMessages])
    case ServeDisk(s) => [LogMessages, ReadyList, DiskRequests] + ByInterrupt(s)
    case ServePrint(s) => [LogMessages, ReadyList, PrintRequests] + ByInterrupt(s)
  }

  lemma SmallChanges()
    ensures Changes(Queue()) == [ReadyList] && Changes(UpdateFlag()) == [NewProcessFlag]
    ensures Changes(Section(Disk, [Access(DiskRequests)])) == [DiskRequests]
    ensures Changes(Section(Print, [Access(PrintRequests)])) == [PrintRequests]
    ensures Changes(Logs(1)) == [LogMessages] && Changes(Logs(0)) == [] && Changes(Logs(4)) == Messages(4)
    ensures Changes([]) == [] && Changes([Access(DiskRequests)]) == [DiskRequests]
  {
    ChangesSection(Scheduler, [Access(ReadyList)]);
    ChangesSection(Process, [Access(NewProcessFlag)]);
    ChangesSection(Disk, [Access(DiskRequests)]);
    ChangesSection(Print, [Access(PrintRequests)]);
    ChangesLogs(1);
    ChangesLogs(4);
    forall o ensures Changes([Access(o)]) == [o] {}
    assert Messages(1) == [LogMessages];
  }

  /** A call's operations make exactly those changes. */
  lemma CallsChange(c: Call)
    ensures Changes(Ops(c)) == ChangedBy(c)
  {
    hide Changes, Section, Logs, Unloads, Unload, Interrupted, ForwardScheduling, Queue, UpdateFlag, ByInterrupt;
    SmallChanges();
    match c
    case Create =>
      ChangesSeq(Queue() + Logs(1), UpdateFlag());
      ChangesSeq(Queue(), Logs(1));
    case TakeNew(s) =>
      ChangesInterrupt(s);
      ChangesSeq(Interrupted(s), UpdateFlag());
    case ExecUnit(over) =>
    case AcquireSem(granted, s) =>
      ChangesInterrupt(s);
      ChangesSeq(Logs(1), if granted then [] else Interrupted(s));
    case ReleaseSem(waiter) =>
      ChangesSeq(Logs(1), if waiter then Queue() + Logs(1) else []);
      ChangesSeq(Queue(), Logs(1));
    case DiskRequisition(s) =>
      ChangesInterrupt(s);
      ChangesSeq(Interrupted(s), Section(Disk, [Access(DiskRequests)]));
    case PrintRequisition(s) =>
      ChangesInterrupt(s);
      ChangesSeq(Interrupted(s), Section(Print, [Access(PrintRequests)]));
    case Load(swaps, s) => LoadChanges(swaps, s);
    case Quantum(s) => ChangesInterrupt(s);
    case Finish(dispatched) => FinishChanges(dispatched);
    case ServeDisk(s) =>
      ChangesInterrupt(s);
      ChangesSection(Disk, Logs(1) + Queue() + [Access(DiskRequests)] + Interrupted(s));
      ChangesSeq(Logs(1) + Queue() + [Access(DiskRequests)], Interrupted(s));
      ChangesSeq(Logs(1) + Queue(), [Access(DiskRequests)]);
      ChangesSeq(Logs(1), Queue());
    case ServePrint(s) =>
      ChangesInterrupt(s);
      ChangesSeq(Logs(1) + Queue() + Section(Print, [Access(PrintRequests)]), Interrupted(s));
      ChangesSeq(Logs(1) + Queue(), Section(Print, [Access(PrintRequests)]));
      ChangesSeq(Logs(1), Queue());
  }

  lemma LoadChanges(swaps: nat, s: Scene)
    ensures Changes(Ops(Load(swaps, s))) == ChangedBy(Load(swaps, s))
  {
    hide Changes, Logs, Unloads, Interrupted, ByInterrupt;
    SmallChanges();
    ChangesInterrupt(s);
    ChangesUnloads(swaps);
    ChangesSeq(Logs(1) + Unloads(swaps) + Interrupted(s), Logs(4));
    ChangesSeq(Logs(1) + Unloads(swaps), Interrupted(s));
    ChangesSeq(Logs(1), Unloads(swaps));
    assert [LogMessages] + Messages(5 * swaps) == Messages(1 + 5 * swaps);
  }

  lemma FinishChanges(dispatched: bool)
    ensures Changes(Ops(Finish(dispatched))) == ChangedBy(Finish(dispatched))
  {
    hide Changes, Logs, Unload, ForwardScheduling, Queue;
    SmallChanges();
    ChangesUnloads(0);
    ChangesForward(false, dispatched);
    ChangesSeq(Logs(1) + Unload() + Queue(), ForwardScheduling(false, dispatched));
    ChangesSeq(Logs(1) + Unload(), Queue());
    ChangesSeq(Logs(1), Unload());
    assert [LogMessages] + Messages(5) == Messages(6);
  }

  // ---------- where the sections begin and end ----------

  /** A sequence of operations without the log's. */
  function Plain(ops: seq<Op>): seq<Op> {
    if ops == [] then []
    else
      var log := ops[0] == Acquire(Log) || ops[0] == Release(Log) || ops[0] == Access(LogMessages);
      (if log then [] else [ops[0]]) + Plain(ops[1..])
  }

  lemma {:induction false} PlainSeq(a: seq<Op>, b: seq<Op>)
    ensures Plain(a + b) == Plain(a) + Plain(b)
  {
    if a == [] {
      assert a + b == b;
    } else {
      assert (a + b)[1..] == a[1..] + b;
      PlainSeq(a[1..], b);
    }
  }

  lemma PlainSection(l: Lock, body: seq<Op>)
    requires l != Log
    ensures Plain(Section(l, body)) == [Acquire(l)] + Plain(body) + [Release(l)]
  {
    PlainSeq([Acquire(l)] + body, [Release(l)]);
    PlainSeq([Acquire(l)], body);
    PlainOne(Acquire(l));
    PlainOne(Release(l));
  }

  lemma PlainOne(op: Op)
    requires op != Acquire(Log) && op != Release(Log) && op != Access(LogMessages)
    ensures Plain([op]) == [op] && Plain([]) == []
  {
    assert [op][1..] == [];
  }

  lemma {:induction false} PlainLogs(n: nat)
    ensures Plain(Logs(n)) == []
  {
    if n > 0 {
      var one := Section(Log, [Access(LogMessages)]);
      assert one[1..][1..] == [Release(Log)] && one[1..][1..][1..] == [];
      PlainSeq(one, Logs(n - 1));
      PlainLogs(n - 1);
    }
  }

  lemma NoLogs()
    ensures Logs(0) == []
  {
  }

  lemma {:induction false} PlainUnloads(n: nat)
    ensures Plain(Unload()) == [] && Plain(Unloads(n)) == []
  {
    hide Plain, Logs;
    PlainLogs(0);
    PlainLogs(1);
    PlainLogs(4);
    PlainSeq(Logs(1), Logs(4));
    assert Logs(0) == [] by { NoLogs(); }
    if n > 0 {
      PlainUnloads(n - 1);
      PlainSeq(Unload(), Unloads(n - 1));
    }
  }

  function Only(b: bool, ops: seq<Op>): seq<Op> { if b then ops else [] }

  function OnReadyList(): seq<Op> { [Acquire(Scheduler), Access(ReadyList), Release(Scheduler)] }

  function OnFlag(): seq<Op> { [Acquire(Process), Access(NewProcessFlag), Release(Process)] }

  /** forward_scheduling is one section: nobody gets in between the requeue, the pop and the
      dispatch. */
  function OneForward(requeued: bool): seq<Op> {
    [Acquire(Scheduler)] + Only(requeued, [Access(ReadyList)])
    + [Access(ReadyList), Access(RunningProcess), Release(Scheduler)]
  }

  /** So is an interrupt: the status change, the scheduling and the flag are one section of the
      interrupt lock. */
  function OneInterrupt(s: Scene): seq<Op> {
    [Acquire(Interrupt)] + Only(s.running, [Access(Interruption)]) + OneForward(s.requeued)
    + Only(s.pending, OnFlag()) + [Release(Interrupt)]
  }

  /** The sections of each call and what stands in them, in the order of the source, without the
      log's. */
  function Sections(c: Call): seq<Op> {
    match c
    case Create => OnReadyList() + OnFlag()
    case TakeNew(s) => OneInterrupt(s) + OnFlag()
    case ExecUnit(_) => []
    case AcquireSem(granted, s) => Only(!granted, OneInterrupt(s))
    case ReleaseSem(waiter) => Only(waiter, OnReadyList())
    case DiskRequisition(s) => OneInterrupt(s) + [Acquire(Disk), Access(DiskRequests), Release(Disk)]
    case PrintRequisition(s) => OneInterrupt(s) + [Acquire(Print), Access(PrintRequests), Release(Print)]
    case Load(_, s) => OneInterrupt(s)
    case Quantum(s) => OneInterrupt(s)
    case Finish(_) => OnReadyList() + OneForward(false)
    case ServeDisk(s) =>
      [Acquire(Disk)] + OnReadyList() + [Access(DiskRequests)] + OneInterrupt(s) + [Release(Disk)]
    case ServePrint(s) =>
      OnReadyList() + [Acquire(Print), Access(PrintRequests), Release(Print)] + OneInterrupt(s)
  }

  lemma SmallPlain()
    ensures Plain(Queue()) == OnReadyList() && Plain(UpdateFlag()) == OnFlag()
    ensures Plain(Section(Disk, [Access(DiskRequests)])) == [Acquire(Disk), Access(DiskRequests), Release(Disk)]
    ensures Plain(Section(Print, [Access(PrintRequests)])) == [Acquire(Print), Access(PrintRequests), Release(Print)]
    ensures Plain(Logs(1)) == Plain(Logs(0)) == Plain(Logs(4)) == [] == Plain([])
    ensures Plain([Access(DiskRequests)]) == [Access(DiskRequests)]
  {
    hide Plain, Logs;
    PlainSection(Scheduler, [Access(ReadyList)]);
    PlainSection(Process, [Access(NewProcessFlag)]);
    PlainSection(Disk, [Access(DiskRequests)]);
    PlainSection(Print, [Access(PrintRequests)]);
    PlainOne(Access(ReadyList));
    PlainOne(Access(NewProcessFlag));
    PlainOne(Access(DiskRequests));
    PlainOne(Access(PrintRequests));
    PlainLogs(0);
    PlainLogs(1);
    PlainLogs(4);
  }

  lemma PlainForward(requeued: bool, dispatched: bool)
    ensures Plain(ForwardScheduling(requeued, dispatched)) == OneForward(requeued)
  {
    hide Plain, Logs, Section;
    var first := if requeued then [Access(ReadyList)] else [];
    var mid := [Access(ReadyList), Access(RunningProcess)];
    var n := if dispatched then 1 else 0;
    PlainSection(Scheduler, first + mid + Logs(n));
    PlainSeq(first + mid, Logs(n));
    PlainSeq(first, mid);
    PlainLogs(n);
    PlainOne(Access(ReadyList));
    PlainOne(Access(RunningProcess));
    PlainSeq([Access(ReadyList)], [Access(RunningProcess)]);
    assert [Access(ReadyList)] + [Access(RunningProcess)] == mid;
  }

  lemma PlainInside(s: Scene)
    ensures Plain(ProcessInterrupt(s)) ==
      Only(s.running, [Access(Interruption)]) + OneForward(s.requeued) + Only(s.pending, OnFlag())
  {
    hide Plain, ForwardScheduling, Logs, OneForward, UpdateFlag, OnFlag;
    var mark := if s.running then [Access(Interruption)] else [];
    var n := if s.running then if s.midExec then 2 else 1 else 0;
    var forward := ForwardScheduling(s.requeued, s.dispatched);
    var flag := if s.pending then UpdateFlag() else [];
    SmallPlain();
    PlainSeq(mark + Logs(n) + forward, flag);
    PlainSeq(mark + Logs(n), forward);
    PlainSeq(mark, Logs(n));
    PlainLogs(n);
    PlainForward(s.requeued, s.dispatched);
    PlainOne(Access(Interruption));
  }

  lemma PlainInterrupt(s: Scene)
    ensures Plain(Interrupted(s)) == OneInterrupt(s)
  {
    hide Plain, Section, ProcessInterrupt, OneForward, OnFlag, Only;
    PlainSection(Interrupt, ProcessInterrupt(s));
    PlainInside(s);
    var body := Only(s.running, [Access(Interruption)]) + OneForward(s.requeued) + Only(s.pending, OnFlag());
    assert [Acquire(Interrupt)] + body + [Release(Interrupt)] == OneInterrupt(s);
  }

  /** A call's operations stand in exactly those sections. */
  lemma CallsSections(c: Call)
    ensures Plain(Ops(c)) == Sections(c)
  {
    hide Plain, Section, Logs, Unloads, Unload, Interrupted, ForwardScheduling, Queue, UpdateFlag, OneInterrupt,
      OneForward, OnReadyList, OnFlag;
    SmallPlain();
    match c
    case Create =>
      PlainSeq(Queue() + Logs(1), UpdateFlag());
      PlainSeq(Queue(), Logs(1));
    case TakeNew(s) =>
      PlainInterrupt(s);
      PlainSeq(Interrupted(s), UpdateFlag());
    case ExecUnit(over) =>
    case AcquireSem(granted, s) =>
      PlainInterrupt(s);
      PlainSeq(Logs(1), if granted then [] else Interrupted(s));
    case ReleaseSem(waiter) =>
      PlainSeq(Logs(1), if waiter then Queue() + Logs(1) else []);
      PlainSeq(Queue(), Logs(1));
    case DiskRequisition(s) =>
      PlainInterrupt(s);
      PlainSeq(Interrupted(s), Section(Disk, [Access(DiskRequests)]));
    case PrintRequisition(s) =>
      PlainInterrupt(s);
      PlainSeq(Interrupted(s), Section(Print, [Access(PrintRequests)]));
    case Load(swaps, s) =>
      PlainInterrupt(s);
      PlainUnloads(swaps);
      PlainSeq(Logs(1) + Unloads(swaps) + Interrupted(s), Logs(4));
      PlainSeq(Logs(1) + Unloads(swaps), Interrupted(s));
      PlainSeq(Logs(1), Unloads(swaps));
    case Quantum(s) => PlainInterrupt(s);
    case Finish(dispatched) =>
      PlainUnloads(0);
      PlainForward(false, dispatched);
      PlainSeq(Logs(1) + Unload() + Queue(), ForwardScheduling(false, dispatched));
      PlainSeq(Logs(1) + Unload(), Queue());
      PlainSeq(Logs(1), Unload());
    case ServeDisk(s) => PlainServeDisk(s);
    case ServePrint(s) =>
      PlainInterrupt(s);
      PlainSeq(Logs(1) + Queue() + Section(Print, [Access(PrintRequests)]), Interrupted(s));
      PlainSeq(Logs(1) + Queue(), Section(Print, [Access(PrintRequests)]));
      PlainSeq(Logs(1), Queue());
  }

  lemma PlainServeDisk(s: Scene)
    ensures Plain(Ops(ServeDisk(s))) == Sections(ServeDisk(s))
  {
    hide Plain, Section, Logs, Interrupted, Queue, OneInterrupt, OnReadyList;
    SmallPlain();
    PlainInterrupt(s);
    PlainSection(Disk, Logs(1) + Queue() + [Access(DiskRequests)] + Interrupted(s));
    PlainSeq(Logs(1) + Queue() + [Access(DiskRequests)], Interrupted(s));
    PlainSeq(Logs(1) + Queue(), [Access(DiskRequests)]);
    PlainSeq(Logs(1), Queue());
  }

  // ---------- interleavings ----------

  /** A thread: the operations left of its current call and the locks it holds. */
  datatype Thread = Thread(todo: seq<Op>, held: set<Lock>)

  /** Thread `i` starts a call, or carries out its next operation. */
  datatype Event = Start(i: nat, call: Call) | Advance(i: nat)

  ghost predicate Free(ts: seq<Thread>, l: Lock) {
    forall j :: 0 <= j < |ts| ==> l !in ts[j].held
  }

  /** An idle thread may start any call; a wait passes only when nobody holds the lock. */
  ghost predicate CanDo(ts: seq<Thread>, e: Event) {
    e.i < |ts| &&
    match e
    case Start(i, c) => ts[i].todo == []
    case Advance(i) => ts[i].todo != [] && (ts[i].todo[0].Acquire? ==> Free(ts, ts[i].todo[0].lock))
  }

  function Done(t: Thread): Thread
    requires t.todo != []
  {
    match t.todo[0]
    case Acquire(l) => Thread(t.todo[1..], t.held + {l})
    case Release(l) => Thread(t.todo[1..], t.held - {l})
    case Access(_) => Thread(t.todo[1..], t.held)
  }

  function Do(ts: seq<Thread>, e: Event): seq<Thread>
    requires CanDo(ts, e)
  {
    match e
    case Start(i, c) => ts[i := Thread(Ops(c), ts[i].held)]
    case Advance(i) => ts[i := Done(ts[i])]
  }

  /** No lock is held twice, and every thread is on its way to holding none. */
  ghost predicate Safe(ts: seq<Thread>) {
    && (forall i, j :: 0 <= i < j < |ts| ==> ts[i].held !! ts[j].held)
    && (forall i :: 0 <= i < |ts| ==> Held(ts[i].todo, ts[i].held) == Some({}))
  }

  lemma SafeStep(ts: seq<Thread>, e: Event)
    requires Safe(ts) && CanDo(ts, e)
    ensures Safe(Do(ts, e))
  {
    hide Ops;
    match e
    case Start(i, c) =>
      CallsOrdered(c);
    case Advance(i) =>
      assert Held(ts[i].todo, ts[i].held) == Some({});
  }

  /** A busy thread leads to one that can go on: it waits for a lock, whose holder waits, if at
      all, for one of a higher rank. */
  lemma {:induction false} SomebodyMoves(ts: seq<Thread>, i: nat) returns (k: nat)
    requires Safe(ts) && i < |ts| && ts[i].todo != []
    ensures CanDo(ts, Advance(k))
    decreases if ts[i].todo[0].Acquire? then 4 - Rank(ts[i].todo[0].lock) else 0
  {
    k := i;
    if !CanDo(ts, Advance(i)) {
      var l := ts[i].todo[0].lock;
      var j :| 0 <= j < |ts| && l in ts[j].held;
      assert Held(ts[j].todo, ts[j].held) == Some({});
      k := SomebodyMoves(ts, j);
    }
  }

  // ---------- whole runs ----------

  ghost predicate CanRun(ts: seq<Thread>, run: seq<Event>)
    decreases |run|
  {
    run == [] || (CanDo(ts, run[0]) && CanRun(Do(ts, run[0]), run[1..]))
  }

  function After(ts: seq<Thread>, run: seq<Event>): seq<Thread>
    requires CanRun(ts, run)
    decreases |run|
  {
    if run == [] then ts else After(Do(ts, run[0]), run[1..])
  }

  lemma {:induction false} SafeRun(ts: seq<Thread>, run: seq<Event>)
    requires Safe(ts) && CanRun(ts, run)
    ensures Safe(After(ts, run)) && |After(ts, run)| == |ts|
    decreases |run|
  {
    if run != [] {
      SafeStep(ts, run[0]);
      SafeRun(Do(ts, run[0]), run[1..]);
    }
  }

  /** Mutual exclusion and deadlock freedom: after any run of any number of threads that start
      without locks, two threads never hold the same lock, and unless all threads are between
      calls, one of those inside a call can go on. */
  lemma NoDeadlock(n: nat, run: seq<Event>, i: nat)
    requires CanRun(seq(n, _ => Thread([], {})), run) && i < n
    ensures var ts := After(seq(n, _ => Thread([], {})), run);
      && |ts| == n
      && (forall j, l :: 0 <= j < n && j != i && l in ts[i].held ==> l !in ts[j].held)
      && (ts[i].todo == [] ==> ts[i].held == {})
      && (ts[i].todo != [] ==> exists k :: CanDo(ts, Advance(k)))
  {
    var start := seq(n, _ => Thread([], {}));
    SafeRun(start, run);
    var ts := After(start, run);
    forall j, l | 0 <= j < n && j != i && l in ts[i].held ensures l !in ts[j].held {
      assert if i < j then ts[i].held !! ts[j].held else ts[j].held !! ts[i].held;
    }
    assert Held(ts[i].todo, ts[i].held) == Some({});
    if ts[i].todo != [] { var k := SomebodyMoves(ts, i); }
  }

  /** The next operation of a thread changes the object. */
  predicate At(t: Thread, o: Shared) { t.todo != [] && t.todo[0] == Access(o) }

  /** In every interleaving of any number of threads, a thread at a change of an object holds the
      lock of that object, and no two threads are at changes of one object together. */
  lemma ChangesExclude(n: nat, run: seq<Event>, i: nat, j: nat, o: Shared)
    requires CanRun(seq(n, _ => Thread([], {})), run) && i < n && j < n && i != j
    ensures var ts := After(seq(n, _ => Thread([], {})), run);
      && |ts| == n
      && (At(ts[i], o) ==> Guard(o) in ts[i].held)
      && !(At(ts[i], o) && At(ts[j], o))
  {
    var start := seq(n, _ => Thread([], {}));
    SafeRun(start, run);
    var ts := After(start, run);
    assert Held(ts[i].todo, ts[i].held) == Some({}) && Held(ts[j].todo, ts[j].held) == Some({});
    assert if i < j then ts[i].held !! ts[j].held else ts[j].held !! ts[i].held;
  }

  /** Which lock that is. */
  lemma ChangesUnderLock(n: nat, run: seq<Event>, i: nat)
    requires CanRun(seq(n, _ => Thread([], {})), run) && i < n
    ensures var ts := After(seq(n, _ => Thread([], {})), run);
      && |ts| == n
      && (At(ts[i], ReadyList) || At(ts[i], RunningProcess) ==> Scheduler in ts[i].held)
      && (At(ts[i], NewProcessFlag) ==> Process in ts[i].held)
      && (At(ts[i], DiskRequests) ==> Disk in ts[i].held)
      && (At(ts[i], PrintRequests) ==> Print in ts[i].held)
      && (At(ts[i], LogMessages) ==> Log in ts[i].held)
      && (At(ts[i], Interruption) ==> Interrupt in ts[i].held)
  {
    var start := seq(n, _ => Thread([], {}));
    SafeRun(start, run);
    var ts := After(start, run);
    assert Held(ts[i].todo, ts[i].held) == Some({});
  }

  /** The lock operations and changes left. */
  function Left(ts: seq<Thread>): nat { Sum(ts, (t: Thread) => |t.todo|) }

  /** Without new calls, every interleaving is over after exactly the operations left: however
      the threads are scheduled, a run that cannot go on has completed all their calls. */
  lemma {:induction false} CallsComplete(ts: seq<Thread>, run: seq<Event>)
    requires Safe(ts) && CanRun(ts, run) && forall k :: 0 <= k < |run| ==> run[k].Advance?
    ensures |run| + Left(After(ts, run)) == Left(ts)
    ensures |run| == Left(ts) <==> forall k :: !CanDo(After(ts, run), Advance(k))
    decreases |run|
  {
    if run == [] {
      if Left(ts) == 0 {
        forall k ensures !CanDo(ts, Advance(k)) {
          if CanDo(ts, Advance(k)) { SumRemove(ts, k, (t: Thread) => |t.todo|); }
        }
      } else {
        var i := Busy(ts);
        var k := SomebodyMoves(ts, i);
      }
    } else {
      SafeStep(ts, run[0]);
      SumUpdate(ts, run[0].i, Done(ts[run[0].i]), (t: Thread) => |t.todo|);
      CallsComplete(Do(ts, run[0]), run[1..]);
    }
  }

  lemma {:induction false} Busy(ts: seq<Thread>) returns (i: nat)
    requires Left(ts) > 0
    ensures i < |ts| && ts[i].todo != []
  {
    if ts[0].todo != [] { i := 0; } else {
      i := Busy(ts[1..]);
      i := i + 1;
    }
  }
}
