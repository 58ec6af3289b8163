/** The records that the simulator updates in place, and the circular scan over segments. */
module Records {
  import opened Seqs
  import opened SecondChance
  import Scheduler
  import Machine

  /** memory.h's Segment; `program` and `units` are history. */
  class Segment {
    const id: int
    const idProcess: nat
    const numPages: nat
    ghost const program: seq<Machine.Instr>
    var exec: int
    var instructions: seq<Machine.Instr>
    var presentBit: bool
    var usedBit: bool
    ghost var units: int

    constructor (id: int, idProcess: nat, numPages: nat, instructions: seq<Machine.Instr>)
      ensures this.id == id && this.idProcess == idProcess && this.numPages == numPages
      ensures this.instructions == instructions && program == instructions
      ensures exec == units == 0 && !presentBit && !usedBit
    {
      this.id, this.idProcess, this.numPages := id, idProcess, numPages;
      this.instructions, program, exec, units := instructions, instructions, 0, 0;
      presentBit, usedBit := false, false;
    }
  }

  /** process.h's Process; `since` and `held` are history. */
  class Process {
    const id: nat
    const priority: int
    const segment: Segment
    var status: Scheduler.Status
    var remainingTime: int
    var pc: nat
    ghost var since: nat
    ghost var held: set<char>

    constructor (id: nat, priority: int, segment: Segment)
      ensures this.id == id && this.priority == priority && this.segment == segment
      ensures status == Scheduler.Ready && remainingTime == pc == since == 0 && held == {}
    {
      this.id, this.priority, this.segment := id, priority, segment;
      status, remainingTime, pc, since, held := Scheduler.Ready, 0, 0, 0, {};
    }
  }

  /** semaphore.h's Semaphore; no owner stands for owner_id -1. */
  class Semaphore {
    const name: char
    var owner: Option<nat>
    var waiting: seq<Process>

    constructor (name: char)
      ensures this.name == name && owner == None && waiting == []
    {
      this.name, owner, waiting := name, None, [];
    }
  }

  datatype DiskRequest = DiskRequest(process: Process, track: int)

  datatype PrintRequest = PrintRequest(id: nat, process: Process, time: int)

  function Ids(s: seq<Process>): (r: seq<nat>)
    ensures |r| == |s| && forall i :: 0 <= i < |s| ==> r[i] == s[i].id
  {
    seq(|s|, i requires 0 <= i < |s| => s[i].id)
  }

  function Owners(s: seq<Segment>): (r: seq<nat>)
    ensures |r| == |s| && forall i :: 0 <= i < |s| ==> r[i] == s[i].idProcess
  {
    seq(|s|, i requires 0 <= i < |s| => s[i].idProcess)
  }

  function Bits(list: seq<Segment>): (r: seq<bool>)
    reads list
    ensures |r| == |list| && forall i :: 0 <= i < |list| ==> r[i] == list[i].usedBit
  {
    seq(|list|, i requires 0 <= i < |list| reads list => list[i].usedBit)
  }

  /** The circular search of swap_segment from node `start`: it inspects one segment more than
      it skips, so at most |list| + 1, and touches nothing but the used bits. */
  method Scan(list: seq<Segment>, start: nat) returns (victim: nat, inspections: nat)
    requires start < |list| && Distinct(list)
    modifies list`usedBit
    ensures victim == Victim(old(Bits(list)), start)
    ensures Bits(list) == Cleared(old(Bits(list)), start)
    ensures inspections == Skips(old(Bits(list)), start) + 1 <= |list| + 1
  {
    hide Bits, Skips, ClearedUpTo, Around, Distinct;
    ghost var bits, n := Bits(list), |list|;
    victim, inspections := start, 1;
    WalkStarts(bits, start);
    while list[victim].usedBit
      invariant 1 <= inspections <= Skips(bits, start) + 1 && victim == Around(n, start, inspections - 1)
      invariant Bits(list) == ClearedUpTo(bits, start, inspections - 1)
      decreases n + 1 - inspections
    {
      Inspect(bits, start, inspections - 1);
      WalkGoesOn(n, start, inspections - 1);
      Skip(list, victim);
      victim := if victim + 1 < |list| then victim + 1 else 0;
      inspections := inspections + 1;
    }
    Inspect(bits, start, inspections - 1);
  }

  /** A second chance for the segment at `i`. */
  method Skip(list: seq<Segment>, i: nat)
    requires i < |list| && Distinct(list)
    modifies list`usedBit
    ensures Bits(list) == old(Bits(list))[i := false]
  {
    list[i].usedBit := false;
  }
}
