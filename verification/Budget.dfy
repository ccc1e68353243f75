/** The budget of one run: deltas are reserved before a resize, then committed or released. */
module Budget {
  import opened Resources

  datatype Ledger = Ledger(committed: Delta, reserved: Delta, maxCPU: int, maxMem: int) {
    /** Only a positive maximum limits anything. */
    predicate Admits(add: Delta) {
      && (maxCPU > 0 ==> committed.cpu + reserved.cpu + add.cpu <= maxCPU)
      && (maxMem > 0 ==> committed.memory + reserved.memory + add.memory <= maxMem)
    }

    function Reserve(add: Delta): Ledger {
      this.(reserved := reserved.Plus(add))
    }

    function Release(add: Delta): Ledger {
      this.(reserved := reserved.Minus(add))
    }

    function Commit(add: Delta): Ledger {
      this.(reserved := reserved.Minus(add), committed := committed.Plus(add))
    }

    /** Committed and reserved together stay within the maximum plus the given allowance. */
    predicate Within(allowance: Delta) {
      && (maxCPU > 0 ==> committed.cpu + reserved.cpu <= maxCPU + allowance.cpu)
      && (maxMem > 0 ==> committed.memory + reserved.memory <= maxMem + allowance.memory)
    }
  }

  /** What is committed of one resource stays within its maximum, and so does what is committed and reserved together.
      Neither implies the other, because a reservation can be negative. */
  predicate Holds(l: Ledger, name: ResourceName) {
    var most := MaxOf(l.maxCPU, l.maxMem, name);
    most > 0 ==> l.committed.Of(name) <= most && l.committed.Of(name) + l.reserved.Of(name) <= most
  }

  /** The same for both resources. */
  predicate HoldsAll(l: Ledger) { Holds(l, CPU) && Holds(l, Memory) }

  function MaxOf(maxCPU: int, maxMem: int, name: ResourceName): int {
    if name == CPU then maxCPU else maxMem
  }

  /** What a released reservation gives back when it was negative. */
  function Refund(d: Delta): Delta {
    Delta(if d.cpu < 0 then -d.cpu else 0, if d.memory < 0 then -d.memory else 0)
  }

  /** The mutex-guarded budget of the controller. Each method is one critical section. */
  class BudgetManager {
    var committed: Delta
    var reserved: Delta
    const maxCPUm: int
    const maxMemB: int

    function View(): Ledger
      reads this
    {
      Ledger(committed, reserved, maxCPUm, maxMemB)
    }

    constructor (maxCPUm: int, maxMemB: int)
      ensures View() == Ledger(ZERO_DELTA, ZERO_DELTA, maxCPUm, maxMemB)
    {
      committed, reserved := ZERO_DELTA, ZERO_DELTA;
      this.maxCPUm, this.maxMemB := maxCPUm, maxMemB;
    }

    method TryReserve(add: Delta) returns (ok: bool)
      modifies this
      ensures ok == old(View()).Admits(add)
      ensures View() == if ok then old(View()).Reserve(add) else old(View())
      ensures ok <==> && (maxCPUm > 0 ==> old(committed.cpu + reserved.cpu) + add.cpu <= maxCPUm)
                      && (maxMemB > 0 ==> old(committed.memory + reserved.memory) + add.memory <= maxMemB)
    {
      var nextCPU := committed.cpu + reserved.cpu + add.cpu;
      var nextMem := committed.memory + reserved.memory + add.memory;
      if maxCPUm > 0 && nextCPU > maxCPUm {
        return false;
      }
      if maxMemB > 0 && nextMem > maxMemB {
        return false;
      }
      reserved := Delta(reserved.cpu + add.cpu, reserved.memory + add.memory);
      return true;
    }

    method Release(add: Delta)
      modifies this
      ensures View() == old(View()).Release(add)
    {
      reserved := Delta(reserved.cpu - add.cpu, reserved.memory - add.memory);
    }

    method Commit(add: Delta)
      modifies this
      ensures View() == old(View()).Commit(add)
    {
      reserved := Delta(reserved.cpu - add.cpu, reserved.memory - add.memory);
      committed := Delta(committed.cpu + add.cpu, committed.memory + add.memory);
    }
  }
}
