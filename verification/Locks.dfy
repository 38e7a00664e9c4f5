/** Exclusive session locks, shared by every orchestrator process on the machine. */
module Locks {
  import opened Base
  import opened State

  // The lock file of a session; its path is a hash of exactly this pair.
  datatype LockKey = LockKey(provider: Provider, session: string)

  /** Who holds which lock, by process. */
  type Table = map<LockKey, nat>

  datatype AcquireOutcome = AcquireOutcome(table: Table, error: Option<Error>)

  /** Try-lock: a held lock refuses everyone, its own holder included. */
  function Acquire(table: Table, me: nat, key: LockKey, fault: Option<Fault>): AcquireOutcome
  {
    if fault.Some? then AcquireOutcome(table, Some(fault.value))
    else if key in table then AcquireOutcome(table, Some(SessionLocked))
    else AcquireOutcome(table[key := me], None)
  }

  function Release(table: Table, key: LockKey): Table
  {
    table - {key}
  }

  class LockTable {
    var held: Table

    constructor (table: Table)
      ensures held == table
    {
      held := table;
    }

    method Absorb(table: Table)
      modifies this
      ensures held == table
    {
      held := table;
    }

    method TryAcquire(me: nat, key: LockKey, fault: Option<Fault>) returns (error: Option<Error>)
      modifies this
      ensures AcquireOutcome(held, error) == Acquire(old(held), me, key, fault)
      ensures error.None? <==> fault.None? && key !in old(held)
      ensures error.None? ==> key in held && held[key] == me && Release(held, key) == old(held)
      ensures error.Some? ==> held == old(held)
    {
      if fault.Some? {
        return Some(fault.value);
      }
      if key in held {
        return Some(SessionLocked);
      }
      held := held[key := me];
      return None;
    }

    method Drop(key: LockKey)
      modifies this
      ensures held == Release(old(held), key)
      ensures key !in held
      ensures forall k :: k != key && k in old(held) ==> k in held && held[k] == old(held)[k]
    {
      held := held - {key};
    }
  }
}
