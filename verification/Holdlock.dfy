/** The Redis contention filter: one key per seat, set if absent, deleted only by
    its owner. It may be unreachable at any call. */
module Holdlock {
  import opened Wrappers
  import opened EventSeats

  datatype LockError = Unavailable

  class Lock {
    var owners: map<Key, HoldId>

    constructor ()
      ensures owners == map[]
    {
      owners := map[];
    }

    method Acquire(k: Key, hold: HoldId, down: bool) returns (r: Result<bool, LockError>)
      modifies this
      ensures r == if down then Err(Unavailable) else Ok(k !in old(owners))
      ensures owners == if r == Ok(true) then old(owners)[k := hold] else old(owners)
    {
      if down { return Err(Unavailable); }
      if k in owners { return Ok(false); }
      owners := owners[k := hold];
      return Ok(true);
    }

    method Release(k: Key, hold: HoldId, down: bool) returns (r: Result<bool, LockError>)
      modifies this
      ensures r == if down then Err(Unavailable) else Ok(k in old(owners) && old(owners)[k] == hold)
      ensures owners == if r == Ok(true) then old(owners) - {k} else old(owners)
    {
      if down { return Err(Unavailable); }
      if k in owners && owners[k] == hold {
        owners := owners - {k};
        return Ok(true);
      }
      return Ok(false);
    }
  }
}
