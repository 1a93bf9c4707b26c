// The seat locks in Redis: three Lua scripts over keys with a deadline.
module RedisLock {
  import opened Domain

  datatype Entry = Entry(owner: Owner, deadline: Time)
  type Keyspace = map<SeatRef, Entry>

  // A key written with a time to live of n is visible while less than n has passed.
  predicate IsLive(data: Keyspace, key: SeatRef, now: Time) {
    key in data && now < data[key].deadline
  }

  predicate Owns(data: Keyspace, key: SeatRef, owner: Owner, now: Time) {
    IsLive(data, key, now) && data[key].owner == owner
  }

  // What clients can see: the keys that have not expired.
  function Live(data: Keyspace, now: Time): map<SeatRef, Owner> {
    map k | k in data && now < data[k].deadline :: data[k].owner
  }

  predicate AllFree(data: Keyspace, keys: seq<SeatRef>, now: Time) {
    forall k :: k in keys ==> !IsLive(data, k, now)
  }

  predicate AllOwned(data: Keyspace, keys: seq<SeatRef>, owner: Owner, now: Time) {
    forall k :: k in keys ==> Owns(data, k, owner, now)
  }

  function WriteAll(data: Keyspace, keys: seq<SeatRef>, e: Entry): Keyspace {
    data + map k | k in keys :: e
  }

  function Acquired(data: Keyspace, keys: seq<SeatRef>, owner: Owner, now: Time, ttl: Time): Keyspace {
    if AllFree(data, keys, now) then WriteAll(data, keys, Entry(owner, now + ttl)) else data
  }

  function OwnedAmong(data: Keyspace, keys: seq<SeatRef>, owner: Owner, now: Time): set<SeatRef> {
    set k | k in keys && Owns(data, k, owner, now)
  }

  function Freed(data: Keyspace, keys: seq<SeatRef>, owner: Owner, now: Time): Keyspace {
    data - OwnedAmong(data, keys, owner, now)
  }

  lemma WriteNext(data: Keyspace, keys: seq<SeatRef>, i: nat, e: Entry)
    requires i < |keys|
    ensures WriteAll(data, keys[..i], e)[keys[i] := e] == WriteAll(data, keys[..i + 1], e)
  {
    assert keys[..i + 1] == keys[..i] + [keys[i]];
  }

  datatype Reply = Granted | Refused(key: SeatRef)

  class Redis {
    var data: Keyspace
    var now: Time

    constructor (now: Time)
      ensures data == map[] && this.now == now
    {
      data := map[];
      this.now := now;
    }

    // acquireScript: refuse at the first key that exists, otherwise write them all.
    method Acquire(keys: seq<SeatRef>, owner: Owner, ttl: Time) returns (reply: Reply)
      requires ttl > 0
      modifies `data
      ensures data == Acquired(old(data), keys, owner, now, ttl)
      ensures reply.Granted? <==> AllFree(old(data), keys, now)
      ensures reply.Granted? ==> AllOwned(data, keys, owner, now)
      ensures reply.Refused? ==> data == old(data) && IsLive(data, reply.key, now)
      ensures reply.Refused? ==> exists i :: 0 <= i < |keys| && keys[i] == reply.key && AllFree(data, keys[..i], now)
    {
      for i := 0 to |keys|
        invariant data == old(data)
        invariant AllFree(data, keys[..i], now)
      {
        if IsLive(data, keys[i], now) {
          return Refused(keys[i]);
        }
      }
      ghost var e := Entry(owner, now + ttl);
      for i := 0 to |keys|
        invariant data == WriteAll(old(data), keys[..i], e)
      {
        WriteNext(old(data), keys, i, e);
        data := data[keys[i] := Entry(owner, now + ttl)];
      }
      assert keys[..|keys|] == keys;
      return Granted;
    }

    // verifyScript: refuse at the first key that does not hold the value.
    method Verify(keys: seq<SeatRef>, owner: Owner) returns (reply: Reply)
      ensures reply.Granted? <==> AllOwned(data, keys, owner, now)
      ensures reply.Refused? ==> !Owns(data, reply.key, owner, now)
      ensures reply.Refused? ==>
        exists i :: 0 <= i < |keys| && keys[i] == reply.key && AllOwned(data, keys[..i], owner, now)
    {
      for i := 0 to |keys|
        invariant AllOwned(data, keys[..i], owner, now)
      {
        if !Owns(data, keys[i], owner, now) {
          return Refused(keys[i]);
        }
      }
      return Granted;
    }

    // releaseScript: delete the keys that hold the value, and count them.
    method Release(keys: seq<SeatRef>, owner: Owner) returns (released: nat)
      modifies `data
      ensures data == Freed(old(data), keys, owner, now)
      ensures released == |OwnedAmong(old(data), keys, owner, now)|
    {
      released := 0;
      ghost var was := data;
      for i := 0 to |keys|
        invariant data == Freed(was, keys[..i], owner, now)
        invariant released == |OwnedAmong(was, keys[..i], owner, now)|
      {
        ghost var next := OwnedAmong(was, keys[..i + 1], owner, now);
        if Owns(data, keys[i], owner, now) {
          assert next == OwnedAmong(was, keys[..i], owner, now) + {keys[i]};
          data := data - {keys[i]};
          released := released + 1;
        } else {
          assert next == OwnedAmong(was, keys[..i], owner, now);
        }
      }
      assert keys[..|keys|] == keys;
    }
  }

  // Undoing a granted acquisition leaves every client's view as it was.
  lemma ReleaseUndoesAcquire(data: Keyspace, keys: seq<SeatRef>, owner: Owner, now: Time, ttl: Time)
    requires AllFree(data, keys, now)
    ensures Live(Freed(Acquired(data, keys, owner, now, ttl), keys, owner, now), now) == Live(data, now)
  {
  }

  // A release by one owner leaves every key of every other owner alone, and none of its own behind.
  lemma ReleaseIsOwnershipSafe(data: Keyspace, keys: seq<SeatRef>, owner: Owner, now: Time)
    ensures forall k, o :: o != owner ==> (Owns(Freed(data, keys, owner, now), k, o, now) <==> Owns(data, k, o, now))
    ensures forall k :: k in keys ==> !Owns(Freed(data, keys, owner, now), k, owner, now)
  {
  }

  // Two acquisitions of overlapping key lists cannot both be granted while the first is live.
  lemma AcquireExcludes(data: Keyspace, keys: seq<SeatRef>, others: seq<SeatRef>, a: Owner, b: Owner,
                        now: Time, later: Time, ttl: Time)
    requires AllFree(data, keys, now) && now <= later < now + ttl
    requires exists k :: k in keys && k in others
    ensures !AllFree(Acquired(data, keys, a, now, ttl), others, later)
    ensures Acquired(Acquired(data, keys, a, now, ttl), others, b, later, ttl) == Acquired(data, keys, a, now, ttl)
  {
    var k :| k in keys && k in others;
    assert IsLive(Acquired(data, keys, a, now, ttl), k, later);
  }
}
