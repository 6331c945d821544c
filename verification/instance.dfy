/** One Redis node: the three lock scripts as atomic operations on an in-memory
    key/value store with expiry, and the classification of their replies. */
module Instance {
  import opened Errors
  import opened Locks

  /** What invoking a script yields: the server's reply, or the error raised by
      the server or by the connection. */
  datatype ScriptResult = Replied(reply: Value) | ScriptFailed(message: string)

  /** Whether connecting to the node succeeds; a node that is `Down` fails every
      connection attempt with `message`. */
  datatype Link = Up | Down(message: string)

  /** A stored value and the instant (in milliseconds) at which it expires. */
  datatype Entry = Entry(value: string, expiresAt: int)

  type Store = map<string, Entry>

  /** The server refuses a `SET ... PX` whose expiry is not positive. */
  const InvalidExpireTime: string := "ERR invalid expire time in 'set' command"

  /** A key is live until the clock passes its expiry instant; an expired key
      behaves as absent. */
  predicate Live(m: Store, key: string, now: int)
  {
    key in m && now <= m[key].expiresAt
  }

  /** Whether `value` is the live value of `key`. */
  predicate Owns(m: Store, key: string, value: string, now: int)
  {
    Live(m, key, now) && m[key].value == value
  }

  /** The effect of one script on the store, and what it returns. */
  datatype Step = Step(store: Store, result: ScriptResult)

  // ----- the scripts, as atomic steps on the store -----

  /** The lock script: `SET key value NX PX ttl`. */
  function SetIfAbsent(m: Store, key: string, value: string, ttl: nat, now: int): Step
  {
    if ttl == 0 then Step(m, ScriptFailed(InvalidExpireTime))
    else if Live(m, key, now) then Step(m, Replied(Nil))
    else Step(m[key := Entry(value, now + ttl)], Replied(Okay))
  }

  /** The unlock script: `DEL key` when `GET key` equals `value`, else 0. */
  function DeleteIfOwner(m: Store, key: string, value: string, now: int): Step
  {
    if Owns(m, key, value, now) then Step(m - {key}, Replied(Int(1)))
    else Step(m, Replied(Int(0)))
  }

  /** The extend script: `PEXPIRE key ttl` when `GET key` equals `value`, else 0.
      A non-positive expiry deletes the key, and the server still answers 1. */
  function ExpireIfOwner(m: Store, key: string, value: string, ttl: nat, now: int): Step
  {
    if !Owns(m, key, value, now) then Step(m, Replied(Int(0)))
    else if ttl == 0 then Step(m - {key}, Replied(Int(1)))
    else Step(m[key := Entry(value, now + ttl)], Replied(Int(1)))
  }

  // ----- reply classification -----

  /** How an acquire reply is read: OK acquires, nil means another holder. */
  function AcquireReply(res: ScriptResult): (r: Result<()>)
    ensures r.Success? <==> res == Replied(Okay)
    ensures r == Failure(ResourceLocked) <==> res == Replied(Nil)
    ensures res.ScriptFailed? <==> r.Failure? && r.error.RedisError?
    ensures res.Replied? && res.reply != Okay && res.reply != Nil <==>
      res.Replied? && r == Failure(UnexpectedResponse(res.reply))
  {
    match res
    case Replied(Okay) => Success(())
    case Replied(Nil) => Failure(ResourceLocked)
    case Replied(v) => Failure(UnexpectedResponse(v))
    case ScriptFailed(m) => Failure(RedisError(m))
  }

  /** How an extend or release reply is read: 1 succeeds, 0 means the lease is
      not ours (wrong token, or expired). */
  function LeaseReply(res: ScriptResult): (r: Result<()>)
    ensures r.Success? <==> res == Replied(Int(1))
    ensures r == Failure(InvalidLease) <==> res == Replied(Int(0))
    ensures res.ScriptFailed? <==> r.Failure? && r.error.RedisError?
    ensures res.Replied? && res.reply != Int(0) && res.reply != Int(1) <==>
      res.Replied? && r == Failure(UnexpectedResponse(res.reply))
  {
    match res
    case Replied(Int(1)) => Success(())
    case Replied(Int(0)) => Failure(InvalidLease)
    case Replied(v) => Failure(UnexpectedResponse(v))
    case ScriptFailed(m) => Failure(RedisError(m))
  }

  // ----- a node -----

  /** A Redis node reached through a connection that may fail. */
  class RedisInstance {
    var entries: Store
    var link: Link

    constructor (link: Link)
      ensures entries == map[] && this.link == link
    {
      entries := map[];
      this.link := link;
    }

    /** Runs the lock script atomically. */
    method LockScript(key: string, value: string, ttl: nat, now: int) returns (res: ScriptResult)
      modifies this
      ensures link == old(link)
      ensures Step(entries, res) == SetIfAbsent(old(entries), key, value, ttl, now)
    {
      if ttl == 0 {
        res := ScriptFailed(InvalidExpireTime);
      } else if key in entries && now <= entries[key].expiresAt {
        res := Replied(Nil);
      } else {
        entries := entries[key := Entry(value, now + ttl)];
        res := Replied(Okay);
      }
    }

    /** Runs the unlock script atomically. */
    method UnlockScript(key: string, value: string, now: int) returns (res: ScriptResult)
      modifies this
      ensures link == old(link)
      ensures Step(entries, res) == DeleteIfOwner(old(entries), key, value, now)
    {
      if key in entries && now <= entries[key].expiresAt && entries[key].value == value {
        entries := entries - {key};
        res := Replied(Int(1));
      } else {
        res := Replied(Int(0));
      }
    }

    /** Runs the extend script atomically. */
    method ExtendScript(key: string, value: string, ttl: nat, now: int) returns (res: ScriptResult)
      modifies this
      ensures link == old(link)
      ensures Step(entries, res) == ExpireIfOwner(old(entries), key, value, ttl, now)
    {
      if key in entries && now <= entries[key].expiresAt && entries[key].value == value {
        if ttl == 0 {
          entries := entries - {key};
        } else {
          entries := entries[key := Entry(value, now + ttl)];
        }
        res := Replied(Int(1));
      } else {
        res := Replied(Int(0));
      }
    }

    /** Acquires `lock.resource` for `lock.ttl` ms with the lock's token. */
    method Acquire(lock: Lock, now: int) returns (r: Result<()>)
      modifies this
      ensures link == old(link)
      ensures link.Down? ==> r == Failure(RedisError(link.message)) && entries == old(entries)
      ensures link.Up? ==>
        var s := SetIfAbsent(old(entries), lock.resource, lock.value, lock.ttl, now);
        entries == s.store && r == AcquireReply(s.result)
    {
      if link.Down? {
        return Failure(RedisError(link.message));
      }
      var res := LockScript(lock.resource, lock.value, lock.ttl, now);
      r := AcquireReply(res);
    }

    /** Resets the expiry of `lock.resource` to `lock.ttl` ms if the lock's token holds it. */
    method Extend(lock: Lock, now: int) returns (r: Result<()>)
      modifies this
      ensures link == old(link)
      ensures link.Down? ==> r == Failure(RedisError(link.message)) && entries == old(entries)
      ensures link.Up? ==>
        var s := ExpireIfOwner(old(entries), lock.resource, lock.value, lock.ttl, now);
        entries == s.store && r == LeaseReply(s.result)
    {
      if link.Down? {
        return Failure(RedisError(link.message));
      }
      var res := ExtendScript(lock.resource, lock.value, lock.ttl, now);
      r := LeaseReply(res);
    }

    /** Deletes `lock.resource` if the lock's token holds it. */
    method Release(lock: Lock, now: int) returns (r: Result<()>)
      modifies this
      ensures link == old(link)
      ensures link.Down? ==> r == Failure(RedisError(link.message)) && entries == old(entries)
      ensures link.Up? ==>
        var s := DeleteIfOwner(old(entries), lock.resource, lock.value, now);
        entries == s.store && r == LeaseReply(s.result)
    {
      if link.Down? {
        return Failure(RedisError(link.message));
      }
      var res := UnlockScript(lock.resource, lock.value, now);
      r := LeaseReply(res);
    }
  }

  // ----- properties of the protocol -----

  /** Acquire stores the token with its expiry only if the key is free; a held
      key is left as it is and the caller is told the resource is locked. Other
      keys never change. */
  lemma AcquireIfAbsent(m: Store, key: string, value: string, ttl: nat, now: int)
    requires ttl > 0
    ensures var s := SetIfAbsent(m, key, value, ttl, now);
      s.store - {key} == m - {key} &&
      (AcquireReply(s.result).Success? <==> !Live(m, key, now)) &&
      (!Live(m, key, now) ==> key in s.store && s.store[key] == Entry(value, now + ttl)) &&
      (Live(m, key, now) ==> s.store == m && AcquireReply(s.result) == Failure(ResourceLocked))
  {
  }

  /** Release deletes the key exactly when the caller's token is its live value;
      otherwise the store is untouched and the lease is reported invalid. */
  lemma ReleaseIfOwner(m: Store, key: string, value: string, now: int)
    ensures var s := DeleteIfOwner(m, key, value, now);
      s.store - {key} == m - {key} &&
      (LeaseReply(s.result).Success? <==> Owns(m, key, value, now)) &&
      (Owns(m, key, value, now) ==> key !in s.store) &&
      (!Owns(m, key, value, now) ==> s.store == m && LeaseReply(s.result) == Failure(InvalidLease))
  {
  }

  /** Extend resets the key's expiry to `ttl` from now exactly when the caller's
      token is its live value; otherwise the store is untouched and the lease is
      reported invalid. */
  lemma ExtendIfOwner(m: Store, key: string, value: string, ttl: nat, now: int)
    requires ttl > 0
    ensures var s := ExpireIfOwner(m, key, value, ttl, now);
      s.store - {key} == m - {key} &&
      (LeaseReply(s.result).Success? <==> Owns(m, key, value, now)) &&
      (Owns(m, key, value, now) ==> key in s.store && s.store[key] == Entry(value, now + ttl)) &&
      (!Owns(m, key, value, now) ==> s.store == m && LeaseReply(s.result) == Failure(InvalidLease))
  {
  }

  /** Once the ttl of an acquired key has elapsed, neither release nor extend
      with its token succeeds: both report an invalid lease. */
  lemma ExpiredLease(m: Store, key: string, value: string, ttl: nat, acquiredAt: int, later: int, ttl2: nat)
    requires ttl > 0 && !Live(m, key, acquiredAt)
    requires later > acquiredAt + ttl
    ensures var held := SetIfAbsent(m, key, value, ttl, acquiredAt).store;
      LeaseReply(DeleteIfOwner(held, key, value, later).result) == Failure(InvalidLease) &&
      LeaseReply(ExpireIfOwner(held, key, value, ttl2, later).result) == Failure(InvalidLease)
  {
  }

  /** Acquiring a free key and then releasing it with the same token, before the
      ttl runs out, both succeed and leave the key absent. */
  lemma AcquireThenRelease(m: Store, key: string, value: string, ttl: nat, acquiredAt: int, releasedAt: int)
    requires ttl > 0 && !Live(m, key, acquiredAt)
    requires acquiredAt <= releasedAt <= acquiredAt + ttl
    ensures var a := SetIfAbsent(m, key, value, ttl, acquiredAt);
      var d := DeleteIfOwner(a.store, key, value, releasedAt);
      AcquireReply(a.result) == Success(()) && LeaseReply(d.result) == Success(()) &&
      key !in d.store && d.store == m - {key}
  {
  }

  /** A node that runs the scripts faithfully never draws an unexpected-response
      error: its replies are always among those the classification expects. */
  lemma RepliesAreExpected(m: Store, key: string, value: string, ttl: nat, now: int)
    ensures var r := AcquireReply(SetIfAbsent(m, key, value, ttl, now).result);
      if ttl == 0 then r == Failure(RedisError(InvalidExpireTime))
      else r.Success? || r == Failure(ResourceLocked)
    ensures LeaseReply(DeleteIfOwner(m, key, value, now).result).Success? ||
            LeaseReply(DeleteIfOwner(m, key, value, now).result) == Failure(InvalidLease)
    ensures LeaseReply(ExpireIfOwner(m, key, value, ttl, now).result).Success? ||
            LeaseReply(ExpireIfOwner(m, key, value, ttl, now).result) == Failure(InvalidLease)
  {
  }

  /** The number of nodes on which `value` is the live value of `key`. */
  function HolderCount(nodes: seq<Store>, key: string, value: string, now: int): (c: nat)
    ensures c <= |nodes|
  {
    if nodes == [] then 0
    else HolderCount(nodes[..|nodes| - 1], key, value, now) +
         (if Owns(nodes[|nodes| - 1], key, value, now) then 1 else 0)
  }

  /** The nodes holding two different tokens for one key are disjoint, so
      together they are no more than the cluster. */
  lemma {:induction false} HoldersDisjoint(nodes: seq<Store>, key: string, v1: string, v2: string, now: int)
    requires v1 != v2
    ensures HolderCount(nodes, key, v1, now) + HolderCount(nodes, key, v2, now) <= |nodes|
  {
    if nodes != [] {
      HoldersDisjoint(nodes[..|nodes| - 1], key, v1, v2, now);
    }
  }
}
