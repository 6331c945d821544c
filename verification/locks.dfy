/** The metadata of an acquired lock. */
module Locks {

  /** A lock on `resource` holding the ownership token `value`, requested for
      `ttl` milliseconds and trusted until the clock reaches `expiry`. */
  datatype Lock = Lock(resource: string, value: string, ttl: nat, expiry: int)

  /** The shape of a generated ownership token: twenty ASCII letters or digits. */
  predicate IsLockId(token: string)
  {
    |token| == 20 &&
    forall i :: 0 <= i < |token| ==>
      ('a' <= token[i] <= 'z') || ('A' <= token[i] <= 'Z') || ('0' <= token[i] <= '9')
  }
}
