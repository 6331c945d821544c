/** The Redlock coordinator: `lock`, `extend` and `unlock` over a cluster of
    instances, with the retry, vote and expiry rule of `call`. Instances are the
    fixed-outcome test double; a ghost wire records every request each of them
    receives. Time is a sequence of clock readings in milliseconds. */
module Redsync {
  import opened Errors
  import Locks
  import opened Builder
  import Instance

  /** The three operations an instance offers. */
  datatype Op = AcquireOp | ExtendOp | ReleaseOp

  /** One request received by an instance. */
  datatype Request = Request(op: Op, lock: Locks.Lock)

  /** Which operation a `call` runs on every instance. */
  datatype CallKind = LockCall | ExtendCall

  function OpOf(kind: CallKind): Op
  {
    match kind
    case LockCall => AcquireOp
    case ExtendCall => ExtendOp
  }

  /** An observer of a cluster: `logs[i]` holds the requests the instance at
      position `i` has received, in the order they arrived. */
  class Wire {
    ghost var logs: seq<seq<Request>>

    constructor (n: nat)
      ensures |logs| == n && forall i :: 0 <= i < n ==> logs[i] == []
    {
      logs := seq(n, _ => []);
    }
  }

  /** An instance with a fixed outcome per operation: code 1 succeeds, any other
      code fails with the error a real node would give. Each request is also
      recorded on the wire, at the instance's position. */
  class FakeInstance {
    const acquire: int
    const extend: int
    const release: int
    ghost const wire: Wire
    ghost const index: nat

    constructor (acquire: int, extend: int, release: int, ghost wire: Wire, ghost index: nat)
      ensures this.acquire == acquire && this.extend == extend && this.release == release
      ensures this.wire == wire && this.index == index
    {
      this.acquire := acquire;
      this.extend := extend;
      this.release := release;
      this.wire := wire;
      this.index := index;
    }

    /** The fixed outcome of `op`. */
    function Outcome(op: Op): (r: Result<()>)
      ensures op == AcquireOp ==> (r.Success? <==> acquire == 1) && (r.Failure? ==> r.error == ResourceLocked)
      ensures op == ExtendOp ==> (r.Success? <==> extend == 1) && (r.Failure? ==> r.error == InvalidLease)
      ensures op == ReleaseOp ==> (r.Success? <==> release == 1) && (r.Failure? ==> r.error == InvalidLease)
    {
      match op
      case AcquireOp => if acquire == 1 then Success(()) else Failure(ResourceLocked)
      case ExtendOp => if extend == 1 then Success(()) else Failure(InvalidLease)
      case ReleaseOp => if release == 1 then Success(()) else Failure(InvalidLease)
    }

    method Acquire(lock: Locks.Lock) returns (r: Result<()>)
      requires index < |wire.logs|
      modifies wire
      ensures r == Outcome(AcquireOp)
      ensures wire.logs == old(wire.logs)[index := old(wire.logs)[index] + [Request(AcquireOp, lock)]]
    {
      wire.logs := wire.logs[index := wire.logs[index] + [Request(AcquireOp, lock)]];
      r := if acquire == 1 then Success(()) else Failure(ResourceLocked);
    }

    method Extend(lock: Locks.Lock) returns (r: Result<()>)
      requires index < |wire.logs|
      modifies wire
      ensures r == Outcome(ExtendOp)
      ensures wire.logs == old(wire.logs)[index := old(wire.logs)[index] + [Request(ExtendOp, lock)]]
    {
      wire.logs := wire.logs[index := wire.logs[index] + [Request(ExtendOp, lock)]];
      r := if extend == 1 then Success(()) else Failure(InvalidLease);
    }

    method Release(lock: Locks.Lock) returns (r: Result<()>)
      requires index < |wire.logs|
      modifies wire
      ensures r == Outcome(ReleaseOp)
      ensures wire.logs == old(wire.logs)[index := old(wire.logs)[index] + [Request(ReleaseOp, lock)]]
    {
      wire.logs := wire.logs[index := wire.logs[index] + [Request(ReleaseOp, lock)]];
      r := if release == 1 then Success(()) else Failure(InvalidLease);
    }
  }

  /** The monotonic clock: the readings `Now` will return, in order, and the
      number of pauses taken between attempts. */
  class Clock {
    var readings: seq<int>
    var pauses: nat

    constructor (readings: seq<int>)
      ensures this.readings == readings && pauses == 0
    {
      this.readings := readings;
      pauses := 0;
    }

    method Now() returns (t: int)
      requires readings != []
      modifies this
      ensures t == old(readings)[0] && readings == old(readings)[1..] && pauses == old(pauses)
    {
      t := readings[0];
      readings := readings[1..];
    }

    method Sleep()
      modifies this
      ensures readings == old(readings) && pauses == old(pauses) + 1
    {
      pauses := pauses + 1;
    }
  }

  /** Every instance of the cluster reports on `wire`, at its own position; in
      particular no instance appears twice. */
  ghost predicate Wired(cluster: seq<FakeInstance>, wire: Wire)
    reads wire
  {
    |wire.logs| == |cluster| &&
    forall i :: 0 <= i < |cluster| ==> cluster[i].wire == wire && cluster[i].index == i
  }

  /** Every log extended by the same requests. */
  function Appended(logs: seq<seq<Request>>, more: seq<Request>): (r: seq<seq<Request>>)
    ensures |r| == |logs| && forall i :: 0 <= i < |logs| ==> r[i] == logs[i] + more
  {
    seq(|logs|, i requires 0 <= i < |logs| => logs[i] + more)
  }

  lemma AppendedNothing(logs: seq<seq<Request>>)
    ensures Appended(logs, []) == logs
  {
    forall i | 0 <= i < |logs|
      ensures Appended(logs, [])[i] == logs[i]
    {
      assert logs[i] + [] == logs[i];
    }
  }

  lemma AppendedTwice(logs: seq<seq<Request>>, a: seq<Request>, b: seq<Request>)
    ensures Appended(Appended(logs, a), b) == Appended(logs, a + b)
  {
    forall i | 0 <= i < |logs|
      ensures Appended(Appended(logs, a), b)[i] == Appended(logs, a + b)[i]
    {
      assert logs[i] + a + b == logs[i] + (a + b);
    }
  }

  /** Monotonic readings never decrease. */
  predicate Monotonic(clock: seq<int>)
  {
    forall i, j :: 0 <= i <= j < |clock| ==> clock[i] <= clock[j]
  }

  // ----- one pass over the cluster -----

  /** The successes and the errors, in cluster order, of one pass of `op`. */
  datatype Tally = Tally(votes: nat, errors: seq<RedsyncError>)

  function Round(cluster: seq<FakeInstance>, op: Op): (t: Tally)
    ensures t.votes + |t.errors| == |cluster|
    ensures op == AcquireOp ==> forall e :: e in t.errors ==> e == ResourceLocked
    ensures op != AcquireOp ==> forall e :: e in t.errors ==> e == InvalidLease
  {
    if cluster == [] then Tally(0, [])
    else Tallied(Round(cluster[..|cluster| - 1], op), cluster[|cluster| - 1].Outcome(op))
  }

  /** Counts one more outcome: a success is a vote, a failure an error at the end. */
  function Tallied(t: Tally, outcome: Result<()>): Tally
  {
    match outcome
    case Success(_) => Tally(t.votes + 1, t.errors)
    case Failure(e) => Tally(t.votes, t.errors + [e])
  }

  /** A pass over three instances, spelled out. */
  lemma RoundOfThree(a: FakeInstance, b: FakeInstance, c: FakeInstance, op: Op)
    ensures Round([a, b, c], op) ==
      Tallied(Tallied(Tallied(Tally(0, []), a.Outcome(op)), b.Outcome(op)), c.Outcome(op))
  {
    assert [a][..0] == [];
    assert Round([a], op) == Tallied(Tally(0, []), a.Outcome(op));
    assert [a, b][..1] == [a];
    assert Round([a, b], op) == Tallied(Round([a], op), b.Outcome(op));
    assert [a, b, c][..2] == [a, b];
  }
  /** Sends `op` to one instance. */
  method Ask(instance: FakeInstance, op: Op, lock: Locks.Lock) returns (r: Result<()>)
    requires instance.index < |instance.wire.logs|
    modifies instance.wire
    ensures r == instance.Outcome(op)
    ensures instance.wire.logs ==
      old(instance.wire.logs)[instance.index := old(instance.wire.logs)[instance.index] + [Request(op, lock)]]
  {
    match op {
      case AcquireOp => r := instance.Acquire(lock);
      case ExtendOp => r := instance.Extend(lock);
      case ReleaseOp => r := instance.Release(lock);
    }
  }

  /** Asks every instance in turn, counting successes and pushing each error. */
  method Poll(cluster: seq<FakeInstance>, op: Op, lock: Locks.Lock, errors: MultiError, ghost wire: Wire)
    returns (votes: nat)
    requires Wired(cluster, wire)
    modifies wire, errors
    ensures votes == Round(cluster, op).votes
    ensures errors.errors == old(errors.errors) + Round(cluster, op).errors
    ensures wire.logs == Appended(old(wire.logs), [Request(op, lock)])
  {
    votes := 0;
    for i := 0 to |cluster|
      invariant Wired(cluster, wire)
      invariant votes == Round(cluster[..i], op).votes
      invariant errors.errors == old(errors.errors) + Round(cluster[..i], op).errors
      invariant forall k :: 0 <= k < i ==> wire.logs[k] == old(wire.logs)[k] + [Request(op, lock)]
      invariant forall k :: i <= k < |cluster| ==> wire.logs[k] == old(wire.logs)[k]
    {
      var result := Ask(cluster[i], op, lock);
      assert cluster[..i + 1][..i] == cluster[..i];
      match result {
        case Success(_) => votes := votes + 1;
        case Failure(e) => errors.Push(e);
      }
    }
    assert cluster[..|cluster|] == cluster;
  }

  // ----- the specification of `call` -----

  /** The drift allowance: `ttl * drift_factor` rounded down, plus 2 ms. */
  function DriftMs(ttl: nat, num: nat, den: nat): (d: nat)
    requires den > 0
    ensures d >= 2
  {
    ttl * num / den + 2
  }

  datatype Option<T> = None | Some(value: T)

  /** A jitter sample: the jitter bound scaled by a random factor drawn from
      [-1, 1), so within the bound on either side. */
  predicate IsSample(jitter: nat, x: real)
  {
    -(jitter as real) <= x <= jitter as real
  }

  /** The jitter of one pause in whole milliseconds: the sample truncated
      toward zero, as the float to integer cast does. */
  function JitterMs(jitter: nat, x: real): (m: int)
    requires IsSample(jitter, x)
    ensures -(jitter as int) <= m <= jitter
    ensures x >= 0.0 ==> m >= 0
    ensures x <= 0.0 ==> m <= 0
  {
    if x > 0.0 then
      FloorWithin(x, jitter as real);
      x.Floor
    else
      FloorWithin(-x, jitter as real);
      -((-x).Floor)
  }

  /** Truncating a non-negative real keeps it non-negative and below any bound
      above it. */
  lemma FloorWithin(x: real, b: real)
    requires 0.0 <= x <= b
    ensures 0 <= x.Floor && x.Floor as real <= b
    ensures x == 0.0 ==> x.Floor == 0
  {
  }

  /** The pause between attempts as written: the base delay moved by the
      jitter. A move below zero is subtracted from the delay as a duration,
      which panics when it exceeds the delay: `None` there. */
  function RetryDelayAsWritten(delay: nat, jitter: nat, x: real): (d: Option<nat>)
    requires IsSample(jitter, x)
    ensures d.None? <==> delay + JitterMs(jitter, x) < 0
    ensures d.Some? ==> delay - jitter <= d.value <= delay + jitter
  {
    var m := JitterMs(jitter, x);
    if m >= 0 then Some(delay + m)
    else if -m <= delay then Some(delay - -m)
    else None
  }

  /** A retry delay below the jitter bound lets the subtraction panic: with a
      10 ms delay and a bound of 50, the factor -0.5 gives the sample -25, and
      25 ms are subtracted from 10 ms. */
  lemma RetryDelayPanics()
    ensures RetryDelayAsWritten(10, 50, -25.0) == None
  {
    assert JitterMs(50, -25.0) == -25;
  }

  /** The pause between attempts with the subtraction saturating at zero: always
      defined, never negative and within `jitter` of the delay, and equal to the
      pause as written wherever that one does not panic. */
  function RetryDelayMs(delay: nat, jitter: nat, x: real): (d: nat)
    requires IsSample(jitter, x)
    ensures delay - jitter <= d <= delay + jitter
    ensures RetryDelayAsWritten(delay, jitter, x).Some? ==> d == RetryDelayAsWritten(delay, jitter, x).value
    ensures RetryDelayAsWritten(delay, jitter, x).None? ==> d == 0
  {
    var m := JitterMs(jitter, x);
    if delay + m >= 0 then delay + m else 0
  }

  /** With the jitter bound at most the delay, as in the defaults (200 ms and
      50 ms), the pause as written never panics. */
  lemma RetryDelayDefined(delay: nat, jitter: nat, x: real)
    requires IsSample(jitter, x) && jitter <= delay
    ensures RetryDelayAsWritten(delay, jitter, x) == Some(RetryDelayMs(delay, jitter, x))
  {
  }

  /** The inputs of one `call` that do not change between attempts. */
  datatype Plan = Plan(kind: CallKind, resource: string, value: string, ttl: nat, drift: nat, quorum: nat, retries: nat)

  function PlanOf(rs: Redsync<FakeInstance>, kind: CallKind, resource: string, value: string, ttl: nat): (p: Plan)
    requires rs.driftDen > 0
  {
    Plan(kind, resource, value, ttl, DriftMs(ttl, rs.driftNum, rs.driftDen), rs.quorum, rs.retryCount)
  }

  predicate Quorate(p: Plan, t: Tally)
  {
    t.votes >= p.quorum
  }

  /** How many clock readings the first `k` attempts take: the expiry check reads
      the clock only once the votes reach the quorum, so an attempt takes two
      readings or one. */
  function Readings(p: Plan, t: Tally, k: nat): nat
  {
    if Quorate(p, t) then 2 * k else k
  }

  /** Enough readings for every attempt. */
  predicate Enough(p: Plan, clock: seq<int>)
  {
    |clock| >= 2 * p.retries
  }

  /** The lock built at the start of attempt `k` (counting from 0). */
  function LockAt(p: Plan, t: Tally, clock: seq<int>, k: nat): Locks.Lock
    requires Enough(p, clock) && k < p.retries
  {
    Locks.Lock(p.resource, p.value, p.ttl, clock[Readings(p, t, k)] + p.ttl - p.drift)
  }

  /** Attempt `k` succeeds: a quorum voted and the expiry is still ahead of the
      clock read after voting. */
  predicate Wins(p: Plan, t: Tally, clock: seq<int>, k: nat)
    requires Enough(p, clock) && k < p.retries
  {
    Quorate(p, t) && LockAt(p, t, clock, k).expiry > clock[2 * k + 1]
  }

  /** None of the first `n` attempts wins. */
  predicate Losing(p: Plan, t: Tally, clock: seq<int>, n: nat)
    requires Enough(p, clock) && n <= p.retries
  {
    forall j :: 0 <= j < n ==> !Wins(p, t, clock, j)
  }

  lemma LosingStep(p: Plan, t: Tally, clock: seq<int>, k: nat)
    requires Enough(p, clock) && k < p.retries
    requires Losing(p, t, clock, k) && !Wins(p, t, clock, k)
    ensures Losing(p, t, clock, k + 1)
  {
  }

  /** The first winning attempt from `k` on, or `p.retries` if none wins. */
  function FirstWin(p: Plan, t: Tally, clock: seq<int>, k: nat): (w: nat)
    requires Enough(p, clock) && k <= p.retries
    ensures k <= w <= p.retries
    ensures w < p.retries ==> Wins(p, t, clock, w)
    ensures forall j :: k <= j < w ==> !Wins(p, t, clock, j)
    decreases p.retries - k
  {
    if k == p.retries then k
    else if Wins(p, t, clock, k) then k
    else FirstWin(p, t, clock, k + 1)
  }

  function Exceeded(kind: CallKind, errs: seq<RedsyncError>): RedsyncError
  {
    match kind
    case LockCall => LockRetriesExceeded(errs)
    case ExtendCall => ExtendRetriesExceeded(errs)
  }

  /** What `call` returns: the lock of the first winning attempt, or the
      retries-exceeded error of its kind holding the last attempt's errors. */
  function CallOutcome(p: Plan, t: Tally, clock: seq<int>): Result<Locks.Lock>
    requires Enough(p, clock)
  {
    var w := FirstWin(p, t, clock, 0);
    if w < p.retries then Success(LockAt(p, t, clock, w))
    else Failure(Exceeded(p.kind, if p.retries == 0 then [] else t.errors))
  }

  /** How many attempts `call` makes. */
  function Attempts(p: Plan, t: Tally, clock: seq<int>): nat
    requires Enough(p, clock)
  {
    var w := FirstWin(p, t, clock, 0);
    if w < p.retries then w + 1 else p.retries
  }

  /** How many pauses the first `n` losing attempts take: one after each but
      the last attempt allowed. */
  function PausesAfter(p: Plan, n: nat): nat
  {
    if n < p.retries then n else if n == 0 then 0 else n - 1
  }

  /** How many pauses `call` takes. */
  function Pauses(p: Plan, t: Tally, clock: seq<int>): nat
    requires Enough(p, clock)
  {
    PausesAfter(p, FirstWin(p, t, clock, 0))
  }

  /** The errors held after `n` losing attempts: cleared after each but the
      last attempt allowed. */
  function ErrorsAfter(p: Plan, t: Tally, n: nat): seq<RedsyncError>
  {
    if n == p.retries && n > 0 then t.errors else []
  }

  /** The requests each instance receives in the first `n` attempts when all of
      them fail: the operation, then the release of the unlock that follows. */
  function FailedRounds(p: Plan, t: Tally, clock: seq<int>, n: nat): seq<Request>
    requires Enough(p, clock) && n <= p.retries
  {
    if n == 0 then []
    else
      var lock := LockAt(p, t, clock, n - 1);
      FailedRounds(p, t, clock, n - 1) + [Request(OpOf(p.kind), lock), Request(ReleaseOp, lock)]
  }

  /** The requests each instance receives during the whole `call`. */
  function Trace(p: Plan, t: Tally, clock: seq<int>): seq<Request>
    requires Enough(p, clock)
  {
    var w := FirstWin(p, t, clock, 0);
    if w < p.retries then FailedRounds(p, t, clock, w) + [Request(OpOf(p.kind), LockAt(p, t, clock, w))]
    else FailedRounds(p, t, clock, p.retries)
  }

  /** The first winning attempt decides the outcome of the call and everything
      it did before returning. */
  lemma WinAt(p: Plan, t: Tally, clock: seq<int>, k: nat)
    requires Enough(p, clock) && k < p.retries && Wins(p, t, clock, k)
    requires Losing(p, t, clock, k)
    ensures FirstWin(p, t, clock, 0) == k
    ensures CallOutcome(p, t, clock) == Success(LockAt(p, t, clock, k))
    ensures Attempts(p, t, clock) == k + 1 && Pauses(p, t, clock) == k
    ensures Trace(p, t, clock) == FailedRounds(p, t, clock, k) + [Request(OpOf(p.kind), LockAt(p, t, clock, k))]
  {
  }

  /** When no attempt wins, every attempt is made and the call fails. */
  lemma NoWin(p: Plan, t: Tally, clock: seq<int>)
    requires Enough(p, clock)
    requires Losing(p, t, clock, p.retries)
    ensures FirstWin(p, t, clock, 0) == p.retries
    ensures CallOutcome(p, t, clock) == Failure(Exceeded(p.kind, if p.retries == 0 then [] else t.errors))
    ensures Attempts(p, t, clock) == p.retries
    ensures Pauses(p, t, clock) == if p.retries == 0 then 0 else p.retries - 1
    ensures Trace(p, t, clock) == FailedRounds(p, t, clock, p.retries)
  {
  }
  // ----- the coordinator -----

  /** One attempt: read the clock, build the lock expiring `ttl - drift` after
      that reading, ask every instance, and decide: a quorum voted and the clock,
      read again only then, is still before the expiry. */
  method Attempt(rs: Redsync<FakeInstance>, kind: CallKind, resource: string, value: string, ttl: nat, drift: nat,
                 clock: Clock, errors: MultiError, ghost wire: Wire)
    returns (lock: Locks.Lock, won: bool)
    requires Wired(rs.cluster, wire) && |clock.readings| >= 2
    modifies wire, clock, errors
    ensures var t := Round(rs.cluster, OpOf(kind));
      var c := old(clock.readings);
      lock == Locks.Lock(resource, value, ttl, c[0] + ttl - drift) &&
      won == (t.votes >= rs.quorum && lock.expiry > c[1]) &&
      clock.readings == c[if t.votes >= rs.quorum then 2 else 1..] &&
      clock.pauses == old(clock.pauses) &&
      errors.errors == old(errors.errors) + t.errors
    ensures wire.logs == Appended(old(wire.logs), [Request(OpOf(kind), lock)])
  {
    var start := clock.Now();
    lock := Locks.Lock(resource, value, ttl, start + ttl - drift);
    var votes := Poll(rs.cluster, OpOf(kind), lock, errors, wire);
    won := false;
    if votes >= rs.quorum {
      var now := clock.Now();
      won := lock.expiry > now;
    }
  }

  /** Attempt `k` (counting from 0) of a call, read against the specification:
      it builds `LockAt(k)` and wins exactly when `Wins(k)` holds; a losing
      attempt releases the lock everywhere and, unless it was the last attempt
      allowed, clears the errors and pauses. The state before and after is the
      one the first `k` and `k + 1` losing attempts leave. */
  method Try(rs: Redsync<FakeInstance>, kind: CallKind, resource: string, value: string, ttl: nat, drift: nat,
             clock: Clock, errors: MultiError, ghost wire: Wire,
             ghost p: Plan, ghost t: Tally, ghost c: seq<int>, ghost logs: seq<seq<Request>>, ghost pauses: int, k: nat)
    returns (lock: Locks.Lock, won: bool)
    requires rs.driftDen > 0 && Wired(rs.cluster, wire)
    requires p == PlanOf(rs, kind, resource, value, ttl) && drift == p.drift && t == Round(rs.cluster, OpOf(kind))
    requires Enough(p, c) && k < p.retries && clock.readings == c[Readings(p, t, k)..]
    requires clock.pauses == pauses + PausesAfter(p, k) && errors.errors == ErrorsAfter(p, t, k)
    requires wire.logs == Appended(logs, FailedRounds(p, t, c, k)) && Losing(p, t, c, k)
    modifies wire, clock, errors
    ensures Wired(rs.cluster, wire)
    ensures lock == LockAt(p, t, c, k) && won == Wins(p, t, c, k)
    ensures clock.readings == c[Readings(p, t, k + 1)..]
    ensures won ==>
      Success(lock) == CallOutcome(p, t, c) &&
      clock.readings == c[Readings(p, t, Attempts(p, t, c))..] &&
      clock.pauses == pauses + Pauses(p, t, c) &&
      wire.logs == Appended(logs, Trace(p, t, c))
    ensures !won ==>
      clock.pauses == pauses + PausesAfter(p, k + 1) &&
      errors.errors == ErrorsAfter(p, t, k + 1) &&
      wire.logs == Appended(logs, FailedRounds(p, t, c, k + 1)) &&
      Losing(p, t, c, k + 1)
  {
    lock, won := Attempt(rs, kind, resource, value, ttl, drift, clock, errors, wire);
    assert c[Readings(p, t, k)..][0] == c[Readings(p, t, k)];
    assert Quorate(p, t) ==> c[Readings(p, t, k)..][1] == c[2 * k + 1];
    AppendedTwice(logs, FailedRounds(p, t, c, k), [Request(OpOf(kind), lock)]);
    if won {
      WinAt(p, t, c, k);
    } else {
      LosingStep(p, t, c, k);
      var _ := Unlock(rs, lock, wire);
      AppendedTwice(logs, FailedRounds(p, t, c, k) + [Request(OpOf(kind), lock)], [Request(ReleaseOp, lock)]);
      assert FailedRounds(p, t, c, k + 1) == FailedRounds(p, t, c, k) + [Request(OpOf(kind), lock)] + [Request(ReleaseOp, lock)];
      if k + 1 < rs.retryCount {
        errors.Reset();
        clock.Sleep();
      }
    }
  }

  /** Up to `retryCount` attempts: return the lock of the first attempt that
      wins; after each losing attempt unlock everywhere and, unless it was the
      last attempt, clear the errors and pause. */
  method Call(rs: Redsync<FakeInstance>, kind: CallKind, resource: string, value: string, ttl: nat, clock: Clock,
              ghost wire: Wire)
    returns (r: Result<Locks.Lock>)
    requires rs.driftDen > 0 && Wired(rs.cluster, wire)
    requires |clock.readings| >= 2 * rs.retryCount
    modifies wire, clock
    ensures var p := PlanOf(rs, kind, resource, value, ttl);
      var t := Round(rs.cluster, OpOf(kind));
      var c := old(clock.readings);
      r == CallOutcome(p, t, c) &&
      clock.readings == c[Readings(p, t, Attempts(p, t, c))..] &&
      clock.pauses == old(clock.pauses) + Pauses(p, t, c) &&
      wire.logs == Appended(old(wire.logs), Trace(p, t, c))
  {
    var drift := DriftMs(ttl, rs.driftNum, rs.driftDen);
    ghost var p := PlanOf(rs, kind, resource, value, ttl);
    ghost var t := Round(rs.cluster, OpOf(kind));
    ghost var c := clock.readings;
    ghost var logs := wire.logs;
    ghost var pauses := clock.pauses;
    AppendedNothing(logs);
    var errors := new MultiError();
    for k := 0 to rs.retryCount
      invariant Wired(rs.cluster, wire)
      invariant clock.readings == c[Readings(p, t, k)..]
      invariant clock.pauses == pauses + PausesAfter(p, k)
      invariant errors.errors == ErrorsAfter(p, t, k)
      invariant wire.logs == Appended(logs, FailedRounds(p, t, c, k))
      invariant Losing(p, t, c, k)
    {
      var lock, won := Try(rs, kind, resource, value, ttl, drift, clock, errors, wire, p, t, c, logs, pauses, k);
      if won {
        return Success(lock);
      }
    }
    NoWin(p, t, c);
    r := Failure(Exceeded(kind, errors.errors));
  }

  /** `lock`: a call acquiring `resource` with the freshly generated `token`. */
  method Lock(rs: Redsync<FakeInstance>, resource: string, ttl: nat, token: string, clock: Clock, ghost wire: Wire)
    returns (r: Result<Locks.Lock>)
    requires Locks.IsLockId(token)
    requires rs.driftDen > 0 && Wired(rs.cluster, wire)
    requires |clock.readings| >= 2 * rs.retryCount
    modifies wire, clock
    ensures var p := PlanOf(rs, LockCall, resource, token, ttl);
      var t := Round(rs.cluster, AcquireOp);
      var c := old(clock.readings);
      r == CallOutcome(p, t, c) &&
      clock.readings == c[Readings(p, t, Attempts(p, t, c))..] &&
      clock.pauses == old(clock.pauses) + Pauses(p, t, c) &&
      wire.logs == Appended(old(wire.logs), Trace(p, t, c))
    ensures r.Success? ==> Locks.IsLockId(r.value.value)
  {
    r := Call(rs, LockCall, resource, token, ttl, clock, wire);
    if r.Success? {
      CallLock(PlanOf(rs, LockCall, resource, token, ttl), Round(rs.cluster, AcquireOp), old(clock.readings));
    }
  }

  /** `extend`: a call re-expiring `lock.resource` with the lock's own token. */
  method Extend(rs: Redsync<FakeInstance>, lock: Locks.Lock, ttl: nat, clock: Clock, ghost wire: Wire)
    returns (r: Result<Locks.Lock>)
    requires rs.driftDen > 0 && Wired(rs.cluster, wire)
    requires |clock.readings| >= 2 * rs.retryCount
    modifies wire, clock
    ensures var p := PlanOf(rs, ExtendCall, lock.resource, lock.value, ttl);
      var t := Round(rs.cluster, ExtendOp);
      var c := old(clock.readings);
      r == CallOutcome(p, t, c) &&
      clock.readings == c[Readings(p, t, Attempts(p, t, c))..] &&
      clock.pauses == old(clock.pauses) + Pauses(p, t, c) &&
      wire.logs == Appended(old(wire.logs), Trace(p, t, c))
    ensures r.Success? ==> r.value.resource == lock.resource && r.value.value == lock.value && r.value.ttl == ttl
  {
    r := Call(rs, ExtendCall, lock.resource, lock.value, ttl, clock, wire);
    if r.Success? {
      CallLock(PlanOf(rs, ExtendCall, lock.resource, lock.value, ttl), Round(rs.cluster, ExtendOp), old(clock.readings));
    }
  }

  /** What `unlock` returns after one pass of releases. */
  function UnlockOutcome(t: Tally, quorum: nat): Result<()>
  {
    if t.votes < quorum then Failure(UnlockFailed(t.errors)) else Success(())
  }

  /** `unlock`: release on every instance; fails when fewer than a quorum
      released, with every instance's error. */
  method Unlock(rs: Redsync<FakeInstance>, lock: Locks.Lock, ghost wire: Wire) returns (r: Result<()>)
    requires Wired(rs.cluster, wire)
    modifies wire
    ensures var t := Round(rs.cluster, ReleaseOp);
      r == UnlockOutcome(t, rs.quorum) &&
      (r.Success? <==> t.votes >= rs.quorum) &&
      (r.Failure? ==> r.error == UnlockFailed(t.errors) && |t.errors| == |rs.cluster| - t.votes)
    ensures wire.logs == Appended(old(wire.logs), [Request(ReleaseOp, lock)])
  {
    var errors := new MultiError();
    var n := Poll(rs.cluster, ReleaseOp, lock, errors, wire);
    assert errors.errors == Round(rs.cluster, ReleaseOp).errors;
    if n < rs.quorum {
      return Failure(UnlockFailed(errors.errors));
    }
    r := Success(());
  }

  /** `Redsync::new`: the builder's defaults over an existing cluster. */
  method New(cluster: seq<FakeInstance>) returns (rs: Redsync<FakeInstance>)
    ensures rs.cluster == cluster && rs.quorum == Quorum(|cluster|)
    ensures rs.retryCount == 3 && rs.retryDelay == 200 && rs.retryJitter == 50
    ensures rs.driftNum == 1 && rs.driftDen == 100
  {
    var built := Build(Builder.New(cluster), (i: FakeInstance) => Opened(i));
    assert built.Success?;
    rs := built.value;
    assert |rs.cluster| == |cluster|;
    assert forall i :: 0 <= i < |cluster| ==> rs.cluster[i] == cluster[i];
  }

  // ----- properties of `call` -----

  /** A successful call returns the caller's resource, token and ttl, with the
      expiry of some attempt `k`: `ttl - drift` after its start, strictly before
      `start + ttl` (the drift is at least 2 ms), and ahead of the clock read
      after voting. */
  lemma {:induction false} CallLock(p: Plan, t: Tally, clock: seq<int>)
    requires Enough(p, clock) && p.drift >= 2
    requires CallOutcome(p, t, clock).Success?
    ensures var l := CallOutcome(p, t, clock).value;
      l.resource == p.resource && l.value == p.value && l.ttl == p.ttl &&
      exists k :: 0 <= k < p.retries &&
        l.expiry == clock[2 * k] + p.ttl - p.drift &&
        l.expiry < clock[2 * k] + p.ttl &&
        l.expiry > clock[2 * k + 1]
  {
    var w := FirstWin(p, t, clock, 0);
    assert Wins(p, t, clock, w);
  }

  /** A call succeeds exactly when a quorum votes and some attempt's expiry is
      still ahead of the clock read after its votes. */
  lemma {:induction false} CallSucceedsIff(p: Plan, t: Tally, clock: seq<int>)
    requires Enough(p, clock)
    ensures CallOutcome(p, t, clock).Success? <==>
      t.votes >= p.quorum &&
      exists k :: 0 <= k < p.retries && clock[2 * k] + p.ttl - p.drift > clock[2 * k + 1]
  {
    var w := FirstWin(p, t, clock, 0);
    if t.votes >= p.quorum {
      forall k | 0 <= k < p.retries && clock[2 * k] + p.ttl - p.drift > clock[2 * k + 1]
        ensures w < p.retries
      {
        assert Wins(p, t, clock, k);
      }
    }
  }

  /** When the ttl does not exceed the drift, no attempt can succeed whatever the
      votes: the expiry is at or before the start, and the clock never goes back. */
  lemma {:induction false} ShortTtlNeverLocks(p: Plan, t: Tally, clock: seq<int>)
    requires Enough(p, clock) && Monotonic(clock)
    requires p.ttl <= p.drift
    ensures CallOutcome(p, t, clock) == Failure(Exceeded(p.kind, if p.retries == 0 then [] else t.errors))
  {
  }

  /** A failed call reports the error of its kind holding only the last attempt's
      instance errors, and nothing at all when no attempt was made. */
  lemma {:induction false} CallFailure(p: Plan, t: Tally, clock: seq<int>)
    requires Enough(p, clock)
    requires CallOutcome(p, t, clock).Failure?
    ensures p.kind == LockCall ==> CallOutcome(p, t, clock).error.LockRetriesExceeded?
    ensures p.kind == ExtendCall ==> CallOutcome(p, t, clock).error.ExtendRetriesExceeded?
    ensures CallOutcome(p, t, clock).error.errors == if p.retries == 0 then [] else t.errors
    ensures Attempts(p, t, clock) == p.retries && Trace(p, t, clock) == FailedRounds(p, t, clock, p.retries)
  {
  }

  /** With no retries no instance is contacted and the error is empty. */
  lemma ZeroRetries(p: Plan, t: Tally, clock: seq<int>)
    requires p.retries == 0
    ensures CallOutcome(p, t, clock) == Failure(Exceeded(p.kind, []))
    ensures Trace(p, t, clock) == [] && Pauses(p, t, clock) == 0
  {
  }

  /** Shape of the requests after `n` failed attempts: two per attempt, the
      operation then a release of the same lock, all with the caller's resource
      and token. */
  lemma {:induction false} FailedRoundsShape(p: Plan, t: Tally, clock: seq<int>, n: nat)
    requires Enough(p, clock) && n <= p.retries
    ensures |FailedRounds(p, t, clock, n)| == 2 * n
    ensures forall j :: 0 <= j < n ==>
      FailedRounds(p, t, clock, n)[2 * j] == Request(OpOf(p.kind), LockAt(p, t, clock, j)) &&
      FailedRounds(p, t, clock, n)[2 * j + 1] == Request(ReleaseOp, LockAt(p, t, clock, j))
    ensures forall q :: q in FailedRounds(p, t, clock, n) ==> q.lock.resource == p.resource && q.lock.value == p.value
  {
    if n > 0 {
      FailedRoundsShape(p, t, clock, n - 1);
    }
  }

  /** Across a whole call: at most `retries` attempts; each instance sees the
      operation once per attempt, and after every failed attempt a release of
      that attempt's lock; the pauses fall between attempts only; every request
      carries the caller's resource and token. */
  lemma {:induction false} CallShape(p: Plan, t: Tally, clock: seq<int>)
    requires Enough(p, clock)
    ensures Attempts(p, t, clock) <= p.retries
    ensures Pauses(p, t, clock) == if Attempts(p, t, clock) == 0 then 0 else Attempts(p, t, clock) - 1
    ensures var tr := Trace(p, t, clock);
      var failed := if CallOutcome(p, t, clock).Success? then Attempts(p, t, clock) - 1 else Attempts(p, t, clock);
      |tr| == Attempts(p, t, clock) + failed &&
      (forall j :: 0 <= j < failed ==>
        tr[2 * j] == Request(OpOf(p.kind), LockAt(p, t, clock, j)) &&
        tr[2 * j + 1] == Request(ReleaseOp, LockAt(p, t, clock, j))) &&
      (CallOutcome(p, t, clock).Success? ==>
        tr[|tr| - 1] == Request(OpOf(p.kind), CallOutcome(p, t, clock).value)) &&
      forall q :: q in tr ==> q.lock.resource == p.resource && q.lock.value == p.value
  {
    var w := FirstWin(p, t, clock, 0);
    if w < p.retries {
      FailedRoundsShape(p, t, clock, w);
    } else {
      FailedRoundsShape(p, t, clock, p.retries);
    }
  }

  /** A larger drift factor never gives a smaller drift allowance. */
  lemma {:induction false} DriftMonotonic(ttl: nat, num1: nat, num2: nat, den: nat)
    requires den > 0 && num1 <= num2
    ensures 2 <= DriftMs(ttl, num1, den) <= DriftMs(ttl, num2, den)
  {
    assert ttl * num1 <= ttl * num2 by {
      MulMonotonic(ttl, num1, num2);
    }
    DivMonotonic(ttl * num1, ttl * num2, den);
  }

  lemma {:induction false} MulMonotonic(a: nat, b: nat, c: nat)
    requires b <= c
    ensures a * b <= a * c
  {
    assert a * c == a * b + a * (c - b);
  }

  lemma {:induction false} DivMonotonic(x: nat, y: nat, d: nat)
    requires d > 0 && x <= y
    ensures x / d <= y / d
  {
    if x / d > y / d {
      MulMonotonic(d, y / d + 1, x / d);
    }
  }

  // ----- the scenarios of the coordinator's tests -----

  /** Three instances, two of which acquire, with quorum 2: the lock is taken on
      the first attempt whose expiry is still ahead. */
  lemma TwoOfThreeLock(a: FakeInstance, b: FakeInstance, c: FakeInstance, p: Plan, clock: seq<int>)
    requires a.acquire == 1 && b.acquire == 1 && c.acquire != 1
    requires p.kind == LockCall && p.quorum == 2 && p.retries >= 1 && Enough(p, clock)
    requires clock[0] + p.ttl - p.drift > clock[1]
    ensures CallOutcome(p, Round([a, b, c], AcquireOp), clock) ==
      Success(Locks.Lock(p.resource, p.value, p.ttl, clock[0] + p.ttl - p.drift))
  {
    RoundOfThree(a, b, c, AcquireOp);
    var t := Round([a, b, c], AcquireOp);
    assert t.votes == 2;
    assert Wins(p, t, clock, 0);
  }

  /** Three instances, only one of which acquires, with quorum 2: the lock fails
      with the two lock errors of the last attempt. */
  lemma OneOfThreeLock(a: FakeInstance, b: FakeInstance, c: FakeInstance, p: Plan, clock: seq<int>)
    requires a.acquire != 1 && b.acquire != 1 && c.acquire == 1
    requires p.kind == LockCall && p.quorum == 2 && p.retries >= 1 && Enough(p, clock)
    ensures CallOutcome(p, Round([a, b, c], AcquireOp), clock) ==
      Failure(LockRetriesExceeded([ResourceLocked, ResourceLocked]))
  {
    RoundOfThree(a, b, c, AcquireOp);
    var t := Round([a, b, c], AcquireOp);
    assert t == Tally(1, [ResourceLocked, ResourceLocked]);
    assert FirstWin(p, t, clock, 0) == p.retries;
  }

  /** Three instances, only one of which extends, with quorum 2: the extend
      fails with the two lease errors. */
  lemma OneOfThreeExtend(a: FakeInstance, b: FakeInstance, c: FakeInstance, p: Plan, clock: seq<int>)
    requires a.extend != 1 && b.extend != 1 && c.extend == 1
    requires p.kind == ExtendCall && p.quorum == 2 && p.retries >= 1 && Enough(p, clock)
    ensures CallOutcome(p, Round([a, b, c], ExtendOp), clock) ==
      Failure(ExtendRetriesExceeded([InvalidLease, InvalidLease]))
  {
    RoundOfThree(a, b, c, ExtendOp);
    var t := Round([a, b, c], ExtendOp);
    assert t == Tally(1, [InvalidLease, InvalidLease]);
    assert FirstWin(p, t, clock, 0) == p.retries;
  }

  /** Unlock with quorum 2 over three instances succeeds when two release, and
      fails with both release errors when only one does. */
  lemma UnlockScenarios(a: FakeInstance, b: FakeInstance, c: FakeInstance)
    ensures a.release == 1 && b.release == 1 && c.release != 1 ==>
      UnlockOutcome(Round([a, b, c], ReleaseOp), 2) == Success(())
    ensures a.release != 1 && b.release != 1 && c.release == 1 ==>
      UnlockOutcome(Round([a, b, c], ReleaseOp), 2) == Failure(UnlockFailed([InvalidLease, InvalidLease]))
  {
    RoundOfThree(a, b, c, ReleaseOp);
    assert [] + [InvalidLease] + [InvalidLease] == [InvalidLease, InvalidLease];
  }

  // ----- safety over real nodes -----

  /** At any instant, at most one token of a key is held by a quorum of the
      nodes: the nodes holding two different tokens are disjoint, and two
      quorums cannot be. */
  lemma {:induction false} QuorumsExclusive(nodes: seq<Instance.Store>, key: string, v1: string, v2: string, now: int)
    requires v1 != v2 && |nodes| < U32
    ensures !(Instance.HolderCount(nodes, key, v1, now) >= Quorum(|nodes|) &&
              Instance.HolderCount(nodes, key, v2, now) >= Quorum(|nodes|))
  {
    Instance.HoldersDisjoint(nodes, key, v1, v2, now);
    QuorumIsMajority(|nodes|);
  }
}
