/** Configuration of the lock manager: the builder, its defaults and setters,
    and `build`, which opens one client per address and fixes the quorum. */
module Builder {
  import opened Errors

  /** Counts are converted to `u32` before the quorum is computed. */
  const U32: int := 0x1_0000_0000

  /** The majority threshold of a cluster of `n` nodes: `(n as u32) / 2 + 1`. */
  function Quorum(n: nat): nat
  {
    (n % U32) / 2 + 1
  }

  /** For any cluster size a `u32` can hold, the quorum is a strict majority, and
      the smallest one: two quorums always share a node, and for a non-empty
      cluster the quorum can be reached. */
  lemma QuorumIsMajority(n: nat)
    requires n < U32
    ensures 2 * Quorum(n) > n
    ensures 2 * (Quorum(n) - 1) <= n
    ensures n >= 1 ==> Quorum(n) <= n
  {
  }

  /** The lock manager as `build` produces it: the clients in address order, the
      quorum, the retry policy, and the clock drift factor as the fraction
      `driftNum / driftDen`. The instances are of any kind `I`. */
  datatype Redsync<I> = Redsync(
    cluster: seq<I>,
    quorum: nat,
    retryCount: nat,
    retryDelay: nat,
    retryJitter: nat,
    driftNum: nat,
    driftDen: nat)

  /** The outcome of opening a client for one address. */
  datatype Opened<C> = Opened(client: C) | OpenFailed(message: string)

  /** Addresses and retry policy; delays are in milliseconds. */
  datatype RedlockBuilder<A> = RedlockBuilder(addrs: seq<A>, retryCount: nat, retryDelay: nat, retryJitter: nat)
  {
    /** Replaces the number of attempts and nothing else. */
    function RetryCount(n: nat): (b: RedlockBuilder<A>)
      ensures b.retryCount == n
      ensures b.addrs == addrs && b.retryDelay == retryDelay && b.retryJitter == retryJitter
    {
      this.(retryCount := n)
    }

    /** Replaces the base delay between attempts and nothing else. */
    function RetryDelay(ms: nat): (b: RedlockBuilder<A>)
      ensures b.retryDelay == ms
      ensures b.addrs == addrs && b.retryCount == retryCount && b.retryJitter == retryJitter
    {
      this.(retryDelay := ms)
    }

    /** Replaces the jitter bound and nothing else. */
    function RetryJitter(ms: nat): (b: RedlockBuilder<A>)
      ensures b.retryJitter == ms
      ensures b.addrs == addrs && b.retryCount == retryCount && b.retryDelay == retryDelay
    {
      this.(retryJitter := ms)
    }
  }

  /** A builder over `addrs` with the documented defaults. */
  function New<A>(addrs: seq<A>): (b: RedlockBuilder<A>)
    ensures b.addrs == addrs
    ensures b.retryCount == 3 && b.retryDelay == 200 && b.retryJitter == 50
  {
    RedlockBuilder(addrs, 3, 200, 50)
  }

  /** Opens a client per address, in order, and stops at the first address that
      fails to open; on success copies the retry policy, sets the quorum from the
      number of clients and the drift factor to 0.01. */
  method Build<A, C>(b: RedlockBuilder<A>, open: A -> Opened<C>) returns (r: Result<Redsync<C>>)
    ensures r.Success? <==> forall i :: 0 <= i < |b.addrs| ==> open(b.addrs[i]).Opened?
    ensures r.Success? ==>
      |r.value.cluster| == |b.addrs| &&
      (forall i :: 0 <= i < |b.addrs| ==> r.value.cluster[i] == open(b.addrs[i]).client) &&
      r.value.quorum == Quorum(|b.addrs|) &&
      r.value.retryCount == b.retryCount &&
      r.value.retryDelay == b.retryDelay &&
      r.value.retryJitter == b.retryJitter &&
      r.value.driftNum == 1 && r.value.driftDen == 100
    ensures r.Failure? ==>
      exists i :: 0 <= i < |b.addrs| && open(b.addrs[i]).OpenFailed? &&
        (forall j :: 0 <= j < i ==> open(b.addrs[j]).Opened?) &&
        r.error == RedisError(open(b.addrs[i]).message)
  {
    var clients: seq<C> := [];
    for i := 0 to |b.addrs|
      invariant |clients| == i
      invariant forall j :: 0 <= j < i ==> open(b.addrs[j]).Opened? && clients[j] == open(b.addrs[j]).client
    {
      var client := open(b.addrs[i]);
      if client.OpenFailed? {
        return Failure(RedisError(client.message));
      }
      clients := clients + [client.client];
    }
    var quorum := (|clients| % U32) / 2 + 1;
    r := Success(Redsync(clients, quorum, b.retryCount, b.retryDelay, b.retryJitter, 1, 100));
  }
}
