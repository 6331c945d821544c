/** Errors of the lock manager, the aggregate `MultiError` and their display text. */
module Errors {

  /** A reply of a Redis server, as the redis client library hands it back. */
  datatype Value =
    | Nil
    | Int(n: int)
    | Data(bytes: seq<bv8>)
    | Bulk(items: seq<Value>)
    | Status(text: string)
    | Okay

  /** Every error the lock manager produces; the three aggregate variants carry
      the contents of a `MultiError`. */
  datatype RedsyncError =
    | RedisError(message: string)
    | UnexpectedResponse(reply: Value)
    | ResourceLocked
    | InvalidLease
    | LockRetriesExceeded(errors: seq<RedsyncError>)
    | ExtendRetriesExceeded(errors: seq<RedsyncError>)
    | UnlockFailed(errors: seq<RedsyncError>)

  datatype Result<T> = Success(value: T) | Failure(error: RedsyncError)

  /** A list of errors collected from the instances of a cluster. */
  class MultiError {
    var errors: seq<RedsyncError>

    /** An empty collection. */
    constructor ()
      ensures errors == []
    {
      errors := [];
    }

    /** Empties the collection, whatever it held. */
    method Reset()
      modifies this
      ensures errors == []
    {
      errors := [];
    }

    /** Appends through the mutable view of the underlying vector. */
    method Push(e: RedsyncError)
      modifies this
      ensures errors == old(errors) + [e]
    {
      errors := errors + [e];
    }

    /** Whether some element equals `e`. */
    function Includes(e: RedsyncError): (b: bool)
      reads this
      ensures b <==> exists i :: 0 <= i < |errors| && errors[i] == e
    {
      e in errors
    }

    /** The `Display` text, written header first and then one line per error. */
    method Fmt(debug: Value -> string) returns (s: string)
      ensures s == MultiErrorText(errors, debug)
    {
      s := DecimalText(|errors|) + " errors occurred:";
      for i := 0 to |errors|
        invariant s == DecimalText(|errors|) + " errors occurred:" + Items(errors[..i], debug)
      {
        assert errors[..i + 1][..i] == errors[..i];
        s := s + "\n\t * " + ErrorText(errors[i], debug);
      }
      assert errors[..|errors|] == errors;
    }
  }

  function Digit(d: nat): (c: char)
    requires d < 10
    ensures '0' <= c <= '9' && c as int - '0' as int == d
  {
    ('0' as int + d) as char
  }

  /** The decimal rendering of a count, most significant digit first. */
  function DecimalText(n: nat): (s: string)
    ensures 1 <= |s|
    ensures forall i :: 0 <= i < |s| ==> '0' <= s[i] <= '9'
    ensures n > 0 ==> s[0] != '0'
  {
    if n < 10 then [Digit(n)] else DecimalText(n / 10) + [Digit(n % 10)]
  }

  /** Reads a string of decimal digits back as a number. */
  function DecimalValue(s: string): nat
    requires forall i :: 0 <= i < |s| ==> '0' <= s[i] <= '9'
  {
    if s == [] then 0 else 10 * DecimalValue(s[..|s| - 1]) + (s[|s| - 1] as int - '0' as int)
  }

  /** The rendering of a count reads back as that count. */
  lemma {:induction false} DecimalRoundTrip(n: nat)
    ensures DecimalValue(DecimalText(n)) == n
  {
    if n >= 10 {
      DecimalRoundTrip(n / 10);
      var s := DecimalText(n);
      assert s[..|s| - 1] == DecimalText(n / 10);
    }
  }

  /** The message of each error; `debug` renders a server reply (the client
      library's debug format). */
  function ErrorText(e: RedsyncError, debug: Value -> string): string
    decreases e, 2
  {
    match e
    case RedisError(m) => m
    case UnexpectedResponse(v) => "invalid response from Redis server: " + debug(v)
    case ResourceLocked => "requested resource is current locked"
    case InvalidLease => "invalid or expired lease on lock"
    case LockRetriesExceeded(errs) => "lock attempt failed: max retries exceeded: " + MultiErrorText(errs, debug)
    case ExtendRetriesExceeded(errs) => "extend attempt failed: max retries exceeded: " + MultiErrorText(errs, debug)
    case UnlockFailed(errs) => "unlock attempt failed: " + MultiErrorText(errs, debug)
  }

  /** The message of every variant: a client error shows its own text, the
      reply and lease errors a fixed text, and each aggregate its prefix
      followed by the display of the errors it holds. */
  lemma ErrorMessages(e: RedsyncError, debug: Value -> string)
    ensures e.RedisError? ==> ErrorText(e, debug) == e.message
    ensures e.UnexpectedResponse? ==>
      ErrorText(e, debug) == "invalid response from Redis server: " + debug(e.reply)
    ensures e == ResourceLocked ==> ErrorText(e, debug) == "requested resource is current locked"
    ensures e == InvalidLease ==> ErrorText(e, debug) == "invalid or expired lease on lock"
    ensures e.LockRetriesExceeded? ==>
      ErrorText(e, debug) == "lock attempt failed: max retries exceeded: " + MultiErrorText(e.errors, debug)
    ensures e.ExtendRetriesExceeded? ==>
      ErrorText(e, debug) == "extend attempt failed: max retries exceeded: " + MultiErrorText(e.errors, debug)
    ensures e.UnlockFailed? ==>
      ErrorText(e, debug) == "unlock attempt failed: " + MultiErrorText(e.errors, debug)
  {
    match e
    case RedisError(_) =>
    case UnexpectedResponse(_) =>
    case ResourceLocked =>
    case InvalidLease =>
    case LockRetriesExceeded(_) =>
    case ExtendRetriesExceeded(_) =>
    case UnlockFailed(_) =>
  }

  /** The `Display` text of a `MultiError`: the count, then one line per error. */
  function MultiErrorText(errs: seq<RedsyncError>, debug: Value -> string): string
    decreases errs, 1
  {
    DecimalText(|errs|) + " errors occurred:" + Items(errs, debug)
  }

  /** One "\n\t * message" line per error, in order. */
  function Items(errs: seq<RedsyncError>, debug: Value -> string): string
    decreases errs, 0
  {
    if errs == [] then ""
    else Items(errs[..|errs| - 1], debug) + "\n\t * " + ErrorText(errs[|errs| - 1], debug)
  }

  /** The lines of two lists of errors are the lines of each, one after the other. */
  lemma {:induction false} ItemsAppend(a: seq<RedsyncError>, b: seq<RedsyncError>, debug: Value -> string)
    ensures Items(a + b, debug) == Items(a, debug) + Items(b, debug)
    decreases |b|
  {
    if b == [] {
      assert a + b == a;
    } else {
      assert (a + b)[..|a + b| - 1] == a + b[..|b| - 1];
      ItemsAppend(a, b[..|b| - 1], debug);
    }
  }

  /** Element `i` of a list of errors owns exactly one line of the display,
      between the lines of the elements before it and those after it. */
  lemma {:induction false} ItemsAt(errs: seq<RedsyncError>, i: nat, debug: Value -> string)
    requires i < |errs|
    ensures Items(errs, debug) ==
      Items(errs[..i], debug) + "\n\t * " + ErrorText(errs[i], debug) + Items(errs[i + 1..], debug)
  {
    var front := errs[..i + 1];
    assert errs == front + errs[i + 1..];
    ItemsAppend(front, errs[i + 1..], debug);
    assert front[..|front| - 1] == errs[..i];
  }

  /** An empty collection displays as a header alone. */
  lemma EmptyDisplay(debug: Value -> string)
    ensures MultiErrorText([], debug) == "0 errors occurred:"
  {
  }
}
