/**
 * generateID and retryOnError from the vendored overlay2 driver: a random identifier of `l`
 * base 32 symbols, read from the system's random source with a bounded retry and a linear
 * backoff. The random source is `read`: `read(k, m)` is what io.ReadFull gives back on the
 * k-th attempt when `m` bytes are still wanted. Sleeping is recorded, not performed.
 */
module RandomId {

  import opened Wrappers
  import Base32

  const MaxRetries := 9
  /** The backoff unit, in milliseconds. */
  const BackoffMs := 10
  const EPERM := 1

  /** The error values the read can give: an *os.PathError, a syscall.Errno or anything else. */
  datatype Error =
    | PathError(op: string, path: string, err: Error)
    | Errno(code: nat)
    | OtherError(text: string)

  /** retryOnError: looks through path errors for EPERM, the sign of an exhausted entropy pool. */
  function RetryOnError(e: Error): bool {
    match e
    case PathError(_, _, inner) => RetryOnError(inner)
    case Errno(code) => code == EPERM
    case OtherError(_) => false
  }

  /** The error at the bottom of a chain of path errors. */
  function Unwrap(e: Error): (r: Error)
    ensures !r.PathError?
  {
    if e.PathError? then Unwrap(e.err) else e
  }

  /** Retrying is fruitful exactly for EPERM, however many path errors wrap it. */
  lemma {:induction false} RetryOnlyOnEperm(e: Error)
    ensures RetryOnError(e) <==> Unwrap(e) == Errno(EPERM)
  {
    if e.PathError? {
      RetryOnlyOnEperm(e.err);
    }
  }

  // ---------------------------------------------------------------------------------------
  // The random source

  /** What io.ReadFull returned: the bytes it placed in the buffer and its error. */
  datatype ReadResult = ReadResult(data: seq<Base32.byte>, err: Option<Error>)

  /** io.ReadFull's guarantee: without an error the buffer is full, with one it is not. */
  predicate ReadsFully(r: ReadResult, wanted: nat) {
    (r.err.None? ==> |r.data| == wanted) && (r.err.Some? ==> |r.data| < wanted)
  }

  /** The bytes delivered by the first `k` attempts, each asked for what was still missing. */
  function Delivered(read: (nat, nat) -> ReadResult, size: nat, k: nat): seq<Base32.byte>
    decreases k
  {
    if k == 0 then []
    else
      var d := Delivered(read, size, k - 1);
      d + read(k - 1, if |d| <= size then size - |d| else 0).data
  }

  // ---------------------------------------------------------------------------------------
  // Sizes and backoff

  /** Go's integer division, which truncates toward zero. */
  function GoDiv(a: int, b: int): (q: int)
    requires b > 0
    ensures a >= 0 ==> q == a / b
  {
    if a >= 0 then a / b else -((-a) / b)
  }

  /** The number of random bytes behind `l` symbols: (l*5 + 7) / 8. */
  function Size(l: int): int {
    GoDiv(l * 5 + 7, 8)
  }

  /** For l >= 0 the size is ⌈5l/8⌉: just enough bits for l five-bit symbols. */
  lemma SizeIsCeiling(l: int)
    requires l >= 0
    ensures 5 * l <= 8 * Size(l) < 5 * l + 8
  {
  }

  /** The total backoff after `k` attempts: 10ms × (0 + 1 + … + (k-1)). */
  function TotalBackoff(k: nat): nat {
    if k == 0 then 0 else TotalBackoff(k - 1) + BackoffMs * (k - 1)
  }

  /** The sum of a list of sleeps. */
  function Sum(s: seq<nat>): nat {
    if s == [] then 0 else Sum(s[..|s| - 1]) + s[|s| - 1]
  }

  /** With at most 9 retries the agent sleeps for at most 450ms in all. */
  lemma {:induction false} BackoffBound(k: nat)
    requires k <= MaxRetries + 1
    ensures TotalBackoff(k) <= 450
    decreases MaxRetries + 1 - k
  {
    if k < MaxRetries + 1 {
      BackoffBound(k + 1);
    } else {
      assert TotalBackoff(10) == 450;
    }
  }

  // ---------------------------------------------------------------------------------------
  // generateID

  datatype IdOutcome =
    | Generated(id: string)
    | MakeSlicePanic                          // make with a negative size
    | ReadPanic(retriedForMs: nat, err: Error)
    | SliceBoundsPanic                        // s[:l] out of range

  /** The sleeps of successive attempts: 0ms, 10ms, 20ms, …, for at most ten attempts. */
  predicate LinearBackoff(sleeps: seq<nat>) {
    |sleeps| <= MaxRetries + 1 && forall i :: 0 <= i < |sleeps| ==> sleeps[i] == BackoffMs * i
  }

  lemma {:induction false} LinearBackoffSum(sleeps: seq<nat>)
    requires LinearBackoff(sleeps)
    ensures Sum(sleeps) == TotalBackoff(|sleeps|) <= 450
    decreases |sleeps|
  {
    if sleeps != [] {
      LinearBackoffSum(sleeps[..|sleeps| - 1]);
    }
    BackoffBound(|sleeps|);
  }

  lemma LinearBackoffNext(sleeps: seq<nat>)
    requires LinearBackoff(sleeps) && |sleeps| <= MaxRetries
    ensures LinearBackoff(sleeps + [BackoffMs * |sleeps|])
  {
  }

  lemma DeliveredNext(read: (nat, nat) -> ReadResult, size: nat, k: nat)
    requires |Delivered(read, size, k)| <= size
    ensures Delivered(read, size, k + 1)
         == Delivered(read, size, k) + read(k, size - |Delivered(read, size, k)|).data
  {
  }

  /** The bytes still wanted on attempt `k`. */
  function Wanted(read: (nat, nat) -> ReadResult, size: nat, k: nat): nat {
    var d := Delivered(read, size, k);
    if |d| <= size then size - |d| else 0
  }

  /** What io.ReadFull gives back on attempt `k`. */
  function AttemptResult(read: (nat, nat) -> ReadResult, size: nat, k: nat): ReadResult {
    read(k, Wanted(read, size, k))
  }

  /**
   * The number of attempts the loop makes once attempts 0 … k-1 have failed with an error worth
   * retrying: it stops at the first attempt that succeeds, fails with an error not worth
   * retrying, or fails after 9 retries.
   */
  function Attempts(read: (nat, nat) -> ReadResult, size: nat, k: nat): (n: nat)
    requires k <= MaxRetries
    ensures k < n <= MaxRetries + 1
    decreases MaxRetries - k
  {
    if Retryable(read, size, k) && k < MaxRetries then Attempts(read, size, k + 1) else k + 1
  }

  /** Attempt k's read, when the k attempts before it delivered `count` bytes. */
  lemma AttemptAt(read: (nat, nat) -> ReadResult, size: nat, k: nat, count: nat)
    requires count <= size && count == |Delivered(read, size, k)|
    ensures AttemptResult(read, size, k) == read(k, size - count)
  {
  }

  /** Attempt k failed with an error worth retrying. */
  predicate Retryable(read: (nat, nat) -> ReadResult, size: nat, k: nat) {
    var r := AttemptResult(read, size, k);
    r.err.Some? && RetryOnError(r.err.value)
  }

  /** Every attempt before the n-th failed with an error worth retrying. */
  predicate RetriedBelow(read: (nat, nat) -> ReadResult, size: nat, n: nat) {
    forall k :: 0 <= k < n ==> Retryable(read, size, k)
  }

  /** One more retryable attempt extends `RetriedBelow`; the loop's retry branch needs it. */
  lemma RetriedOnce(read: (nat, nat) -> ReadResult, size: nat, n: nat)
    requires RetriedBelow(read, size, n) && Retryable(read, size, n)
    ensures RetriedBelow(read, size, n + 1)
  {
  }

  /** A loop that retried n times and then stopped at the (n+1)-th attempt stops after n + 1. */
  lemma StopsHere(read: (nat, nat) -> ReadResult, size: nat, n: nat)
    requires n <= MaxRetries && RetriedBelow(read, size, n)
    requires n == MaxRetries || !Retryable(read, size, n)
    ensures StopsAfter(read, size, n + 1)
  {
  }

  /**
   * The loop stops after n attempts: every attempt before the last failed with an error worth
   * retrying, and the last is the tenth or is not retryable.
   */
  predicate StopsAfter(read: (nat, nat) -> ReadResult, size: nat, n: nat) {
    && 1 <= n <= MaxRetries + 1
    && (forall k :: 0 <= k < n - 1 ==> Retryable(read, size, k))
    && (n - 1 == MaxRetries || !Retryable(read, size, n - 1))
  }

  /** `StopsAfter` holds of exactly one count, the number of attempts the loop makes. */
  lemma AttemptsExactly(read: (nat, nat) -> ReadResult, size: nat, n: nat)
    requires StopsAfter(read, size, n)
    ensures Attempts(read, size, 0) == n
  {
    AttemptsFrom(read, size, 0, n);
  }

  lemma {:induction false} AttemptsFrom(read: (nat, nat) -> ReadResult, size: nat, k: nat, n: nat)
    requires k < n <= MaxRetries + 1
    requires forall j :: k <= j < n - 1 ==> Retryable(read, size, j)
    requires n - 1 == MaxRetries || !Retryable(read, size, n - 1)
    ensures Attempts(read, size, k) == n
    decreases n - k
  {
    if k < n - 1 {
      assert Retryable(read, size, k);
      AttemptsFrom(read, size, k + 1, n);
    }
  }

  /** The error generateID panics with, or None when its reads fill the buffer. */
  function Failure(read: (nat, nat) -> ReadResult, size: nat): Option<Error> {
    AttemptResult(read, size, Attempts(read, size, 0) - 1).err
  }

  /** The loop's last attempt is the tenth or one not worth retrying. */
  lemma {:induction false} AttemptsLast(read: (nat, nat) -> ReadResult, size: nat, k: nat)
    requires k <= MaxRetries
    ensures var n := Attempts(read, size, k);
            n - 1 == MaxRetries || !Retryable(read, size, n - 1)
    decreases MaxRetries - k
  {
    if Retryable(read, size, k) && k < MaxRetries {
      AttemptsLast(read, size, k + 1);
    }
  }

  /** An honest source never delivers more than the buffer holds. */
  lemma {:induction false} DeliveredBounded(read: (nat, nat) -> ReadResult, size: nat, k: nat)
    requires forall j: nat, m: nat :: ReadsFully(read(j, m), m)
    ensures |Delivered(read, size, k)| <= size
    decreases k
  {
    if k > 0 {
      DeliveredBounded(read, size, k - 1);
      assert ReadsFully(AttemptResult(read, size, k - 1), Wanted(read, size, k - 1));
    }
  }

  /** A read without an error completes the buffer. */
  lemma DeliveredFills(read: (nat, nat) -> ReadResult, size: nat, k: nat)
    requires forall j: nat, m: nat :: ReadsFully(read(j, m), m)
    requires AttemptResult(read, size, k).err.None?
    ensures |Delivered(read, size, k + 1)| == size
  {
    DeliveredBounded(read, size, k);
    assert ReadsFully(AttemptResult(read, size, k), Wanted(read, size, k));
  }

  /** A first read that fills the buffer ends the loop at once. */
  lemma FirstReadSucceeds(read: (nat, nat) -> ReadResult, size: nat)
    requires read(0, size).err.None?
    ensures Attempts(read, size, 0) == 1 && Failure(read, size).None?
  {
  }

  /** A first read failing with anything but EPERM is fatal at once. */
  lemma FirstReadFatal(read: (nat, nat) -> ReadResult, size: nat)
    requires read(0, size).err.Some? && Unwrap(read(0, size).err.value) != Errno(EPERM)
    ensures Attempts(read, size, 0) == 1 && Failure(read, size) == read(0, size).err
  {
    RetryOnlyOnEperm(read(0, size).err.value);
  }

  /** A source that always answers EPERM is tried ten times, and the last error is reported. */
  lemma {:induction false} EpermExhausts(read: (nat, nat) -> ReadResult, size: nat, k: nat)
    requires forall j: nat, m: nat :: read(j, m).err == Some(Errno(EPERM))
    requires k <= MaxRetries
    ensures Attempts(read, size, k) == MaxRetries + 1
    ensures AttemptResult(read, size, MaxRetries).err == Some(Errno(EPERM))
    decreases MaxRetries - k
  {
    assert AttemptResult(read, size, k).err == Some(Errno(EPERM));
    if k < MaxRetries {
      EpermExhausts(read, size, k + 1);
    }
  }

  /** io.ReadFull's copy of `data` into `u[at:]`. */
  method Place(u: array<Base32.byte>, at: nat, data: seq<Base32.byte>)
    requires at + |data| <= u.Length
    modifies u
    ensures u[..at + |data|] == old(u[..at]) + data
  {
    ghost var prefix := u[..at];
    forall i | at <= i < at + |data| {
      u[i] := data[i - at];
    }
    assert u[..at] == prefix;
  }

  /**
   * One attempt of the retry loop: io.ReadFull(rand.Reader, u[count:]) on the attempt numbered
   * `retries`, with the bytes it delivers placed after the `count` already there.
   */
  method Attempt(u: array<Base32.byte>, read: (nat, nat) -> ReadResult, count: nat, retries: nat)
    returns (r: ReadResult)
    requires forall k: nat, m: nat :: ReadsFully(read(k, m), m)
    requires count <= u.Length && u[..count] == Delivered(read, u.Length, retries)
    modifies u
    ensures r == read(retries, u.Length - count) == AttemptResult(read, u.Length, retries)
    ensures r.err.None? ==> u[..] == Delivered(read, u.Length, retries + 1)
    ensures r.err.Some? ==> count + |r.data| < u.Length
    ensures r.err.Some? ==> u[..count + |r.data|] == Delivered(read, u.Length, retries + 1)
  {
    r := read(retries, u.Length - count);
    AttemptAt(read, u.Length, retries, count);
    assert ReadsFully(r, u.Length - count);
    DeliveredNext(read, u.Length, retries);
    Place(u, count, r.data);
    if r.err.None? {
      assert u[..] == u[..count + |r.data|];
    }
  }

  /** The sleep before an attempt: retries × 10ms, recorded, and added to the running total. */
  method Backoff(sleeps: seq<nat>, totalBackoff: nat) returns (sleeps': seq<nat>, totalBackoff': nat)
    requires LinearBackoff(sleeps) && |sleeps| <= MaxRetries && totalBackoff == TotalBackoff(|sleeps|)
    ensures sleeps' == sleeps + [BackoffMs * |sleeps|] && LinearBackoff(sleeps')
    ensures totalBackoff' == TotalBackoff(|sleeps'|)
  {
    var b := |sleeps| * BackoffMs;
    LinearBackoffNext(sleeps);
    sleeps' := sleeps + [b];
    totalBackoff' := totalBackoff + b;
  }

  /**
   * The retry loop of generateID: reads into `u` what is still missing, sleeping 10ms × retries
   * before each attempt, until a read fills the buffer, fails with an error not worth retrying,
   * or fails after 9 retries.
   */
  method FillRandom(u: array<Base32.byte>, read: (nat, nat) -> ReadResult)
    returns (failure: Option<Error>, totalBackoff: nat, sleeps: seq<nat>)
    requires forall k: nat, m: nat :: ReadsFully(read(k, m), m)
    modifies u
    ensures StopsAfter(read, u.Length, |sleeps|) && LinearBackoff(sleeps) && totalBackoff == Sum(sleeps)
    ensures failure == AttemptResult(read, u.Length, |sleeps| - 1).err
    ensures failure.None? ==> u[..] == Delivered(read, u.Length, |sleeps|)
    ensures failure.Some? ==> !RetryOnError(failure.value) || |sleeps| == MaxRetries + 1
    ensures u.Length == 0 ==> failure.None?
  {
    var size := u.Length;
    sleeps := [];
    totalBackoff := 0;
    var count: nat := 0;
    var retries: nat := 0;
    while true
      invariant retries <= MaxRetries
      invariant |sleeps| == retries && LinearBackoff(sleeps)
      invariant totalBackoff == TotalBackoff(retries)
      invariant count <= size && u[..count] == Delivered(read, size, retries)
      invariant RetriedBelow(read, size, retries)
      decreases MaxRetries - retries
    {
      sleeps, totalBackoff := Backoff(sleeps, totalBackoff);
      var r := Attempt(u, read, count, retries);
      if r.err.Some? && RetryOnError(r.err.value) && retries < MaxRetries {
        assert Retryable(read, size, retries);
        RetriedOnce(read, size, retries);
        count := count + |r.data|;
        retries := retries + 1;
        assert u[..count] == Delivered(read, size, retries);
      } else {
        StopsHere(read, size, retries);
        failure := r.err;
        break;
      }
    }
    LinearBackoffSum(sleeps);
  }

  /**
   * What generateID(l) gives back, by the reference definition of the retry loop: a negative
   * size fails in make; otherwise the loop makes `Attempts` reads and either panics with the
   * last read's error and the total backoff, or encodes the bytes delivered and slices them.
   */
  function IdResult(read: (nat, nat) -> ReadResult, l: int): IdOutcome {
    var size := Size(l);
    if size < 0 then MakeSlicePanic
    else
      var n := Attempts(read, size, 0);
      match AttemptResult(read, size, n - 1).err
      case Some(e) => ReadPanic(TotalBackoff(n), e)
      case None =>
        var s := Base32.Encode(Delivered(read, size, n));
        if l < 0 || l > |s| then SliceBoundsPanic else Generated(s[..l])
  }

  /** After n attempts ending in an error, generateID panics with it and the total backoff. */
  lemma PanicResult(read: (nat, nat) -> ReadResult, l: int, n: nat)
    requires Size(l) >= 0 && 1 <= n && Attempts(read, Size(l), 0) == n
    requires AttemptResult(read, Size(l), n - 1).err.Some?
    ensures IdResult(read, l) == ReadPanic(TotalBackoff(n), AttemptResult(read, Size(l), n - 1).err.value)
  {
  }

  /** After n attempts ending in a full read, generateID slices the encoding of the bytes delivered. */
  lemma EncodedResult(read: (nat, nat) -> ReadResult, l: int, n: nat)
    requires Size(l) >= 0 && 1 <= n && Attempts(read, Size(l), 0) == n
    requires AttemptResult(read, Size(l), n - 1).err.None?
    ensures var s := Base32.Encode(Delivered(read, Size(l), n));
            IdResult(read, l) == if l < 0 || l > |s| then SliceBoundsPanic else Generated(s[..l])
  {
  }

  /**
   * generateID(l): allocates (l*5+7)/8 bytes, fills them from the random source and returns
   * the first l symbols of their base 32 encoding. `sleeps` lists the durations, in
   * milliseconds, passed to time.Sleep.
   */
  method GenerateId(l: int, read: (nat, nat) -> ReadResult) returns (outcome: IdOutcome, sleeps: seq<nat>)
    requires forall k: nat, m: nat :: ReadsFully(read(k, m), m)
    ensures outcome == IdResult(read, l)
    ensures LinearBackoff(sleeps) && Sum(sleeps) <= 450
    ensures sleeps == [] <==> Size(l) < 0
    ensures Size(l) >= 0 ==> |sleeps| == Attempts(read, Size(l), 0)
    ensures outcome.ReadPanic? ==> outcome.retriedForMs == Sum(sleeps)
  {
    var size := Size(l);
    if size < 0 {
      return MakeSlicePanic, [];
    }
    var u := new Base32.byte[size](i => 0);
    var failure, totalBackoff;
    failure, totalBackoff, sleeps := FillRandom(u, read);
    LinearBackoffSum(sleeps);
    AttemptsExactly(read, size, |sleeps|);
    assert Sum(sleeps) == totalBackoff == TotalBackoff(|sleeps|);
    if failure.Some? {
      PanicResult(read, l, |sleeps|);
      return ReadPanic(totalBackoff, failure.value), sleeps;
    }
    EncodedResult(read, l, |sleeps|);
    var s := Base32.Encode(u[..]);
    if l < 0 || l > |s| {
      return SliceBoundsPanic, sleeps;
    }
    return Generated(s[..l]), sleeps;
  }

  /**
   * The outcomes of generateID: make fails exactly for l <= -3 and the slice exactly for
   * -3 < l < 0; a read panic reports at most 450ms of backoff and an error not worth retrying
   * or the tenth failure; an identifier has l symbols of the alphabet.
   */
  lemma IdResultMeaning(read: (nat, nat) -> ReadResult, l: int)
    requires forall k: nat, m: nat :: ReadsFully(read(k, m), m)
    ensures IdResult(read, l).MakeSlicePanic? <==> l <= -3
    ensures IdResult(read, l).SliceBoundsPanic? <==> -3 < l < 0
    ensures IdResult(read, l).ReadPanic? ==>
              && IdResult(read, l).retriedForMs <= 450
              && (!RetryOnError(IdResult(read, l).err) || Attempts(read, Size(l), 0) == MaxRetries + 1)
    ensures IdResult(read, l).Generated? ==>
              && |IdResult(read, l).id| == l
              && forall i :: 0 <= i < l ==> IdResult(read, l).id[i] in Base32.Alphabet
  {
    var size := Size(l);
    if size >= 0 {
      var n := Attempts(read, size, 0);
      BackoffBound(n);
      AttemptsLast(read, size, 0);
      if -3 < l < 0 {
        assert size == 0;
        assert ReadsFully(AttemptResult(read, 0, n - 1), Wanted(read, 0, n - 1));
      }
      if l >= 0 && AttemptResult(read, size, n - 1).err.None? {
        SizeIsCeiling(l);
        DeliveredFills(read, size, n - 1);
      }
    }
  }

  /** The identifiers the overlay driver asks for, 26 symbols, come from 17 random bytes. */
  lemma LinkIdSize()
    ensures Size(26) == 17 && Base32.SymbolCount(17) == 28
  {
  }
}
