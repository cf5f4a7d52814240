/** The timeout of `poll` across interruptions. Clock readings are in
    nanoseconds; the timeout is an `int` of milliseconds. */
module Timeout {
  import opened Poll

  const NS_PER_MS := 1_000_000
  const INT_MAX := 0x7fff_ffff
  const INT_MODULUS := 0x1_0000_0000

  function Max(a: int, b: int): int { if a < b then b else a }

  /** Conversion of a 64-bit count to `int`. */
  function ToInt(x: int): int {
    (x + 0x8000_0000) % INT_MODULUS - 0x8000_0000
  }

  /** `duration_cast` to milliseconds, which truncates. */
  function Millis(start: int, now: int): int
    requires start <= now
  {
    (now - start) / NS_PER_MS
  }

  /** None when the subtraction overflows an `int`, which is undefined. */
  function RemainingDuration(duration: int, start: int, now: int): Option<int>
    requires start <= now
  {
    var left := duration - ToInt(Millis(start, now));
    if left > INT_MAX then None else Some(Max(0, left))
  }

  ghost predicate Monotone(readings: seq<int>) {
    forall i, j :: 0 <= i < j < |readings| ==> readings[i] <= readings[j]
  }

  /** The timeout after one interruption per reading past the first. */
  function Left(duration: int, readings: seq<int>): Option<int>
    requires Monotone(readings)
  {
    if |readings| <= 1 || duration < 0 then Some(duration)
    else
      var n := |readings| - 1;
      var left := Left(duration, readings[..n]);
      if left.None? then None else RemainingDuration(left.value, readings[n - 1], readings[n])
  }

  /** The truncated intervals, added up. */
  function Elapsed(readings: seq<int>): nat
    requires Monotone(readings)
  {
    if |readings| <= 1 then 0
    else
      var n := |readings| - 1;
      Elapsed(readings[..n]) + Millis(readings[n - 1], readings[n])
  }

  /** The loop of `poll_`: `readings[0]` is taken before the first call, and one
      more reading after each interrupted call. */
  method PollTimeout(duration: int, readings: seq<int>) returns (left: Option<int>)
    requires readings != [] && Monotone(readings)
    ensures left == Left(duration, readings)
    ensures duration < 0 ==> left == Some(duration)
  {
    left := Some(duration);
    var start := readings[0];
    for i := 1 to |readings|
      invariant start == readings[i - 1]
      invariant left == Left(duration, readings[..i])
      invariant duration < 0 ==> left == Some(duration)
      invariant duration >= 0 && left.Some? ==> left.value >= 0
    {
      assert readings[..i + 1][..i] == readings[..i];
      var oldStart := start;
      start := readings[i];
      if left.Some? && left.value > -1 {
        left := RemainingDuration(left.value, oldStart, start);
      }
    }
    assert readings[..|readings|] == readings;
  }

  /** One interval of any length gives the right remainder if and only if it
      fits an `int`, or wraps to at least the whole duration. */
  lemma NarrowingExactly(duration: int, start: int, now: int)
    requires 0 <= duration <= INT_MAX && start <= now
    ensures RemainingDuration(duration, start, now) == Some(Max(0, duration - Millis(start, now))) <==>
            Millis(start, now) <= INT_MAX || ToInt(Millis(start, now)) >= duration
  {
  }

  lemma {:induction false} LeftRange(duration: int, readings: seq<int>)
    requires 0 <= duration <= INT_MAX && Monotone(readings)
    ensures Left(duration, readings).Some? ==> 0 <= Left(duration, readings).value <= INT_MAX
  {
    if |readings| > 1 { LeftRange(duration, readings[..|readings| - 1]); }
  }

  /** Truncation loses less than a millisecond per interval. */
  lemma {:induction false} ElapsedBounds(readings: seq<int>)
    requires readings != [] && Monotone(readings)
    ensures var e, k := readings[|readings| - 1] - readings[0], |readings| - 1;
            Elapsed(readings) * NS_PER_MS <= e <= Elapsed(readings) * NS_PER_MS + k * (NS_PER_MS - 1)
  {
    if |readings| > 1 {
      var n := |readings| - 1;
      ElapsedBounds(readings[..n]);
      assert readings[..n][n - 1] == readings[n - 1];
    }
  }

  lemma {:induction false} LeftAtLeast(duration: int, readings: seq<int>)
    requires 0 <= duration && Monotone(readings)
    ensures Left(duration, readings).Some? ==> Left(duration, readings).value >= Max(0, duration - Elapsed(readings))
  {
    if |readings| > 1 { LeftAtLeast(duration, readings[..|readings| - 1]); }
  }

  /** A wait is never cut short: over any interruptions at any distance, what is
      left is at least the duration minus the true elapsed time. */
  lemma NeverCutShort(duration: int, readings: seq<int>)
    requires 0 <= duration && readings != [] && Monotone(readings)
    ensures Left(duration, readings).Some? ==>
              Left(duration, readings).value * NS_PER_MS >=
              Max(0, duration * NS_PER_MS - (readings[|readings| - 1] - readings[0]))
  {
    LeftAtLeast(duration, readings);
    ElapsedBounds(readings);
  }

  // --- When the remaining timeout is right ---

  /** The remaining timeout after the first `n` readings is what it should be. */
  ghost predicate ExactAt(duration: int, readings: seq<int>, n: nat)
    requires Monotone(readings) && n <= |readings|
  {
    Left(duration, readings[..n]) == Some(Max(0, duration - Elapsed(readings[..n])))
  }

  /** The interval that ends with reading `n` does not fit an `int`, and what it
      wraps to does not exhaust what is left of the duration. */
  ghost predicate Forgotten(duration: int, readings: seq<int>, n: nat)
    requires Monotone(readings) && 0 < n < |readings|
  {
    var ms := Millis(readings[n - 1], readings[n]);
    ms > INT_MAX && ToInt(ms) < Max(0, duration - Elapsed(readings[..n]))
  }

  lemma ExactStep(duration: int, readings: seq<int>, n: nat)
    requires 0 <= duration <= INT_MAX && Monotone(readings) && 0 < n < |readings| && ExactAt(duration, readings, n)
    ensures ExactAt(duration, readings, n + 1) <==> !Forgotten(duration, readings, n)
  {
    assert readings[..n + 1][..n] == readings[..n];
    NarrowingExactly(Left(duration, readings[..n]).value, readings[n - 1], readings[n]);
  }

  /** Over any interruptions: the remaining timeout is defined and right
      throughout if and only if no interval is forgotten. */
  lemma {:induction false} ExactThroughout(duration: int, readings: seq<int>, k: nat)
    requires 0 <= duration <= INT_MAX && Monotone(readings) && 0 < k <= |readings|
    ensures (forall n :: 0 < n <= k ==> ExactAt(duration, readings, n)) <==>
            (forall n :: 0 < n < k ==> !Forgotten(duration, readings, n))
  {
    if k == 1 {
      assert ExactAt(duration, readings, 1);
    } else {
      ExactThroughout(duration, readings, k - 1);
      if forall n :: 0 < n <= k - 1 ==> ExactAt(duration, readings, n) {
        ExactStep(duration, readings, k - 1);
      }
    }
  }

  /** Then `k` interruptions prolong a wait by less than `k` milliseconds. */
  lemma {:induction false} DriftBound(duration: int, readings: seq<int>)
    requires 0 <= duration <= INT_MAX && readings != [] && Monotone(readings)
    requires forall n :: 0 < n < |readings| ==> !Forgotten(duration, readings, n)
    ensures var left, e, k := Left(duration, readings), readings[|readings| - 1] - readings[0], |readings| - 1;
            && left == Some(Max(0, duration - Elapsed(readings)))
            && (k > 0 ==> left.value * NS_PER_MS - Max(0, duration * NS_PER_MS - e) < k * NS_PER_MS)
  {
    ExactThroughout(duration, readings, |readings|);
    assert ExactAt(duration, readings, |readings|);
    assert readings[..|readings|] == readings;
    ElapsedBounds(readings);
  }

  // --- When an interruption lengthens the timeout ---

  /** One more interruption, at any distance. It leaves at most what was left if
      and only if its milliseconds, modulo 2^32, fit an `int`; otherwise it adds
      the complement to 2^32, and is undefined if and only if the sum does not fit. */
  lemma {:induction false} LengthensExactly(duration: int, readings: seq<int>, now: int)
    requires 0 <= duration <= INT_MAX && readings != [] && Monotone(readings) && readings[|readings| - 1] <= now
    requires Left(duration, readings).Some?
    ensures Monotone(readings + [now])
    ensures var left, next := Left(duration, readings).value, Left(duration, readings + [now]);
            var ms := Millis(readings[|readings| - 1], now) % INT_MODULUS;
            && (next.Some? && next.value <= left <==> ms <= INT_MAX)
            && (ms > INT_MAX ==> next == if left + INT_MODULUS - ms > INT_MAX then None
                else Some(left + INT_MODULUS - ms))
  {
    var r := readings + [now];
    assert r[..|readings|] == readings && r[|readings| - 1] == readings[|readings| - 1];
    LeftRange(duration, readings);
    ToIntModulus(Millis(readings[|readings| - 1], now));
  }

  lemma ToIntModulus(x: int)
    ensures ToInt(x) == if x % INT_MODULUS <= INT_MAX then x % INT_MODULUS else x % INT_MODULUS - INT_MODULUS
  {
  }

  /** A duration of 1 grows to 1001 when it is interrupted 1000 milliseconds
      before the count of milliseconds wraps. */
  lemma Lengthened()
    ensures Left(1, [0, (INT_MODULUS - 1000) * NS_PER_MS]) == Some(1001)
  {
    var r := [0, (INT_MODULUS - 1000) * NS_PER_MS];
    assert r[..1] == [0];
    assert Millis(0, r[1]) == INT_MODULUS - 1000;
  }

  /** The subtraction overflows for the longest duration and an interval of 2^31. */
  lemma Overflows()
    ensures Left(INT_MAX, [0, 0x8000_0000 * NS_PER_MS]) == None
  {
    var r := [0, 0x8000_0000 * NS_PER_MS];
    assert r[..1] == [0];
    assert Millis(0, r[1]) == 0x8000_0000;
  }

  /** An interruption after 2^32 milliseconds counts as no time at all. */
  lemma NarrowingForgets(duration: int)
    requires 0 <= duration <= INT_MAX
    ensures RemainingDuration(duration, 0, INT_MODULUS * NS_PER_MS) == Some(duration)
  {
  }
}
