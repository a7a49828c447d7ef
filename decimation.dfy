/** Reduce-FPS decimation: with the option on, each accepted preview frame
    increments the shared counter `vFps`, and the frame is dropped when the
    new value is even. */
module Decimation {
  import opened JavaArith

  /** The frame that moved the counter to `next` is dropped. */
  predicate DropsAt(next: int32)
  {
    JavaRem(next as int, 2) == 0
  }

  /** The counter after `n` accepted frames, starting from `c`. */
  function Advance(c: int32, n: nat): int32
    decreases n
  {
    if n == 0 then c else Advance(Inc32(c), n - 1)
  }

  /** How many of `n` consecutive accepted frames are delivered, counter
      starting at `c`. */
  function Delivered(c: int32, n: nat): (d: nat)
    ensures d <= n
    decreases n
  {
    if n == 0 then 0
    else (if DropsAt(Inc32(c)) then 0 else 1) + Delivered(Inc32(c), n - 1)
  }

  /** The counter is shared and never reset, so a run of frames can be
      split anywhere: the second part starts from the counter the first
      part left behind. */
  lemma {:induction false} DeliveredSplits(c: int32, m: nat, n: nat)
    ensures Delivered(c, m + n) == Delivered(c, m) + Delivered(Advance(c, m), n)
    decreases m
  {
    if m > 0 {
      DeliveredSplits(Inc32(c), m - 1, n);
      assert m + n - 1 == (m - 1) + n;
    }
  }

  /** Two consecutive frames: exactly one of them is delivered. */
  lemma PairDeliversOne(c: int32)
    ensures DropsAt(Inc32(c)) != DropsAt(Inc32(Inc32(c)))
  {
    Inc32FlipsParity(Inc32(c));
  }

  /** Of any 2N consecutive accepted frames exactly N are delivered. */
  lemma {:induction false} HalfDelivered(c: int32, n: nat)
    ensures Delivered(c, 2 * n) == n
    decreases n
  {
    if n > 0 {
      PairDeliversOne(c);
      HalfDelivered(Inc32(Inc32(c)), n - 1);
      assert Delivered(Inc32(c), 2 * n - 1)
          == (if DropsAt(Inc32(Inc32(c))) then 0 else 1) + Delivered(Inc32(Inc32(c)), 2 * (n - 1));
    }
  }

  /** Of 2N+1 consecutive accepted frames, N or N+1 are delivered. */
  lemma OddWindow(c: int32, n: nat)
    ensures n <= Delivered(c, 2 * n + 1) <= n + 1
  {
    HalfDelivered(Inc32(c), n);
  }
}
