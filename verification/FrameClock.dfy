/** The fixed timestep of NetQW_GenerateFrames and NetQW_SetFPS, in integer microseconds. */
module FrameClock {

  /** How many frames are due. */
  function Due(last: int, period: nat, now: int): (n: nat)
    requires period > 0
  {
    if now < last then 0 else (now - last) / period
  }

  /** The clock after `n` frames. */
  function Advanced(last: int, period: nat, n: nat): int {
    if n == 0 then last else Advanced(last, period, n - 1) + period
  }

  lemma {:induction false} AdvancedBy(last: int, period: nat, n: nat)
    ensures Advanced(last, period, n) == last + n * period
  {
    if n > 0 {
      AdvancedBy(last, period, n - 1);
    }
  }

  /** The milliseconds a move time of `t` fills, as stored, and what is left of it. */
  function ByteOf(t: nat): (b: int)
    ensures 0 <= b < 256
  {
    t / 1000 % 256
  }

  function Rest(t: nat): nat {
    t % 1000
  }

  /** The move time left over after `i` frames. */
  function Carry(carry: nat, period: nat, i: nat): (c: nat) {
    if i == 0 then carry else Rest(Carry(carry, period, i - 1) + period)
  }

  /** The whole milliseconds frame `i` accounts for, before they are stored in a byte. */
  function Whole(carry: nat, period: nat, i: nat): nat {
    (Carry(carry, period, i) + period) / 1000
  }

  /** usercmd_t.msec */
  function Msec(carry: nat, period: nat, i: nat): (b: int)
    ensures 0 <= b < 256
  {
    ByteOf(Carry(carry, period, i) + period)
  }

  function TotalWhole(carry: nat, period: nat, n: nat): nat {
    if n == 0 then 0 else TotalWhole(carry, period, n - 1) + Whole(carry, period, n - 1)
  }

  function TotalMsec(carry: nat, period: nat, n: nat): nat {
    if n == 0 then 0 else TotalMsec(carry, period, n - 1) + Msec(carry, period, n - 1)
  }

  /** No time is lost: what the frames account for, plus what is carried, is what has passed. */
  lemma {:induction false} TimeConserved(carry: nat, period: nat, n: nat)
    ensures 1000 * TotalWhole(carry, period, n) + Carry(carry, period, n) == carry + n * period
  {
    if n > 0 {
      TimeConserved(carry, period, n - 1);
      assert (n - 1) * period + period == n * period;
    }
  }

  lemma {:induction false} CarryBelow(carry: nat, period: nat, i: nat)
    requires carry < 1000
    ensures Carry(carry, period, i) < 1000
  {
  }

  /** In bytes: no time is lost while a period and a carry stay under 256 milliseconds. */
  lemma {:induction false} StoredTimeConserved(carry: nat, period: nat, n: nat)
    requires carry < 1000 && period + 999 < 256000
    ensures 1000 * TotalMsec(carry, period, n) + Carry(carry, period, n) == carry + n * period
  {
    TimeConserved(carry, period, n);
    StoredIsWhole(carry, period, n);
  }

  lemma ShortTimeFits(t: nat)
    requires t < 256000
    ensures ByteOf(t) == t / 1000
  {
  }

  lemma {:induction false} StoredIsWhole(carry: nat, period: nat, n: nat)
    requires carry < 1000 && period + 999 < 256000
    ensures TotalMsec(carry, period, n) == TotalWhole(carry, period, n)
  {
    hide Carry, ByteOf;
    if n > 0 {
      StoredIsWhole(carry, period, n - 1);
      CarryBelow(carry, period, n - 1);
      ShortTimeFits(Carry(carry, period, n - 1) + period);
    }
  }

  /** Exactly the frames that are due: as many as fit, leaving the clock less than a period behind. */
  lemma DueIsExact(last: int, period: nat, now: int)
    requires period > 0
    ensures var n := Due(last, period, now);
            && Advanced(last, period, n) + period > now
            && (n > 0 ==> Advanced(last, period, n) <= now)
  {
    AdvancedBy(last, period, Due(last, period, now));
    if last <= now {
      var d := now - last;
      assert d == d / period * period + d % period;
    }
  }

  lemma DueAgain(last: int, period: nat, now: int)
    requires period > 0
    ensures last + period <= now <==> Due(last, period, now) > 0
    ensures last + period <= now ==> Due(last, period, now) == 1 + Due(last + period, period, now)
  {
    if last <= now {
      DivStep(now - last, period);
    }
  }

  lemma DivStep(d: nat, p: nat)
    requires p > 0
    ensures d >= p <==> d / p > 0
    ensures d >= p ==> d / p == 1 + (d - p) / p
  {
    DivAtLeast(d, p, 1);
    if d >= p {
      var (j, k) := (d / p - 1, (d - p) / p);
      assert (j + 1) * p == j * p + p && (k + 1) * p == k * p + p;
      DivAtLeast(d, p, j + 1);
      DivAtLeast(d - p, p, j);
      DivAtLeast(d - p, p, k);
      DivAtLeast(d, p, k + 1);
    }
  }

  lemma MulMonotone(a: int, b: int, k: nat)
    requires a <= b
    ensures a * k <= b * k
  {
  }

  /** Division finds the largest multiple that fits. */
  lemma DivAtLeast(a: nat, b: nat, q: int)
    requires b > 0
    ensures q * b <= a <==> q <= a / b
  {
    var n := a / b;
    assert a == n * b + a % b && (n + 1) * b == n * b + b;
    if q <= n {
      MulMonotone(q, n, b);
    } else {
      MulMonotone(n + 1, q, b);
    }
  }

  lemma DivMonotone(a: nat, x: nat, y: nat)
    requires 0 < x <= y
    ensures a / y <= a / x
  {
    var q := a / y;
    DivAtLeast(a, y, q);
    MulMonotone(x, y, q);
    assert x * q == q * x && y * q == q * y;
    DivAtLeast(a, x, q);
  }

  // ---- The period ----

  function Max(a: nat, b: nat): nat {
    if a < b then b else a
  }

  /** NetQW_SetFPS with CLAMPTOINTEGERMS: the period for a non-zero rate. */
  function Period(fps: nat): (p: nat)
    requires fps > 0
  {
    var p := Max(1000000 / fps, 1000) + 999;
    p - p % 1000
  }

  /** It is the least whole number of milliseconds that is at least a millisecond and the frame time. */
  lemma PeriodIsLeast(fps: nat)
    requires fps > 0
    ensures Period(fps) % 1000 == 0 && Period(fps) >= 1000 && Period(fps) >= 1000000 / fps
    ensures forall q: nat | q % 1000 == 0 && q >= 1000 && q >= 1000000 / fps :: Period(fps) <= q
  {
    RoundsUp(Max(1000000 / fps, 1000));
  }

  lemma RoundsUp(x: nat)
    ensures var p := x + 999 - (x + 999) % 1000;
            p % 1000 == 0 && p >= x && forall q: nat | q % 1000 == 0 && q >= x :: p <= q
  {
  }

  lemma PeriodMonotone(x: nat, y: nat)
    requires 0 < x <= y
    ensures Period(y) <= Period(x)
  {
    DivMonotone(1000000, x, y);
  }

  lemma {:induction false} WholePeriodLeavesNoCarry(period: nat, i: nat)
    requires period % 1000 == 0
    ensures Carry(0, period, i) == 0
  {
    if i > 0 {
      WholePeriodLeavesNoCarry(period, i - 1);
    }
  }

  lemma FastEnoughFits(fps: nat, i: nat)
    requires fps >= 4
    ensures Msec(0, Period(fps), i) == Whole(0, Period(fps), i)
  {
    PeriodIsLeast(fps);
    PeriodMonotone(4, fps);
    assert Period(4) == 250000;
    WholePeriodLeavesNoCarry(Period(fps), i);
  }

  lemma TooSlowTruncates(fps: nat)
    requires 0 < fps < 4
    ensures Msec(0, Period(fps), 0) != Whole(0, Period(fps), 0)
  {
    PeriodMonotone(fps, 3);
    assert Period(3) == 334000;
    hide Period;
    assert Carry(0, Period(fps), 0) == 0;
  }

  /** The frame times fit their byte exactly when the rate is at least 4 frames a second. */
  lemma FrameTimeFitsByte(fps: nat)
    requires fps > 0
    ensures (forall i :: Msec(0, Period(fps), i) == Whole(0, Period(fps), i)) <==> fps >= 4
  {
    hide Msec, Whole, Period;
    if fps >= 4 {
      forall i ensures Msec(0, Period(fps), i) == Whole(0, Period(fps), i) {
        FastEnoughFits(fps, i);
      }
    } else {
      TooSlowTruncates(fps);
    }
  }

  /** DoSend first moves a clock that is more than a second behind up to the present. */
  function Clamped(last: int, now: int): int {
    if last + 1000000 < now then now else last
  }

  /** After more than a second without a send only the frames that fall due from then on are sent; otherwise the
      clock is left alone. */
  lemma LongStallForgets(last: int, now: int, later: int, period: nat)
    requires period > 0 && now <= later
    ensures now - last > 1000000 ==> Due(Clamped(last, now), period, later) == (later - now) / period
    ensures now - last <= 1000000 ==> Due(Clamped(last, now), period, later) == Due(last, period, later)
  {
  }

  /** How far apart DoSend's own reading of the clock and the one GenerateFrames takes may be. */
  const READING_GAP := 8000

  /** What the clamp is good for. With an empty queue, and nobody but the sender generating frames: however long
      the thread stalled, one send finds no more frames due than the ring can hold for it if and only if the
      rate is at most 66 frames a second, its two readings of the clock being less than 8 milliseconds apart.
      The default rate of 72 is above. With frames already waiting, or the client thread generating too, the
      condition is the one on the number of waiting frames in FrameRuns. */
  lemma StallFitsTheRing(fps: nat)
    requires fps > 0
    ensures (forall last, now, later | now <= later < now + READING_GAP ::
               Due(Clamped(last, now), Period(fps), later) <= 62) <==> fps <= 66
  {
    PeriodIsLeast(fps);
    if fps <= 66 {
      PeriodMonotone(fps, 66);
      assert Period(66) == 16000;
      forall last, now, later | now <= later < now + READING_GAP
        ensures Due(Clamped(last, now), Period(fps), later) <= 62
      {
        AtMost(last, now, later, Period(fps));
      }
    } else {
      PeriodMonotone(67, fps);
      assert Period(67) == 15000;
      DivMonotone(1000000, Period(fps), 15000);
      assert Due(Clamped(0, 1000000), Period(fps), 1000000) >= 66;
    }
  }

  lemma AtMost(last: int, now: int, later: int, period: nat)
    requires period >= 16000 && now <= later < now + READING_GAP
    ensures Due(Clamped(last, now), period, later) <= 62
  {
    var d := later - Clamped(last, now);
    if d >= 0 {
      var n := d / period;
      DivAtLeast(d, period, n);
      MulMonotone(16000, period, n);
      assert period * n == n * period;
    }
  }
}
