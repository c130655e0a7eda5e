/**
 * Volume rules of the players. The newer player keeps a Java `float` target
 * volume in [0, MAX_VOLUME] (modelled here as a real) and moves the engine's
 * integer volume towards it in a linear ramp; the legacy player keeps a Java
 * `int` in [0, 100] and applies it at once.
 */
module Volume {

  const MAX_VOLUME: real := 16.0
  const VOLUME_STEP: real := MAX_VOLUME / 20.0
  const DEFAULT_VOLUME: real := 2.0

  function RealMax(a: real, b: real): real { if a >= b then a else b }
  function RealMin(a: real, b: real): real { if a <= b then a else b }
  function Abs(x: real): real { if x < 0.0 then -x else x }

  /** `(int) x` for a non-negative float: truncation, which is the floor there. */
  function Truncate(x: real): (r: int)
    requires x >= 0.0
    ensures 0 <= r && r as real <= x < r as real + 1.0
  {
    x.Floor
  }

  /** `Math.max(0, Math.min(MAX_VOLUME, amount))`. */
  function Clamp(amount: real): (r: real)
    ensures 0.0 <= r <= MAX_VOLUME
    ensures 0.0 <= amount <= MAX_VOLUME ==> r == amount
    ensures amount < 0.0 ==> r == 0.0
    ensures amount > MAX_VOLUME ==> r == MAX_VOLUME
  {
    RealMax(0.0, RealMin(MAX_VOLUME, amount))
  }

  /** The argument setVolumePercent hands to setVolume. */
  function PercentToVolume(percent: real): real
  {
    percent / 100.0 * MAX_VOLUME
  }

  /** getVolumePercent. */
  function VolumePercent(volume: real): real
  {
    volume / MAX_VOLUME * 100.0
  }

  function ClampPercent(percent: real): real
  {
    RealMax(0.0, RealMin(100.0, percent))
  }

  /** Reading back a percentage that was set gives it back, clamped to [0, 100]. */
  lemma PercentRoundTrip(percent: real)
    ensures VolumePercent(Clamp(PercentToVolume(percent))) == ClampPercent(percent)
  {
  }

  lemma VolumePercentRange(volume: real)
    requires 0.0 <= volume <= MAX_VOLUME
    ensures 0.0 <= VolumePercent(volume) <= 100.0
  {
  }

  // ---- the ramp ----------------------------------------------------------

  /** The number of ramp steps: `(int) Math.abs((current - volume) / MAX_VOLUME * 100)`. */
  function Segments(current: int, volume: real): nat
  {
    Truncate(Abs((current as real - volume) / MAX_VOLUME * 100.0))
  }

  /** The value of step i of n: `(1 - i/n) * current + i/n * volume`. */
  function RampTarget(current: int, volume: real, n: nat, i: nat): real
    requires 1 <= i <= n
  {
    (1.0 - i as real / n as real) * current as real + i as real / n as real * volume
  }

  /** The engine volumes the ramp writes, in order: the truncated step values. */
  function RampWrites(current: int, volume: real): (writes: seq<int>)
    requires volume >= 0.0 && current >= 0
  {
    var n := Segments(current, volume);
    seq(n, k requires 0 <= k < n => (RampTargetBetween(current, volume, n, k + 1);
                                      Truncate(RampTarget(current, volume, n, k + 1))))
  }

  /** Every step value lies between the starting and the target volume. */
  lemma RampTargetBetween(current: int, volume: real, n: nat, i: nat)
    requires 1 <= i <= n
    ensures RealMin(current as real, volume) <= RampTarget(current, volume, n, i)
                                             <= RealMax(current as real, volume)
  {
    var f := i as real / n as real;
    assert 0.0 < f <= 1.0;
    if current as real <= volume {
      LerpUp(current as real, volume, f);
    } else {
      LerpDown(current as real, volume, f);
    }
  }

  lemma MulBetween(f: real, d: real, p: real)
    requires 0.0 <= f <= 1.0 && 0.0 <= d && p == f * d
    ensures 0.0 <= p <= d
  {
    assert d - f * d == (1.0 - f) * d;
  }

  /** Linear interpolation upwards stays within [c, v]. */
  lemma LerpUp(c: real, v: real, f: real)
    requires 0.0 <= f <= 1.0 && c <= v
    ensures c <= (1.0 - f) * c + f * v <= v
  {
    var d := v - c;
    var p := f * d;
    MulBetween(f, d, p);
    assert (1.0 - f) * c + f * v == c + p;
  }

  /** Linear interpolation downwards stays within [v, c]. */
  lemma LerpDown(c: real, v: real, f: real)
    requires 0.0 <= f <= 1.0 && v < c
    ensures v <= (1.0 - f) * c + f * v <= c
  {
    var d := c - v;
    var p := f * d;
    MulBetween(f, d, p);
    assert (1.0 - f) * c + f * v == c - p;
  }

  /** The last step reaches the target exactly. */
  lemma RampLastIsTarget(current: int, volume: real, n: nat)
    requires n >= 1
    ensures RampTarget(current, volume, n, n) == volume
  {
    assert n as real / n as real == 1.0;
  }

  /**
   * The ramp's writes never leave the range between the starting volume and
   * the truncated target, the last one is the truncated target, and there are
   * none when the change is below one hundredth of MAX_VOLUME.
   */
  lemma RampWritesShape(current: int, volume: real)
    requires volume >= 0.0 && current >= 0
    ensures var ws := RampWrites(current, volume);
      && |ws| == Segments(current, volume)
      && (forall k :: 0 <= k < |ws| ==>
            IntMin(current, Truncate(volume)) <= ws[k] <= IntMax(current, Truncate(volume)))
      && (ws != [] ==> ws[|ws| - 1] == Truncate(volume))
      && (ws == [] <==> Abs(current as real - volume) < MAX_VOLUME / 100.0)
  {
    var ws := RampWrites(current, volume);
    var n := Segments(current, volume);
    forall k | 0 <= k < n
      ensures IntMin(current, Truncate(volume)) <= ws[k] <= IntMax(current, Truncate(volume))
    {
      RampTargetBetween(current, volume, n, k + 1);
      TruncateMonotone(RealMin(current as real, volume), RampTarget(current, volume, n, k + 1));
      TruncateMonotone(RampTarget(current, volume, n, k + 1), RealMax(current as real, volume));
    }
    if n > 0 {
      RampLastIsTarget(current, volume, n);
    }
    var d := Abs(current as real - volume);
    assert Abs((current as real - volume) / MAX_VOLUME * 100.0) == d / MAX_VOLUME * 100.0;
  }

  function IntMin(a: int, b: int): int { if a <= b then a else b }
  function IntMax(a: int, b: int): int { if a >= b then a else b }

  lemma TruncateMonotone(x: real, y: real)
    requires 0.0 <= x <= y
    ensures Truncate(x) <= Truncate(y)
  {
  }

  // ---- stepping -----------------------------------------------------------

  /** The target volume after k presses of "volume up" (addVolume). */
  function AfterAdds(volume: real, k: nat): real
    decreases k
  {
    if k == 0 then volume else AfterAdds(Clamp(volume + VOLUME_STEP), k - 1)
  }

  /** The target volume after k presses of "volume down" (reduceVolume). */
  function AfterReduces(volume: real, k: nat): real
    decreases k
  {
    if k == 0 then volume else AfterReduces(Clamp(volume - VOLUME_STEP), k - 1)
  }

  lemma {:induction false} AddsProgress(volume: real, k: nat)
    requires 0.0 <= volume <= MAX_VOLUME
    ensures RealMin(MAX_VOLUME, volume + k as real * VOLUME_STEP) <= AfterAdds(volume, k) <= MAX_VOLUME
    decreases k
  {
    if k > 0 {
      AddsProgress(Clamp(volume + VOLUME_STEP), k - 1);
    }
  }

  lemma {:induction false} ReducesProgress(volume: real, k: nat)
    requires 0.0 <= volume <= MAX_VOLUME
    ensures 0.0 <= AfterReduces(volume, k) <= RealMax(0.0, volume - k as real * VOLUME_STEP)
    decreases k
  {
    if k > 0 {
      ReducesProgress(Clamp(volume - VOLUME_STEP), k - 1);
    }
  }

  /** Twenty presses reach the maximum from anywhere, and further presses stay there. */
  lemma AddsSaturate(volume: real, k: nat)
    requires 0.0 <= volume <= MAX_VOLUME && k >= 20
    ensures AfterAdds(volume, k) == MAX_VOLUME
  {
    AddsProgress(volume, k);
    assert k as real * VOLUME_STEP >= 16.0 by {
      assert VOLUME_STEP == 0.8;
      assert k as real >= 20.0;
    }
  }

  /** Twenty presses reach silence from anywhere, and further presses stay there. */
  lemma ReducesSaturate(volume: real, k: nat)
    requires 0.0 <= volume <= MAX_VOLUME && k >= 20
    ensures AfterReduces(volume, k) == 0.0
  {
    ReducesProgress(volume, k);
    assert k as real * VOLUME_STEP >= 16.0 by {
      assert VOLUME_STEP == 0.8;
      assert k as real >= 20.0;
    }
  }

  // ---- the legacy integer volume ----------------------------------------

  const LEGACY_DEFAULT_VOLUME: int := 20

  predicate IsInt32(x: int)
  {
    -0x8000_0000 <= x < 0x8000_0000
  }

  /** Java `int` addition: the exact sum reduced into the 32-bit range. */
  function WrapInt32(x: int): (r: int)
    ensures IsInt32(r)
    ensures IsInt32(x) ==> r == x
    ensures (x - r) % 0x1_0000_0000 == 0
  {
    (x + 0x8000_0000) % 0x1_0000_0000 - 0x8000_0000
  }

  /** The legacy setVolume: `Math.max(0, Math.min(100, amount))`. */
  function LegacyClamp(amount: int): (r: int)
    ensures 0 <= r <= 100
    ensures 0 <= amount <= 100 ==> r == amount
    ensures amount < 0 ==> r == 0
    ensures amount > 100 ==> r == 100
  {
    if 0 >= (if 100 <= amount then 100 else amount) then 0
    else if 100 <= amount then 100 else amount
  }

  /** The legacy addVolume: `setVolume(volume += amount)` with Java int arithmetic. */
  function LegacyAddVolume(volume: int, amount: int): int
  {
    LegacyClamp(WrapInt32(volume + amount))
  }

  /** When the sum does not overflow, adding is the clamped sum. */
  lemma LegacyAddClamps(volume: int, amount: int)
    requires IsInt32(volume + amount)
    ensures LegacyAddVolume(volume, amount) == LegacyClamp(volume + amount)
  {
  }

  /** An overflowing step wraps around: a huge increase silences the player. */
  lemma LegacyAddOverflows()
    ensures LegacyAddVolume(50, 0x7FFF_FFFF) == 0
  {
    assert WrapInt32(50 + 0x7FFF_FFFF) == -0x8000_0000 + 49;
  }
}
