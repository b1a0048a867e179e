/**
 * The tick-snapping slider. A slider over [Minimum, Maximum] carries a tick count, the index of
 * the current tick, a snapping switch and a cached tick frequency. While snapping is on, every
 * change of Value, TickValue, TickCount or of the switch itself re-snaps the value onto the
 * nearest tick through a cascade of property callbacks: a write of TickValue re-derives Value,
 * and Value's change event re-derives both from the frequency.
 *
 * The cascade is modelled as it is written, as mutually recursive methods; each method is
 * proved equal to a closed-form net-effect function on `SliderState`. Termination rests on the
 * rank functions at the end of the module: every nested Recalculate finds less to change.
 */
module ExtendedSliderModel {
  import opened Views

  /** A snapshot of the slider: its range, Value, TickCount, TickValue, the switch and the cache. */
  datatype SliderState = SliderState(
    minimum: real,
    maximum: real,
    value: real,
    tickCount: int,
    tickValue: int,
    isSnapToTickEnabled: bool,
    tickFrequency: real)

  /** Math.Clamp on doubles. */
  function Clamp(x: real, lo: real, hi: real): (r: real)
    requires lo <= hi
    ensures lo <= r <= hi
    ensures lo <= x <= hi ==> r == x
    ensures x < lo ==> r == lo
    ensures x > hi ==> r == hi
  {
    if x < lo then lo else if x > hi then hi else x
  }

  /** Math.Clamp on integers: the clamp on doubles, taken at integer points. */
  function ClampInt(x: int, lo: int, hi: int): (r: int)
    requires lo <= hi
    ensures r as real == Clamp(x as real, lo as real, hi as real)
  {
    if x < lo then lo else if x > hi then hi else x
  }

  /** Math.Round with its default midpoint rule: to the nearest integer, ties to the even one. */
  function RoundHalfEven(x: real): (r: int)
    ensures x - 0.5 <= r as real <= x + 0.5
    ensures r as real - x != 0.5 && x - r as real != 0.5 ==> x - 0.5 < r as real < x + 0.5
    ensures r as real - x == 0.5 || x - r as real == 0.5 ==> r % 2 == 0
  {
    var f := x.Floor;
    var d := x - f as real;
    if d < 0.5 then f
    else if d > 0.5 then f + 1
    else if f % 2 == 0 then f
    else f + 1
  }

  /** OnTickCountValidateValue: a tick count is accepted exactly when it is not negative. */
  predicate TickCountIsValid(n: int)
  {
    n >= 0
  }

  /** OnTickValueCoerceValue: an assigned tick index is clamped into [0, TickCount]. */
  function CoerceTickValue(v: int, tickCount: int): (r: int)
    requires tickCount >= 0
    ensures 0 <= r <= tickCount
    ensures 0 <= v <= tickCount ==> r == v
  {
    ClampInt(v, 0, tickCount)
  }

  /**
   * CalculateTickFrequency: the distance between ticks, never negative. A tick count of 0 makes
   * the quotient infinite, which collapses to 0.
   */
  function TickFrequency(minimum: real, maximum: real, tickCount: int): (r: real)
    ensures r >= 0.0
    ensures tickCount == 0 ==> r == 0.0
    ensures tickCount > 0 && minimum <= maximum ==> r * tickCount as real == maximum - minimum
    ensures tickCount > 0 && minimum < maximum ==> r > 0.0
  {
    if tickCount == 0 then 0.0
    else
      var q := (maximum - minimum) / tickCount as real;
      if q > 0.0 then q else 0.0
  }

  function Frequency(s: SliderState): real
  {
    TickFrequency(s.minimum, s.maximum, s.tickCount)
  }

  /**
   * The states the property system keeps between callbacks: a proper range (Minimum = Maximum
   * is not modelled; with no ticks it would make the frequency NaN), a validated tick count,
   * a coerced tick index, a value clamped by the base slider, and a cache that was computed by
   * CalculateTickFrequency.
   */
  ghost predicate WellFormed(s: SliderState)
  {
    && s.minimum < s.maximum
    && s.tickCount >= 0
    && 0 <= s.tickValue <= s.tickCount
    && s.minimum <= s.value <= s.maximum
    && s.tickFrequency >= 0.0
  }

  /** The tick index nearest to the value, for the current tick count. */
  function SnapTick(s: SliderState): int
  {
    var f := Frequency(s);
    if f == 0.0 then 0 else RoundHalfEven((s.value - s.minimum) / f)
  }

  /** The value of tick `t`, for the current tick count; Minimum when there are no ticks. */
  function SnapValue(s: SliderState, t: int): real
  {
    var f := Frequency(s);
    if f == 0.0 then s.minimum else t as real * f + s.minimum
  }

  /** The value lies on a tick and the tick index is the index of that tick. */
  ghost predicate OnTick(s: SliderState)
  {
    s.tickValue == SnapTick(s) && s.value == SnapValue(s, s.tickValue)
  }

  /**
   * The invariant of the slider between public operations: while snapping is enabled the cache
   * holds the current frequency and the value sits on the tick named by TickValue.
   */
  ghost predicate Consistent(s: SliderState)
  {
    WellFormed(s) && (s.isSnapToTickEnabled ==> s.tickFrequency == Frequency(s) && OnTick(s))
  }

  /** Multiplying by a non-negative factor keeps an order. */
  lemma MulMonotone(a: real, b: real, c: real)
    requires a <= b && c >= 0.0
    ensures a * c <= b * c
  {
    assert b * c - a * c == (b - a) * c;
  }

  /** Multiplying by a positive factor keeps a strict order. */
  lemma MulStrictMonotone(a: real, b: real, c: real)
    requires a < b && c > 0.0
    ensures a * c < b * c
  {
    assert b * c - a * c == (b - a) * c;
  }

  /** Dividing a product by one of its non-zero factors gives the other. */
  lemma MulDivCancel(a: real, c: real)
    requires c != 0.0
    ensures (a * c) / c == a
  {
  }

  /** Rounding a number of [0, n] gives an integer of [0, n]. */
  lemma RoundWithin(x: real, n: int)
    requires 0.0 <= x <= n as real
    ensures 0 <= RoundHalfEven(x) <= n
  {
  }

  /** Rounding an integer gives it back. */
  lemma RoundOfInteger(t: int)
    ensures RoundHalfEven(t as real) == t
  {
  }

  /** Dividing by a positive number keeps a pair of non-negative numbers in order. */
  lemma QuotientWithin(a: real, b: real, f: real)
    requires f > 0.0 && 0.0 <= a <= b
    ensures 0.0 <= a / f <= b / f
  {
    var p, q := a / f, b / f;
    assert p * f == a && q * f == b;
    if p < 0.0 {
      MulStrictMonotone(p, 0.0, f);
    }
    if p > q {
      MulStrictMonotone(q, p, f);
    }
  }

  lemma SnapTickBounds(s: SliderState)
    requires WellFormed(s)
    ensures 0 <= SnapTick(s) <= s.tickCount
  {
    var f := Frequency(s);
    if f != 0.0 {
      var n := s.tickCount as real;
      assert n * f == s.maximum - s.minimum;
      MulDivCancel(n, f);
      QuotientWithin(s.value - s.minimum, s.maximum - s.minimum, f);
      RoundWithin((s.value - s.minimum) / f, s.tickCount);
    }
  }

  lemma SnapValueBounds(s: SliderState, t: int)
    requires WellFormed(s) && 0 <= t <= s.tickCount
    ensures s.minimum <= SnapValue(s, t) <= s.maximum
  {
    var f := Frequency(s);
    if f != 0.0 {
      MulMonotone(0.0, t as real, f);
      MulMonotone(t as real, s.tickCount as real, f);
    }
  }

  /** The tick nearest to the value of tick `t` is `t` itself. */
  lemma SnapTickOfSnapValue(s: SliderState, t: int)
    requires WellFormed(s) && 0 <= t <= s.tickCount
    ensures SnapTick(s.(value := SnapValue(s, t))) == t
  {
    var f := Frequency(s);
    if f != 0.0 {
      var s' := s.(value := SnapValue(s, t));
      assert Frequency(s') == f;
      assert s'.value - s'.minimum == t as real * f;
      MulDivCancel(t as real, f);
      assert (s'.value - s'.minimum) / f == t as real;
      RoundOfInteger(t);
    }
  }

  /**
   * RecalculateAll, net effect: with snapping off nothing changes; with snapping on the cache is
   * refreshed and the value moves to its nearest tick, or to Minimum when there are no ticks.
   */
  function RecalculatedAll(s: SliderState): (r: SliderState)
    requires WellFormed(s)
    ensures WellFormed(r)
    ensures !s.isSnapToTickEnabled ==> r == s
    ensures s.isSnapToTickEnabled ==>
      && r == s.(tickFrequency := r.tickFrequency, tickValue := r.tickValue, value := r.value)
      && r.tickFrequency == Frequency(s)
      && Consistent(r)
    ensures s.isSnapToTickEnabled && Frequency(s) == 0.0 ==> r.tickValue == 0 && r.value == s.minimum
    ensures s.isSnapToTickEnabled && Frequency(s) != 0.0 ==>
      && r.tickValue == RoundHalfEven((s.value - s.minimum) / Frequency(s))
      && r.value == r.tickValue as real * Frequency(s) + s.minimum
  {
    if !s.isSnapToTickEnabled then s
    else
      SnapTickBounds(s);
      var t := SnapTick(s);
      var v := SnapValue(s, t);
      SnapValueBounds(s, t);
      SnapTickOfSnapValue(s, t);
      var r := s.(tickFrequency := Frequency(s), tickValue := t, value := v);
      assert Frequency(r) == Frequency(s) == Frequency(s.(value := v));
      assert SnapTick(r) == SnapTick(s.(value := v)) && SnapValue(r, t) == v;
      r
  }

  /**
   * The base slider's Value setter, net effect: the value is clamped into the range; a real
   * change raises ValueChanged, whose handler runs RecalculateAll.
   */
  function ValueSet(s: SliderState, v: real): (r: SliderState)
    requires WellFormed(s)
    ensures WellFormed(r)
    ensures Clamp(v, s.minimum, s.maximum) == s.value ==> r == s
    ensures !s.isSnapToTickEnabled ==> r == s.(value := Clamp(v, s.minimum, s.maximum))
    ensures s.isSnapToTickEnabled && Clamp(v, s.minimum, s.maximum) != s.value ==> Consistent(r)
  {
    var cv := Clamp(v, s.minimum, s.maximum);
    if cv == s.value then s else RecalculatedAll(s.(value := cv))
  }

  /** The cache once RecalculateValue or RecalculateTickValue has refreshed an empty one. */
  function FilledFrequency(s: SliderState): real
  {
    if s.tickFrequency == 0.0 then Frequency(s) else s.tickFrequency
  }

  /** The value RecalculateValue writes: the value of the current tick, by the cached frequency. */
  function TickedValue(s: SliderState): real
  {
    var c := FilledFrequency(s);
    if c == 0.0 then s.minimum else s.tickValue as real * c + s.minimum
  }

  /**
   * RecalculateValue, net effect: with snapping on, Value is set to the value of TickValue
   * under the cached frequency (refreshed first when it is 0).
   */
  function RecalculatedValue(s: SliderState): (r: SliderState)
    requires WellFormed(s)
    ensures WellFormed(r)
    ensures !s.isSnapToTickEnabled ==> r == s
    ensures s.isSnapToTickEnabled && s.value == TickedValue(s) ==> r == s.(tickFrequency := FilledFrequency(s))
    ensures s.isSnapToTickEnabled && s.minimum <= TickedValue(s) <= s.maximum && s.value != TickedValue(s) ==>
      Consistent(r)
  {
    if !s.isSnapToTickEnabled then s
    else
      var s1 := s.(tickFrequency := FilledFrequency(s));
      var nv := TickedValue(s);
      if s.value == nv then s1 else ValueSet(s1, nv)
  }

  /**
   * The TickValue setter, net effect: the index is coerced into [0, TickCount]; a real change
   * runs RecalculateValue.
   */
  function TickValueSet(s: SliderState, v: int): (r: SliderState)
    requires WellFormed(s)
    ensures WellFormed(r)
    ensures CoerceTickValue(v, s.tickCount) == s.tickValue ==> r == s
    ensures !s.isSnapToTickEnabled ==> r == s.(tickValue := CoerceTickValue(v, s.tickCount))
  {
    var cv := CoerceTickValue(v, s.tickCount);
    if cv == s.tickValue then s else RecalculatedValue(s.(tickValue := cv))
  }

  /** The tick index RecalculateTickValue writes: nearest the value under the cached frequency. */
  function NearestTick(s: SliderState): int
  {
    var c := FilledFrequency(s);
    if c == 0.0 then 0 else RoundHalfEven((s.value - s.minimum) / c)
  }

  /**
   * RecalculateTickValue, net effect: TickValue is set to the tick nearest to Value under the
   * cached frequency (refreshed first when it is 0), or to 0 when the frequency is 0.
   */
  function RecalculatedTickValue(s: SliderState): (r: SliderState)
    requires WellFormed(s)
    ensures WellFormed(r)
    ensures s.tickValue == NearestTick(s) ==> r == s.(tickFrequency := FilledFrequency(s))
    ensures !s.isSnapToTickEnabled ==>
      r == s.(tickFrequency := FilledFrequency(s), tickValue := CoerceTickValue(NearestTick(s), s.tickCount))
  {
    var s1 := s.(tickFrequency := FilledFrequency(s));
    var nt := NearestTick(s);
    if s.tickValue == nt then s1 else TickValueSet(s1, nt)
  }

  /** Re-snapping a value that already sits on tick `t` keeps it there and sets TickValue to `t`. */
  lemma ResnapOnTick(s: SliderState, t: int)
    requires WellFormed(s) && s.isSnapToTickEnabled && 0 <= t <= s.tickCount
    ensures var on := s.(value := SnapValue(s, t));
      WellFormed(on) && RecalculatedAll(on) == on.(tickValue := t, tickFrequency := Frequency(s))
  {
    SnapValueBounds(s, t);
    SnapTickOfSnapValue(s, t);
  }

  /**
   * With a fresh cache and snapping on, RecalculateValue moves Value onto the tick TickValue
   * names, and the nested RecalculateAll leaves it there.
   */
  lemma RecalculatedValueWhenFresh(s: SliderState)
    requires WellFormed(s) && s.isSnapToTickEnabled && s.tickFrequency == Frequency(s)
    ensures RecalculatedValue(s) == s.(value := SnapValue(s, s.tickValue))
  {
    assert FilledFrequency(s) == s.tickFrequency;
    assert TickedValue(s) == SnapValue(s, s.tickValue);
    var nv := SnapValue(s, s.tickValue);
    if s.value != nv {
      SnapValueBounds(s, s.tickValue);
      assert Clamp(nv, s.minimum, s.maximum) == nv;
      ResnapOnTick(s, s.tickValue);
      assert ValueSet(s, nv) == RecalculatedAll(s.(value := nv));
    }
  }

  /** The value of a tick does not depend on the index TickValue holds. */
  lemma SnapValueIgnoresTickValue(s: SliderState, u: int, t: int)
    ensures SnapValue(s.(tickValue := u), t) == SnapValue(s, t)
  {
    assert Frequency(s.(tickValue := u)) == Frequency(s);
  }

  /** Writing a tick index of the range other than the current one runs RecalculateValue. */
  lemma TickValueSetRecalculates(s: SliderState, t: int)
    requires WellFormed(s) && 0 <= t <= s.tickCount && t != s.tickValue
    ensures WellFormed(s.(tickValue := t))
    ensures TickValueSet(s, t) == RecalculatedValue(s.(tickValue := t))
  {
    assert CoerceTickValue(t, s.tickCount) == t;
  }

  /** With a fresh cache and snapping on, writing tick `t` moves Value onto that tick. */
  lemma TickValueSetWhenFresh(s: SliderState, t: int)
    requires WellFormed(s) && s.isSnapToTickEnabled && s.tickFrequency == Frequency(s)
    requires 0 <= t <= s.tickCount
    ensures TickValueSet(s, t) == if t == s.tickValue then s else s.(tickValue := t, value := SnapValue(s, t))
  {
    if t != s.tickValue {
      var s2 := s.(tickValue := t);
      TickValueSetRecalculates(s, t);
      RecalculatedValueWhenFresh(s2);
      SnapValueIgnoresTickValue(s, t, t);
      var v := SnapValue(s, t);
      assert s2.(value := v) == s.(tickValue := t, value := v);
    }
  }

  /** With a fresh cache, RecalculateTickValue moves TickValue, and Value with it, to the nearest tick. */
  lemma RecalculatedTickValueWhenFresh(s: SliderState)
    requires WellFormed(s) && s.isSnapToTickEnabled && s.tickFrequency == Frequency(s)
    ensures var t := SnapTick(s);
      RecalculatedTickValue(s) == if s.tickValue == t then s else s.(tickValue := t, value := SnapValue(s, t))
  {
    SnapTickBounds(s);
    assert FilledFrequency(s) == Frequency(s) && NearestTick(s) == SnapTick(s);
    assert s.(tickFrequency := FilledFrequency(s)) == s;
    TickValueSetWhenFresh(s, SnapTick(s));
  }

  /**
   * In a state whose cache RecalculateAll has just refreshed, RecalculateTickValue followed by
   * RecalculateValue, nested cascades included, has the closed-form effect of RecalculatedAll.
   */
  lemma CascadeIsRecalculatedAll(s: SliderState)
    requires WellFormed(s) && s.isSnapToTickEnabled
    ensures RecalculatedValue(RecalculatedTickValue(s.(tickFrequency := Frequency(s)))) == RecalculatedAll(s)
  {
    var s1 := s.(tickFrequency := Frequency(s));
    var t := SnapTick(s);
    assert SnapTick(s1) == t && SnapValue(s1, t) == SnapValue(s, t);
    RecalculatedTickValueWhenFresh(s1);
    var mid := RecalculatedTickValue(s1);
    SnapTickBounds(s);
    RecalculatedValueWhenFresh(mid);
  }

  /** Re-snapping a snapped slider changes nothing: the nested RecalculateAll is a no-op. */
  lemma RecalculatedAllIsIdempotent(s: SliderState)
    requires WellFormed(s)
    ensures RecalculatedAll(RecalculatedAll(s)) == RecalculatedAll(s)
  {
    if s.isSnapToTickEnabled {
      var r := RecalculatedAll(s);
      SnapTickOfSnapValue(s, r.tickValue);
      assert Frequency(r) == Frequency(s);
    }
  }

  /** Snapping moves the value by at most half a tick. */
  lemma SnapMovesToNearestTick(s: SliderState)
    requires WellFormed(s) && s.isSnapToTickEnabled && Frequency(s) != 0.0
    ensures var r := RecalculatedAll(s);
      r.value - s.value <= Frequency(s) / 2.0 && s.value - r.value <= Frequency(s) / 2.0
  {
    var f := Frequency(s);
    NearestWithinHalf(s.value, s.minimum, f);
  }

  /** The multiple of `f` above `m` nearest to `v` lies within half of `f` of `v`. */
  lemma NearestWithinHalf(v: real, m: real, f: real)
    requires f > 0.0
    ensures var w := RoundHalfEven((v - m) / f) as real * f + m;
      w - v <= f / 2.0 && v - w <= f / 2.0
  {
    var x := (v - m) / f;
    var t := RoundHalfEven(x);
    var w := t as real * f + m;
    assert x * f == v - m;
    var up, down := t as real - x, x - t as real;
    assert w - v == up * f;
    assert v - w == down * f;
    ScaledWithinHalf(w - v, up, f);
    ScaledWithinHalf(v - w, down, f);
  }

  lemma ScaledWithinHalf(e: real, d: real, f: real)
    requires e == d * f && d <= 0.5 && f > 0.0
    ensures e <= f / 2.0
  {
    MulMonotone(d, 0.5, f);
  }

  /**
   * The TickCount setter, net effect. `None` is the ArgumentException of a negative count. The
   * coerce callback first writes TickValue clamped to the new count, while the old count is
   * still in force; then the new count is committed and, when it differs, RecalculateAll runs.
   */
  function TickCountSet(s: SliderState, n: int): (r: Option<SliderState>)
    requires Consistent(s)
    ensures r.None? <==> !TickCountIsValid(n)
    ensures r.Some? ==> r.value.tickCount == n && Consistent(r.value)
    ensures r.Some? && n == s.tickCount ==> r.value == s
    ensures r.Some? && !s.isSnapToTickEnabled ==>
      r.value == s.(tickCount := n, tickValue := ClampInt(s.tickValue, 0, n))
  {
    if !TickCountIsValid(n) then None
    else
      var s1 := TickValueSet(s, ClampInt(s.tickValue, 0, n));
      CoercedTickFits(s, n);
      var s2 := s1.(tickCount := n);
      if n != s.tickCount then Some(RecalculatedAll(s2)) else Some(s2)
  }

  /** The TickValue that the TickCount coerce callback leaves behind fits the new count. */
  lemma CoercedTickFits(s: SliderState, n: int)
    requires Consistent(s) && n >= 0
    ensures var s1 := TickValueSet(s, ClampInt(s.tickValue, 0, n));
      && s1.tickValue == ClampInt(s.tickValue, 0, n)
      && s1 == s.(tickValue := s1.tickValue, value := s1.value)
      && Consistent(s1)
  {
    TickValueSetKeepsConsistent(s, ClampInt(s.tickValue, 0, n));
    if s.isSnapToTickEnabled {
      TickValueSetWhenFresh(s, ClampInt(s.tickValue, 0, n));
    }
  }

  /**
   * The IsSnapToTickEnabled setter, net effect: a real change commits the switch; turning it on
   * runs RecalculateValue, with whatever frequency the cache holds, and then RecalculateAll.
   */
  function SnapToTickSet(s: SliderState, b: bool): (r: SliderState)
    requires WellFormed(s)
    ensures WellFormed(r) && r.isSnapToTickEnabled == b
    ensures b == s.isSnapToTickEnabled ==> r == s
    ensures !b ==> r == s.(isSnapToTickEnabled := false)
    ensures b != s.isSnapToTickEnabled ==> Consistent(r)
  {
    if b == s.isSnapToTickEnabled then s
    else
      var s1 := s.(isSnapToTickEnabled := b);
      var s2 := if b then RecalculatedValue(s1) else s1;
      RecalculatedAll(s2)
  }

  /** A Value write keeps the slider consistent. */
  lemma ValueSetKeepsConsistent(s: SliderState, v: real)
    requires Consistent(s)
    ensures Consistent(ValueSet(s, v))
  {
  }

  /** A TickValue write keeps the slider consistent; under snapping the value follows the tick. */
  lemma TickValueSetKeepsConsistent(s: SliderState, v: int)
    requires Consistent(s)
    ensures Consistent(TickValueSet(s, v))
    ensures s.isSnapToTickEnabled ==> var r := TickValueSet(s, v);
      r.tickValue == CoerceTickValue(v, s.tickCount) && r.value == SnapValue(s, r.tickValue)
  {
    var cv := CoerceTickValue(v, s.tickCount);
    if s.isSnapToTickEnabled {
      TickValueSetWhenFresh(s, cv);
      SnapValueBounds(s, cv);
      SnapTickOfSnapValue(s, cv);
    }
  }

  /**
   * The cache goes stale while snapping is off: after a snapped slider over [0, 100] at value 50
   * (10 ticks, tick 5) has snapping turned off and its tick count set to 2, turning snapping back
   * on first moves the value by the stale frequency 10 to 20, and the re-snap with the fresh
   * frequency 50 rounds 0.4 down to tick 0. The value ends at 0, where re-snapping from 50 with a
   * fresh cache would have kept it at tick 1.
   */
  lemma StaleFrequencyWhenSnapReturns()
    ensures
      var s0 := SliderState(0.0, 100.0, 50.0, 10, 5, true, 10.0);
      var s1 := SnapToTickSet(s0, false);
      var s2 := TickCountSet(s1, 2);
      && Consistent(s0)
      && s2 == Some(s1.(tickCount := 2, tickValue := 2))
      && var s3 := SnapToTickSet(s2.value, true);
      && s3.value == 0.0 && s3.tickValue == 0
      && RecalculatedAll(s2.value.(isSnapToTickEnabled := true)).value == 50.0
  {
    var s0 := SliderState(0.0, 100.0, 50.0, 10, 5, true, 10.0);
    assert Frequency(s0) == 10.0;
    assert RoundHalfEven(5.0) == 5;
    assert OnTick(s0);
    var s1 := SnapToTickSet(s0, false);
    var s2 := s1.(tickCount := 2, tickValue := 2);
    assert TickCountSet(s1, 2) == Some(s2);
    var on := s2.(isSnapToTickEnabled := true);
    assert Frequency(on) == 50.0;
    assert TickedValue(on) == 20.0;
    assert RoundHalfEven(0.4) == 0;
    assert RecalculatedValue(on) == on.(value := 0.0, tickValue := 0, tickFrequency := 50.0);
    assert RoundHalfEven(1.0) == 1;
  }

  /** Math.Round sends midpoints to the even neighbour, so 0.5 snaps down and 1.5 snaps up. */
  lemma MidpointsSnapToEvenTicks()
    ensures RecalculatedAll(SliderState(0.0, 100.0, 25.0, 2, 0, true, 50.0)).value == 0.0
    ensures RecalculatedAll(SliderState(0.0, 100.0, 75.0, 2, 0, true, 50.0)).value == 100.0
  {
    var low, high := SliderState(0.0, 100.0, 25.0, 2, 0, true, 50.0), SliderState(0.0, 100.0, 75.0, 2, 0, true, 50.0);
    assert Frequency(low) == 50.0 && Frequency(high) == 50.0;
    assert (low.value - low.minimum) / 50.0 == 0.5 && (high.value - high.minimum) / 50.0 == 1.5;
    assert RoundHalfEven(0.5) == 0;
    assert RoundHalfEven(1.5) == 2;
  }

  // Ranks for the termination of the cascade. Each method's measure is the rank of the
  // RecalculateAll it will end up running (0 when it runs none), paired with its place in the
  // call chain RecalculateAll < OnValueChanged < SetValue < RecalculateValue
  // < OnTickValuePropertyChanged < SetTickValue < RecalculateTickValue.

  /** How much RecalculateAll has to do: 0 when nothing, 1 when only Value, 2 when TickValue. */
  ghost function RankAll(s: SliderState): nat
  {
    if !s.isSnapToTickEnabled then 0
    else if s.tickValue != SnapTick(s) then 2
    else if s.value != SnapValue(s, s.tickValue) then 1
    else 0
  }

  ghost function LevelAll(s: SliderState): nat
  {
    1 + RankAll(s)
  }

  ghost function LevelValueSet(s: SliderState, v: real): nat
    requires s.minimum <= s.maximum
  {
    var cv := Clamp(v, s.minimum, s.maximum);
    if cv != s.value then LevelAll(s.(value := cv)) else 0
  }

  ghost function LevelRecalculateValue(s: SliderState): nat
    requires s.minimum <= s.maximum
  {
    if !s.isSnapToTickEnabled then 0
    else LevelValueSet(s.(tickFrequency := FilledFrequency(s)), TickedValue(s))
  }

  ghost function LevelTickValueSet(s: SliderState, v: int): nat
    requires s.minimum <= s.maximum && s.tickCount >= 0
  {
    var cv := CoerceTickValue(v, s.tickCount);
    if cv != s.tickValue then LevelRecalculateValue(s.(tickValue := cv)) else 0
  }

  ghost function LevelRecalculateTickValue(s: SliderState): nat
    requires s.minimum <= s.maximum && s.tickCount >= 0
  {
    LevelTickValueSet(s.(tickFrequency := FilledFrequency(s)), NearestTick(s))
  }

  /** With a fresh cache, RecalculateValue runs at most one RecalculateAll, and that one is idle. */
  lemma LevelRecalculateValueWhenFresh(s: SliderState)
    requires WellFormed(s) && s.isSnapToTickEnabled && s.tickFrequency == Frequency(s)
    ensures LevelRecalculateValue(s) == if s.value != SnapValue(s, s.tickValue) then 1 else 0
  {
    assert FilledFrequency(s) == s.tickFrequency;
    assert TickedValue(s) == SnapValue(s, s.tickValue);
    var nv := SnapValue(s, s.tickValue);
    SnapValueBounds(s, s.tickValue);
    assert Clamp(nv, s.minimum, s.maximum) == nv;
    SnapTickOfSnapValue(s, s.tickValue);
    assert RankAll(s.(value := nv)) == 0;
  }

  /** The two calls RecalculateAll makes have lower ranks than RecalculateAll itself. */
  lemma RecalculateAllRanks(s: SliderState)
    requires WellFormed(s) && s.isSnapToTickEnabled
    ensures LevelRecalculateTickValue(s.(tickFrequency := Frequency(s))) <= RankAll(s)
    ensures LevelRecalculateValue(RecalculatedTickValue(s.(tickFrequency := Frequency(s)))) <= RankAll(s)
  {
    var s1 := s.(tickFrequency := Frequency(s));
    var t := SnapTick(s);
    SnapTickBounds(s);
    assert SnapTick(s1) == t && SnapValue(s1, t) == SnapValue(s, t);
    assert FilledFrequency(s1) == Frequency(s) && NearestTick(s1) == t;
    assert s1.(tickFrequency := FilledFrequency(s1)) == s1;
    RecalculatedTickValueWhenFresh(s1);
    var mid := RecalculatedTickValue(s1);
    LevelRecalculateValueWhenFresh(mid);
    if s.tickValue != t {
      assert RankAll(s) == 2;
      LevelRecalculateValueWhenFresh(s1.(tickValue := t));
    }
  }

  /** The slider control: the base Slider's range and Value, and the tick properties. */
  class ExtendedSlider {
    const minimum: real
    const maximum: real
    var value: real
    var tickCount: int
    var tickValue: int
    var isSnapToTickEnabled: bool
    /** `_tickFrequency`: set by CalculateTickFrequency, read by the two recalculations. */
    var tickFrequency: real

    function State(): SliderState
      reads this
    {
      SliderState(minimum, maximum, value, tickCount, tickValue, isSnapToTickEnabled, tickFrequency)
    }

    ghost predicate Valid()
      reads this
    {
      Consistent(State())
    }

    /** A slider over [minimum, maximum] at `value`, with no ticks and snapping off. */
    constructor (minimum: real, maximum: real, value: real)
      requires minimum < maximum && minimum <= value <= maximum
      ensures Valid()
      ensures State() == SliderState(minimum, maximum, value, 0, 0, false, 0.0)
    {
      this.minimum := minimum;
      this.maximum := maximum;
      this.value := value;
      tickCount := 0;
      tickValue := 0;
      isSnapToTickEnabled := false;
      tickFrequency := 0.0;
    }

    method CalculateTickFrequency()
      modifies this`tickFrequency
      ensures tickFrequency == Frequency(State())
    {
      var tickFrequency := if tickCount == 0 then 0.0 else (maximum - minimum) / tickCount as real;
      this.tickFrequency := if tickFrequency > 0.0 then tickFrequency else 0.0;
    }

    /** RecalculateAll: re-snaps when snapping is on. */
    method RecalculateAll()
      requires WellFormed(State())
      modifies this
      ensures State() == RecalculatedAll(old(State()))
      decreases LevelAll(State()), 0
    {
      if !isSnapToTickEnabled {
        return;
      }
      ghost var s := State();
      CalculateTickFrequency();
      RecalculateAllRanks(s);
      RecalculateTickValue();
      RecalculateValue();
      CascadeIsRecalculatedAll(s);
    }

    /** The ValueChanged handler. */
    method OnValueChanged()
      requires WellFormed(State())
      modifies this
      ensures State() == RecalculatedAll(old(State()))
      decreases LevelAll(State()), 1
    {
      RecalculateAll();
    }

    /** The base Slider's Value setter: clamps, commits a real change and raises ValueChanged. */
    method SetValue(v: real)
      requires WellFormed(State())
      modifies this
      ensures State() == ValueSet(old(State()), v)
      ensures Consistent(old(State())) ==> Consistent(State())
      decreases LevelValueSet(State(), v), 2
    {
      ghost var s := State();
      var coerced := Clamp(v, minimum, maximum);
      if coerced != value {
        value := coerced;
        OnValueChanged();
      }
      if Consistent(s) {
        ValueSetKeepsConsistent(s, v);
      }
    }

    /** RecalculateValue: with snapping on, moves Value to the value of TickValue. */
    method RecalculateValue()
      requires WellFormed(State())
      modifies this
      ensures State() == RecalculatedValue(old(State()))
      decreases LevelRecalculateValue(State()), 3
    {
      if !isSnapToTickEnabled {
        return;
      }
      var newValue := minimum;
      if tickFrequency == 0.0 {
        CalculateTickFrequency();
      }
      if tickFrequency != 0.0 {
        newValue := tickValue as real * tickFrequency + minimum;
      }
      assert newValue == TickedValue(old(State()));
      if value != newValue {
        SetValue(newValue);
      }
    }

    /** The TickValue change handler. */
    method OnTickValuePropertyChanged(oldValue: int, newValue: int)
      requires WellFormed(State())
      modifies this
      ensures oldValue == newValue ==> State() == old(State())
      ensures oldValue != newValue ==> State() == RecalculatedValue(old(State()))
      decreases LevelRecalculateValue(State()), 4
    {
      if oldValue == newValue {
        return;
      }
      RecalculateValue();
    }

    /** The TickValue setter: coerces, commits a real change and runs the change handler. */
    method SetTickValue(v: int)
      requires WellFormed(State())
      modifies this
      ensures State() == TickValueSet(old(State()), v)
      ensures Consistent(old(State())) ==> Consistent(State())
      decreases LevelTickValueSet(State(), v), 5
    {
      ghost var s := State();
      var coerced := CoerceTickValue(v, tickCount);
      if coerced != tickValue {
        var oldValue := tickValue;
        tickValue := coerced;
        OnTickValuePropertyChanged(oldValue, coerced);
      }
      if Consistent(s) {
        TickValueSetKeepsConsistent(s, v);
      }
    }

    /** RecalculateTickValue: moves TickValue to the tick nearest to Value. */
    method RecalculateTickValue()
      requires WellFormed(State())
      modifies this
      ensures State() == RecalculatedTickValue(old(State()))
      decreases LevelRecalculateTickValue(State()), 6
    {
      var newTickValue := 0;
      if tickFrequency == 0.0 {
        CalculateTickFrequency();
      }
      if tickFrequency != 0.0 {
        newTickValue := RoundHalfEven((value - minimum) / tickFrequency);
      }
      if tickValue != newTickValue {
        SetTickValue(newTickValue);
      }
    }

    /** OnTickCountCoerceValue: clamps TickValue into [0, n] and leaves `n` as it is. */
    method OnTickCountCoerceValue(n: int) returns (r: int)
      requires WellFormed(State()) && n >= 0
      modifies this
      ensures r == n
      ensures State() == TickValueSet(old(State()), ClampInt(old(tickValue), 0, n))
    {
      SetTickValue(ClampInt(tickValue, 0, n));
      r := n;
    }

    /** The TickCount change handler. */
    method OnTickCountPropertyChanged(oldValue: int, newValue: int)
      requires WellFormed(State())
      modifies this
      ensures oldValue == newValue ==> State() == old(State())
      ensures oldValue != newValue ==> State() == RecalculatedAll(old(State()))
    {
      if oldValue == newValue {
        return;
      }
      RecalculateAll();
    }

    /**
     * The TickCount setter: validates (a rejected count leaves everything as it was), coerces,
     * commits a real change and runs the change handler.
     */
    method SetTickCount(n: int) returns (accepted: bool)
      requires Valid()
      modifies this
      ensures Valid()
      ensures accepted == TickCountIsValid(n)
      ensures TickCountSet(old(State()), n) == if accepted then Some(State()) else None
    {
      if !TickCountIsValid(n) {
        return false;
      }
      ghost var s := State();
      CoercedTickFits(s, n);
      var coerced := OnTickCountCoerceValue(n);
      if coerced != tickCount {
        var oldValue := tickCount;
        tickCount := coerced;
        OnTickCountPropertyChanged(oldValue, coerced);
      }
      accepted := true;
    }

    /** The IsSnapToTickEnabled change handler. */
    method OnIsSnapToTickEnabledPropertyChanged(oldValue: bool, newValue: bool)
      requires WellFormed(State()) && isSnapToTickEnabled == newValue
      modifies this
      ensures oldValue == newValue ==> State() == old(State())
      ensures oldValue != newValue ==>
        State() == RecalculatedAll(if newValue then RecalculatedValue(old(State())) else old(State()))
    {
      if oldValue == newValue {
        return;
      }
      if newValue {
        RecalculateValue();
      }
      RecalculateAll();
    }

    /** The IsSnapToTickEnabled setter: commits a real change and runs the change handler. */
    method SetIsSnapToTickEnabled(b: bool)
      requires Valid()
      modifies this
      ensures Valid()
      ensures State() == SnapToTickSet(old(State()), b)
    {
      if b != isSnapToTickEnabled {
        var oldValue := isSnapToTickEnabled;
        isSnapToTickEnabled := b;
        OnIsSnapToTickEnabledPropertyChanged(oldValue, b);
      }
    }
  }
}
