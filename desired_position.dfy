/** The desired-position (DPOS) correction shared by the Xeryon and Navitar
    motors. Setting DPOS emits its signal, and the slot either forwards the
    value to the hardware or, when the value lies outside the limits, sets
    DPOS again: a linear stage to the violated limit, a rotary stage one turn
    (360 degrees) back towards the range. The slot therefore re-enters
    itself until the value is in range. `Chain` is the sequence of values
    DPOS holds along the way; `Normalize` is where it ends, in closed form. */
module DesiredPosition {
  import opened Common

  /** A linear stage with limits `lo < hi`, or a rotary stage, whose limits
      are always 0 and 360 degrees. */
  datatype AxisKind = Linear(lo: int, hi: int) | Rotary

  const FullTurn: real := 360.0

  predicate WellFormed(k: AxisKind)
  {
    k.Linear? ==> k.lo < k.hi
  }

  function Low(k: AxisKind): (lo: real)
  {
    if k.Linear? then k.lo as real else 0.0
  }

  function High(k: AxisKind): (hi: real)
  {
    if k.Linear? then k.hi as real else FullTurn
  }

  predicate InRange(k: AxisKind, v: real)
  {
    Low(k) <= v <= High(k)
  }

  /** Signed number of whole turns the rotary correction adds to `v`:
      positive when `v` is below 0, negative when it is above 360. */
  function RotaryTurns(v: real): (n: int)
  {
    if v < 0.0 then -((v / FullTurn).Floor)
    else if v > FullTurn then (-v / FullTurn).Floor + 1
    else 0
  }

  /** How many more times the slot re-enters before the value is in range. */
  function Measure(k: AxisKind, v: real): (m: nat)
  {
    if InRange(k, v) then 0
    else if k.Linear? then 1
    else var t := RotaryTurns(v); if t < 0 then -t else t
  }

  predicate IsWholeTurns(d: real)
  {
    (d / FullTurn).Floor as real * FullTurn == d
  }

  /** The one correction step the slot performs on an out-of-range value. */
  function Corrected(k: AxisKind, v: real): (c: real)
    ensures InRange(k, v) ==> c == v
    ensures WellFormed(k) && k.Linear? ==> c == Clamp(v, Low(k), High(k))
    ensures k.Rotary? && !InRange(k, v) ==> Abs(c - v) == FullTurn && (v < 0.0 <==> c > v)
  {
    if v < Low(k) then (if k.Linear? then Low(k) else v + FullTurn)
    else if v > High(k) then (if k.Linear? then High(k) else v - FullTurn)
    else v
  }

  lemma {:induction false} CorrectedDecreases(k: AxisKind, v: real)
    requires WellFormed(k) && !InRange(k, v)
    ensures Measure(k, Corrected(k, v)) == Measure(k, v) - 1
  {
    if k.Rotary? {
      var c := Corrected(k, v);
      if v < 0.0 {
        FloorStep(v / FullTurn);
        assert c / FullTurn == v / FullTurn + 1.0;
        if c < 0.0 {
          assert RotaryTurns(c) == RotaryTurns(v) - 1;
        } else {
          assert (v / FullTurn).Floor == -1;
        }
      } else {
        FloorStep(-c / FullTurn);
        assert -v / FullTurn == -c / FullTurn - 1.0;
        if c > FullTurn {
          assert RotaryTurns(c) == RotaryTurns(v) + 1;
        } else {
          assert (-v / FullTurn).Floor == -2;
        }
      }
    }
  }

  lemma FloorStep(x: real)
    ensures (x + 1.0).Floor == x.Floor + 1
  {
  }

  /** The values DPOS holds, in order, from setting it to `v` until the slot
      forwards a value to the hardware; the signal is emitted once for each. */
  function Chain(k: AxisKind, v: real): (c: seq<real>)
    requires WellFormed(k)
    ensures |c| == Measure(k, v) + 1
    ensures c[0] == v && InRange(k, c[|c| - 1])
    ensures forall i :: 0 <= i < |c| - 1 ==> !InRange(k, c[i])
    decreases Measure(k, v)
  {
    if InRange(k, v) then [v]
    else
      CorrectedDecreases(k, v);
      [v] + Chain(k, Corrected(k, v))
  }

  /** Where the correction ends: a linear stage clamps to its limits, a rotary
      stage lands in [0, 360] after whole turns, stopping at the first value
      the range admits. */
  function Normalize(k: AxisKind, v: real): (r: real)
    requires WellFormed(k)
    ensures InRange(k, r)
    ensures InRange(k, v) ==> r == v
    ensures k.Linear? ==> r == Clamp(v, Low(k), High(k))
    ensures k.Rotary? ==> IsWholeTurns(r - v)
    ensures k.Rotary? && v > FullTurn ==> 0.0 < r
    ensures k.Rotary? && v < 0.0 ==> r < FullTurn
  {
    if k.Linear? then Clamp(v, Low(k), High(k))
    else
      var t := RotaryTurns(v);
      TurnsLand(v);
      v + t as real * FullTurn
  }

  lemma TurnsLand(v: real)
    ensures var r := v + RotaryTurns(v) as real * FullTurn;
            0.0 <= r <= FullTurn && IsWholeTurns(r - v)
            && (v > FullTurn ==> 0.0 < r) && (v < 0.0 ==> r < FullTurn)
  {
    var t := RotaryTurns(v);
    var r := v + t as real * FullTurn;
    assert (t as real * FullTurn / FullTurn) == t as real;
  }

  /** The re-entry chain ends exactly where the closed form says. */
  lemma {:induction false} ChainEndsAtNormalize(k: AxisKind, v: real)
    requires WellFormed(k)
    ensures Chain(k, v)[|Chain(k, v)| - 1] == Normalize(k, v)
    decreases Measure(k, v)
  {
    if !InRange(k, v) {
      var c := Corrected(k, v);
      CorrectedDecreases(k, v);
      ChainEndsAtNormalize(k, c);
      assert Chain(k, v)[|Chain(k, v)| - 1] == Chain(k, c)[|Chain(k, c)| - 1];
      NormalizeStep(k, v);
    }
  }

  /** One correction step does not change where the correction ends. */
  lemma NormalizeStep(k: AxisKind, v: real)
    requires WellFormed(k)
    ensures Normalize(k, Corrected(k, v)) == Normalize(k, v)
  {
    if k.Rotary? && !InRange(k, v) {
      var c := Corrected(k, v);
      var rc, rv := Normalize(k, c), Normalize(k, v);
      var n, m := ((rc - c) / FullTurn).Floor, ((rv - v) / FullTurn).Floor;
      var step := if v < 0.0 then 1 else -1;
      assert c - v == step as real * FullTurn;
      assert rc - rv == (n + step - m) as real * FullTurn;
      WholeTurns(n + step - m);
      WholeTurnsUnique(rc, rv);
    }
  }

  lemma WholeTurns(n: int)
    ensures IsWholeTurns(n as real * FullTurn)
  {
    assert n as real * FullTurn / FullTurn == n as real;
  }

  /** Two points of (0, 360], or two of [0, 360), a whole number of turns
      apart, are the same point. */
  lemma WholeTurnsUnique(r1: real, r2: real)
    requires IsWholeTurns(r1 - r2)
    requires (0.0 < r1 <= FullTurn && 0.0 < r2 <= FullTurn)
          || (0.0 <= r1 < FullTurn && 0.0 <= r2 < FullTurn)
    ensures r1 == r2
  {
  }

  /** Normalizing twice is normalizing once. */
  lemma NormalizeIdempotent(k: AxisKind, v: real)
    requires WellFormed(k)
    ensures Normalize(k, Normalize(k, v)) == Normalize(k, v)
  {
  }

  /** A linear stage needs at most one correction: the value is set at most
      twice. */
  lemma LinearChainIsShort(lo: int, hi: int, v: real)
    requires lo < hi
    ensures |Chain(Linear(lo, hi), v)| <= 2
  {
  }

  lemma RotaryExamples()
    ensures Chain(Rotary, 730.0) == [730.0, 370.0, 10.0]
    ensures Normalize(Rotary, -5.0) == 355.0
    ensures Normalize(Rotary, 720.0) == 360.0
    ensures Normalize(Rotary, -360.0) == 0.0
    ensures Chain(Linear(-5, 5), 7.0) == [7.0, 5.0]
  {
    assert Corrected(Rotary, 730.0) == 370.0;
    assert Corrected(Rotary, 370.0) == 10.0;
    assert Chain(Rotary, 10.0) == [10.0];
    assert Chain(Rotary, 370.0) == [370.0, 10.0];
    assert RotaryTurns(-5.0) == 1;
    assert RotaryTurns(720.0) == -1;
    assert RotaryTurns(-360.0) == 1;
    assert Chain(Linear(-5, 5), 5.0) == [5.0];
  }
}
