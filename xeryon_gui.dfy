/** The decisions the Xeryon control widgets make before they call a motor:
    which step a button asks for, which step an arrow key asks for under the
    keyboard modifiers, the coordinate-system toggle of the XY widget, where
    the mouse cursor lines are drawn, and when a click or slider moves a
    motor. The widgets themselves (layouts, painting, focus) are not
    modelled. */
module XeryonGui {
  import opened Common

  /** The three step tiers of a button, selected by the digit after the
      direction letter: a tenth of the step size, the step size, five times
      the step size. */
  function TierMultiplier(digit: char): (m: Option<real>)
    ensures m.Some? <==> digit == '1' || digit == '2' || digit == '3'
    ensures digit == '1' ==> m == Some(0.1)
    ensures digit == '2' ==> m == Some(1.0)
    ensures digit == '3' ==> m == Some(5.0)
  {
    if digit == '1' then Some(0.1)
    else if digit == '2' then Some(1.0)
    else if digit == '3' then Some(5.0)
    else None
  }

  /** The sign a direction letter selects: `neg` steps down, `pos` up. */
  function DirectionSign(letter: char, neg: char, pos: char): (s: Option<real>)
    requires neg != pos
    ensures s.Some? <==> letter == neg || letter == pos
    ensures letter == neg ==> s == Some(-1.0)
    ensures letter == pos ==> s == Some(1.0)
  {
    if letter == neg then Some(-1.0)
    else if letter == pos then Some(1.0)
    else None
  }

  /** The step a button of a linear move widget asks the motor for. The
      button's name is a direction letter (`neg` or `pos`) and a tier digit;
      a name that does not decode leaves the sign or the multiplier unset,
      and the click fails instead of stepping. */
  function ButtonStep(name: string, neg: char, pos: char, stepSize: real): (r: Option<real>)
    requires neg != pos
    ensures r.Some? <==> |name| >= 2 && DirectionSign(name[0], neg, pos).Some?
                         && TierMultiplier(name[1]).Some?
    ensures r.Some? ==> r.value == DirectionSign(name[0], neg, pos).value
                                   * TierMultiplier(name[1]).value * stepSize
  {
    if |name| < 2 then None
    else
      var sign, multiplier := DirectionSign(name[0], neg, pos), TierMultiplier(name[1]);
      if sign.None? || multiplier.None? then None
      else Some(sign.value * multiplier.value * stepSize)
  }

  /** The horizontal widget: buttons "L1".."L3" step left, "R1".."R3" right. */
  function MoveHStep(name: string, stepSize: real): (r: Option<real>)
    ensures r.Some? <==> |name| >= 2 && (name[0] == 'L' || name[0] == 'R')
                         && (name[1] == '1' || name[1] == '2' || name[1] == '3')
    ensures r.Some? && stepSize > 0.0 ==> (r.value < 0.0 <==> name[0] == 'L')
  {
    ButtonStep(name, 'L', 'R', stepSize)
  }

  /** The vertical widget: buttons "U1".."U3" step negative, "D1".."D3" positive. */
  function MoveVStep(name: string, stepSize: real): (r: Option<real>)
    ensures r.Some? <==> |name| >= 2 && (name[0] == 'U' || name[0] == 'D')
                         && (name[1] == '1' || name[1] == '2' || name[1] == '3')
    ensures r.Some? && stepSize > 0.0 ==> (r.value < 0.0 <==> name[0] == 'U')
  {
    ButtonStep(name, 'U', 'D', stepSize)
  }

  /** The rotation widget: its two buttons "L" and "R" step one step size
      either way; only the first letter of the name is read. */
  function RotationStep(name: string, stepSize: real): (r: Option<real>)
    ensures r.Some? <==> |name| >= 1 && (name[0] == 'L' || name[0] == 'R')
    ensures r.Some? ==> r.value == (if name[0] == 'L' then -stepSize else stepSize)
  {
    if |name| < 1 then None
    else
      var sign := DirectionSign(name[0], 'L', 'R');
      if sign.None? then None else Some(sign.value * stepSize)
  }

  /** Opposite buttons of the same tier ask for opposite steps. */
  lemma ButtonsMirror(neg: char, pos: char, digit: char, stepSize: real)
    requires neg != pos && TierMultiplier(digit).Some?
    ensures ButtonStep([neg, digit], neg, pos, stepSize).Some?
    ensures ButtonStep([pos, digit], neg, pos, stepSize).Some?
    ensures ButtonStep([neg, digit], neg, pos, stepSize).value
            == -ButtonStep([pos, digit], neg, pos, stepSize).value
  {
    assert [neg, digit][0] == neg && [neg, digit][1] == digit;
    assert [pos, digit][0] == pos && [pos, digit][1] == digit;
  }

  /** For a positive step size the tiers grow strictly, and the middle tier
      is the step size itself. */
  lemma TiersOrdered(pos: char, neg: char, stepSize: real)
    requires neg != pos && stepSize > 0.0
    ensures var s1, s2, s3 := ButtonStep([pos, '1'], neg, pos, stepSize),
                              ButtonStep([pos, '2'], neg, pos, stepSize),
                              ButtonStep([pos, '3'], neg, pos, stepSize);
            s1.Some? && s2.Some? && s3.Some?
            && 0.0 < s1.value < s2.value < s3.value && s2.value == stepSize
  {
    assert [pos, '1'][0] == pos && [pos, '1'][1] == '1';
    assert [pos, '2'][0] == pos && [pos, '2'][1] == '2';
    assert [pos, '3'][0] == pos && [pos, '3'][1] == '3';
  }

  /** The key codes of the arrow keys and the modifier bits of the toolkit. */
  const KeyLeft: int := 0x0100_0012
  const KeyUp: int := 0x0100_0013
  const KeyRight: int := 0x0100_0014
  const KeyDown: int := 0x0100_0015
  const ShiftModifier: bv32 := 0x0200_0000
  const ControlModifier: bv32 := 0x0400_0000

  /** The multiplier the keyboard modifiers select: Shift for five times the
      step, otherwise Control for a tenth, otherwise the step itself. */
  function KeyMultiplier(modifiers: bv32): (m: real)
    ensures modifiers & ShiftModifier != 0 ==> m == 5.0
    ensures modifiers & ShiftModifier == 0 && modifiers & ControlModifier != 0 ==> m == 0.1
    ensures modifiers & ShiftModifier == 0 && modifiers & ControlModifier == 0 ==> m == 1.0
  {
    if modifiers & ShiftModifier != 0 then 5.0
    else if modifiers & ControlModifier != 0 then 0.1
    else 1.0
  }

  datatype Axis = AxisX | AxisY

  /** The step an arrow key asks for in the XY widget: left and right step
      the X motor, down and up the Y motor, each by its own step size times
      the modifier multiplier; every other key asks for nothing. */
  function KeyStep(key: int, modifiers: bv32, stepX: real, stepY: real): (r: Option<(Axis, real)>)
    ensures r.Some? <==> key in {KeyLeft, KeyRight, KeyDown, KeyUp}
    ensures r.Some? ==> (r.value.0 == AxisX <==> key == KeyLeft || key == KeyRight)
    ensures r.Some? ==>
              r.value.1 == (if key == KeyLeft then -stepX else if key == KeyRight then stepX
                            else if key == KeyDown then -stepY else stepY) * KeyMultiplier(modifiers)
  {
    var m := KeyMultiplier(modifiers);
    if key == KeyLeft then Some((AxisX, -stepX * m))
    else if key == KeyRight then Some((AxisX, stepX * m))
    else if key == KeyDown then Some((AxisY, -stepY * m))
    else if key == KeyUp then Some((AxisY, stepY * m))
    else None
  }

  /** The tier digit of the button a modifier combination corresponds to:
      Shift the top tier, Control alone the bottom one, otherwise the middle. */
  function ModifierTier(modifiers: bv32): (tier: char)
  {
    if modifiers & ShiftModifier != 0 then '3'
    else if modifiers & ControlModifier != 0 then '1'
    else '2'
  }

  /** The button an arrow key corresponds to: its direction letter, and the
      tier the modifiers select. Left and right are the horizontal buttons,
      down and up the vertical ones ("U" steps negative). */
  function ArrowButton(key: int, modifiers: bv32): (name: string)
  {
    var letter := if key == KeyLeft then 'L' else if key == KeyRight then 'R'
                  else if key == KeyDown then 'U' else 'D';
    [letter, ModifierTier(modifiers)]
  }

  /** Every arrow key, under every modifier combination, asks for exactly the
      step of its button: the same motor, direction and tier. */
  lemma ArrowsMatchButtons(key: int, modifiers: bv32, stepX: real, stepY: real)
    requires key in {KeyLeft, KeyRight, KeyDown, KeyUp}
    ensures var r, b := KeyStep(key, modifiers, stepX, stepY), ArrowButton(key, modifiers);
            var horizontal := key == KeyLeft || key == KeyRight;
            && r.Some? && r.value.0 == (if horizontal then AxisX else AxisY)
            && (horizontal ==> MoveHStep(b, stepX).Some? && r.value.1 == MoveHStep(b, stepX).value)
            && (!horizontal ==> MoveVStep(b, stepY).Some? && r.value.1 == MoveVStep(b, stepY).value)
  {
    var b, m := ArrowButton(key, modifiers), KeyMultiplier(modifiers);
    assert |b| == 2 && TierMultiplier(b[1]) == Some(m);
    if key == KeyLeft {
      assert b[0] == 'L';
    } else if key == KeyRight {
      assert b[0] == 'R';
    } else if key == KeyDown {
      assert b[0] == 'U';
    } else {
      assert b[0] == 'D';
    }
  }

  /** The coordinate system after the change button: 1 (motors) and 2
      (sample) alternate; any number above 2 falls back to 1. */
  function NextCoordinateSystem(cs: int): (n: int)
    ensures cs >= 2 ==> n == 1
    ensures cs < 2 ==> n == cs + 1
  {
    if cs + 1 > 2 then 1 else cs + 1
  }

  /** Pressing the change button twice from either system returns to it, and
      the two systems are the only ones reached. */
  lemma CoordinateToggleIsInvolution(cs: int)
    requires cs == 1 || cs == 2
    ensures NextCoordinateSystem(cs) in {1, 2} && NextCoordinateSystem(cs) != cs
    ensures NextCoordinateSystem(NextCoordinateSystem(cs)) == cs
  {
  }

  /** The caption of a coordinate system; other numbers have none. */
  function CoordinateLabel(cs: int): (l: Option<string>)
    ensures l.Some? <==> cs == 1 || cs == 2
  {
    if cs == 1 then Some("Motors") else if cs == 2 then Some("Sample") else None
  }

  /** The coordinate-system part of the XY widget. */
  class XYWidget {
    var cs: int
    var caption: string

    ghost predicate Valid()
      reads this
    {
      (cs == 1 || cs == 2) && CoordinateLabel(cs) == Some(caption)
    }

    /** The widget starts in motor coordinates. */
    constructor()
      ensures Valid() && cs == 1 && caption == "Motors"
    {
      cs := 1;
      caption := "Motors";
    }

    /** The change button: the next system, and its caption when it has one. */
    method ChangeCoordinates()
      modifies this
      requires Valid()
      ensures Valid()
      ensures cs == NextCoordinateSystem(old(cs)) && cs != old(cs)
      ensures Some(caption) == CoordinateLabel(cs)
    {
      cs := cs + 1;
      if cs > 2 {
        cs := 1;
      }
      if cs == 1 {
        caption := "Motors";
      } else if cs == 2 {
        caption := "Sample";
      }
    }
  }

  /** The position a click or a slider asks a motor for: the value itself,
      but only from a connected motor in motor coordinates; in sample
      coordinates nothing moves. */
  function MoveTarget(connected: bool, cs: int, value: real): (r: Option<real>)
    ensures r.Some? <==> connected && cs == 1
    ensures r.Some? ==> r.value == value
  {
    if connected && cs == 1 then Some(value) else None
  }

  /** Where the mouse lines are drawn: each coordinate clamped into the
      limits of its motor. */
  function CursorPoint(x: real, y: real, xlim: (int, int), ylim: (int, int)): (p: (real, real))
    requires xlim.0 <= xlim.1 && ylim.0 <= ylim.1
    ensures xlim.0 as real <= p.0 <= xlim.1 as real && ylim.0 as real <= p.1 <= ylim.1 as real
    ensures xlim.0 as real <= x <= xlim.1 as real ==> p.0 == x
    ensures ylim.0 as real <= y <= ylim.1 as real ==> p.1 == y
  {
    (Clamp(x, xlim.0 as real, xlim.1 as real), Clamp(y, ylim.0 as real, ylim.1 as real))
  }

  /** Each drawn coordinate is the point of its limits nearest the mouse. */
  lemma CursorIsNearest(x: real, y: real, xlim: (int, int), ylim: (int, int), px: real, py: real)
    requires xlim.0 as real <= px <= xlim.1 as real && ylim.0 as real <= py <= ylim.1 as real
    ensures var p := CursorPoint(x, y, xlim, ylim);
            Abs(p.0 - x) <= Abs(px - x) && Abs(p.1 - y) <= Abs(py - y)
  {
    ClampIsNearest(x, xlim.0 as real, xlim.1 as real, px);
    ClampIsNearest(y, ylim.0 as real, ylim.1 as real, py);
  }
}
