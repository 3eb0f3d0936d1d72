/** The LED indicator button `QLED`: its state and the colour table that
    selects the four gradient colours it is painted with. Painting itself is
    not modelled. */
module LedWidget {
  import opened Common

  datatype Rgb = Rgb(r: int, g: int, b: int)

  /** The two colours of the lit gradient and the two of the dark one. */
  datatype Palette = Palette(on1: Rgb, on2: Rgb, off1: Rgb, off2: Rgb)

  predicate IsKnownColor(c: string)
  {
    c == "green" || c == "red" || c == "orange" || c == "gray"
  }

  /** The colour table; any other name selects nothing. */
  function PaletteOf(c: string): (p: Option<Palette>)
    ensures p.Some? <==> IsKnownColor(c)
  {
    if c == "green" then
      Some(Palette(Rgb(0, 255, 0), Rgb(0, 192, 0), Rgb(0, 28, 0), Rgb(0, 128, 0)))
    else if c == "red" then
      Some(Palette(Rgb(255, 0, 0), Rgb(176, 0, 0), Rgb(28, 0, 0), Rgb(156, 0, 0)))
    else if c == "orange" then
      Some(Palette(Rgb(255, 162, 0), Rgb(207, 131, 0), Rgb(56, 36, 0), Rgb(156, 99, 0)))
    else if c == "gray" then
      Some(Palette(Rgb(250, 250, 250), Rgb(207, 207, 207), Rgb(56, 56, 56), Rgb(156, 156, 156)))
    else None
  }

  function Brightness(c: Rgb): (b: int) { c.r + c.g + c.b }

  predicate IsChannel(c: Rgb) { 0 <= c.r < 256 && 0 <= c.g < 256 && 0 <= c.b < 256 }

  /** Every entry of the table is a valid 8-bit colour, and in every row the
      lit colours are brighter than the dark ones, so a checked LED reads as on. */
  lemma PaletteIsLitWhenOn(c: string)
    requires IsKnownColor(c)
    ensures var p := PaletteOf(c).value;
            IsChannel(p.on1) && IsChannel(p.on2) && IsChannel(p.off1) && IsChannel(p.off2)
            && Brightness(p.on1) > Brightness(p.off1) && Brightness(p.on2) > Brightness(p.off2)
  {
  }

  /** Different colour names select different palettes, so the palette
      determines the colour. */
  lemma PaletteDeterminesColor(c1: string, c2: string)
    requires IsKnownColor(c1) && IsKnownColor(c2) && PaletteOf(c1) == PaletteOf(c2)
    ensures c1 == c2
  {
  }

  class QLed {
    var enabled: bool
    var checkable: bool
    var checked: bool
    var minWidth: int
    var minHeight: int
    var color: string
    /** The four gradient colours; absent until a known colour is first chosen. */
    var palette: Option<Palette>
    var toolTip: string
    var hover: bool

    /** The palette always belongs to the colour: either no colour has been
        accepted yet, or `color` is in the table and `palette` is its row. */
    ghost predicate Valid()
      reads this
    {
      (color == "" && palette.None?)
      || (IsKnownColor(color) && palette == PaletteOf(color))
    }

    /** A disabled, checkable, unchecked LED of at least 24x24 pixels, not
        hovered, showing `initialColor` when the table knows it. */
    constructor(initialColor: string)
      ensures Valid()
      ensures !enabled && checkable && !checked && !hover
      ensures minWidth == 24 && minHeight == 24 && toolTip == ""
      ensures IsKnownColor(initialColor) ==> color == initialColor
      ensures !IsKnownColor(initialColor) ==> color == "" && palette.None?
    {
      enabled := false;
      minWidth, minHeight := 24, 24;
      checkable := true;
      checked := false;
      toolTip := "";
      color := "";
      palette := None;
      hover := false;
      new;
      ChangeColor(initialColor);
    }

    /** A known colour is taken together with its palette row; an unknown one
        is reverted, leaving colour and palette as they were. */
    method ChangeColor(c: string)
      modifies this
      requires Valid()
      ensures Valid()
      ensures IsKnownColor(c) ==> color == c && palette == PaletteOf(c)
      ensures !IsKnownColor(c) ==> color == old(color) && palette == old(palette)
      ensures c == old(color) ==> color == old(color) && palette == old(palette)
      ensures enabled == old(enabled) && checkable == old(checkable) && checked == old(checked)
      ensures minWidth == old(minWidth) && minHeight == old(minHeight)
      ensures toolTip == old(toolTip) && hover == old(hover)
    {
      if color != c {
        var previous := color;
        color := c;
        var p := PaletteOf(c);
        if p.Some? {
          palette := p;
        } else {
          color := previous;
        }
      }
    }

    /** Applies each argument that is present and ignores each one that is absent. */
    method ChangeState(newChecked: Option<bool>, newColor: Option<string>, newToolTip: Option<string>)
      modifies this
      requires Valid()
      ensures Valid()
      ensures checked == (if newChecked.Some? then newChecked.value else old(checked))
      ensures toolTip == (if newToolTip.Some? then newToolTip.value else old(toolTip))
      ensures newColor.Some? && IsKnownColor(newColor.value) ==>
                color == newColor.value && palette == PaletteOf(newColor.value)
      ensures (newColor.None? || !IsKnownColor(newColor.value)) ==>
                color == old(color) && palette == old(palette)
      ensures enabled == old(enabled) && checkable == old(checkable) && hover == old(hover)
      ensures minWidth == old(minWidth) && minHeight == old(minHeight)
    {
      if newChecked.Some? {
        checked := newChecked.value;
      }
      if newColor.Some? {
        ChangeColor(newColor.value);
      }
      if newToolTip.Some? {
        toolTip := newToolTip.value;
      }
    }

    /** Changes the hover flag and nothing else. */
    method ChangeHover(h: bool)
      modifies this
      requires Valid()
      ensures Valid() && hover == h
      ensures enabled == old(enabled) && checkable == old(checkable) && checked == old(checked)
      ensures color == old(color) && palette == old(palette) && toolTip == old(toolTip)
      ensures minWidth == old(minWidth) && minHeight == old(minHeight)
    {
      hover := h;
    }
  }
}
