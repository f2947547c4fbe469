/** The values the sidebar computes from its widgets and stores: a style
    colour written as hexadecimal with two alpha digits, the list of
    colourspaces overlaid on the diagram, and the axes scale. The widgets
    themselves are not modelled; what they return enters as parameters. */
module Sidebar {
  import opened Wrappers
  import opened Options

  // ---------------------------------------------------------------------
  // Hexadecimal digits: `int(s, 16)` and `f"{n:02x}"`.
  // ---------------------------------------------------------------------

  /** The value of one hexadecimal digit of either case. */
  function HexDigitValue(c: char): (r: Option<nat>)
    ensures r.Some? ==> r.value < 16
    ensures r.Some? <==> '0' <= c <= '9' || 'a' <= c <= 'f' || 'A' <= c <= 'F'
  {
    if '0' <= c <= '9' then Some(c as int - '0' as int)
    else if 'a' <= c <= 'f' then Some(c as int - 'a' as int + 10)
    else if 'A' <= c <= 'F' then Some(c as int - 'A' as int + 10)
    else None
  }

  predicate IsLowerHexDigit(c: char) {
    '0' <= c <= '9' || 'a' <= c <= 'f'
  }

  /** The lowercase digit for a value below sixteen. */
  function Digit(d: nat): (c: char)
    requires d < 16
    ensures IsLowerHexDigit(c) && HexDigitValue(c) == Some(d)
  {
    if d < 10 then ('0' as int + d) as char else ('a' as int + d - 10) as char
  }

  /** The value of a string of hexadecimal digits, most significant first;
      None when some character is not a digit. */
  function ParseDigits(s: string): (r: Option<nat>)
    ensures r.Some? <==> forall i :: 0 <= i < |s| ==> HexDigitValue(s[i]).Some?
  {
    if |s| == 0 then Some(0)
    else
      match (ParseDigits(s[..|s| - 1]), HexDigitValue(s[|s| - 1]))
      case (Some(high), Some(low)) =>
        assert forall i :: 0 <= i < |s| - 1 ==> s[..|s| - 1][i] == s[i];
        Some(high * 16 + low)
      case (None, _) =>
        assert forall i :: 0 <= i < |s| - 1 ==> s[..|s| - 1][i] == s[i];
        None
      case (_, None) => None
  }

  /** `int(s, 16)` on digits only: the empty string and any other character
      raise ValueError. */
  function ParseHex(s: string): (r: Result<nat, Exception>)
    ensures r.Success? <==> s != "" && forall i :: 0 <= i < |s| ==> HexDigitValue(s[i]).Some?
    ensures r.Failure? ==> r.error == ValueError
  {
    if s == "" then Failure(ValueError)
    else match ParseDigits(s)
      case Some(n) => Success(n)
      case None => Failure(ValueError)
  }

  /** The shortest lowercase hexadecimal numeral of `n`. */
  function HexDigits(n: nat): (r: string)
    ensures 1 <= |r|
    ensures forall i :: 0 <= i < |r| ==> IsLowerHexDigit(r[i])
    ensures ParseDigits(r) == Some(n)
    ensures |r| == 1 <==> n < 16
    ensures 16 <= n < 256 ==> |r| == 2
    decreases n
  {
    if n < 16 then [Digit(n)]
    else
      var high := HexDigits(n / 16);
      var r := high + [Digit(n % 16)];
      assert r[..|r| - 1] == high;
      r
  }

  /** `f"{n:02x}"`: lowercase hexadecimal, padded with zeros to two digits. */
  function Hex02(n: nat): (r: string)
    ensures |r| >= 2 && (n < 256 ==> |r| == 2)
    ensures forall i :: 0 <= i < |r| ==> IsLowerHexDigit(r[i])
    ensures ParseHex(r) == Success(n)
  {
    var digits := HexDigits(n);
    if |digits| < 2 then
      var r := "0" + digits;
      assert r[..|r| - 1] == "0" && "0"[..0] == [];
      assert ParseDigits("0") == Some(0);
      assert r[|r| - 1] == digits[0];
      r
    else digits
  }

  /** Two lowercase digits are written back unchanged from their value. */
  lemma Hex02OfParsed(s: string)
    requires |s| == 2 && IsLowerHexDigit(s[0]) && IsLowerHexDigit(s[1])
    ensures ParseHex(s).Success? && Hex02(ParseHex(s).value) == s
  {
    var high := HexDigitValue(s[0]).value;
    var low := HexDigitValue(s[1]).value;
    assert s[..1][..0] == [];
    assert ParseDigits(s[..1]) == Some(high);
    assert ParseHex(s) == Success(high * 16 + low);
    assert Digit(high) == s[0];
    assert Digit(low) == s[1];
    if high == 0 {
      assert HexDigits(low) == [Digit(low)];
    } else {
      assert (high * 16 + low) / 16 == high && (high * 16 + low) % 16 == low;
      assert HexDigits(high * 16 + low) == [Digit(high)] + [Digit(low)];
    }
  }

  // ---------------------------------------------------------------------
  // Rounding: Python's `round` on a float, to the nearest integer with
  // ties to the even one.
  // ---------------------------------------------------------------------

  function RoundHalfEven(x: real): (r: int)
    ensures x - 1.0 / 2.0 <= r as real <= x + 1.0 / 2.0
    ensures (r as real - x == 1.0 / 2.0 || x - r as real == 1.0 / 2.0) ==> r % 2 == 0
  {
    var low := x.Floor;
    var fraction := x - low as real;
    if fraction < 1.0 / 2.0 then low
    else if fraction > 1.0 / 2.0 then low + 1
    else if low % 2 == 0 then low
    else low + 1
  }

  /** Rounding an integer gives it back. */
  lemma RoundOfInteger(n: int)
    ensures RoundHalfEven(n as real) == n
  {
  }

  // ---------------------------------------------------------------------
  // create_style_edit_row
  // ---------------------------------------------------------------------

  /** `s[7:]`: the characters after the seven of `#RRGGBB`. */
  function AlphaDigits(s: string): (r: string)
    ensures |s| <= 7 ==> r == []
    ensures |s| > 7 ==> s == s[..7] + r
  {
    if |s| <= 7 then [] else s[7..]
  }

  /** `int(initial_value[7:], 16) / 255`: the alpha the widget starts at. */
  function InitialAlpha(initialValue: string): (r: Result<real, Exception>)
    ensures r.Success? <==> ParseHex(AlphaDigits(initialValue)).Success?
    ensures r.Success? ==> r.value * 255.0 == ParseHex(AlphaDigits(initialValue)).value as real
    ensures r.Failure? ==> r.error == ValueError
  {
    var byte :- ParseHex(AlphaDigits(initialValue));
    Success(byte as real / 255.0)
  }

  /** The alpha byte written for an alpha in [0, 1]. */
  function AlphaByte(alpha: real): (r: nat)
    requires 0.0 <= alpha <= 1.0
    ensures r <= 255
    ensures (r as real) - 1.0 / 2.0 <= alpha * 255.0 <= (r as real) + 1.0 / 2.0
  {
    RoundHalfEven(alpha * 255.0)
  }

  /** `create_style_edit_row(label, initial_value, show_alpha)` given the
      colour the picker returns and the value of the alpha input; the input
      is bounded to [0, 1] by its widget. */
  function StyleEditRow(initialValue: string, showAlpha: bool, picked: string, alphaInput: real): (r: Result<string, Exception>)
    requires showAlpha ==> 0.0 <= alphaInput <= 1.0
    ensures r.Failure? <==> InitialAlpha(initialValue).Failure?
    ensures r.Failure? ==> r.error == ValueError
    ensures r.Success? ==>
      && |r.value| == |picked| + 2
      && r.value[..|picked|] == picked
      && (forall i :: |picked| <= i < |r.value| ==> IsLowerHexDigit(r.value[i]))
      && ParseHex(r.value[|picked|..]) == Success(if showAlpha then AlphaByte(alphaInput) else 0)
    ensures r.Success? && !showAlpha ==> r.value[|picked|..] == "00"
  {
    var initialAlpha :- InitialAlpha(initialValue);
    var alpha := if showAlpha then alphaInput else 0.0;
    var suffix := Hex02(AlphaByte(alpha));
    assert showAlpha || suffix == Hex02(0) == "00";
    var r := picked + suffix;
    assert r[..|picked|] == picked && r[|picked|..] == suffix;
    Success(r)
  }

  /** An alpha input left at its initial value writes back the initial byte,
      in lowercase. */
  lemma StyleEditRowUntouchedAlpha(initialValue: string, picked: string)
    requires ParseHex(AlphaDigits(initialValue)).Success?
    requires ParseHex(AlphaDigits(initialValue)).value <= 255
    ensures var alpha := InitialAlpha(initialValue).value;
      && 0.0 <= alpha <= 1.0
      && StyleEditRow(initialValue, true, picked, alpha).Success?
      && StyleEditRow(initialValue, true, picked, alpha).value == picked + Hex02(ParseHex(AlphaDigits(initialValue)).value)
  {
    var byte := ParseHex(AlphaDigits(initialValue)).value;
    var alpha := InitialAlpha(initialValue).value;
    assert alpha * 255.0 == byte as real;
    RoundOfInteger(byte);
    assert AlphaByte(alpha) == byte;
  }

  /** A `#RRGGBBaa` value with lowercase alpha digits, left untouched in both
      widgets, comes back unchanged. */
  lemma StyleEditRowUntouched(initialValue: string)
    requires |initialValue| == 9 && IsLowerHexDigit(initialValue[7]) && IsLowerHexDigit(initialValue[8])
    ensures InitialAlpha(initialValue).Success?
    ensures var alpha := InitialAlpha(initialValue).value;
      && 0.0 <= alpha <= 1.0
      && StyleEditRow(initialValue, true, initialValue[..7], alpha) == Success(initialValue)
  {
    var digits := AlphaDigits(initialValue);
    assert digits == [initialValue[7], initialValue[8]];
    Hex02OfParsed(digits);
    assert ParseHex(digits).value <= 255 by {
      assert |Hex02(ParseHex(digits).value)| == 2;
    }
    StyleEditRowUntouchedAlpha(initialValue, initialValue[..7]);
  }

  // ---------------------------------------------------------------------
  // create_colorspace_row and the figure colourspace list
  // ---------------------------------------------------------------------

  /** One overlay of the diagram: a colourspace name, or None for an unused
      row, with the colour it is drawn in. */
  datatype Overlay = Overlay(name: Option<string>, color: string)

  /** What the three widgets of one row return. */
  datatype RowInput = RowInput(useColorspace: bool, selectedName: string, picked: string)

  const UnusedColor := "#000000"

  /** `create_colorspace_row(identifier, initial_color)`; `token` is the
      configuration's source colourspace token. */
  function ColorspaceRow(identifier: nat, token: string, input: RowInput): (r: Overlay)
    ensures identifier == 1 ==> r == Overlay(Some(token), input.picked)
    ensures identifier != 1 ==> (r.name.Some? <==> input.useColorspace)
    ensures identifier != 1 && input.useColorspace ==> r == Overlay(Some(input.selectedName), input.picked)
    ensures identifier != 1 && !input.useColorspace ==> r.color == UnusedColor
  {
    if identifier == 1 then Overlay(Some(token), input.picked)
    else if input.useColorspace then Overlay(Some(input.selectedName), input.picked)
    else Overlay(None, UnusedColor)
  }

  /** The list the sidebar stores: one overlay per row, identifiers 1 to 5. */
  function FigureColorspaces(token: string, rows: seq<RowInput>): (r: seq<Overlay>)
    requires |rows| == 5
    ensures |r| == 5
    ensures r[0] == Overlay(Some(token), rows[0].picked)
    ensures forall i :: 1 <= i < 5 ==>
      && (r[i].name.Some? <==> rows[i].useColorspace)
      && (rows[i].useColorspace ==> r[i] == Overlay(Some(rows[i].selectedName), rows[i].picked))
      && (!rows[i].useColorspace ==> r[i].color == UnusedColor)
  {
    [ColorspaceRow(1, token, rows[0]), ColorspaceRow(2, token, rows[1]), ColorspaceRow(3, token, rows[2]),
     ColorspaceRow(4, token, rows[3]), ColorspaceRow(5, token, rows[4])]
  }

  /** The first row's checkbox and colourspace choice do not reach the stored
      list: only its colour does. */
  lemma FirstRowIgnoresChoice(token: string, rows: seq<RowInput>, useColorspace: bool, selectedName: string)
    requires |rows| == 5
    ensures FigureColorspaces(token, rows[0 := RowInput(useColorspace, selectedName, rows[0].picked)])
         == FigureColorspaces(token, rows)
  {
    var other := rows[0 := RowInput(useColorspace, selectedName, rows[0].picked)];
    assert FigureColorspaces(token, other)[0] == FigureColorspaces(token, rows)[0];
  }

  /** `USER_FIGURE_COLORSPACES.set([...])`. */
  method StoreFigureColorspaces(slot: OptionSlot<seq<Overlay>>, token: string, rows: seq<RowInput>)
    requires |rows| == 5
    modifies slot
    ensures slot.value == FigureColorspaces(token, rows)
    ensures |slot.value| == 5 && slot.value[0].name == Some(token)
  {
    var overlays := [];
    var identifier := 1;
    while identifier <= 5
      invariant 1 <= identifier <= 6
      invariant overlays == FigureColorspaces(token, rows)[..identifier - 1]
    {
      overlays := overlays + [ColorspaceRow(identifier, token, rows[identifier - 1])];
      identifier := identifier + 1;
    }
    slot.Set(overlays);
  }

  // ---------------------------------------------------------------------
  // The axes scale
  // ---------------------------------------------------------------------

  /** Python's `1 / x` on floats. */
  function Reciprocal(x: real): (r: Result<real, Exception>)
    ensures r.Success? <==> x != 0.0
    ensures r.Success? ==> r.value * x == 1.0
    ensures r.Failure? ==> r.error == ZeroDivisionError
  {
    if x == 0.0 then Failure(ZeroDivisionError) else Success(1.0 / x)
  }

  /** The graph-scale widget's bounds. */
  const GraphScaleMin := 0.0
  const GraphScaleMax := 100.0

  /** `USER_AXES_SCALE.set(1 / graph_scale)`. */
  method StoreAxesScale(slot: OptionSlot<real>, graphScale: real) returns (r: Result<(), Exception>)
    modifies slot
    ensures r.Success? <==> graphScale != 0.0
    ensures r.Success? ==> slot.value * graphScale == 1.0
    ensures r.Failure? ==> r.error == ZeroDivisionError && slot.value == old(slot.value)
  {
    if graphScale == 0.0 {
      return Failure(ZeroDivisionError);
    }
    slot.Set(1.0 / graphScale);
    r := Success(());
  }

  /** The widget starts at the reciprocal of the default scale, so leaving it
      untouched stores the default back. */
  lemma AxesScaleUntouched(default: real)
    requires default != 0.0
    ensures Reciprocal(default).Success?
    ensures Reciprocal(Reciprocal(default).value) == Success(default)
  {
    var g := Reciprocal(default).value;
    assert g * default == 1.0;
    assert 1.0 / g == default;
  }

  /** The widget's lower bound is accepted by the widget but cannot be
      stored: the division raises. */
  lemma ZeroScaleRaises()
    ensures GraphScaleMin <= 0.0 <= GraphScaleMax
    ensures Reciprocal(0.0) == Failure(ZeroDivisionError)
  {
  }
}
