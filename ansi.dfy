/** The ECMA-48 (VT100) control sequences the menu writes, and a reader for
    cursor-position sequences. */
module Ansi {
  import opened Fmt

  const ESC: char := 27 as char
  const BEL: char := 7 as char

  /** CUP, cursor position (section 8.3.21 of ECMA-48): ESC [ row ; column H. */
  function CursorPosition(row: nat, column: nat): string
  {
    [ESC, '['] + NatToString(row) + ";" + NatToString(column) + "H"
  }

  /** CUP with both parameters left out, which homes the cursor: ESC [ H. */
  const CursorHome: string := [ESC, '[', 'H']

  /** ED with parameter 2, erase the whole display (section 8.3.39): ESC [ 2 J. */
  const EraseDisplay: string := [ESC, '[', '2', 'J']

  /** SGR 7, inverse video on (section 8.3.117): ESC [ 7 m. */
  const InverseOn: string := [ESC, '[', '7', 'm']

  /** SGR 0, back to the default rendition: ESC [ 0 m. */
  const InverseOff: string := [ESC, '[', '0', 'm']

  /** RIS, reset to initial state (section 8.3.105), in its 7-bit form ESC c. */
  const ResetToInitialState: string := [ESC, 'c']

  /** Reads ESC [ row ; column H at the front of `s`. */
  function ParseCursorPosition(s: string): (r: Option<(nat, nat, string)>)
    ensures r.Some? ==> |r.value.2| < |s|
  {
    var a :- Expect([ESC, '['], s);
    var (row, b) :- ParseNat(a);
    var c :- Expect(";", b);
    var (column, d) :- ParseNat(c);
    var e :- Expect("H", d);
    Some((row, column, e))
  }

  lemma CursorPositionRoundTrip(row: nat, column: nat, rest: string)
    ensures ParseCursorPosition(CursorPosition(row, column) + rest) == Some((row, column, rest))
  {
    var r, c := NatToString(row), NatToString(column);
    var d := "H" + rest;
    var b := ";" + (c + d);
    var a := r + b;
    assert CursorPosition(row, column) + rest == [ESC, '['] + a;
    ExpectPrefix([ESC, '['], a);
    ParseNatRoundTrip(row, b);
    ExpectPrefix(";", c + d);
    ParseNatRoundTrip(column, d);
    ExpectPrefix("H", rest);
  }
}
