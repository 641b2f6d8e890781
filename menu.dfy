/** The serial menu (menu.rs): the start-up chirp and reset of the bank, the
    full-screen menu, and the redraw of one channel's status line. The text each
    writes is given by a function; a reader for status lines shows that the text
    carries exactly the channel, whether it is highlighted, and the level. */
module SerialMenu {
  import opened Fmt
  import opened Ansi
  import opened Dimmer
  import opened Uart

  /** Capacity of the `heapless::String<127>` each message is formatted into. */
  const MessageCapacity: nat := 127

  /** `{:3}` of a level. */
  function FormatLevel(level: nat): string
  {
    RightJustify(NatToString(level), 3)
  }

  /** The start of the status line of channel `idx` (1-based): the cursor moved to
      screen row idx + 4, column 10, then the label. */
  function HeadText(idx: nat): string
  {
    CursorPosition(idx + 4, 10) + "Licht " + NatToString(idx) + ": "
  }

  /** The level, in inverse video when the line is highlighted. */
  function LevelText(highlighted: bool, level: nat): string
  {
    if highlighted then InverseOn + FormatLevel(level) + InverseOff else FormatLevel(level)
  }

  /** The `writeln!` text of the status line of channel `idx`. */
  function LineText(idx: nat, highlighted: bool, level: nat): string
  {
    HeadText(idx) + LevelText(highlighted, level) + "\n"
  }

  /** What `menu_update(idx, sel)` writes: nothing for an index outside 1..8,
      otherwise the line of channel idx (highlighted when it is the selection,
      showing the level of dimmer idx - 1) followed by cursor home. */
  function UpdateText(idx: nat, sel: nat, levels: Levels): string
  {
    if idx < 1 || idx > 8 then [] else LineText(idx, idx == sel, levels[idx - 1]) + CursorHome
  }

  /** The channel of the first status line. */
  const FirstChannel: nat := 1

  /** The updates of channels k..8, in that order. */
  function LinesFrom(k: nat, sel: nat, levels: Levels): string
    decreases 9 - k
  {
    if k > 8 then [] else UpdateText(k, sel, levels) + LinesFrom(k + 1, sel, levels)
  }

  /** The `writeln!` text of the title. */
  function TitleLine(version: string): string
  {
    "DCC Licht - " + version + "\n"
  }

  /** The first two writes of `menu`: the screen cleared, the cursor on row 1,
      column 20, then the title line. */
  function MenuHeading(version: string): string
  {
    (EraseDisplay + CursorPosition(1, 20)) + TitleLine(version)
  }

  /** What `menu(sel)` writes. */
  function MenuText(sel: nat, levels: Levels, version: string): string
  {
    MenuHeading(version) + LinesFrom(FirstChannel, sel, levels) + CursorHome
  }

  /** What `menu_init` writes: terminal reset, then three bells. */
  const InitText: string := ResetToInitialState + [BEL, BEL, BEL]

  // ---------------------------------------------------------------------------
  // Reading status lines back

  /** What a status line shows. */
  datatype LineInfo = LineInfo(channel: nat, highlighted: bool, level: nat)

  /** Reads the start of a status line: the cursor position, the label and the
      channel. */
  function ParseHead(s: string): (r: Option<(nat, nat, nat, string)>)
    ensures r.Some? ==> |r.value.3| < |s|
  {
    var (row, column, a) :- ParseCursorPosition(s);
    var b :- Expect("Licht ", a);
    var (idx, c) :- ParseNat(b);
    var d :- Expect(": ", c);
    Some((row, column, idx, d))
  }

  /** Reads a level field of width 3, plain or between SGR 7 and SGR 0. */
  function ParseLevel(s: string): (r: Option<(bool, nat, string)>)
    ensures r.Some? ==> |r.value.2| < |s|
  {
    var e := Expect(InverseOn, s);
    if e.Some? then
      var (level, f) :- ParseField(e.value, 3);
      var g :- Expect(InverseOff, f);
      Some((true, level, g))
    else
      var (level, f) :- ParseField(s, 3);
      Some((false, level, f))
  }

  /** Reads one status line followed by cursor home; the row must be the one of
      the channel it names and the column 10. */
  function ParseUpdate(s: string): (r: Option<(LineInfo, string)>)
    ensures r.Some? ==> |r.value.1| < |s|
  {
    var (row, column, idx, d) :- ParseHead(s);
    if row != idx + 4 || column != 10 then None
    else
      var (highlighted, level, f) :- ParseLevel(d);
      var h :- Expect("\n", f);
      var rest :- Expect(CursorHome, h);
      Some((LineInfo(idx, highlighted, level), rest))
  }

  /** Reads a sequence of status-line updates up to the end of `s`. */
  function ParseUpdates(s: string): Option<seq<LineInfo>>
    decreases |s|
  {
    if s == [] then Some([])
    else
      var (info, rest) :- ParseUpdate(s);
      var infos :- ParseUpdates(rest);
      Some([info] + infos)
  }

  lemma FormatLevelShape(level: nat)
    requires level < 1000
    ensures |FormatLevel(level)| == 3 && FormatLevel(level)[0] != ESC
  {
    NatToStringWidth(level);
  }

  /** The start of a status line reads back as its row, column and channel. */
  lemma HeadRoundTrip(idx: nat, rest: string)
    ensures ParseHead(HeadText(idx) + rest) == Some((idx + 4, 10, idx, rest))
  {
    var c := ": " + rest;
    var b := NatToString(idx) + c;
    var a := "Licht " + b;
    assert HeadText(idx) + rest == CursorPosition(idx + 4, 10) + a;
    CursorPositionRoundTrip(idx + 4, 10, a);
    ExpectPrefix("Licht ", b);
    ParseNatRoundTrip(idx, c);
    ExpectPrefix(": ", rest);
  }

  /** The level field, highlighted or not, reads back as the level and whether it
      was highlighted. */
  lemma LevelRoundTrip(highlighted: bool, level: nat, rest: string)
    requires level < 1000
    ensures ParseLevel(LevelText(highlighted, level) + rest) == Some((highlighted, level, rest))
  {
    FormatLevelShape(level);
    NatToStringWidth(level);
    var f := FormatLevel(level);
    if highlighted {
      assert LevelText(highlighted, level) + rest == InverseOn + (f + (InverseOff + rest));
      ExpectPrefix(InverseOn, f + (InverseOff + rest));
      ParseFieldRoundTrip(level, 3, InverseOff + rest);
      ExpectPrefix(InverseOff, rest);
    } else {
      assert (f + rest)[0] == f[0];
      assert Expect(InverseOn, f + rest).None?;
      ParseFieldRoundTrip(level, 3, rest);
    }
  }

  /** One step of `ParseUpdate`, from what its stages read. */
  lemma ParseUpdateSteps(s: string, idx: nat, d: string, highlighted: bool, level: nat, f: string, rest: string)
    requires ParseHead(s) == Some((idx + 4, 10, idx, d))
    requires ParseLevel(d) == Some((highlighted, level, f))
    requires f == "\n" + (CursorHome + rest)
    ensures ParseUpdate(s) == Some((LineInfo(idx, highlighted, level), rest))
  {
    ExpectPrefix("\n", CursorHome + rest);
    ExpectPrefix(CursorHome, rest);
  }

  /** A status line followed by cursor home reads back as its channel, highlight
      and level. */
  lemma LineRoundTrip(idx: nat, highlighted: bool, level: nat, rest: string)
    requires level < 1000
    ensures ParseUpdate(LineText(idx, highlighted, level) + CursorHome + rest)
         == Some((LineInfo(idx, highlighted, level), rest))
  {
    var h, v := HeadText(idx), LevelText(highlighted, level);
    var f := "\n" + (CursorHome + rest);
    var d := v + f;
    calc {
      LineText(idx, highlighted, level) + CursorHome + rest;
      ((h + v) + "\n") + CursorHome + rest;
      { AppendAssoc((h + v) + "\n", CursorHome, rest); }
      ((h + v) + "\n") + (CursorHome + rest);
      { AppendAssoc(h + v, "\n", CursorHome + rest); }
      (h + v) + f;
      { AppendAssoc(h, v, f); }
      h + d;
    }
    HeadRoundTrip(idx, d);
    LevelRoundTrip(highlighted, level, f);
    ParseUpdateSteps(h + d, idx, d, highlighted, level, f, rest);
  }

  /** A redraw of channel 1..8 reads back as that channel, highlighted exactly when
      it is the selection, showing the level of dimmer idx - 1. */
  lemma UpdateRoundTrip(idx: nat, sel: nat, levels: Levels, rest: string)
    requires 1 <= idx <= 8
    ensures ParseUpdate(UpdateText(idx, sel, levels) + rest)
         == Some((LineInfo(idx, idx == sel, levels[idx - 1]), rest))
  {
    LineRoundTrip(idx, idx == sel, levels[idx - 1], rest);
  }

  /** A redraw of an index outside 1..8 writes nothing, and one inside always writes. */
  lemma UpdateEmptyIff(idx: nat, sel: nat, levels: Levels)
    ensures UpdateText(idx, sel, levels) == [] <==> idx < 1 || idx > 8
  {
    if 1 <= idx <= 8 {
      UpdateRoundTrip(idx, sel, levels, []);
    }
  }

  lemma LinesFromUnfold(k: nat, sel: nat, levels: Levels)
    requires 1 <= k <= 8
    ensures LinesFrom(k, sel, levels) == UpdateText(k, sel, levels) + LinesFrom(k + 1, sel, levels)
  {
  }

  lemma ParseUpdatesCons(s: string, info: LineInfo, rest: string)
    requires ParseUpdate(s) == Some((info, rest)) && ParseUpdates(rest).Some?
    ensures ParseUpdates(s) == Some([info] + ParseUpdates(rest).value)
  {
  }

  /** What `menu_update(idx, sel)` shows: one line for a channel 1..8, nothing otherwise. */
  function Shown(idx: nat, sel: nat, levels: Levels): seq<LineInfo>
  {
    if idx < 1 || idx > 8 then [] else [LineInfo(idx, idx == sel, levels[idx - 1])]
  }

  /** A redraw followed by further text reads back as what the redraw shows,
      then what the rest shows. */
  lemma UpdateThenRoundTrip(idx: nat, sel: nat, levels: Levels, rest: string)
    requires ParseUpdates(rest).Some?
    ensures ParseUpdates(UpdateText(idx, sel, levels) + rest)
         == Some(Shown(idx, sel, levels) + ParseUpdates(rest).value)
  {
    if 1 <= idx <= 8 {
      InsideThenRoundTrip(idx, sel, levels, rest);
    } else {
      OutsideThenRoundTrip(idx, sel, levels, rest);
    }
  }

  lemma InsideThenRoundTrip(idx: nat, sel: nat, levels: Levels, rest: string)
    requires 1 <= idx <= 8 && ParseUpdates(rest).Some?
    ensures ParseUpdates(UpdateText(idx, sel, levels) + rest)
         == Some(Shown(idx, sel, levels) + ParseUpdates(rest).value)
  {
    var u := UpdateText(idx, sel, levels);
    var info := LineInfo(idx, idx == sel, levels[idx - 1]);
    UpdateRoundTrip(idx, sel, levels, rest);
    ConsRoundTrip(u, rest, info, Shown(idx, sel, levels));
  }

  lemma OutsideThenRoundTrip(idx: nat, sel: nat, levels: Levels, rest: string)
    requires (idx < 1 || idx > 8) && ParseUpdates(rest).Some?
    ensures ParseUpdates(UpdateText(idx, sel, levels) + rest)
         == Some(Shown(idx, sel, levels) + ParseUpdates(rest).value)
  {
    var p := ParseUpdates(rest).value;
    assert UpdateText(idx, sel, levels) + rest == rest;
    assert Shown(idx, sel, levels) + p == p;
  }

  lemma ConsRoundTrip(u: string, rest: string, info: LineInfo, shown: seq<LineInfo>)
    requires ParseUpdate(u + rest) == Some((info, rest)) && shown == [info]
    requires ParseUpdates(rest).Some?
    ensures ParseUpdates(u + rest) == Some(shown + ParseUpdates(rest).value)
  {
    ParseUpdatesCons(u + rest, info, rest);
  }

  /** What the updates of channels k..8 show, in order. */
  function InfosFrom(k: nat, sel: nat, levels: Levels): seq<LineInfo>
    requires k >= 1
    decreases 9 - k
  {
    if k > 8 then [] else [LineInfo(k, k == sel, levels[k - 1])] + InfosFrom(k + 1, sel, levels)
  }

  lemma {:induction false} InfosFromAt(k: nat, sel: nat, levels: Levels, j: nat)
    requires 1 <= k <= 9 && j < 9 - k
    ensures |InfosFrom(k, sel, levels)| == 9 - k
    ensures InfosFrom(k, sel, levels)[j] == LineInfo(k + j, k + j == sel, levels[k + j - 1])
    decreases 9 - k
  {
    if j > 0 {
      InfosFromAt(k + 1, sel, levels, j - 1);
    } else if k < 8 {
      InfosFromAt(k + 1, sel, levels, 0);
    }
  }

  lemma {:induction false} LinesFromRoundTrip(k: nat, sel: nat, levels: Levels)
    requires 1 <= k <= 9
    ensures ParseUpdates(LinesFrom(k, sel, levels)) == Some(InfosFrom(k, sel, levels))
    decreases 9 - k
  {
    if k <= 8 {
      var rest := LinesFrom(k + 1, sel, levels);
      LinesFromUnfold(k, sel, levels);
      UpdateRoundTrip(k, sel, levels, rest);
      LinesFromRoundTrip(k + 1, sel, levels);
      ParseUpdatesCons(LinesFrom(k, sel, levels), LineInfo(k, k == sel, levels[k - 1]), rest);
    }
  }

  /** The eight status lines of the full menu read back, in order, as channels 1..8,
      each showing its level and only the selected one highlighted. */
  lemma MenuLinesRoundTrip(sel: nat, levels: Levels)
    ensures var p := ParseUpdates(LinesFrom(FirstChannel, sel, levels));
            p.Some? && |p.value| == 8 &&
            forall j :: 0 <= j < 8 ==> p.value[j] == LineInfo(j + 1, j + 1 == sel, levels[j])
  {
    LinesFromRoundTrip(FirstChannel, sel, levels);
    forall j | 0 <= j < 8
      ensures InfosFrom(FirstChannel, sel, levels)[j] == LineInfo(j + 1, j + 1 == sel, levels[j])
    {
      InfosFromAt(FirstChannel, sel, levels, j);
    }
    InfosFromAt(FirstChannel, sel, levels, 0);
  }

  /** Every status line fits the 127-byte message buffer, so its `unwrap` never fails. */
  lemma LineFits(idx: nat, highlighted: bool, level: nat)
    requires idx <= 8 && level < 1000
    ensures |LineText(idx, highlighted, level)| <= MessageCapacity
  {
    NatToStringWidth(idx + 4);
    NatToStringWidth(idx);
    FormatLevelShape(level);
  }

  // ---------------------------------------------------------------------------
  // The operations, writing to the UART

  /** `menu_update` */
  method MenuUpdate(bank: DimmerBank, tx: Tx, idx: nat, sel: nat)
    requires bank.Valid()
    modifies tx
    ensures bank.State() == old(bank.State())
    ensures tx.sent == old(tx.sent) + UpdateText(idx, sel, bank.State().levels)
  {
    if idx < 1 || idx > 8 {
      return;
    }
    var level := bank.Get(idx - 1);
    var msg := LineText(idx, idx == sel, level);
    LineFits(idx, idx == sel, level);
    assert |msg| <= MessageCapacity;
    tx.Write(msg);
    tx.Write(CursorHome);
    AppendAssoc(old(tx.sent), msg, CursorHome);
  }

  /** The loop of `menu`: `menu_update(n, sel)` for n = 1..=8. */
  method MenuLines(bank: DimmerBank, tx: Tx, sel: nat)
    requires bank.Valid()
    modifies tx
    ensures bank.State() == old(bank.State())
    ensures tx.sent == old(tx.sent) + LinesFrom(FirstChannel, sel, bank.State().levels)
  {
    ghost var st := bank.State();
    ghost var total := tx.sent + LinesFrom(FirstChannel, sel, st.levels);
    for n := 1 to 9
      invariant bank.State() == st
      invariant tx.sent + LinesFrom(n, sel, st.levels) == total
    {
      ghost var before := tx.sent;
      MenuUpdate(bank, tx, n, sel);
      assert bank.State() == st;
      LinesStep(before, tx.sent, n, sel, st.levels, total);
    }
    LinesDone(tx.sent, sel, st.levels, total);
  }

  lemma LinesStep(before: string, after: string, n: nat, sel: nat, levels: Levels, total: string)
    requires 1 <= n <= 8
    requires after == before + UpdateText(n, sel, levels)
    requires before + LinesFrom(n, sel, levels) == total
    ensures after + LinesFrom(n + 1, sel, levels) == total
  {
    LinesFromUnfold(n, sel, levels);
    AppendAssoc(before, UpdateText(n, sel, levels), LinesFrom(n + 1, sel, levels));
  }

  lemma LinesDone(sent: string, sel: nat, levels: Levels, total: string)
    requires sent + LinesFrom(9, sel, levels) == total
    ensures sent == total
  {
    assert LinesFrom(9, sel, levels) == [];
    assert sent + [] == sent;
  }

  /** `menu` */
  method Menu(bank: DimmerBank, tx: Tx, sel: nat, version: string)
    requires bank.Valid()
    requires |TitleLine(version)| <= MessageCapacity
    modifies tx
    ensures bank.State() == old(bank.State())
    ensures tx.sent == old(tx.sent) + MenuText(sel, bank.State().levels, version)
  {
    ghost var st := bank.State();
    ghost var t0 := tx.sent;
    var head := EraseDisplay + CursorPosition(1, 20);
    tx.Write(head);
    var msg := TitleLine(version);
    tx.Write(msg);
    AppendAssoc(t0, head, msg);
    ghost var t1 := tx.sent;
    MenuLines(bank, tx, sel);
    ghost var t2 := tx.sent;
    tx.Write(CursorHome);
    assert bank.State() == st;
    MenuTextSplit(t0, t1, t2, tx.sent, MenuHeading(version), LinesFrom(FirstChannel, sel, st.levels), MenuText(sel, st.levels, version));
  }

  /** Three writes after `t0` are one write of their concatenation. */
  lemma MenuTextSplit(t0: string, t1: string, t2: string, t3: string, a: string, b: string, m: string)
    requires t1 == t0 + a && t2 == t1 + b && t3 == t2 + CursorHome
    requires m == (a + b) + CursorHome
    ensures t3 == t0 + m
  {
    AppendAssoc(t0, a, b);
    AppendAssoc(t0, a + b, CursorHome);
  }

  lemma AppendAssoc(a: string, b: string, c: string)
    ensures (a + b) + c == a + (b + c)
  {
  }

  /** The bank after `set_dimmer(n, 0)` for n = from..to-1. */
  function ZeroFrom(b: Bank, from: nat, to: nat): Bank
    decreases to - from
  {
    if from >= to then b else ZeroFrom(SetLevel(b, from, 0), from + 1, to)
  }

  /** `menu_init` as written: `set_dimmer(n, 0)` for n = 1..=8, which zeroes
      dimmers 1..7, leaves dimmer 0 alone and has index 8 rejected. */
  method MenuInit(bank: DimmerBank, tx: Tx)
    requires bank.Valid()
    modifies tx, bank, bank.levels
    ensures tx.sent == old(tx.sent) + InitText
    ensures bank.State() == ZeroFrom(old(bank.State()), 1, 9)
  {
    tx.Write(ResetToInitialState);
    tx.Write([BEL, BEL, BEL]);
    for n := 1 to 9
      invariant bank.Valid() && tx.sent == old(tx.sent) + InitText
      invariant ZeroFrom(bank.State(), n, 9) == ZeroFrom(old(bank.State()), 1, 9)
    {
      bank.Set(n, 0);
    }
  }

  /** `menu_init` with the loop over the dimmers' own indices 0..7, zeroing all eight. */
  method MenuInitAllChannels(bank: DimmerBank, tx: Tx)
    requires bank.Valid()
    modifies tx, bank, bank.levels
    ensures tx.sent == old(tx.sent) + InitText
    ensures bank.State() == ZeroFrom(old(bank.State()), 0, 8)
  {
    tx.Write(ResetToInitialState);
    tx.Write([BEL, BEL, BEL]);
    for n := 0 to 8
      invariant bank.Valid() && tx.sent == old(tx.sent) + InitText
      invariant ZeroFrom(bank.State(), n, 8) == ZeroFrom(old(bank.State()), 0, 8)
    {
      bank.Set(n, 0);
    }
  }

  lemma {:induction false} ZeroFromEffect(b: Bank, from: nat, to: nat, j: nat)
    requires j < Channels
    ensures ZeroFrom(b, from, to).levels[j] == if from <= j < to && j <= 7 then 0 else b.levels[j]
    ensures ZeroFrom(b, from, to).pending == (b.pending || (from < to && from <= 7))
    decreases if from < to then to - from else 0
  {
    if from < to {
      ZeroFromEffect(SetLevel(b, from, 0), from + 1, to, j);
    }
  }

  /** As written, start-up clears dimmers 1..7, leaves dimmer 0 at whatever it held
      and raises the signal; the reset therefore misses dimmer 0. */
  lemma MenuInitMissesFirstDimmer(b: Bank)
    ensures forall j :: 1 <= j < Channels ==> ZeroFrom(b, 1, 9).levels[j] == 0
    ensures ZeroFrom(b, 1, 9).levels[0] == b.levels[0]
    ensures ZeroFrom(b, 1, 9).pending
    ensures b.levels[0] == 5 ==> ZeroFrom(b, 1, 9).levels[0] == 5
  {
    forall j | 0 <= j < Channels
      ensures ZeroFrom(b, 1, 9).levels[j] == if j >= 1 then 0 else b.levels[j]
    {
      ZeroFromEffect(b, 1, 9, j);
    }
    ZeroFromEffect(b, 1, 9, 0);
  }

  /** The corrected start-up leaves every level at 0 and a wake pending, from any bank. */
  lemma MenuInitAllChannelsZeroes(b: Bank)
    ensures ZeroFrom(b, 0, 8) == Bank([0, 0, 0, 0, 0, 0, 0, 0], true)
    ensures InRange(ZeroFrom(b, 0, 8))
  {
    forall j | 0 <= j < Channels
      ensures ZeroFrom(b, 0, 8).levels[j] == 0
    {
      ZeroFromEffect(b, 0, 8, j);
    }
    ZeroFromEffect(b, 0, 8, 0);
    assert ZeroFrom(b, 0, 8).levels == [0, 0, 0, 0, 0, 0, 0, 0];
  }

  /** From the static initial bank, which is where the firmware calls it, the code as
      written and the corrected loop leave the same bank. */
  lemma MenuInitAgreesAtBoot()
    ensures ZeroFrom(Initial, 1, 9) == ZeroFrom(Initial, 0, 8)
  {
    MenuInitMissesFirstDimmer(Initial);
    MenuInitAllChannelsZeroes(Initial);
    assert ZeroFrom(Initial, 1, 9).levels == [0, 0, 0, 0, 0, 0, 0, 0];
  }
}
