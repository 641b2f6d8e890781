/** The body of the receive loop in main.rs: each received byte is a command
    that moves the selection `act` (0 = nothing selected, 1..8 = a channel),
    changes the selected channel's level, or redraws the menu. The functions say
    what one byte and a run of bytes do to the selection, the bank and the
    terminal; the methods do it to the bank and the UART in place. */
module Dispatch {
  import opened Fmt
  import opened Dimmer
  import opened SerialMenu
  import opened Uart

  /** What the receive loop acts on: the selection and the bank. */
  datatype Ctl = Ctl(act: nat, bank: Bank)

  /** `+` or `d`: brighter. */
  predicate IsInc(c: Byte) { c == 43 || c == 100 }

  /** `-` or `a`: darker. */
  predicate IsDec(c: Byte) { c == 45 || c == 97 }

  /** `0`..`8`: select that channel, 0 for none. */
  predicate IsSelect(c: Byte) { 48 <= c <= 56 }

  /** `r`: repaint, `s`: next channel, `w`: previous channel. */
  const Repaint: Byte := 114
  const SelectNext: Byte := 115
  const SelectPrevious: Byte := 119

  predicate IsCommand(c: Byte)
  {
    IsInc(c) || IsDec(c) || IsSelect(c) || c == Repaint || c == SelectNext || c == SelectPrevious
  }

  /** What one byte does to the selection and the bank. */
  function NextCtl(s: Ctl, c: Byte): Ctl
  {
    if IsInc(c) then (if s.act > 0 then Ctl(s.act, IncLevel(s.bank, s.act - 1)) else s)
    else if IsDec(c) then (if s.act > 0 then Ctl(s.act, DecLevel(s.bank, s.act - 1)) else s)
    else if IsSelect(c) then Ctl(c - 48, s.bank)
    else if c == SelectNext then (if s.act < 8 then Ctl(s.act + 1, s.bank) else s)
    else if c == SelectPrevious then (if s.act > 0 then Ctl(s.act - 1, s.bank) else s)
    else s
  }

  /** One redraw the receive loop asks for, with the levels it shows: the status
      line of channel `idx` with `sel` as the selection (`menu_update`), or the
      whole menu (`menu`). */
  datatype Draw = Line(idx: nat, sel: nat, levels: Levels) | Screen(sel: nat, levels: Levels)

  /** The text a redraw writes. */
  function DrawText(d: Draw, version: string): string
  {
    match d
    case Line(idx, sel, levels) => UpdateText(idx, sel, levels)
    case Screen(sel, levels) => MenuText(sel, levels, version)
  }

  /** The texts `text` gives the redraws of `ds`, one after the other. */
  function Join(text: Draw -> string, ds: seq<Draw>): string
  {
    if ds == [] then [] else text(ds[0]) + Join(text, ds[1..])
  }

  function TextOf(version: string): Draw -> string
  {
    d => DrawText(d, version)
  }

  /** The text of a series of redraws, in order. */
  function Render(ds: seq<Draw>, version: string): string
  {
    Join(TextOf(version), ds)
  }

  /** The redraws one byte asks for. */
  function Emitted(s: Ctl, c: Byte): seq<Draw>
  {
    var levels := s.bank.levels;
    if IsInc(c) then
      (if s.act > 0 then [Line(s.act, s.act, IncLevel(s.bank, s.act - 1).levels)] else [])
    else if IsDec(c) then
      (if s.act > 0 then [Line(s.act, s.act, DecLevel(s.bank, s.act - 1).levels)] else [])
    else if IsSelect(c) then
      [Line(s.act, 0, levels), Line(c - 48, c - 48, levels)]
    else if c == Repaint then
      [Screen(s.act, levels)]
    else if c == SelectNext then
      (if s.act < 8 then [Line(s.act, 0, levels), Line(s.act + 1, s.act + 1, levels)] else [])
    else if c == SelectPrevious then
      (if s.act > 0 then [Line(s.act, 0, levels), Line(s.act - 1, s.act - 1, levels)] else [])
    else []
  }

  /** The bytes of `cs`, handled in order. */
  function RunCtl(s: Ctl, cs: seq<Byte>): Ctl
  {
    if cs == [] then s else NextCtl(RunCtl(s, cs[..|cs| - 1]), cs[|cs| - 1])
  }

  /** The redraws the bytes of `cs` ask for, in order. */
  function RunOutput(s: Ctl, cs: seq<Byte>): seq<Draw>
  {
    if cs == [] then []
    else RunOutput(s, cs[..|cs| - 1]) + Emitted(RunCtl(s, cs[..|cs| - 1]), cs[|cs| - 1])
  }

  // ---------------------------------------------------------------------------
  // Reading the redraws back

  lemma {:induction false} JoinAppend(text: Draw -> string, a: seq<Draw>, b: seq<Draw>)
    ensures Join(text, a + b) == Join(text, a) + Join(text, b)
    decreases |a|
  {
    if a != [] {
      assert (a + b)[0] == a[0];
      assert (a + b)[1..] == a[1..] + b;
      JoinAppend(text, a[1..], b);
    } else {
      assert a + b == b;
    }
  }

  lemma RenderAppend(a: seq<Draw>, b: seq<Draw>, version: string)
    ensures Render(a + b, version) == Render(a, version) + Render(b, version)
  {
    JoinAppend(TextOf(version), a, b);
  }

  /** Only status-line redraws. */
  predicate IsLines(ds: seq<Draw>)
  {
    forall i :: 0 <= i < |ds| ==> ds[i].Line?
  }

  /** What a series of status-line redraws shows, in order. */
  function ShownBy(ds: seq<Draw>): seq<LineInfo>
    requires IsLines(ds)
  {
    if ds == [] then [] else Shown(ds[0].idx, ds[0].sel, ds[0].levels) + ShownBy(ds[1..])
  }

  /** The text of status-line redraws reads back as what they show. */
  lemma {:induction false} LinesRoundTrip(ds: seq<Draw>, version: string)
    requires IsLines(ds)
    ensures ParseUpdates(Render(ds, version)) == Some(ShownBy(ds))
  {
    if ds != [] {
      var d := ds[0];
      LinesRoundTrip(ds[1..], version);
      assert Render(ds, version) == UpdateText(d.idx, d.sel, d.levels) + Render(ds[1..], version);
      UpdateThenRoundTrip(d.idx, d.sel, d.levels, Render(ds[1..], version));
    }
  }

  lemma ShownByOne(d: Draw)
    requires d.Line?
    ensures ShownBy([d]) == Shown(d.idx, d.sel, d.levels)
  {
    assert [d][1..] == [];
  }

  lemma ShownByTwo(d: Draw, e: Draw)
    requires d.Line? && e.Line?
    ensures ShownBy([d, e]) == Shown(d.idx, d.sel, d.levels) + Shown(e.idx, e.sel, e.levels)
  {
    assert [d, e][1..] == [e];
    ShownByOne(e);
  }

  // ---------------------------------------------------------------------------
  // One byte

  /** `+`/`d` with a channel selected raises its level (saturating at 15) and
      redraws that line highlighted with the new level; with nothing selected the
      byte changes nothing and writes nothing. */
  lemma IncCommand(s: Ctl, c: Byte, version: string)
    requires IsInc(c) && s.act <= 8
    ensures s.act == 0 ==> NextCtl(s, c) == s && Render(Emitted(s, c), version) == []
    ensures s.act > 0 ==>
              var b := IncLevel(s.bank, s.act - 1);
              NextCtl(s, c) == Ctl(s.act, b) &&
              ParseUpdates(Render(Emitted(s, c), version)) == Some([LineInfo(s.act, true, b.levels[s.act - 1])])
  {
    if s.act > 0 {
      AdjustEmits(s, c, true);
      SelectedLineRoundTrip(s.act, IncLevel(s.bank, s.act - 1).levels, version);
    } else {
      IdleEmits(s, c);
    }
  }

  /** `-`/`a`: the same with a saturating decrement. */
  lemma DecCommand(s: Ctl, c: Byte, version: string)
    requires IsDec(c) && s.act <= 8
    ensures s.act == 0 ==> NextCtl(s, c) == s && Render(Emitted(s, c), version) == []
    ensures s.act > 0 ==>
              var b := DecLevel(s.bank, s.act - 1);
              NextCtl(s, c) == Ctl(s.act, b) &&
              ParseUpdates(Render(Emitted(s, c), version)) == Some([LineInfo(s.act, true, b.levels[s.act - 1])])
  {
    if s.act > 0 {
      AdjustEmits(s, c, false);
      SelectedLineRoundTrip(s.act, DecLevel(s.bank, s.act - 1).levels, version);
    } else {
      IdleEmits(s, c);
    }
  }

  /** The redraw of the selected line reads back as that channel, highlighted. */
  lemma SelectedLineRoundTrip(act: nat, levels: Levels, version: string)
    requires 1 <= act <= 8
    ensures ParseUpdates(Render([Line(act, act, levels)], version)) == Some([LineInfo(act, true, levels[act - 1])])
  {
    LinesRoundTrip([Line(act, act, levels)], version);
    ShownByOne(Line(act, act, levels));
  }

  /** A digit redraws the old selected line plain, selects channel c - 48 (none
      for `0`) and redraws that line highlighted; a redraw of "no channel" writes
      nothing. The levels do not change. */
  lemma SelectCommand(s: Ctl, c: Byte, version: string)
    requires IsSelect(c)
    ensures NextCtl(s, c) == Ctl(c - 48, s.bank)
    ensures ParseUpdates(Render(Emitted(s, c), version))
         == Some(Shown(s.act, 0, s.bank.levels) + Shown(c - 48, c - 48, s.bank.levels))
  {
    var ds := Emitted(s, c);
    LinesRoundTrip(ds, version);
    ShownByTwo(ds[0], ds[1]);
  }

  /** `s` moves the selection one channel on, unless it is already at 8, in which
      case nothing changes and nothing is written. */
  lemma SelectNextCommand(s: Ctl, version: string)
    ensures s.act < 8 ==>
              NextCtl(s, SelectNext) == Ctl(s.act + 1, s.bank) &&
              ParseUpdates(Render(Emitted(s, SelectNext), version))
                == Some(Shown(s.act, 0, s.bank.levels) + [LineInfo(s.act + 1, true, s.bank.levels[s.act])])
    ensures s.act >= 8 ==> NextCtl(s, SelectNext) == s && Render(Emitted(s, SelectNext), version) == []
  {
    if s.act < 8 {
      var ds := Emitted(s, SelectNext);
      LinesRoundTrip(ds, version);
      ShownByTwo(ds[0], ds[1]);
    }
  }

  /** `w` moves the selection one channel back, unless nothing is selected, in
      which case nothing changes and nothing is written. */
  lemma SelectPreviousCommand(s: Ctl, version: string)
    ensures s.act > 0 ==>
              NextCtl(s, SelectPrevious) == Ctl(s.act - 1, s.bank) &&
              ParseUpdates(Render(Emitted(s, SelectPrevious), version))
                == Some(Shown(s.act, 0, s.bank.levels) + Shown(s.act - 1, s.act - 1, s.bank.levels))
    ensures s.act == 0 ==> NextCtl(s, SelectPrevious) == s && Render(Emitted(s, SelectPrevious), version) == []
  {
    if s.act > 0 {
      var ds := Emitted(s, SelectPrevious);
      LinesRoundTrip(ds, version);
      ShownByTwo(ds[0], ds[1]);
    }
  }

  /** `r` repaints the whole menu at the current selection and changes nothing. */
  lemma RepaintCommand(s: Ctl, version: string)
    ensures NextCtl(s, Repaint) == s
    ensures Render(Emitted(s, Repaint), version) == MenuText(s.act, s.bank.levels, version)
  {
    RepaintEmits(s);
    RenderOne(Screen(s.act, s.bank.levels), version);
  }

  lemma RepaintEmits(s: Ctl)
    ensures NextCtl(s, Repaint) == s
    ensures Emitted(s, Repaint) == [Screen(s.act, s.bank.levels)]
  {
  }

  /** Every other byte (200, say) changes nothing and writes nothing. */
  lemma OtherByte(s: Ctl, c: Byte, version: string)
    requires !IsCommand(c)
    ensures NextCtl(s, c) == s && Emitted(s, c) == []
  {
  }

  // ---------------------------------------------------------------------------
  // Runs of bytes

  /** Every byte keeps the selection in 0..8 and the levels in 0..15; so the index
      act - 1 given to `inc_dimmer`/`dec_dimmer` is always a valid dimmer. */
  lemma {:induction false} RunKeepsBounds(s: Ctl, cs: seq<Byte>)
    requires s.act <= 8 && InRange(s.bank)
    ensures RunCtl(s, cs).act <= 8 && InRange(RunCtl(s, cs).bank)
  {
    if cs != [] {
      RunKeepsBounds(s, cs[..|cs| - 1]);
    }
  }

  /** Handling `a` and then `b` is handling `a + b`: the selection and the bank carry
      over from one received chunk to the next, and so does the output. */
  lemma RunComposes(s: Ctl, a: seq<Byte>, b: seq<Byte>)
    ensures RunCtl(s, a + b) == RunCtl(RunCtl(s, a), b)
    ensures RunOutput(s, a + b) == RunOutput(s, a) + RunOutput(RunCtl(s, a), b)
  {
    RunCtlComposes(s, a, b);
    RunOutputComposes(s, a, b);
  }

  lemma {:induction false} RunCtlComposes(s: Ctl, a: seq<Byte>, b: seq<Byte>)
    ensures RunCtl(s, a + b) == RunCtl(RunCtl(s, a), b)
    decreases |b|
  {
    if b == [] {
      assert a + b == a;
    } else {
      var ab := a + b;
      assert ab[..|ab| - 1] == a + b[..|b| - 1];
      assert ab[|ab| - 1] == b[|b| - 1];
      RunCtlComposes(s, a, b[..|b| - 1]);
    }
  }

  lemma {:induction false} RunOutputComposes(s: Ctl, a: seq<Byte>, b: seq<Byte>)
    ensures RunOutput(s, a + b) == RunOutput(s, a) + RunOutput(RunCtl(s, a), b)
    decreases |b|
  {
    if b == [] {
      assert a + b == a;
    } else {
      var b', c := b[..|b| - 1], b[|b| - 1];
      assert a + b == (a + b') + [c];
      assert b == b' + [c];
      RunOutputComposes(s, a, b');
      RunOutputComposesStep(s, a, b', c);
    }
  }

  lemma RunOutputComposesStep(s: Ctl, a: seq<Byte>, b: seq<Byte>, c: Byte)
    requires RunOutput(s, a + b) == RunOutput(s, a) + RunOutput(RunCtl(s, a), b)
    ensures RunOutput(s, (a + b) + [c]) == RunOutput(s, a) + RunOutput(RunCtl(s, a), b + [c])
  {
    RunCtlComposes(s, a, b);
    RunOutputSnoc(s, a + b, c);
    RunOutputSnoc(RunCtl(s, a), b, c);
    Regroup(RunOutput(s, a), RunOutput(RunCtl(s, a), b), RunOutput(s, a + b),
            Emitted(RunCtl(s, a + b), c), Emitted(RunCtl(RunCtl(s, a), b), c));
  }

  lemma Regroup(x: seq<Draw>, y: seq<Draw>, v: seq<Draw>, e: seq<Draw>, f: seq<Draw>)
    requires v == x + y && e == f
    ensures v + e == x + (y + f)
  {
    assert (x + y) + e == x + (y + e);
  }

  lemma RunOutputSnoc(s: Ctl, cs: seq<Byte>, c: Byte)
    ensures RunCtl(s, cs + [c]) == NextCtl(RunCtl(s, cs), c)
    ensures RunOutput(s, cs + [c]) == RunOutput(s, cs) + Emitted(RunCtl(s, cs), c)
  {
    var t := cs + [c];
    assert t[..|t| - 1] == cs && t[|t| - 1] == c;
  }

  /** Commands never clear a pending wake, and every change of a level leaves one
      pending: after any run of bytes either a wake is pending or the levels are
      those the run started with. */
  lemma {:induction false} RunSignalsChanges(s: Ctl, cs: seq<Byte>)
    ensures s.bank.pending ==> RunCtl(s, cs).bank.pending
    ensures RunCtl(s, cs).bank.pending || RunCtl(s, cs).bank.levels == s.bank.levels
  {
    if cs != [] {
      RunSignalsChanges(s, cs[..|cs| - 1]);
    }
  }

  /** `s` pressed k times from selection a stops at channel 8. */
  lemma {:induction false} SelectNextSaturates(s: Ctl, k: nat)
    requires s.act <= 8
    ensures RunCtl(s, seq(k, _ => SelectNext)) == Ctl(if s.act + k < 8 then s.act + k else 8, s.bank)
  {
    if k > 0 {
      var cs := seq(k, _ => SelectNext);
      assert cs[..k - 1] == seq(k - 1, _ => SelectNext);
      SelectNextSaturates(s, k - 1);
    }
  }

  /** From start-up (nothing selected, all levels 0), "5++-" selects channel 5 and
      leaves dimmer 4 at level 1, passing through levels 1 and 2. */
  lemma SelectAndAdjustScenario()
    ensures var s0 := Ctl(0, Bank([0, 0, 0, 0, 0, 0, 0, 0], true));
            RunCtl(s0, [53]).act == 5 &&
            RunCtl(s0, [53, 43]).bank.levels[4] == 1 &&
            RunCtl(s0, [53, 43, 43]).bank.levels[4] == 2 &&
            RunCtl(s0, [53, 43, 43, 45]) == Ctl(5, Bank([0, 0, 0, 0, 1, 0, 0, 0], true))
  {
    var s0 := Ctl(0, Bank([0, 0, 0, 0, 0, 0, 0, 0], true));
    assert [53, 43, 43, 45][..3] == [53, 43, 43];
    assert [53, 43, 43][..2] == [53, 43];
    assert [53, 43][..1] == [53];
    assert [53][..0] == [];
  }

  // ---------------------------------------------------------------------------
  // The receive loop on the bank and the UART

  lemma JoinOne(text: Draw -> string, d: Draw)
    ensures Join(text, [d]) == text(d)
  {
    assert [d][1..] == [];
    assert text(d) + [] == text(d);
  }

  lemma RenderOne(d: Draw, version: string)
    ensures Render([d], version) == DrawText(d, version)
  {
    JoinOne(TextOf(version), d);
  }

  lemma RenderTwo(d: Draw, e: Draw, version: string)
    ensures Render([d, e], version) == DrawText(d, version) + DrawText(e, version)
  {
    assert [d, e][1..] == [e];
    RenderOne(e, version);
  }

  /** `menu_update(act, 0)`, then the selection moves to `to` and `menu_update(to, to)`. */
  method Move(bank: DimmerBank, tx: Tx, act: nat, to: nat, version: string)
    requires bank.Valid()
    modifies tx
    ensures var levels := bank.State().levels;
            tx.sent == old(tx.sent) + Render([Line(act, 0, levels), Line(to, to, levels)], version)
  {
    ghost var levels := bank.State().levels;
    ghost var start := tx.sent;
    MenuUpdate(bank, tx, act, 0);
    MenuUpdate(bank, tx, to, to);
    ghost var t1, t2 := UpdateText(act, 0, levels), UpdateText(to, to, levels);
    assert tx.sent == (start + t1) + t2;
    RenderTwo(Line(act, 0, levels), Line(to, to, levels), version);
    AppendAssoc(start, t1, t2);
  }

  /** The `+`/`d` and `-`/`a` arms: change the selected level, then redraw its line. */
  method Adjust(bank: DimmerBank, tx: Tx, act: nat, up: bool, version: string)
    requires bank.Valid() && act > 0
    modifies bank, bank.levels, tx
    ensures bank.State() == if up then IncLevel(old(bank.State()), act - 1) else DecLevel(old(bank.State()), act - 1)
    ensures tx.sent == old(tx.sent) + Render([Line(act, act, bank.State().levels)], version)
  {
    if up {
      bank.Inc(act - 1);
    } else {
      bank.Dec(act - 1);
    }
    MenuUpdate(bank, tx, act, act);
    RenderOne(Line(act, act, bank.State().levels), version);
  }

  /** What the `+`/`d` and `-`/`a` arms do with a channel selected. */
  lemma AdjustEmits(s: Ctl, c: Byte, up: bool)
    requires s.act > 0 && if up then IsInc(c) else IsDec(c)
    ensures var b := if up then IncLevel(s.bank, s.act - 1) else DecLevel(s.bank, s.act - 1);
            NextCtl(s, c) == Ctl(s.act, b) && Emitted(s, c) == [Line(s.act, s.act, b.levels)]
  {
  }

  /** What the arms that move the selection to `to` do. */
  lemma MoveEmits(s: Ctl, c: Byte, to: nat)
    requires (IsSelect(c) && to == c - 48) || (c == SelectNext && s.act < 8 && to == s.act + 1) ||
             (c == SelectPrevious && s.act > 0 && to == s.act - 1)
    ensures NextCtl(s, c) == Ctl(to, s.bank)
    ensures Emitted(s, c) == [Line(s.act, 0, s.bank.levels), Line(to, to, s.bank.levels)]
  {
  }

  /** The bytes and states for which the loop does nothing. */
  lemma IdleEmits(s: Ctl, c: Byte)
    requires ((IsInc(c) || IsDec(c)) && s.act == 0) || (c == SelectNext && s.act >= 8) ||
             (c == SelectPrevious && s.act == 0) || !IsCommand(c)
    ensures NextCtl(s, c) == s && Emitted(s, c) == []
  {
  }

  lemma ScreenText(t0: string, t1: string, act: nat, levels: Levels, version: string)
    requires t1 == t0 + MenuText(act, levels, version)
    ensures t1 == t0 + Render([Screen(act, levels)], version)
  {
    RenderOne(Screen(act, levels), version);
  }

  /** The `r` arm: `menu(act)`. */
  method Redraw(bank: DimmerBank, tx: Tx, act: nat, version: string)
    requires bank.Valid()
    requires |TitleLine(version)| <= MessageCapacity
    modifies tx
    ensures bank.State() == old(bank.State())
    ensures tx.sent == old(tx.sent) + Render([Screen(act, bank.State().levels)], version)
  {
    ghost var levels := bank.State().levels;
    ghost var start := tx.sent;
    Menu(bank, tx, act, version);
    assert bank.State().levels == levels;
    ScreenText(start, tx.sent, act, levels, version);
  }

  /** One arm of the `match c` in the receive loop. */
  method Step(bank: DimmerBank, tx: Tx, act: nat, c: Byte, version: string) returns (next: nat)
    requires bank.Valid()
    requires |TitleLine(version)| <= MessageCapacity
    modifies bank, bank.levels, tx
    ensures Ctl(next, bank.State()) == NextCtl(Ctl(act, old(bank.State())), c)
    ensures tx.sent == old(tx.sent) + Render(Emitted(Ctl(act, old(bank.State())), c), version)
  {
    ghost var s := Ctl(act, bank.State());
    next := act;
    if c == 43 || c == 100 {
      if act > 0 {
        AdjustEmits(s, c, true);
        Adjust(bank, tx, act, true, version);
      } else {
        IdleEmits(s, c);
      }
    } else if c == 45 || c == 97 {
      if act > 0 {
        AdjustEmits(s, c, false);
        Adjust(bank, tx, act, false, version);
      } else {
        IdleEmits(s, c);
      }
    } else if 48 <= c <= 56 {
      next := c - 48;
      MoveEmits(s, c, next);
      Move(bank, tx, act, next, version);
    } else if c == 114 {
      RepaintEmits(s);
      Redraw(bank, tx, act, version);
    } else if c == 115 {
      if act < 8 {
        next := act + 1;
        MoveEmits(s, c, next);
        Move(bank, tx, act, next, version);
      } else {
        IdleEmits(s, c);
      }
    } else if c == 119 {
      if act > 0 {
        next := act - 1;
        MoveEmits(s, c, next);
        Move(bank, tx, act, next, version);
      } else {
        IdleEmits(s, c);
      }
    } else {
      IdleEmits(s, c);
    }
  }

  /** `for c in buf`: the bytes of one received chunk, in order. */
  method Chunk(bank: DimmerBank, tx: Tx, act: nat, buf: seq<Byte>, version: string) returns (next: nat)
    requires bank.Valid()
    requires |TitleLine(version)| <= MessageCapacity
    modifies bank, bank.levels, tx
    ensures Ctl(next, bank.State()) == RunCtl(Ctl(act, old(bank.State())), buf)
    ensures tx.sent == old(tx.sent) + Render(RunOutput(Ctl(act, old(bank.State())), buf), version)
  {
    ghost var s0 := Ctl(act, bank.State());
    next := act;
    for i := 0 to |buf|
      invariant bank.Valid()
      invariant Ctl(next, bank.State()) == RunCtl(s0, buf[..i])
      invariant tx.sent == old(tx.sent) + Render(RunOutput(s0, buf[..i]), version)
    {
      ghost var before := tx.sent;
      ghost var done := RunOutput(s0, buf[..i]);
      ghost var e := Emitted(Ctl(next, bank.State()), buf[i]);
      assert buf[..i + 1][..i] == buf[..i];
      next := Step(bank, tx, next, buf[i], version);
      assert RunOutput(s0, buf[..i + 1]) == done + e;
      RenderAppend(done, e, version);
      AppendAssoc(old(tx.sent), Render(done, version), Render(e, version));
    }
    assert buf[..|buf|] == buf;
  }
}
