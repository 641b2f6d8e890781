/** The firmware as a whole (main.rs with the PWM task of pwm.rs): start-up, then
    any interleaving of received chunks, each handled by the receive loop, and
    turns of the PWM task, each running that task until it blocks in its wait.
    The executor is cooperative, so each of these runs without interruption. */
module Firmware {
  import opened Fmt
  import opened Dimmer
  import opened SerialMenu
  import opened Dispatch
  import opened Pwm
  import opened Uart

  /** What happens next once `main` is blocked in `fill_buf`: a chunk of bytes
      arrives, or the PWM task gets to run. */
  datatype Event = Receive(chunk: seq<Byte>) | PwmTurn

  /** Everything the firmware's behaviour depends on or shows: the selection, the
      bank, the text sent to the terminal, the duty cycles written to the timers,
      and whether the PWM task has started. */
  datatype World = World(act: nat, bank: Bank, sent: string, writes: seq<DutyWrite>, started: bool)

  /** The selection is a channel or none, and every level indexes the duty table. */
  predicate Sound(w: World)
  {
    w.act <= 8 && InRange(w.bank)
  }

  /** The bank once `menu_init` has run on the static all-zero bank, stated as the
      reset of all eight dimmers; `MenuInitAgreesAtBoot` shows the code as written
      leaves the same bank. */
  const BootBank: Bank := ZeroFrom(Initial, 0, 8)

  /** After start-up: `menu_init` and `menu(0)`, before the first `fill_buf`; the
      PWM task has not yet run. */
  function Boot(version: string): (w: World)
    ensures Sound(w) && InSync(w)
  {
    MenuInitAllChannelsZeroes(Initial);
    World(0, BootBank, InitText + MenuText(0, BootBank.levels, version), [], false)
  }

  /** Start-up leaves nothing selected, every level 0 and a wake pending, and
      shows the plain menu followed by nothing else. */
  lemma BootState(version: string)
    ensures Boot(version).act == 0 && Boot(version).bank == Bank([0, 0, 0, 0, 0, 0, 0, 0], true)
    ensures Boot(version).sent == InitText + MenuText(0, [0, 0, 0, 0, 0, 0, 0, 0], version)
    ensures Boot(version).writes == [] && !Boot(version).started
  {
    MenuInitAllChannelsZeroes(Initial);
  }

  /** What one event does. */
  function Next(w: World, e: Event, version: string): World
    requires Sound(w)
  {
    match e
    case Receive(chunk) =>
      var s := RunCtl(Ctl(w.act, w.bank), chunk);
      w.(act := s.act, bank := s.bank,
         sent := w.sent + Render(RunOutput(Ctl(w.act, w.bank), chunk), version))
    case PwmTurn =>
      w.(bank := w.bank.(pending := false),
         writes := w.writes + Repeat(Pass(w.bank.levels), PassesUntilBlocked(w.started, w.bank.pending)),
         started := true)
  }

  lemma NextSound(w: World, e: Event, version: string)
    requires Sound(w)
    ensures Sound(Next(w, e, version))
  {
    if e.Receive? {
      RunKeepsBounds(Ctl(w.act, w.bank), e.chunk);
    }
  }

  /** The world after the events of `es`, in order. */
  function Trace(w: World, es: seq<Event>, version: string): (r: World)
    requires Sound(w)
    ensures Sound(r)
  {
    if es == [] then w
    else
      var v := Trace(w, es[..|es| - 1], version);
      NextSound(v, es[|es| - 1], version);
      Next(v, es[|es| - 1], version)
  }

  /** The last eight writes are a pass over `levels`. */
  predicate ShowsLevels(writes: seq<DutyWrite>, levels: Levels)
    requires LevelsInRange(levels)
  {
    |writes| >= Channels && writes[|writes| - Channels..] == Pass(levels)
  }

  /** No change of a level is ever lost: once the PWM task has run, either a wake
      is pending, or the last duty cycles written are those of the current levels. */
  predicate InSync(w: World)
    requires Sound(w)
  {
    w.started ==> w.bank.pending || ShowsLevels(w.writes, w.bank.levels)
  }

  lemma RepeatEndsWithPass(p: seq<DutyWrite>, k: nat, before: seq<DutyWrite>)
    requires k >= 1 && |p| == Channels
    ensures |before + Repeat(p, k)| >= Channels
    ensures (before + Repeat(p, k))[|before + Repeat(p, k)| - Channels..] == p
  {
    var r := before + Repeat(p, k);
    assert Repeat(p, k) == Repeat(p, k - 1) + p;
    assert r == (before + Repeat(p, k - 1)) + p;
  }

  lemma NextInSync(w: World, e: Event, version: string)
    requires Sound(w) && InSync(w)
    ensures Sound(Next(w, e, version)) && InSync(Next(w, e, version))
  {
    NextSound(w, e, version);
    match e
    case Receive(chunk) =>
      ReceiveInSync(w, chunk, version);
    case PwmTurn =>
      PwmTurnInSync(w, version);
  }

  lemma ReceiveInSync(w: World, chunk: seq<Byte>, version: string)
    requires Sound(w) && InSync(w)
    ensures Sound(Next(w, Receive(chunk), version)) && InSync(Next(w, Receive(chunk), version))
  {
    NextSound(w, Receive(chunk), version);
    RunSignalsChanges(Ctl(w.act, w.bank), chunk);
  }

  lemma PwmTurnInSync(w: World, version: string)
    requires Sound(w) && InSync(w)
    ensures Sound(Next(w, PwmTurn, version)) && InSync(Next(w, PwmTurn, version))
  {
    var n := Next(w, PwmTurn, version);
    if w.bank.pending || !w.started {
      RepeatEndsWithPass(Pass(w.bank.levels), PassesUntilBlocked(w.started, w.bank.pending), w.writes);
    } else {
      assert Repeat(Pass(w.bank.levels), 0) == [];
      assert n.writes == w.writes;
    }
  }

  /** Every interleaving keeps the selection and the levels in range and the
      outputs in step with the levels. */
  lemma {:induction false} TraceInvariant(w: World, es: seq<Event>, version: string)
    requires Sound(w) && InSync(w)
    ensures InSync(Trace(w, es, version))
  {
    if es != [] {
      TraceInvariant(w, es[..|es| - 1], version);
      NextInSync(Trace(w, es[..|es| - 1], version), es[|es| - 1], version);
    }
  }

  lemma FromBoot(es: seq<Event>, version: string)
    ensures InSync(Trace(Boot(version), es, version))
  {
    TraceInvariant(Boot(version), es, version);
  }

  /** The first turn of the PWM task after start-up (where `BootState` shows every
      level 0 and a wake pending) makes two passes with every channel off: one at
      its start and one for the wake `menu_init` left pending. */
  lemma FirstPwmTurn(w: World, version: string)
    requires w.bank == Bank([0, 0, 0, 0, 0, 0, 0, 0], true) && !w.started && w.act <= 8
    ensures var u := Next(w, PwmTurn, version);
            u.writes == w.writes + Pass([0, 0, 0, 0, 0, 0, 0, 0]) + Pass([0, 0, 0, 0, 0, 0, 0, 0]) &&
            !u.bank.pending && u.started &&
            forall k :: |w.writes| <= k < |u.writes| ==> u.writes[k].numerator == 0
  {
    var zeros: Levels := [0, 0, 0, 0, 0, 0, 0, 0];
    assert Repeat(Pass(zeros), 2) == Repeat(Pass(zeros), 1) + Pass(zeros);
    assert Repeat(Pass(zeros), 1) == [] + Pass(zeros);
  }

  /** Chunks received while the PWM task waits only raise the single wake flag:
      however many changes they make, its next turn makes at most one pass, with
      the levels as they are by then. */
  lemma {:induction false} WakesCoalesce(w: World, chunks: seq<seq<Byte>>, version: string)
    requires Sound(w) && w.started
    ensures var es := seq(|chunks|, i requires 0 <= i < |chunks| => Receive(chunks[i]));
            var v := Trace(w, es, version);
            var u := Next(v, PwmTurn, version);
            v.writes == w.writes &&
            u.writes == w.writes + (if v.bank.pending then Pass(v.bank.levels) else [])
  {
    var es := seq(|chunks|, i requires 0 <= i < |chunks| => Receive(chunks[i]));
    ReceivesWriteNothing(w, es, version);
    var v := Trace(w, es, version);
    assert Repeat(Pass(v.bank.levels), 1) == [] + Pass(v.bank.levels);
    assert Repeat(Pass(v.bank.levels), 0) == [];
  }

  lemma {:induction false} ReceivesWriteNothing(w: World, es: seq<Event>, version: string)
    requires Sound(w)
    requires forall i :: 0 <= i < |es| ==> es[i].Receive?
    ensures Trace(w, es, version).writes == w.writes
    ensures Trace(w, es, version).started == w.started
  {
    if es != [] {
      ReceivesWriteNothing(w, es[..|es| - 1], version);
    }
  }

  /** One event on the bank, the UART and the timers: the receive loop's handling
      of a chunk, or a turn of the PWM task. */
  method Handle(bank: DimmerBank, tx: Tx, hw: Timers, act: nat, started: bool, e: Event, version: string)
    returns (act': nat, started': bool)
    requires bank.Valid() && |TitleLine(version)| <= MessageCapacity
    requires Sound(World(act, bank.State(), tx.sent, hw.writes, started))
    modifies bank, bank.levels, tx, hw
    ensures World(act', bank.State(), tx.sent, hw.writes, started')
         == Next(World(act, old(bank.State()), old(tx.sent), old(hw.writes), started), e, version)
  {
    act', started' := act, started;
    match e
    case Receive(chunk) =>
      act' := Chunk(bank, tx, act, chunk, version);
    case PwmTurn =>
      RunPwmTask(bank, hw, started);
      started' := true;
  }

  /** The bank and the UART as `menu_init`, as written, leaves them: from the static
      all-zero bank this is the bank the corrected loop gives. */
  method Reset() returns (bank: DimmerBank, tx: Tx)
    ensures fresh(bank) && fresh(bank.levels) && fresh(tx) && bank.Valid()
    ensures bank.State() == BootBank && tx.sent == InitText
  {
    bank := new DimmerBank();
    tx := new Tx();
    ghost var st, t0 := bank.State(), tx.sent;
    MenuInit(bank, tx);
    ResetState(st, bank.State(), t0, tx.sent);
  }

  lemma ResetState(before: Bank, after: Bank, t0: string, t1: string)
    requires before == Initial && after == ZeroFrom(before, 1, 9)
    requires t0 == [] && t1 == t0 + InitText
    ensures after == BootBank && t1 == InitText
  {
    MenuInitAgreesAtBoot();
    assert [] + InitText == InitText;
  }

  /** Start-up up to the first `fill_buf`: fresh bank, UART and timers, then
      `menu_init` and `menu(0)`. */
  method Start(version: string) returns (bank: DimmerBank, tx: Tx, hw: Timers)
    requires |TitleLine(version)| <= MessageCapacity
    ensures fresh(bank) && fresh(bank.levels) && fresh(tx) && fresh(hw) && bank.Valid()
    ensures World(0, bank.State(), tx.sent, hw.writes, false) == Boot(version)
  {
    bank, tx := Reset();
    Menu(bank, tx, 0, version);
    hw := new Timers();
  }

  /** The receive loop and the PWM task, from a given state, through the events
      of `es`; `w` is what the bank, the UART and the timers then hold. */
  method Serve(bank: DimmerBank, tx: Tx, hw: Timers, act: nat, started: bool, es: seq<Event>, version: string)
    returns (w: World)
    requires bank.Valid() && |TitleLine(version)| <= MessageCapacity
    requires Sound(World(act, bank.State(), tx.sent, hw.writes, started))
    modifies bank, bank.levels, tx, hw
    ensures w == World(w.act, bank.State(), tx.sent, hw.writes, w.started)
    ensures w == Trace(World(act, old(bank.State()), old(tx.sent), old(hw.writes), started), es, version)
  {
    ghost var w0 := World(act, bank.State(), tx.sent, hw.writes, started);
    var a, st := act, started;
    for i := 0 to |es|
      invariant bank.Valid()
      invariant World(a, bank.State(), tx.sent, hw.writes, st) == Trace(w0, es[..i], version)
    {
      assert es[..i + 1][..i] == es[..i];
      a, st := Handle(bank, tx, hw, a, st, es[i], version);
    }
    assert es[..|es|] == es;
    w := World(a, bank.State(), tx.sent, hw.writes, st);
  }

  /** The firmware on the bank, the UART and the timers, from reset through the
      events of `es`. */
  method Run(version: string, es: seq<Event>) returns (w: World)
    requires |TitleLine(version)| <= MessageCapacity
    ensures w == Trace(Boot(version), es, version)
  {
    var bank, tx, hw := Start(version);
    w := Serve(bank, tx, hw, 0, false, es, version);
  }
}
