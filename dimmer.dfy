/** The dimmer bank: eight brightness levels held in a static array, read and
    changed only through range-checked accessors, and the single-slot wake
    signal that every change raises (menu.rs). The pure functions below say
    what each accessor does to the bank's value; the class `DimmerBank` is the
    static state itself, updated in place. */
module Dimmer {
  import opened Fmt

  /** The number of dimmer channels and the brightest level `inc_dimmer` reaches. */
  const Channels: nat := 8
  const MaxLevel: nat := 15

  /** The contents of the `[u8; 8]` array. */
  type Levels = s: seq<Byte> | |s| == 8 witness [0, 0, 0, 0, 0, 0, 0, 0]

  /** The value of the bank: the levels and whether a wake is pending on the signal. */
  datatype Bank = Bank(levels: Levels, pending: bool)

  /** The static initial state: all levels 0, no wake pending. */
  const Initial: Bank := Bank([0, 0, 0, 0, 0, 0, 0, 0], false)

  /** Every level can index the 16-entry duty-cycle table. */
  predicate LevelsInRange(levels: Levels)
  {
    forall i :: 0 <= i < Channels ==> levels[i] <= MaxLevel
  }

  predicate InRange(b: Bank)
  {
    LevelsInRange(b.levels)
  }

  /** `get_dimmer`: an index past 7 reads as 0. */
  function GetLevel(b: Bank, idx: nat): Byte
  {
    if idx > 7 then 0 else b.levels[idx]
  }

  /** `set_dimmer`: an index past 7 is ignored; otherwise the value is stored and
      the signal is raised, even when the value does not change. */
  function SetLevel(b: Bank, idx: nat, val: Byte): (r: Bank)
    ensures idx > 7 ==> r == b
    ensures idx <= 7 ==> r.levels[idx] == val && r.pending
    ensures forall j :: 0 <= j < Channels && j != idx ==> r.levels[j] == b.levels[j]
    ensures InRange(b) && val <= MaxLevel ==> InRange(r)
  {
    if idx > 7 then b else Bank(b.levels[idx := val], true)
  }

  /** `inc_dimmer`: saturating increment of one level. */
  function IncLevel(b: Bank, idx: nat): (r: Bank)
    ensures forall j :: 0 <= j < Channels && j != idx ==> r.levels[j] == b.levels[j]
    ensures idx <= 7 ==> r.levels[idx] == if b.levels[idx] < MaxLevel then b.levels[idx] + 1 else b.levels[idx]
    ensures r.pending == (b.pending || r.levels != b.levels)
    ensures InRange(b) ==> InRange(r)
  {
    if idx > 7 then b
    else if b.levels[idx] < 15 then
      var r := Bank(b.levels[idx := b.levels[idx] + 1], true);
      assert r.levels[idx] != b.levels[idx];
      r
    else b
  }

  /** `dec_dimmer`: saturating decrement of one level. */
  function DecLevel(b: Bank, idx: nat): (r: Bank)
    ensures forall j :: 0 <= j < Channels && j != idx ==> r.levels[j] == b.levels[j]
    ensures idx <= 7 ==> r.levels[idx] == if b.levels[idx] > 0 then b.levels[idx] - 1 else 0
    ensures r.pending == (b.pending || r.levels != b.levels)
    ensures InRange(b) ==> InRange(r)
  {
    if idx > 7 then b
    else if b.levels[idx] > 0 then
      var r := Bank(b.levels[idx := b.levels[idx] - 1], true);
      assert r.levels[idx] != b.levels[idx];
      r
    else b
  }

  /** Reading a level back after storing it. */
  lemma GetAfterSet(b: Bank, idx: nat, val: Byte, other: nat)
    requires other != idx
    ensures idx <= 7 ==> GetLevel(SetLevel(b, idx, val), idx) == val
    ensures GetLevel(SetLevel(b, idx, val), other) == GetLevel(b, other)
  {
  }

  /** One increment undoes one decrement below the top level, and the other way round. */
  lemma IncDecInverse(b: Bank, idx: nat)
    requires idx <= 7
    ensures b.levels[idx] < MaxLevel ==> DecLevel(IncLevel(b, idx), idx).levels == b.levels
    ensures 0 < b.levels[idx] <= MaxLevel ==> IncLevel(DecLevel(b, idx), idx).levels == b.levels
  {
    if b.levels[idx] < MaxLevel {
      assert DecLevel(IncLevel(b, idx), idx).levels == b.levels[idx := b.levels[idx] + 1][idx := b.levels[idx]];
    }
    if 0 < b.levels[idx] <= MaxLevel {
      assert IncLevel(DecLevel(b, idx), idx).levels == b.levels[idx := b.levels[idx] - 1][idx := b.levels[idx]];
    }
  }

  /** `k` increments in a row (pressing `+` k times). */
  function IncTimes(b: Bank, idx: nat, k: nat): Bank
  {
    if k == 0 then b else IncLevel(IncTimes(b, idx, k - 1), idx)
  }

  /** `k` decrements in a row. */
  function DecTimes(b: Bank, idx: nat, k: nat): Bank
  {
    if k == 0 then b else DecLevel(DecTimes(b, idx, k - 1), idx)
  }

  /** Repeated increments climb one step at a time and stop at 15; they never wrap. */
  lemma {:induction false} IncSaturates(b: Bank, idx: nat, k: nat)
    requires idx <= 7 && InRange(b)
    ensures InRange(IncTimes(b, idx, k))
    ensures IncTimes(b, idx, k).levels[idx] == if b.levels[idx] + k < MaxLevel then b.levels[idx] + k else MaxLevel
  {
    if k > 0 {
      IncSaturates(b, idx, k - 1);
    }
  }

  /** Repeated decrements descend one step at a time and stop at 0; they never wrap. */
  lemma {:induction false} DecSaturates(b: Bank, idx: nat, k: nat)
    requires idx <= 7 && InRange(b)
    ensures InRange(DecTimes(b, idx, k))
    ensures DecTimes(b, idx, k).levels[idx] == if b.levels[idx] >= k then b.levels[idx] - k else 0
  {
    if k > 0 {
      DecSaturates(b, idx, k - 1);
    }
  }

  /** The static `DIMMER` array together with the `UPDATE` signal. Each method
      runs atomically, as the critical section makes it. */
  class DimmerBank {
    const levels: array<Byte>
    var pending: bool

    ghost predicate Valid()
    {
      levels.Length == Channels
    }

    function State(): Bank
      reads this, levels
      requires Valid()
    {
      Bank(levels[..], pending)
    }

    constructor ()
      ensures Valid() && fresh(levels) && State() == Initial
    {
      levels := new Byte[8](_ => 0);
      pending := false;
      new;
      assert levels[..] == [0, 0, 0, 0, 0, 0, 0, 0];
    }

    /** `get_dimmer` */
    function Get(idx: nat): (v: Byte)
      reads this, levels
      requires Valid()
      ensures v == GetLevel(State(), idx)
    {
      if idx > 7 then 0 else levels[idx]
    }

    /** `set_dimmer` */
    method Set(idx: nat, val: Byte)
      requires Valid()
      modifies this, levels
      ensures State() == SetLevel(old(State()), idx, val)
    {
      if idx > 7 {
        return;
      }
      levels[idx] := val;
      pending := true;
    }

    /** `inc_dimmer` */
    method Inc(idx: nat)
      requires Valid()
      modifies this, levels
      ensures State() == IncLevel(old(State()), idx)
    {
      if idx > 7 {
        return;
      }
      var a := levels[idx];
      if a < 15 {
        levels[idx] := a + 1;
        pending := true;
      }
    }

    /** `dec_dimmer` */
    method Dec(idx: nat)
      requires Valid()
      modifies this, levels
      ensures State() == DecLevel(old(State()), idx)
    {
      if idx > 7 {
        return;
      }
      var a := levels[idx];
      if a > 0 {
        levels[idx] := a - 1;
        pending := true;
      }
    }

    /** `wait_dimmer`: resolves when a wake is pending and consumes it; however many
        changes raised the signal since the last wait, one wait takes them all.
        `woke` false means the waiting task stays suspended. */
    method Wait() returns (woke: bool)
      requires Valid()
      modifies this
      ensures woke == old(pending)
      ensures State() == old(State()).(pending := false)
    {
      woke := pending;
      pending := false;
    }
  }
}
