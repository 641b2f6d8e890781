/** The output driver (pwm.rs): the perceptual duty-cycle table, the fixed
    assignment of the eight dimmers to the two timers' channels, one pass that
    writes all eight duty cycles, and the task loop that makes a pass at start
    and after each wake it consumes. */
module Pwm {
  import opened Dimmer

  /** `PWMSTEPS`: the duty numerator, out of `Denominator`, for each level. */
  const PwmSteps: seq<nat> := [0, 2, 3, 4, 6, 8, 11, 16, 23, 32, 45, 64, 90, 128, 181, 255]

  /** The fixed denominator passed to `set_duty_cycle_fraction`. */
  const Denominator: nat := 256

  /** The two `SimplePwm` timers: `pwm1` runs on TIM3, `pwm2` on TIM2. */
  datatype Timer = Pwm1 | Pwm2

  /** One call `set_duty_cycle_fraction(numerator, denominator)` on a timer channel (1..4). */
  datatype DutyWrite = DutyWrite(timer: Timer, channel: nat, numerator: nat, denominator: nat)

  predicate StrictlyIncreasing(s: seq<nat>)
  {
    forall i, j :: 0 <= i < j < |s| ==> s[i] < s[j]
  }

  lemma {:induction false} AdjacentIncreasing(s: seq<nat>)
    requires forall i :: 0 <= i < |s| - 1 ==> s[i] < s[i + 1]
    ensures StrictlyIncreasing(s)
  {
    if |s| > 1 {
      AdjacentIncreasing(s[1..]);
      forall i, j | 0 <= i < j < |s|
        ensures s[i] < s[j]
      {
        if i > 0 {
          assert s[i] == s[1..][i - 1] && s[j] == s[1..][j - 1];
        } else if j > 1 {
          assert s[1] == s[1..][0] && s[j] == s[1..][j - 1];
        }
      }
    }
  }

  /** The table has one entry per level, starts at off, ends at the largest numerator
      below the denominator, and grows strictly, so every duty fraction is below 1. */
  lemma PwmStepsShape()
    ensures |PwmSteps| == MaxLevel + 1
    ensures PwmSteps[0] == 0 && PwmSteps[MaxLevel] == Denominator - 1
    ensures StrictlyIncreasing(PwmSteps)
    ensures forall i :: 0 <= i < |PwmSteps| ==> PwmSteps[i] < Denominator
  {
    AdjacentIncreasing(PwmSteps);
  }

  /** `PWMSTEPS[level]`, in bounds for every level 0..15. */
  function Duty(level: nat): (n: nat)
    requires level <= MaxLevel
    ensures n < Denominator
    ensures n == 0 <==> level == 0
  {
    PwmStepsShape();
    PwmSteps[level]
  }

  /** A brighter level always gives a strictly larger duty cycle. */
  lemma DutyMonotone(a: nat, b: nat)
    requires a < b <= MaxLevel
    ensures Duty(a) < Duty(b)
  {
    PwmStepsShape();
  }

  /** The dimmer that drives channel `ch` of timer `t`. */
  function Driver(t: Timer, ch: nat): (idx: nat)
    requires 1 <= ch <= 4
    ensures idx < Channels
  {
    match t
    case Pwm2 => 8 - ch
    case Pwm1 => 4 - ch
  }

  /** The timer channel that dimmer `idx` drives. */
  function Output(idx: nat): (o: (Timer, nat))
    requires idx < Channels
    ensures 1 <= o.1 <= 4
  {
    if idx >= 4 then (Pwm2, 8 - idx) else (Pwm1, 4 - idx)
  }

  /** Each dimmer drives exactly one channel and each channel is driven by exactly one dimmer. */
  lemma MappingIsBijection()
    ensures forall idx :: 0 <= idx < Channels ==> Driver(Output(idx).0, Output(idx).1) == idx
    ensures forall t, ch :: 1 <= ch <= 4 ==> Output(Driver(t, ch)) == (t, ch)
  {
  }

  /** The channels of both timers. */
  const AllChannels: set<(Timer, nat)> :=
    {(Pwm1, 1), (Pwm1, 2), (Pwm1, 3), (Pwm1, 4), (Pwm2, 1), (Pwm2, 2), (Pwm2, 3), (Pwm2, 4)}

  /** The eight writes of one pass of the task loop, in the order pwm.rs issues them. */
  function Pass(levels: Levels): seq<DutyWrite>
    requires LevelsInRange(levels)
  {
    [ DutyWrite(Pwm2, 1, Duty(levels[7]), Denominator),
      DutyWrite(Pwm2, 2, Duty(levels[6]), Denominator),
      DutyWrite(Pwm2, 3, Duty(levels[5]), Denominator),
      DutyWrite(Pwm2, 4, Duty(levels[4]), Denominator),
      DutyWrite(Pwm1, 1, Duty(levels[3]), Denominator),
      DutyWrite(Pwm1, 2, Duty(levels[2]), Denominator),
      DutyWrite(Pwm1, 3, Duty(levels[1]), Denominator),
      DutyWrite(Pwm1, 4, Duty(levels[0]), Denominator) ]
  }

  /** A pass writes every channel of both timers exactly once, each with the table
      entry of the dimmer that drives it, as a fraction of 256 that is below 1. */
  lemma PassWritesEveryChannelOnce(levels: Levels)
    requires LevelsInRange(levels)
    ensures |Pass(levels)| == Channels
    ensures forall k :: 0 <= k < Channels ==>
              var w := Pass(levels)[k];
              1 <= w.channel <= 4 && w.denominator == Denominator && w.numerator < w.denominator &&
              w.numerator == Duty(levels[Driver(w.timer, w.channel)])
    ensures forall k, m :: 0 <= k < m < Channels ==>
              (Pass(levels)[k].timer, Pass(levels)[k].channel) != (Pass(levels)[m].timer, Pass(levels)[m].channel)
    ensures (set k | 0 <= k < Channels :: (Pass(levels)[k].timer, Pass(levels)[k].channel)) == AllChannels
  {
    PassWritesTable(levels);
    PassChannelsDistinct(levels);
    PassCoversAllChannels(levels);
  }

  lemma PassWritesTable(levels: Levels)
    requires LevelsInRange(levels)
    ensures forall k :: 0 <= k < Channels ==>
              var w := Pass(levels)[k];
              1 <= w.channel <= 4 && w.denominator == Denominator && w.numerator < w.denominator &&
              w.numerator == Duty(levels[Driver(w.timer, w.channel)])
  {
  }

  lemma PassChannelsDistinct(levels: Levels)
    requires LevelsInRange(levels)
    ensures forall k, m :: 0 <= k < m < Channels ==>
              (Pass(levels)[k].timer, Pass(levels)[k].channel) != (Pass(levels)[m].timer, Pass(levels)[m].channel)
  {
  }

  lemma PassCoversAllChannels(levels: Levels)
    requires LevelsInRange(levels)
    ensures (set k | 0 <= k < Channels :: (Pass(levels)[k].timer, Pass(levels)[k].channel)) == AllChannels
  {
    var p := Pass(levels);
    var written := set k | 0 <= k < Channels :: (p[k].timer, p[k].channel);
    forall o | o in AllChannels
      ensures o in written
    {
      var k := if o.0 == Pwm2 then o.1 - 1 else o.1 + 3;
      assert (p[k].timer, p[k].channel) == o;
    }
  }

  /** `k` passes in a row over the same levels. */
  function Repeat(w: seq<DutyWrite>, k: nat): seq<DutyWrite>
  {
    if k == 0 then [] else Repeat(w, k - 1) + w
  }

  /** How many passes pwm_task makes from where it stands until it blocks in
      `wait_dimmer`: one at the top of a fresh task, and one more if a wake is pending. */
  function PassesUntilBlocked(started: bool, pending: bool): nat
  {
    (if started then 0 else 1) + (if pending then 1 else 0)
  }

  /** The timer channels, seen as the sequence of duty-cycle writes made to them. */
  class Timers {
    var writes: seq<DutyWrite>

    constructor ()
      ensures writes == []
    {
      writes := [];
    }

    method SetDutyCycleFraction(t: Timer, ch: nat, numerator: nat, denominator: nat)
      modifies this
      ensures writes == old(writes) + [DutyWrite(t, ch, numerator, denominator)]
    {
      writes := writes + [DutyWrite(t, ch, numerator, denominator)];
    }
  }

  /** The body of the task loop before its wait: read each level and write its duty cycle. */
  method ApplyPass(bank: DimmerBank, hw: Timers)
    requires bank.Valid() && InRange(bank.State())
    modifies hw
    ensures hw.writes == old(hw.writes) + Pass(bank.State().levels)
  {
    ghost var st := bank.State();
    hw.SetDutyCycleFraction(Pwm2, 1, PwmSteps[bank.Get(7)], 256);
    assert bank.State() == st;
    hw.SetDutyCycleFraction(Pwm2, 2, PwmSteps[bank.Get(6)], 256);
    assert bank.State() == st;
    hw.SetDutyCycleFraction(Pwm2, 3, PwmSteps[bank.Get(5)], 256);
    assert bank.State() == st;
    hw.SetDutyCycleFraction(Pwm2, 4, PwmSteps[bank.Get(4)], 256);
    assert bank.State() == st;
    hw.SetDutyCycleFraction(Pwm1, 1, PwmSteps[bank.Get(3)], 256);
    assert bank.State() == st;
    hw.SetDutyCycleFraction(Pwm1, 2, PwmSteps[bank.Get(2)], 256);
    assert bank.State() == st;
    hw.SetDutyCycleFraction(Pwm1, 3, PwmSteps[bank.Get(1)], 256);
    assert bank.State() == st;
    hw.SetDutyCycleFraction(Pwm1, 4, PwmSteps[bank.Get(0)], 256);
    assert bank.State() == st;
    assert hw.writes == old(hw.writes) + Pass(st.levels);
  }

  /** `pwm_task`'s loop, run from where the task stands (at its start, or blocked in
      `wait_dimmer`) until `wait_dimmer` blocks: one pass at the start, then one
      per wait that resolves. A pass does not raise the signal, so at most one
      pending wake is consumed, however many changes raised it. */
  method RunPwmTask(bank: DimmerBank, hw: Timers, started: bool)
    requires bank.Valid() && InRange(bank.State())
    modifies bank, hw
    ensures bank.State() == old(bank.State()).(pending := false)
    ensures hw.writes == old(hw.writes)
                         + Repeat(Pass(old(bank.State()).levels), PassesUntilBlocked(started, old(bank.pending)))
  {
    ghost var pass := Pass(bank.State().levels);
    ghost var total := PassesUntilBlocked(started, bank.pending);
    ghost var done := 0;
    var apply := true;
    if started {
      apply := bank.Wait();
    }
    while apply
      invariant bank.Valid() && bank.State().levels == old(bank.State()).levels
      invariant hw.writes == old(hw.writes) + Repeat(pass, done)
      invariant done + (if apply then 1 else 0) + (if bank.pending then 1 else 0) == total
      invariant !apply ==> !bank.pending
      decreases (if apply then 1 else 0) + (if bank.pending then 1 else 0)
    {
      ApplyPass(bank, hw);
      done := done + 1;
      apply := bank.Wait();
    }
  }
}
