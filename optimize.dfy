/**
 The learning-rate multiplier of openpifpaf's optimizer set-up.

 A multiplier is a product of powers of two configured factors, so it is
 represented by their exponents:

     lambda == burnInFactor ^ burnIn * decayFactor ^ decay

 Every `lambda *= b ** x` of the source adds `x` to the exponent of `b`, and
 every `lambda *= b` adds 1; the initial `lambda = 1.0` is the pair (0, 0).
 */
module Optimize {

  /** Exponents of the burn-in factor and of the decay factor in a multiplier. */
  datatype Exponents = Exponents(burnIn: real, decay: real)

  /** The six values a multiplier is configured with, all in step units. */
  datatype Config = Config(
    burnInDuration: real,
    decaySchedule: seq<real>,
    decayFactor: real,
    decayDuration: real,
    burnInStart: real,
    burnInFactor: real)

  // ---------------------------------------------------------------------
  // Burn-in
  // ---------------------------------------------------------------------

  /** Condition of the flat burn-in phase: the full burn-in factor applies. */
  predicate FlatBurnIn(start: real, step: int) {
    step as real <= start
  }

  /** Condition of the burn-in ramp, strictly between its start and its end. */
  predicate RampBurnIn(start: real, duration: real, step: int) {
    start < step as real < start + duration
  }

  /**
   Exponent of the burn-in factor at `step`: the flat phase and the ramp are
   tested independently, as two separate conditionals, and their
   contributions add up.
   */
  function BurnInExponent(start: real, duration: real, step: int): (e: real)
    ensures 0.0 <= e <= 1.0
  {
    (if FlatBurnIn(start, step) then 1.0 else 0.0)
    + (if RampBurnIn(start, duration, step)
       then 1.0 - (step as real - start) / duration
       else 0.0)
  }

  // ---------------------------------------------------------------------
  // Decay
  // ---------------------------------------------------------------------

  /**
   Exponent of the decay factor contributed by one schedule entry `d`: the
   full factor once `step >= d + duration`, else the ramp while `step > d`,
   else nothing.
   */
  function DecayEntryExponent(d: real, duration: real, step: int): (e: real)
    ensures 0.0 <= e <= 1.0
  {
    if step as real >= d + duration then 1.0
    else if step as real > d then (step as real - d) / duration
    else 0.0
  }

  /** Sum of the per-entry decay exponents over a schedule, in schedule order. */
  function DecayExponent(schedule: seq<real>, duration: real, step: int): (e: real)
    ensures 0.0 <= e <= |schedule| as real
    decreases |schedule|
  {
    if schedule == [] then 0.0
    else
      DecayExponent(schedule[..|schedule| - 1], duration, step)
      + DecayEntryExponent(schedule[|schedule| - 1], duration, step)
  }

  /** Number of schedule entries whose decay is fully applied at `step`. */
  function CompletedDecays(schedule: seq<real>, duration: real, step: int): (n: nat)
    ensures n <= |schedule|
    decreases |schedule|
  {
    if schedule == [] then 0
    else
      CompletedDecays(schedule[..|schedule| - 1], duration, step)
      + (if step as real >= schedule[|schedule| - 1] + duration then 1 else 0)
  }

  // ---------------------------------------------------------------------
  // The whole multiplier
  // ---------------------------------------------------------------------

  /** The multiplier for `step` under configuration `c`, as exponents. */
  function Multiplier(c: Config, step: int): (r: Exponents)
    ensures 0.0 <= r.burnIn <= 1.0
    ensures 0.0 <= r.decay <= |c.decaySchedule| as real
  {
    Exponents(
      BurnInExponent(c.burnInStart, c.burnInDuration, step),
      DecayExponent(c.decaySchedule, c.decayDuration, step))
  }

  /**
   The callable multiplier object. Its fields are set once by the
   constructor; `Call` reads them and changes nothing.
   */
  class LearningRateLambda {
    var burnInDuration: real
    var decaySchedule: seq<real>
    var decayFactor: real
    var decayDuration: real
    var burnInStart: real
    var burnInFactor: real

    /** The stored configuration. */
    function Settings(): (c: Config)
      reads this
    {
      Config(burnInDuration, decaySchedule, decayFactor, decayDuration, burnInStart, burnInFactor)
    }

    /** Stores the configuration; the last four parameters are keyword-only with defaults. */
    constructor (
      burnInDuration: real,
      decaySchedule: seq<real>,
      nameonly decayFactor: real := 0.1,
      nameonly decayDuration: real := 1.0,
      nameonly burnInStart: real := 0.0,
      nameonly burnInFactor: real := 0.01)
      ensures Settings() == Config(burnInDuration, decaySchedule, decayFactor,
                                   decayDuration, burnInStart, burnInFactor)
    {
      this.burnInDuration := burnInDuration;
      this.decaySchedule := decaySchedule;
      this.decayFactor := decayFactor;
      this.decayDuration := decayDuration;
      this.burnInStart := burnInStart;
      this.burnInFactor := burnInFactor;
    }

    /**
     The multiplier for `step`. It has no modifies clause, so the
     configuration is the same after the call, and the result is a function
     of the configuration and `step` alone.
     */
    method Call(step: int) returns (r: Exponents)
      ensures r == Multiplier(Settings(), step)
    {
      var burnIn, decay := 0.0, 0.0;
      var s := step as real;

      if s <= burnInStart {
        burnIn := burnIn + 1.0;
      }

      if burnInStart < s < burnInStart + burnInDuration {
        burnIn := burnIn + (1.0 - (s - burnInStart) / burnInDuration);
      }

      for i := 0 to |decaySchedule|
        invariant decay == DecayExponent(decaySchedule[..i], decayDuration, step)
      {
        var d := decaySchedule[i];
        assert decaySchedule[..i + 1][..i] == decaySchedule[..i];
        if s >= d + decayDuration {
          decay := decay + 1.0;
        } else if s > d {
          decay := decay + (s - d) / decayDuration;
        }
      }
      assert decaySchedule[..|decaySchedule|] == decaySchedule;

      r := Exponents(burnIn, decay);
    }
  }

  /** A multiplier built with the keyword defaults, queried at its burn-in start. */
  method DefaultsAtStart() returns (r: Exponents, factors: (real, real))
    ensures r == Exponents(1.0, 0.0)
    ensures factors == (0.01, 0.1)
  {
    var m := new LearningRateLambda(200.0, [1000.0]);
    r := m.Call(0);
    factors := (m.burnInFactor, m.decayFactor);
  }

  // ---------------------------------------------------------------------
  // Burn-in properties
  // ---------------------------------------------------------------------

  /** At or before the burn-in start the full burn-in factor applies, whatever the duration. */
  lemma BurnInFlatPhase(start: real, duration: real, step: int)
    requires step as real <= start
    ensures BurnInExponent(start, duration, step) == 1.0
  {
  }

  /** The flat phase and the ramp never fire for the same step. */
  lemma BurnInPhasesExclusive(start: real, duration: real, step: int)
    ensures !(FlatBurnIn(start, step) && RampBurnIn(start, duration, step))
  {
  }

  /** After the burn-in has ended the burn-in factor no longer applies. */
  lemma BurnInAfterEnd(start: real, duration: real, step: int)
    requires step as real > start && step as real >= start + duration
    ensures BurnInExponent(start, duration, step) == 0.0
  {
  }

  /**
   On the ramp the duration is positive, the exponent lies strictly between
   0 and 1, and it is proportional to the steps left until the ramp ends.
   */
  lemma BurnInRamp(start: real, duration: real, step: int)
    requires RampBurnIn(start, duration, step)
    ensures duration > 0.0
    ensures 0.0 < BurnInExponent(start, duration, step) < 1.0
    ensures BurnInExponent(start, duration, step) * duration == start + duration - step as real
  {
    var e := BurnInExponent(start, duration, step);
    assert e == 1.0 - (step as real - start) / duration;
    calc {
      e * duration;
      duration - ((step as real - start) / duration) * duration;
      duration - (step as real - start);
    }
  }

  /** The burn-in exponent never grows as the step advances. */
  lemma BurnInMonotone(start: real, duration: real, step1: int, step2: int)
    requires step1 <= step2
    ensures BurnInExponent(start, duration, step2) <= BurnInExponent(start, duration, step1)
  {
    var x1, x2 := step1 as real, step2 as real;
    if RampBurnIn(start, duration, step1) && RampBurnIn(start, duration, step2) {
      RatioMonotone(x1 - start, x2 - start, duration);
    } else if RampBurnIn(start, duration, step1) {
      BurnInRamp(start, duration, step1);
    } else if RampBurnIn(start, duration, step2) {
      BurnInRamp(start, duration, step2);
    }
  }

  /** Dividing by a positive number keeps order. */
  lemma RatioMonotone(a: real, b: real, k: real)
    requires a <= b && k > 0.0
    ensures a / k <= b / k
  {
    assert b / k - a / k == (b - a) / k;
  }

  // ---------------------------------------------------------------------
  // Properties of one decay entry
  // ---------------------------------------------------------------------

  /** Once `step >= d + duration` the entry's full factor applies. */
  lemma DecayEntryComplete(d: real, duration: real, step: int)
    requires step as real >= d + duration
    ensures DecayEntryExponent(d, duration, step) == 1.0
  {
  }

  /** Before the entry starts, and before it would be complete, it contributes nothing. */
  lemma DecayEntryNotStarted(d: real, duration: real, step: int)
    requires step as real <= d && step as real < d + duration
    ensures DecayEntryExponent(d, duration, step) == 0.0
  {
  }

  /**
   Strictly inside an entry's ramp the duration is positive (the division is
   defined), the exponent lies strictly between 0 and 1, and it is
   proportional to the steps elapsed since `d`.
   */
  lemma DecayEntryRamp(d: real, duration: real, step: int)
    requires d < step as real < d + duration
    ensures duration > 0.0
    ensures 0.0 < DecayEntryExponent(d, duration, step) < 1.0
    ensures DecayEntryExponent(d, duration, step) * duration == step as real - d
  {
    var e := DecayEntryExponent(d, duration, step);
    assert e == (step as real - d) / duration;
    assert e * duration == step as real - d;
    assert e * duration < 1.0 * duration;
  }

  /**
   With a zero duration an entry is a step function that is already fully
   applied at `step == d`: the ramp branch is never taken.
   */
  lemma DecayEntryZeroDuration(d: real, step: int)
    ensures DecayEntryExponent(d, 0.0, step) == if step as real >= d then 1.0 else 0.0
  {
  }

  /** Each entry's exponent never shrinks as the step advances. */
  lemma DecayEntryMonotone(d: real, duration: real, step1: int, step2: int)
    requires step1 <= step2
    ensures DecayEntryExponent(d, duration, step1) <= DecayEntryExponent(d, duration, step2)
  {
    var x1, x2 := step1 as real, step2 as real;
    if d < x1 < d + duration && d < x2 < d + duration {
      RatioMonotone(x1 - d, x2 - d, duration);
    } else if d < x1 < d + duration {
      DecayEntryRamp(d, duration, step1);
    } else if d < x2 < d + duration {
      DecayEntryRamp(d, duration, step2);
    }
  }

  // ---------------------------------------------------------------------
  // Properties of the whole schedule
  // ---------------------------------------------------------------------

  /** The decay exponent of a concatenation is the sum of the two parts' exponents. */
  lemma {:induction false} DecayConcat(a: seq<real>, b: seq<real>, duration: real, step: int)
    ensures DecayExponent(a + b, duration, step)
            == DecayExponent(a, duration, step) + DecayExponent(b, duration, step)
    decreases |b|
  {
    if b == [] {
      assert a + b == a;
    } else {
      var b' := b[..|b| - 1];
      assert (a + b)[..|a + b| - 1] == a + b';
      assert (a + b)[|a + b| - 1] == b[|b| - 1];
      DecayConcat(a, b', duration, step);
    }
  }

  /** Taking one entry out of the schedule removes exactly that entry's exponent. */
  lemma DecayRemoveAt(s: seq<real>, i: int, duration: real, step: int)
    requires 0 <= i < |s|
    ensures DecayExponent(s, duration, step)
            == DecayEntryExponent(s[i], duration, step) + DecayExponent(s[..i] + s[i + 1..], duration, step)
  {
    assert s == s[..i] + [s[i]] + s[i + 1..];
    assert [s[i]][..0] == [];
    DecayConcat(s[..i] + [s[i]], s[i + 1..], duration, step);
    DecayConcat(s[..i], [s[i]], duration, step);
    DecayConcat(s[..i], s[i + 1..], duration, step);
  }

  /** The decay exponent does not depend on the order of the schedule. */
  lemma {:induction false} DecayOrderIndependent(s: seq<real>, t: seq<real>, duration: real, step: int)
    requires multiset(s) == multiset(t)
    ensures DecayExponent(s, duration, step) == DecayExponent(t, duration, step)
    decreases |t|
  {
    if t == [] {
      assert |s| == |multiset(s)| == 0;
    } else {
      var x := t[|t| - 1];
      var t' := t[..|t| - 1];
      assert t == t' + [x];
      assert x in multiset(s);
      var i :| 0 <= i < |s| && s[i] == x;
      var s' := s[..i] + s[i + 1..];
      assert s == s[..i] + [x] + s[i + 1..];
      assert multiset(s') == multiset(s) - multiset{x};
      assert multiset(s') == multiset(t');
      DecayOrderIndependent(s', t', duration, step);
      DecayRemoveAt(s, i, duration, step);
    }
  }

  /** Once every entry is fully applied the decay exponent is the schedule's length. */
  lemma {:induction false} DecayAllComplete(s: seq<real>, duration: real, step: int)
    requires forall k :: 0 <= k < |s| ==> step as real >= s[k] + duration
    ensures DecayExponent(s, duration, step) == |s| as real
    decreases |s|
  {
    if s != [] {
      DecayAllComplete(s[..|s| - 1], duration, step);
    }
  }

  /** Before any entry has started the decay exponent is 0; with an empty schedule it is always 0. */
  lemma {:induction false} DecayNoneStarted(s: seq<real>, duration: real, step: int)
    requires forall k :: 0 <= k < |s| ==> step as real <= s[k] && step as real < s[k] + duration
    ensures DecayExponent(s, duration, step) == 0.0
    decreases |s|
  {
    if s != [] {
      DecayNoneStarted(s[..|s| - 1], duration, step);
    }
  }

  /**
   When no entry is inside its ramp, the decay exponent counts the entries
   that are fully applied: the multiplier is `decayFactor` to that power.
   */
  lemma {:induction false} DecaySettled(s: seq<real>, duration: real, step: int)
    requires forall k :: 0 <= k < |s| ==> !(s[k] < step as real < s[k] + duration)
    ensures DecayExponent(s, duration, step) == CompletedDecays(s, duration, step) as real
    decreases |s|
  {
    if s != [] {
      DecaySettled(s[..|s| - 1], duration, step);
    }
  }

  /** The total decay exponent never shrinks as the step advances. */
  lemma {:induction false} DecayMonotone(s: seq<real>, duration: real, step1: int, step2: int)
    requires step1 <= step2
    ensures DecayExponent(s, duration, step1) <= DecayExponent(s, duration, step2)
    decreases |s|
  {
    if s != [] {
      DecayMonotone(s[..|s| - 1], duration, step1, step2);
      DecayEntryMonotone(s[|s| - 1], duration, step1, step2);
    }
  }

  // ---------------------------------------------------------------------
  // Properties of the whole multiplier
  // ---------------------------------------------------------------------

  /**
   As the step advances the burn-in exponent never grows and the decay
   exponent never shrinks: for factors in (0, 1] the multiplier only rises
   during burn-in and only falls during a decay.
   */
  lemma MultiplierMonotone(c: Config, step1: int, step2: int)
    requires step1 <= step2
    ensures Multiplier(c, step2).burnIn <= Multiplier(c, step1).burnIn
    ensures Multiplier(c, step1).decay <= Multiplier(c, step2).decay
  {
    BurnInMonotone(c.burnInStart, c.burnInDuration, step1, step2);
    DecayMonotone(c.decaySchedule, c.decayDuration, step1, step2);
  }

  /**
   Past the burn-in, with no decay entry inside its ramp, the multiplier is
   `decayFactor` raised to the number of fully applied entries.
   */
  lemma MultiplierSettled(c: Config, step: int)
    requires step as real > c.burnInStart && step as real >= c.burnInStart + c.burnInDuration
    requires forall k :: 0 <= k < |c.decaySchedule| ==>
               !(c.decaySchedule[k] < step as real < c.decaySchedule[k] + c.decayDuration)
    ensures Multiplier(c, step)
            == Exponents(0.0, CompletedDecays(c.decaySchedule, c.decayDuration, step) as real)
  {
    DecaySettled(c.decaySchedule, c.decayDuration, step);
  }

  /** Two configurations that differ only in the order of the schedule give the same multiplier. */
  lemma MultiplierOrderIndependent(c: Config, schedule: seq<real>, step: int)
    requires multiset(schedule) == multiset(c.decaySchedule)
    ensures Multiplier(c.(decaySchedule := schedule), step) == Multiplier(c, step)
  {
    DecayOrderIndependent(schedule, c.decaySchedule, c.decayDuration, step);
  }

  // ---------------------------------------------------------------------
  // Worked schedules
  // ---------------------------------------------------------------------

  /**
   Burn-in over 200 steps from step 0 with factor 0.001, one decay at step
   1000 over 100 steps with factor 0.1.
   */
  lemma ExampleSchedule()
    ensures var c := Config(200.0, [1000.0], 0.1, 100.0, 0.0, 0.001);
      && Multiplier(c, 0) == Exponents(1.0, 0.0)
      && Multiplier(c, 100) == Exponents(0.5, 0.0)
      && Multiplier(c, 200) == Exponents(0.0, 0.0)
      && Multiplier(c, 999) == Exponents(0.0, 0.0)
      && Multiplier(c, 1050) == Exponents(0.0, 0.5)
      && Multiplier(c, 1100) == Exponents(0.0, 1.0)
      && Multiplier(c, 5000) == Exponents(0.0, 1.0)
  {
    var s := [1000.0];
    assert s[..0] == [];
  }

  /** A repeated entry compounds: half of each ramp gives 1, both complete give 2. */
  lemma ExampleDuplicateEntries()
    ensures DecayExponent([500.0, 500.0], 100.0, 550) == 1.0
    ensures DecayExponent([500.0, 500.0], 100.0, 600) == 2.0
  {
    var s := [500.0, 500.0];
    assert s[..1] == [500.0];
    assert s[..1][..0] == [];
  }

  /** With a zero duration the entry at 500 applies fully from step 500 on. */
  lemma ExampleZeroDuration()
    ensures DecayExponent([500.0], 0.0, 499) == 0.0
    ensures DecayExponent([500.0], 0.0, 500) == 1.0
    ensures DecayExponent([500.0], 0.0, 501) == 1.0
  {
    var s := [500.0];
    assert s[..0] == [];
  }
}
