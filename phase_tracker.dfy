/**
 * The clock/phase tracker kept by the TIM8 update interrupt: the shared
 * uint32 timestamp and the last observed counting direction of the PWM
 * carrier. An update whose direction equals the stored one means an update
 * was missed; it changes nothing here.
 */
module PhaseTracker {
  import opened U32

  datatype Tracker = Tracker(timestamp: u32, countingDown: bool)

  /** One update with the observed counter direction; `increment` is TIM_1_8_PERIOD_CLOCKS * (TIM_1_8_RCR + 1). */
  function Step(increment: nat, t: Tracker, observedDown: bool): (r: Tracker)
    ensures observedDown == t.countingDown ==> r == t
    ensures observedDown != t.countingDown ==> r.countingDown == observedDown
    ensures observedDown != t.countingDown ==> r.timestamp == Wrap(t.timestamp + increment)
  {
    if observedDown == t.countingDown then t
    else Tracker(Wrap(t.timestamp + increment), observedDown)
  }

  /** The tracker after a series of updates, the last one applied last. */
  function Run(increment: nat, t: Tracker, observed: seq<bool>): (r: Tracker)
    // Whether or not the last update was accepted, the tracker ends in its direction.
    ensures observed != [] ==> r.countingDown == observed[|observed| - 1]
    ensures observed == [] ==> r == t
  {
    if observed == [] then t
    else Step(increment, Run(increment, t, observed[..|observed| - 1]), observed[|observed| - 1])
  }

  /** How many of the updates saw the direction flip (and so advanced the timestamp). */
  function Accepted(t: Tracker, observed: seq<bool>): nat
  {
    if observed == [] then 0
    else
      var before := Run(0, t, observed[..|observed| - 1]);
      Accepted(t, observed[..|observed| - 1]) + if observed[|observed| - 1] != before.countingDown then 1 else 0
  }

  /** Whether some update in the series saw an unchanged direction. */
  predicate AnyMissed(t: Tracker, observed: seq<bool>)
  {
    exists k :: 0 <= k < |observed| && observed[k] == Run(0, t, observed[..k]).countingDown
  }

  /** A series has a missed update exactly when its prefix has one or its last update repeats the direction. */
  lemma AnyMissedExtend(t: Tracker, observed: seq<bool>)
    requires observed != []
    ensures var prefix := observed[..|observed| - 1];
            AnyMissed(t, observed) <==>
              AnyMissed(t, prefix) || observed[|observed| - 1] == Run(0, t, prefix).countingDown
  {
    var n := |observed| - 1;
    var prefix := observed[..n];
    forall k | 0 <= k < n
      ensures observed[..k] == prefix[..k] && observed[k] == prefix[k]
    {
    }
    if AnyMissed(t, observed) {
      var k :| 0 <= k < |observed| && observed[k] == Run(0, t, observed[..k]).countingDown;
      if k < n {
        assert prefix[k] == Run(0, t, prefix[..k]).countingDown;
      }
    }
    if AnyMissed(t, prefix) {
      var k :| 0 <= k < n && prefix[k] == Run(0, t, prefix[..k]).countingDown;
      assert observed[k] == Run(0, t, observed[..k]).countingDown;
    }
    if observed[n] == Run(0, t, prefix).countingDown {
      assert observed[n] == Run(0, t, observed[..n]).countingDown;
    }
  }

  /** The direction the tracker holds does not depend on the increment. */
  lemma {:induction false} DirectionIndependentOfIncrement(i: nat, j: nat, t: Tracker, observed: seq<bool>)
    ensures Run(i, t, observed).countingDown == Run(j, t, observed).countingDown
    decreases |observed|
  {
    if observed != [] {
      DirectionIndependentOfIncrement(i, j, t, observed[..|observed| - 1]);
    }
  }

  /** After any series of updates the timestamp has advanced by exactly one increment per accepted update, modulo 2^32. */
  lemma {:induction false} RunTimestamp(increment: nat, t: Tracker, observed: seq<bool>)
    ensures Run(increment, t, observed).timestamp == Wrap(t.timestamp + Accepted(t, observed) * increment)
    decreases |observed|
  {
    if observed != [] {
      var prefix := observed[..|observed| - 1];
      var last := observed[|observed| - 1];
      RunTimestamp(increment, t, prefix);
      DirectionIndependentOfIncrement(increment, 0, t, prefix);
      var before := Run(increment, t, prefix);
      var k := Accepted(t, prefix);
      var a := t.timestamp + k * increment;
      assert before.timestamp == Wrap(a);
      if last != before.countingDown {
        assert Accepted(t, observed) == k + 1;
        MulSucc(k, increment);
        WrapAdd(a, increment);
      } else {
        assert Accepted(t, observed) == k;
      }
    }
  }

  /** Running a concatenation is running the parts one after the other. */
  lemma {:induction false} RunAppend(increment: nat, t: Tracker, first: seq<bool>, second: seq<bool>)
    ensures Run(increment, t, first + second) == Run(increment, Run(increment, t, first), second)
    decreases |second|
  {
    if second == [] {
      assert first + second == first;
    } else {
      var whole := first + second;
      assert whole[..|whole| - 1] == first + second[..|second| - 1];
      RunAppend(increment, t, first, second[..|second| - 1]);
    }
  }

  /** A direction repeated in the middle of a series is skipped: the rest runs as if it never came. */
  lemma RepeatedDirectionIsSkipped(increment: nat, t: Tracker, before: seq<bool>, after: seq<bool>)
    ensures var repeated := Run(increment, t, before).countingDown;
            Run(increment, t, before + [repeated] + after) == Run(increment, t, before + after)
  {
    var repeated := Run(increment, t, before).countingDown;
    RunAppend(increment, t, before + [repeated], after);
    RunAppend(increment, t, before, after);
    assert (before + [repeated])[..|before|] == before;
  }

  /** The directions strictly alternate, starting with the opposite of `start`. */
  predicate Alternates(start: bool, observed: seq<bool>)
  {
    forall k :: 0 <= k < |observed| ==> observed[k] == (if k % 2 == 0 then !start else start)
  }

  /**
   * A correctly alternating series of n updates misses nothing, accepts every
   * update, ends in the direction of the last update, and advances the
   * timestamp by n increments modulo 2^32.
   */
  lemma {:induction false} AlternatingRun(increment: nat, t: Tracker, observed: seq<bool>)
    requires Alternates(t.countingDown, observed)
    ensures Accepted(t, observed) == |observed|
    ensures !AnyMissed(t, observed)
    ensures Run(increment, t, observed).countingDown == (if |observed| % 2 == 0 then t.countingDown else !t.countingDown)
    ensures Run(increment, t, observed).timestamp == Wrap(t.timestamp + |observed| * increment)
    decreases |observed|
  {
    if observed != [] {
      var prefix := observed[..|observed| - 1];
      AlternatingRun(increment, t, prefix);
      AlternatingRun(0, t, prefix);
      forall k | 0 <= k < |observed|
        ensures observed[k] != Run(0, t, observed[..k]).countingDown
      {
        AlternatingRun(0, t, observed[..k]);
      }
    }
    RunTimestamp(increment, t, observed);
  }

  /**
   * The deadline check of the control handler: the timestamp equals the
   * captured one plus one increment exactly when one update was accepted in
   * between (as long as the increments involved do not wrap all the way round).
   */
  lemma DeadlineCheckCountsUpdates(increment: nat, t: Tracker, observed: seq<bool>)
    requires 0 < increment
    requires (Accepted(t, observed) + 1) * increment < Modulus
    ensures Run(increment, t, observed).timestamp == Wrap(t.timestamp + increment)
            <==> Accepted(t, observed) == 1
  {
    RunTimestamp(increment, t, observed);
    var k := Accepted(t, observed);
    var a := k * increment;
    MulSucc(k, increment);
    if Wrap(t.timestamp + a) == Wrap(t.timestamp + increment) {
      SameRemainder(t.timestamp + a, t.timestamp + increment);
      NoSmallMultiple(a - increment);
      UnitFactor(k, increment);
    }
  }

  lemma MulSucc(k: int, b: int)
    ensures (k + 1) * b == k * b + b
  {
  }

  /** The only multiple of 2^32 strictly between -2^32 and 2^32 is 0. */
  lemma NoSmallMultiple(d: int)
    requires -Modulus < d < Modulus && d % Modulus == 0
    ensures d == 0
  {
  }

  lemma UnitFactor(k: int, b: int)
    requires b != 0 && k * b == b
    ensures k == 1
  {
    assert (k - 1) * b == 0;
  }

  lemma SameRemainder(x: int, y: int)
    requires Wrap(x) == Wrap(y)
    ensures (x - y) % Modulus == 0
  {
    var qx, qy := x / Modulus, y / Modulus;
    assert x == qx * Modulus + Wrap(x);
    assert y == qy * Modulus + Wrap(y);
    assert x - y == (qx - qy) * Modulus;
    ModuloShift(0, qx - qy);
  }
}
