/**
 The button-driven delay adjuster `loop_delay` of src/main.rs and the main
 loop that feeds its result back into itself.

 `loop_delay(del, button)` busy-waits for `del - 1` iterations, reading the
 button once per iteration. The first time it sees the button pressed it
 lowers `del` by 25000, wraps to 100000 when that drops below 25000, and
 returns at once; if the button is never pressed it returns `del`.

 The button is modelled as the sequence of readings the loop would take,
 `true` meaning pressed (the pin reads low). Readings beyond the end of the
 sequence count as released, so the model is total for every `del`.
 */
module LoopDelay {
  import opened Options

  /** Rust's `i32`. */
  type I32 = x: int | -0x8000_0000 <= x < 0x8000_0000

  /** How much one press shortens the delay. */
  const STEP: I32 := 25000
  /** A delay below this after a press wraps around. */
  const FLOOR: I32 := 25000
  /** The delay a press wraps around to. */
  const RESET: I32 := 100000
  /** The delay `main` starts with. */
  const INITIAL: I32 := 10000

  /** The button reading on loop iteration `i` (counting from 0). */
  predicate Pressed(samples: seq<bool>, i: nat)
  {
    i < |samples| && samples[i]
  }

  /** Whether some reading among the first `n` shows the button pressed. */
  ghost predicate PressedWithin(samples: seq<bool>, n: int)
  {
    exists i: nat :: i < n && Pressed(samples, i)
  }

  /** The first iteration in `from .. n` on which the button reads pressed. */
  function FirstPress(samples: seq<bool>, from: nat, n: int): (r: Option<nat>)
    ensures r.Some? ==> from <= r.value < n && Pressed(samples, r.value)
    ensures r.Some? ==> forall j: nat :: from <= j < r.value ==> !Pressed(samples, j)
    ensures r.None? ==> forall j: nat :: from <= j < n ==> !Pressed(samples, j)
    decreases n - from
  {
    if n <= from then None
    else if Pressed(samples, from) then Some(from)
    else FirstPress(samples, from + 1, n)
  }

  /** The delay after a press (src/main.rs:46-50). The subtraction only happens
      inside the loop, where `del > 1`, and there it can never leave the
      `i32` range: the result type says so. */
  function Adjust(del: I32): (r: I32)
    requires 1 < del
    ensures FLOOR <= r
    ensures r == del - STEP || r == RESET
    ensures del - STEP >= FLOOR ==> r == del - STEP
    ensures del - STEP < FLOOR ==> r == RESET
  {
    var d: I32 := del - STEP;
    if d < FLOOR then RESET else d
  }

  /** `loop_delay` as a pure function of `del` and the button readings. */
  function Delay(del: I32, samples: seq<bool>): (r: I32)
    ensures del <= 1 ==> r == del
    ensures !PressedWithin(samples, del - 1) ==> r == del
    ensures PressedWithin(samples, del - 1) ==> 1 < del && r == Adjust(del)
    ensures r == del || r == del - STEP || r == RESET
    ensures r != del ==> FLOOR <= r <= if del - STEP < RESET then RESET else del - STEP
  {
    if del <= 1 then del
    else match FirstPress(samples, 0, del - 1)
      case None => del
      case Some(_) => Adjust(del)
  }

  /** `loop_delay` as the Rust code runs it: a counted loop over
      `1 .. del` that returns from inside the loop on the first press. */
  method DelayLoop(del: I32, samples: seq<bool>) returns (r: I32)
    ensures r == Delay(del, samples)
    ensures (forall i: nat :: i < del - 1 ==> !Pressed(samples, i)) ==> r == del
  {
    var k: int := 1;
    while k < del
      invariant 1 <= k
      invariant 1 < del ==> k <= del
      invariant forall i: nat :: i < k - 1 ==> !Pressed(samples, i)
      decreases del - k
    {
      if Pressed(samples, k - 1) {
        var d: I32 := del - STEP;
        if d < FLOOR {
          d := RESET;
        }
        return d;
      }
      k := k + 1;
    }
    return del;
  }

  /** The values the delay counter takes once a press has been seen. */
  predicate InCycle(d: int)
  {
    d == 100000 || d == 75000 || d == 50000 || d == 25000
  }

  /** Successive presses from the initial delay: 10000 wraps to 100000, and
      from there the counter steps 75000, 50000, 25000 and back to 100000. */
  lemma PressCycle()
    ensures Adjust(INITIAL) == 100000
    ensures Adjust(100000) == 75000
    ensures Adjust(75000) == 50000
    ensures Adjust(50000) == 25000
    ensures Adjust(25000) == 100000
  {
  }

  /** `main`'s loop: the counter after one `loop_delay` call per element of
      `rounds`, each call seeing that element's readings. */
  function RunDelays(d: I32, rounds: seq<seq<bool>>): (r: I32)
    ensures d <= 1 ==> r == d
    ensures r == d || FLOOR <= r
    ensures (forall k, i :: 0 <= k < |rounds| && 0 <= i < |rounds[k]| ==> !rounds[k][i]) ==> r == d
    decreases |rounds|
  {
    if |rounds| == 0 then d else RunDelays(Delay(d, rounds[0]), rounds[1..])
  }

  /** One call keeps the counter among the initial value and the cycle. */
  lemma DelayStaysReachable(d: I32, samples: seq<bool>)
    requires d == INITIAL || InCycle(d)
    ensures Delay(d, samples) == d || InCycle(Delay(d, samples))
  {
  }

  /** However the button is pressed, `main`'s counter is the initial 10000
      or one of 100000, 75000, 50000, 25000; in particular every value it
      takes is at least 10000, so no `loop_delay` call ever subtracts past
      the `i32` range. */
  lemma {:induction false} RunDelaysReachable(d: I32, rounds: seq<seq<bool>>)
    requires d == INITIAL || InCycle(d)
    ensures RunDelays(d, rounds) == INITIAL || InCycle(RunDelays(d, rounds))
    ensures RunDelays(d, rounds) >= INITIAL
    decreases |rounds|
  {
    if |rounds| > 0 {
      DelayStaysReachable(d, rounds[0]);
      RunDelaysReachable(Delay(d, rounds[0]), rounds[1..]);
    }
  }

  /** Once the first press has been seen the counter never returns to the
      initial value. */
  lemma {:induction false} CycleIsClosed(d: I32, rounds: seq<seq<bool>>)
    requires InCycle(d)
    ensures InCycle(RunDelays(d, rounds))
    decreases |rounds|
  {
    if |rounds| > 0 {
      DelayStaysReachable(d, rounds[0]);
      CycleIsClosed(Delay(d, rounds[0]), rounds[1..]);
    }
  }
}
