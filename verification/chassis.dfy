/**
 The two-wheel chassis actuator of the robot (src/chassis.rs).

 The actuator owns one complementary PWM channel of timer 1 and two digital
 direction outputs, one per wheel. Every hardware call the Rust code makes
 (`set_duty`, `enable`, `disable`, `set_dead_time`, `set_polarity`,
 `set_high`, `set_low`) becomes a field update on an immutable
 `ChassisState`, and every public operation becomes a pure transition
 function from the state before the call to the state after it.
 */
module Chassis {

  /** The width of the timer's duty and dead-time registers. */
  type U16 = x: int | 0 <= x < 0x1_0000

  /** Level of a digital output pin. */
  datatype Level = Low | High

  /** Output polarity of a PWM channel. */
  datatype Polarity = ActiveHigh | ActiveLow

  /** Everything the actuator can observably change, plus the duty ceiling
      `maxDuty` that the timer reports once it has been configured. */
  datatype ChassisState = ChassisState(
    maxDuty: U16,
    deadTime: U16,
    polarity: Polarity,
    duty: U16,
    enabled: bool,
    left: Level,
    right: Level
  )

  /** The dead time is this fraction of the duty ceiling. */
  const DEAD_TIME_DIVISOR: nat := 1024

  /** The duty every running direction uses: half the ceiling. */
  function RunDuty(maxDuty: U16): (d: U16)
    ensures d <= maxDuty
    ensures 2 * d <= maxDuty < 2 * d + 2
  {
    maxDuty / 2
  }

  /** The two settings that stay put once `new` has configured them. */
  predicate SameSetup(s: ChassisState, t: ChassisState)
  {
    s.maxDuty == t.maxDuty && s.deadTime == t.deadTime && s.polarity == t.polarity
  }

  /** What every reachable state satisfies: the set-up of `new` is intact,
      the duty is either off or the fixed running duty, and a disabled
      channel carries duty 0. (An enabled channel may still carry duty 0:
      `new` leaves it that way.) */
  predicate Valid(s: ChassisState)
  {
    && s.deadTime == s.maxDuty / DEAD_TIME_DIVISOR
    && s.polarity == ActiveHigh
    && (s.duty == 0 || s.duty == RunDuty(s.maxDuty))
    && (!s.enabled ==> s.duty == 0)
  }

  /** `Chassis::new`, given the duty ceiling the timer reports for 2 kHz. */
  function New(maxDuty: U16): (s: ChassisState)
    ensures Valid(s)
    ensures s.maxDuty == maxDuty
    ensures s.deadTime == maxDuty / DEAD_TIME_DIVISOR
    ensures s.polarity == ActiveHigh
    ensures s.duty == 0 && s.enabled
    ensures s.left == High && s.right == Low
  {
    ChassisState(
      maxDuty := maxDuty,
      deadTime := maxDuty / DEAD_TIME_DIVISOR,
      polarity := ActiveHigh,
      duty := 0,
      enabled := true,
      left := High,
      right := Low)
  }

  /** `start`: drive the channel at half duty and enable it. */
  function Start(s: ChassisState): (r: ChassisState)
    ensures SameSetup(r, s)
    ensures r.duty == RunDuty(s.maxDuty) && r.duty <= r.maxDuty
    ensures r.enabled
    ensures r.left == s.left && r.right == s.right
    ensures Valid(s) ==> Valid(r)
  {
    s.(duty := RunDuty(s.maxDuty), enabled := true)
  }

  /** `stop`: zero the duty and disable the channel. */
  function Stop(s: ChassisState): (r: ChassisState)
    ensures SameSetup(r, s)
    ensures r.duty == 0 && !r.enabled
    ensures r.left == s.left && r.right == s.right
    ensures Valid(s) ==> Valid(r)
  {
    s.(duty := 0, enabled := false)
  }

  /** Set both direction outputs; the PWM channel is untouched. */
  function SetDirection(s: ChassisState, left: Level, right: Level): (r: ChassisState)
    ensures SameSetup(r, s) && r.duty == s.duty && r.enabled == s.enabled
    ensures r.left == left && r.right == right
  {
    s.(left := left, right := right)
  }

  /** `forward`: left wheel pin high, right wheel pin low, then `start`. */
  function Forward(s: ChassisState): (r: ChassisState)
    ensures SameSetup(r, s)
    ensures r.left == High && r.right == Low
    ensures r.duty == RunDuty(s.maxDuty) && r.enabled
    ensures Valid(s) ==> Valid(r)
  {
    Start(SetDirection(s, High, Low))
  }

  /** `back`: left wheel pin low, right wheel pin high, then `start`. */
  function Back(s: ChassisState): (r: ChassisState)
    ensures SameSetup(r, s)
    ensures r.left == Low && r.right == High
    ensures r.duty == RunDuty(s.maxDuty) && r.enabled
    ensures Valid(s) ==> Valid(r)
  {
    Start(SetDirection(s, Low, High))
  }

  /** `left`: both wheel pins low, then `start`. */
  function Left(s: ChassisState): (r: ChassisState)
    ensures SameSetup(r, s)
    ensures r.left == Low && r.right == Low
    ensures r.duty == RunDuty(s.maxDuty) && r.enabled
    ensures Valid(s) ==> Valid(r)
  {
    Start(SetDirection(s, Low, Low))
  }

  /** `right`: both wheel pins high, then `start`. */
  function Right(s: ChassisState): (r: ChassisState)
    ensures SameSetup(r, s)
    ensures r.left == High && r.right == High
    ensures r.duty == RunDuty(s.maxDuty) && r.enabled
    ensures Valid(s) ==> Valid(r)
  {
    Start(SetDirection(s, High, High))
  }

  /** Stopping twice is stopping once. */
  lemma StopIdempotent(s: ChassisState)
    ensures Stop(Stop(s)) == Stop(s)
  {
  }

  /** `forward` followed by `stop` leaves the same state whatever the
      direction pins, duty and enable flag were before: only the set-up
      from `new` survives. */
  lemma ForwardThenStopForgetsHistory(s: ChassisState, t: ChassisState)
    requires SameSetup(s, t)
    ensures Stop(Forward(s)) == Stop(Forward(t))
    ensures Stop(Forward(s)).duty == 0 && !Stop(Forward(s)).enabled
    ensures Stop(Forward(s)).left == High && Stop(Forward(s)).right == Low
  {
  }
}
