/**
 Sequences of calls on the chassis actuator of src/chassis.rs.

 `Op` names the six public operations of `Chassis`; `Run` applies a list of
 them in order. The lemmas here state what holds after ANY such list: the
 duty is off or half the ceiling, the set-up of `new` never changes, the
 direction pins are those of the last direction command, and the enable
 flag and duty are those of the last operation.
 */
module ChassisTrace {
  import opened Chassis
  import opened Options

  /** The public operations of the actuator. */
  datatype Op = Start | Stop | Forward | Back | Left | Right
  {
    predicate IsDirection() { !Start? && !Stop? }
  }

  /** One call. */
  function Step(s: ChassisState, op: Op): (r: ChassisState)
    ensures SameSetup(r, s)
    ensures Valid(s) ==> Valid(r)
  {
    match op
    case Start => Chassis.Start(s)
    case Stop => Chassis.Stop(s)
    case Forward => Chassis.Forward(s)
    case Back => Chassis.Back(s)
    case Left => Chassis.Left(s)
    case Right => Chassis.Right(s)
  }

  /** The calls of `ops`, first to last. */
  function Run(s: ChassisState, ops: seq<Op>): (r: ChassisState)
    ensures SameSetup(r, s)
    ensures Valid(s) ==> Valid(r)
    decreases |ops|
  {
    if |ops| == 0 then s else Step(Run(s, ops[..|ops| - 1]), ops[|ops| - 1])
  }

  /** The direction-pin table, written independently of the operations:
      the (left, right) levels each direction command drives, and None for
      `start` and `stop`, which leave the pins alone. */
  function PinTable(op: Op): (p: Option<(Level, Level)>)
    ensures p.Some? <==> op.IsDirection()
  {
    match op
    case Forward => Some((High, Low))
    case Back => Some((Low, High))
    case Left => Some((Low, Low))
    case Right => Some((High, High))
    case _ => None
  }

  /** Reading the table backwards: the direction a pair of pin levels
      stands for. */
  function DirectionOf(left: Level, right: Level): (op: Op)
    ensures op.IsDirection()
  {
    match (left, right)
    case (High, Low) => Forward
    case (Low, High) => Back
    case (Low, Low) => Left
    case (High, High) => Right
  }

  /** The table is a bijection between the four direction commands and the
      four pin-level pairs. */
  lemma PinTableBijective(op: Op, left: Level, right: Level)
    ensures op.IsDirection() ==> DirectionOf(PinTable(op).value.0, PinTable(op).value.1) == op
    ensures PinTable(DirectionOf(left, right)) == Some((left, right))
  {
  }

  /** Each operation sets the pins the table gives, or leaves them alone,
      whatever the state before. */
  lemma StepFollowsPinTable(s: ChassisState, op: Op)
    ensures PinTable(op).Some? ==> (Step(s, op).left, Step(s, op).right) == PinTable(op).value
    ensures PinTable(op).None? ==> Step(s, op).left == s.left && Step(s, op).right == s.right
  {
  }

  /** A direction command's result depends only on the command and the
      set-up of `new`, not on the pins, duty or enable flag before it. */
  lemma DirectionForgetsHistory(s: ChassisState, t: ChassisState, op: Op)
    requires op.IsDirection() && SameSetup(s, t)
    ensures Step(s, op) == Step(t, op)
  {
  }

  /** The last direction command in `ops`, if any. */
  function LastDirection(ops: seq<Op>): (d: Option<Op>)
    ensures d.Some? ==> d.value.IsDirection() && d.value in ops
    ensures d.Some? ==> exists i :: 0 <= i < |ops| && ops[i] == d.value && (forall j :: i < j < |ops| ==> !ops[j].IsDirection())
    ensures d.None? ==> forall i :: 0 <= i < |ops| ==> !ops[i].IsDirection()
    decreases |ops|
  {
    if |ops| == 0 then None
    else if ops[|ops| - 1].IsDirection() then Some(ops[|ops| - 1])
    else LastDirection(ops[..|ops| - 1])
  }

  /** After any list of calls the pins are those the last direction command
      drove, or the starting pins when the list holds no direction command. */
  lemma {:induction false} RunPins(s: ChassisState, ops: seq<Op>)
    ensures LastDirection(ops).Some? ==>
      (Run(s, ops).left, Run(s, ops).right) == PinTable(LastDirection(ops).value).value
    ensures LastDirection(ops).None? ==>
      Run(s, ops).left == s.left && Run(s, ops).right == s.right
    decreases |ops|
  {
    if |ops| > 0 {
      var init := ops[..|ops| - 1];
      RunPins(s, init);
      StepFollowsPinTable(Run(s, init), ops[|ops| - 1]);
    }
  }

  /** After a non-empty list of calls the channel is enabled exactly when
      the last call was not `stop`, and the duty is 0 after `stop` and half
      the ceiling otherwise. */
  lemma RunDutyFollowsLastOp(s: ChassisState, ops: seq<Op>)
    requires |ops| > 0
    ensures Run(s, ops).enabled <==> ops[|ops| - 1] != Stop
    ensures Run(s, ops).duty == if ops[|ops| - 1] == Stop then 0 else RunDuty(s.maxDuty)
  {
  }

  /** From the state `new` builds, every list of calls keeps the duty at 0 or
      half the ceiling, never above the ceiling, with the dead time and
      polarity `new` set. */
  lemma RunFromNew(maxDuty: U16, ops: seq<Op>)
    ensures Valid(Run(New(maxDuty), ops))
    ensures Run(New(maxDuty), ops).duty in {0, maxDuty / 2}
    ensures Run(New(maxDuty), ops).duty <= maxDuty
    ensures Run(New(maxDuty), ops).deadTime == maxDuty / 1024
  {
  }

  /** Any non-empty run of `stop` calls is the same as one `stop`. */
  lemma {:induction false} StopsCollapse(s: ChassisState, ops: seq<Op>)
    requires |ops| > 0
    requires forall i :: 0 <= i < |ops| ==> ops[i] == Stop
    ensures Run(s, ops) == Chassis.Stop(s)
    decreases |ops|
  {
    if |ops| > 1 {
      StopsCollapse(s, ops[..|ops| - 1]);
    } else {
      assert ops[..0] == [];
    }
  }
}
