/** Where each stage's goal is: a table of positions, multiplied by the
    stage's model scale. */
module Goals {
  import opened Common

  const FALLBACK_GOAL: Vec3 := Vec3(0.0, 1.5, 0.0)

  function GoalPosition(stage: StageId): Option<Vec3> {
    match stage
    case Stage0 => Some(Vec3(0.0, 1.5, 0.0))
    case Stage1 => Some(Vec3(0.0, 3.0, 28.0))
    case Stage2 => Some(Vec3(36.1, 1.5, 36.0))
    case StageL => Some(Vec3(10.0, 3.0, 10.0))
  }

  function StageScale(stage: StageId): Option<real> {
    match stage
    case Stage0 => Some(1.0)
    case Stage1 => Some(3.0)
    case Stage2 => Some(1.0)
    case StageL => Some(3.0)
  }

  function Scale(p: Vec3, k: real): Vec3 {
    Vec3(p.x * k, p.y * k, p.z * k)
  }

  /** The position scaled coordinate by coordinate; a missing position is
      `(0, 1.5, 0)` and a missing scale is 1. */
  function ScaledGoal(p: Option<Vec3>, scale: Option<real>): (r: Vec3)
    ensures p.Some? && scale.Some? ==> r == Scale(p.value, scale.value)
    ensures p.None? ==> r == Scale(FALLBACK_GOAL, scale.GetOr(1.0))
    ensures scale.None? ==> r == p.GetOr(FALLBACK_GOAL)
  {
    var q := p.GetOr(FALLBACK_GOAL);
    var k := scale.GetOr(1.0);
    Vec3(q.x * k, q.y * k, q.z * k)
  }

  /** `getScaledGoalPosition`: every stage has both a table position and a
      scale, so neither fallback is ever taken; the scale is 3 on stage 1
      and the large stage and 1 elsewhere. */
  function ScaledGoalPosition(stage: StageId): (r: Vec3)
    ensures GoalPosition(stage).Some? && StageScale(stage).Some?
    ensures r == Scale(GoalPosition(stage).value, StageScale(stage).value)
    ensures StageScale(stage).value == if stage == Stage1 || stage == StageL then 3.0 else 1.0
  {
    ScaledGoal(GoalPosition(stage), StageScale(stage))
  }

  /** Stages 0 and 2 keep their table position; stage 1 and the large
      stage have theirs tripled. */
  lemma {:induction false} GoalScales(stage: StageId)
    ensures stage == Stage0 || stage == Stage2 ==> ScaledGoalPosition(stage) == GoalPosition(stage).value
    ensures stage == Stage1 || stage == StageL ==> ScaledGoalPosition(stage) == Scale(GoalPosition(stage).value, 3.0)
    ensures stage == Stage1 ==> ScaledGoalPosition(stage) == Vec3(0.0, 9.0, 84.0)
  {
  }
}
