/**
 * The reward: minus a weighted sum of squares of the state components, plus a
 * fixed bonus inside a tight "balanced" region around the upright pole.
 */
module RewardFunction {
  import opened CartPole

  const Bonus: real := 5.0

  function Abs(r: real): real
  {
    if r < 0.0 then -r else r
  }

  /** The bonus region: all three strict inequalities hold. */
  predicate Balanced(s: State)
  {
    Abs(s.theta) < 0.1 && Abs(s.thetaDot) < 0.5 && Abs(s.x) < 0.2
  }

  /** The smooth cost: angle weight 1, angular velocity 0.1, position 0.05,
      cart velocity 0.01. It is never negative. */
  function Penalty(s: State): (p: real)
    ensures p >= 0.0
  {
    SquareNonNegative(s.theta);
    SquareNonNegative(s.thetaDot);
    SquareNonNegative(s.x);
    SquareNonNegative(s.xDot);
    s.theta * s.theta + 0.1 * (s.thetaDot * s.thetaDot) + 0.05 * (s.x * s.x) + 0.01 * (s.xDot * s.xDot)
  }

  lemma SquareNonNegative(r: real)
    ensures r * r >= 0.0
  {
    if r < 0.0 {
      assert r * r == (-r) * (-r);
    }
  }

  /** The reward never exceeds the bonus and is never positive outside the
      bonus region. */
  function Reward(s: State): (r: real)
    ensures r <= Bonus
    ensures !Balanced(s) ==> r <= 0.0
  {
    var reward := -Penalty(s);
    if Balanced(s) then reward + Bonus else reward
  }

  /** The bonus is added exactly when the state is balanced. */
  lemma RewardBonusIff(s: State)
    ensures Reward(s) == Bonus - Penalty(s) <==> Balanced(s)
    ensures Reward(s) == -Penalty(s) <==> !Balanced(s)
  {
  }

  /** A near-upright state earns the smooth penalty plus the bonus; moving the
      angular velocity onto its threshold removes exactly the bonus. */
  lemma RewardBonusExample()
    ensures Reward(State(0.0, 0.0, 0.05, 0.1)) == Bonus - 0.0035 == 4.9965
    ensures Reward(State(0.0, 0.0, 0.05, 0.5)) == -0.0275
  {
  }
}
