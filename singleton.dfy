/**
 * The singleton example: one shared set of dragon balls, created lazily, whose
 * counter runs from 0 to 7 and is reset by summoning the dragon.
 */
module Singleton {

  const AllBalls: int := 7

  /** The counter after `collectBall`: one more, unless all seven are already held. */
  function AfterCollect(balls: int): (r: int)
    ensures 0 <= balls <= AllBalls ==> 0 <= r <= AllBalls
    ensures r == balls || r == balls + 1
    ensures r == balls + 1 <==> balls < AllBalls
  {
    if balls < AllBalls then balls + 1 else balls
  }

  /** The counter after `summonShenlong`: back to zero exactly when all seven are held. */
  function AfterSummon(balls: int): (r: int)
    ensures 0 <= balls <= AllBalls ==> 0 <= r <= AllBalls
    ensures r == 0 <==> balls == AllBalls || balls == 0
    ensures balls != AllBalls ==> r == balls
  {
    if balls == AllBalls then 0 else balls
  }

  datatype Action = Collect | Summon

  /** The counter after a series of actions, applied in order. */
  function Perform(balls: int, actions: seq<Action>): int
    decreases |actions|
  {
    if actions == [] then balls
    else
      var next := if actions[0].Collect? then AfterCollect(balls) else AfterSummon(balls);
      Perform(next, actions[1..])
  }

  /** Whatever is done to them, the balls held stay between 0 and 7, and grow by at most one per action. */
  lemma {:induction false} CounterStaysInRange(balls: int, actions: seq<Action>)
    requires 0 <= balls <= AllBalls
    ensures 0 <= Perform(balls, actions) <= AllBalls
    ensures Perform(balls, actions) <= balls + |actions|
    decreases |actions|
  {
    if actions != [] {
      var next := if actions[0].Collect? then AfterCollect(balls) else AfterSummon(balls);
      CounterStaysInRange(next, actions[1..]);
    }
  }

  /** Seven collections from zero fill the set, and a summon then empties it. */
  lemma {:induction false} SevenThenSummon(balls: int, n: nat)
    requires 0 <= balls && balls + n == AllBalls
    ensures Perform(balls, seq(n, _ => Collect)) == AllBalls
    ensures Perform(balls, seq(n, _ => Collect) + [Summon]) == 0
    decreases n
  {
    if n > 0 {
      SevenThenSummon(balls + 1, n - 1);
      assert seq(n, _ => Collect)[1..] == seq(n - 1, _ => Collect);
      assert (seq(n, _ => Collect) + [Summon])[1..] == seq(n - 1, _ => Collect) + [Summon];
    } else {
      assert seq(n, _ => Collect) + [Summon] == [Summon];
    }
  }

  /** `DragonBalls`: the shared counter. */
  class DragonBalls {
    var ballsCollected: int

    ghost predicate Valid()
      reads this
    {
      0 <= ballsCollected <= AllBalls
    }

    constructor ()
      ensures Valid() && ballsCollected == 0
    {
      ballsCollected := 0;
    }

    method CollectBall()
      requires Valid()
      modifies this
      ensures Valid() && ballsCollected == AfterCollect(old(ballsCollected))
    {
      if ballsCollected < AllBalls {
        ballsCollected := ballsCollected + 1;
      }
    }

    method SummonShenlong()
      requires Valid()
      modifies this
      ensures Valid() && ballsCollected == AfterSummon(old(ballsCollected))
    {
      if ballsCollected == AllBalls {
        ballsCollected := 0;
      }
    }
  }

  /** The class-level slot of `DragonBalls`: empty until the first `getInstance`. */
  class DragonBallsRegistry {
    var instance: DragonBalls?

    ghost predicate Valid()
      reads this, instance
    {
      instance != null ==> instance.Valid()
    }

    constructor ()
      ensures Valid() && instance == null
    {
      instance := null;
    }

    /** `getInstance()`: creates the instance on the first call only, and always returns the one in the slot. */
    method GetInstance() returns (balls: DragonBalls)
      requires Valid()
      modifies this
      ensures Valid() && instance == balls
      ensures old(instance) != null ==> balls == old(instance)
      ensures old(instance) == null ==> fresh(balls) && balls.ballsCollected == 0
    {
      if instance == null {
        instance := new DragonBalls();
      }
      balls := instance;
    }
  }

  /**
   * The example's session: Goku's and Vegeta's handles are the same object, so
   * the ten actions made through either act on one counter, which ends at 1.
   */
  method DragonBallsSession() returns (goku: DragonBalls, vegeta: DragonBalls)
    ensures goku == vegeta
    ensures goku.ballsCollected == 1
    ensures goku.ballsCollected
         == Perform(0, [Collect, Collect, Collect, Summon, Collect, Collect, Collect, Collect, Summon, Collect])
  {
    var registry := new DragonBallsRegistry();
    goku := registry.GetInstance();
    goku.CollectBall();
    goku.CollectBall();
    goku.CollectBall();
    goku.SummonShenlong();
    goku.CollectBall();
    vegeta := registry.GetInstance();
    goku.CollectBall();
    goku.CollectBall();
    vegeta.CollectBall();
    vegeta.SummonShenlong();
    vegeta.CollectBall();
  }
}
