// Whole-game runs put together from the class contracts: the budget running
// out, and a two-stage level played to a win.

/** Eight probes that all found free space. */
function AllFree(): (probes: seq<bool>)
  ensures |probes| == ProbeCount && CanGrow(probes)
{
  assert [true, true, true, true, true, true, true, true][0];
  [true, true, true, true, true, true, true, true]
}

/** A press that inflates by `delta` in the same frame, then a release. */
method LaunchBalloon(gm: GameManager, spawner: BalloonSpawner, delta: real) returns (b: BalloonController)
  requires gm.Valid() && gm.spawner == spawner && spawner.enabled && spawner.currentBalloon == null
  requires gm.CanCreateBalloon()
  modifies spawner, gm`balloonsUsed, gm`gameState, gm`paused, gm`shownState
  ensures gm.Valid() && spawner.enabled && spawner.currentBalloon == null
  ensures fresh(b) && b.Valid() && b.launched && !b.linked && !b.popped && !b.destroyed
  ensures b.currentNumber == (spawner.prefabScale + delta) * 5.0
  ensures spawner.balloons == old(spawner.balloons) + [b]
  ensures gm.balloonsUsed == old(gm.balloonsUsed) + 1 && gm.gameState == old(gm.gameState)
{
  var probes := AllFree();
  spawner.HandleInput(gm, true, true, false, probes, delta);
  b := spawner.balloons[|spawner.balloons| - 1];
  spawner.HandleInput(gm, false, false, true, probes, 0.0);
}

/**
 * A one-stage level with a budget of 3: three presses are granted, the
 * fourth is refused and, with no balloon popped and the chain unbroken, the
 * game is lost and time stops.
 */
method BudgetRunsOut()
{
  var loader := new LevelLoader(10.0, 3.0, 1920.0, 5.0);
  var spawner := new BalloonSpawner(1.0);
  var levels := [LevelData(3, [StageData(100, [], [])])];
  var gm := new GameManager(spawner, loader, levels, 1);
  gm.Start();
  gm.NextLevelTransition();
  assert gm.balloonLimit == 3 && spawner.enabled && !gm.presenting;

  var round := 0;
  while round < 3
    invariant 0 <= round <= 3
    invariant gm.Valid() && gm.spawner == spawner && spawner.enabled && spawner.currentBalloon == null
    invariant gm.balloonLimit == 3 && gm.balloonsUsed == round && gm.gameState == Gameplay
    invariant gm.currentLevelNumber == 1 && |spawner.balloons| == round
  {
    var b := LaunchBalloon(gm, spawner, 0.5);
    round := round + 1;
  }
  var probes := AllFree();
  assert !gm.CanCreateBalloon();
  spawner.HandleInput(gm, true, true, false, probes, 0.5);
  assert gm.gameState == GameLose && gm.paused && |spawner.balloons| == 3;
  assert gm.currentLevelNumber == 1;
}

/**
 * Stage 1 of the two-stage level: a balloon inflated by 4 to size 5, number
 * 25, is launched into stage 1's chain (value 20). The chain breaks, the game
 * moves to stage 2, and every balloon's link is reset, the new one's
 * included; stage 2's chain is untouched.
 */
method BreakStageOne(gm: GameManager, spawner: BalloonSpawner, first: Chain, second: Chain)
  requires gm.Valid() && gm.spawner == spawner && spawner.prefabScale == 1.0
  requires spawner.enabled && spawner.currentBalloon == null && gm.CanCreateBalloon()
  requires |gm.stages| == 2 && gm.stages[0].chain == first && gm.stages[1].chain == second && gm.currentStageNumber == 1 && gm.stages[0].subscribed
  requires first.State() == ChainState(20, false) && second.State() == ChainState(15, false)
  modifies gm, spawner, first, set x | x in spawner.balloons
  ensures gm.Valid() && gm.spawner == spawner && spawner.enabled && spawner.currentBalloon == null
  ensures |gm.stages| == 2 && gm.stages[0].chain == first && gm.stages[1].chain == second && gm.currentStageNumber == 2 && gm.transitioning
  ensures gm.balloonLimit == old(gm.balloonLimit) && gm.balloonsUsed == old(gm.balloonsUsed) + 1
  ensures gm.gameState == old(gm.gameState) && gm.currentLevelNumber == old(gm.currentLevelNumber)
  ensures first.isBroken && second.State() == ChainState(15, false)
  ensures |spawner.balloons| == |old(spawner.balloons)| + 1
  ensures forall x :: x in spawner.balloons ==> x in old(spawner.balloons) || fresh(x)
  ensures var b := spawner.balloons[|spawner.balloons| - 1]; b.launched && b.currentNumber == 25.0
  ensures forall x :: x in spawner.balloons ==> !x.linked && x.linkedChain == null
{
  var b := LaunchBalloon(gm, spawner, 4.0);
  assert b.currentNumber == 25.0;
  gm.BalloonCollisionStay(b, Collider(ChainTag, first, null));
}

/**
 * Stage 2 of the two-stage level, once the camera has arrived: a balloon of
 * number 15 breaks stage 2's chain (value 15), and the level is won.
 */
method BreakStageTwo(gm: GameManager, spawner: BalloonSpawner, second: Chain)
  requires gm.Valid() && gm.spawner == spawner && spawner.prefabScale == 1.0
  requires spawner.enabled && spawner.currentBalloon == null && gm.CanCreateBalloon()
  requires |gm.stages| == 2 && gm.stages[1].chain == second && gm.currentStageNumber == 2 && gm.stages[1].subscribed
  requires second.State() == ChainState(15, false)
  modifies gm, spawner, second, set x | x in spawner.balloons
  ensures gm.currentStageNumber == 3 && gm.gameState == GameWin && gm.shownState == GameWin && !spawner.enabled
  ensures gm.currentLevelNumber == NextLevelNumber(old(gm.currentLevelNumber), |gm.levels|)
  ensures gm.savedLevel == gm.currentLevelNumber
{
  var b := LaunchBalloon(gm, spawner, 2.0);
  assert b.currentNumber == 15.0;
  gm.BalloonCollisionStay(b, Collider(ChainTag, second, null));
}

/**
 * A two-stage level with chain values 20 and 15, loaded as level 1 of two and
 * presented: stage 1 is in play with a budget of 5 and nothing spent.
 */
method LoadTwoStageLevel() returns (gm: GameManager, spawner: BalloonSpawner, first: Chain, second: Chain)
  ensures gm.Valid() && gm.spawner == spawner && spawner.prefabScale == 1.0
  ensures spawner.enabled && spawner.currentBalloon == null && gm.CanCreateBalloon()
  ensures |gm.stages| == 2 && gm.stages[0].chain == first && gm.stages[1].chain == second
  ensures gm.currentStageNumber == 1 && gm.stages[0].subscribed
  ensures first.State() == ChainState(20, false) && second.State() == ChainState(15, false)
  ensures gm.currentLevelNumber == 1 && |gm.levels| == 2 && gm.gameState == Gameplay
  ensures gm.balloonLimit == 5 && gm.balloonsUsed == 0 && spawner.balloons == []
  ensures fresh(gm) && fresh(spawner) && fresh(first) && fresh(second)
{
  var loader := new LevelLoader(10.0, 3.0, 1920.0, 5.0);
  spawner := new BalloonSpawner(1.0);
  var level := LevelData(5, [StageData(20, [], []), StageData(15, [], [])]);
  gm := new GameManager(spawner, loader, [level, level], 1);
  gm.Start();
  gm.NextLevelTransition();
  assert gm.presenting && !spawner.enabled;
  gm.FinishPresentation();
  first := gm.stages[0].chain;
  second := gm.stages[1].chain;
}

/** The two-stage level played to a win: the level number goes from 1 to 2 and is saved. */
method TwoStageLevelIsWon()
{
  var gm, spawner, first, second := LoadTwoStageLevel();
  BreakStageOne(gm, spawner, first, second);
  gm.FinishStageTransition();
  BreakStageTwo(gm, spawner, second);
  assert gm.currentLevelNumber == 2 && gm.savedLevel == 2 && gm.gameState == GameWin;
}
