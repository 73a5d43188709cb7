// The game manager (Assets/Scripts/GameManager.cs): the game state machine,
// the balloon budget, stage progression on chain breaks and the level number.
//
// Engine services become fields: Time.timeScale == 0 is `paused`, the
// PlayerPrefs "Level" entry is `savedLevel`, the main camera is `camY` and
// `camSize`, and the UI keeps only the state it was last told to show. The
// two coroutines run their part up to the first yield inside the method that
// starts them; the rest, after the camera has arrived, is FinishPresentation
// or FinishStageTransition. The delegate wiring between chains, balloons, the
// spawner and this class is DeliverBalloonEvent and the collision methods.

datatype GameState = MainMenu | Gameplay | GameWin | GameLose

/** CanCreateBalloon on the budget counters. */
predicate CanCreate(used: int, limit: int)
{
  used < limit
}

/** The budget is never overdrawn: 0 <= used <= max(limit, 0). */
predicate WithinBudget(used: int, limit: int)
{
  0 <= used && (used <= limit || used == 0)
}

/** balloonsUsed after RegisterBalloon: one more when a balloon may be created, unchanged otherwise. */
function Registered(used: int, limit: int): (r: int)
  ensures WithinBudget(used, limit) ==> WithinBudget(r, limit)
  ensures r == used || r == used + 1
  ensures r == used + 1 <==> CanCreate(used, limit)
{
  if !CanCreate(used, limit) then used else used + 1
}

/** balloonsUsed after `presses` registrations since SetBalloonLimit(limit). */
function UsedAfter(limit: int, presses: nat): int
{
  if presses == 0 then 0 else Registered(UsedAfter(limit, presses - 1), limit)
}

/**
 * After SetBalloonLimit(limit), the first `limit` presses are granted a
 * balloon and every later one is refused, so the count stops at the limit.
 */
lemma {:induction false} BudgetGrantsExactlyLimit(limit: int, presses: nat)
  ensures UsedAfter(limit, presses) == if limit <= 0 then 0 else if presses <= limit then presses else limit
  ensures WithinBudget(UsedAfter(limit, presses), limit)
  ensures CanCreate(UsedAfter(limit, presses), limit) <==> presses < limit
{
  if presses > 0 {
    BudgetGrantsExactlyLimit(limit, presses - 1);
  }
}

/** The level NextLevelTransition loads: the level number, lowered to the last level if beyond it. */
function ClampLevel(n: int, count: int): (r: int)
  ensures r <= count
  ensures r == n || (n > count && r == count)
{
  if n > count then count else n
}

/** Win's update of the level number: the next level, wrapping to 1 past the last. */
function NextLevelNumber(n: int, count: int): (r: int)
  ensures 1 <= n <= count ==> 1 <= r <= count
  ensures r == n + 1 || (r == 1 && n + 1 > count)
  ensures n + 1 > count ==> r == 1
{
  if n + 1 > count then 1 else n + 1
}

/** The level number after `wins` consecutive wins starting from level n. */
function LevelAfterWins(n: int, count: int, wins: nat): int
{
  if wins == 0 then n else NextLevelNumber(LevelAfterWins(n, count, wins - 1), count)
}

/** Winning walks through the levels in order, wrapping around after the last. */
lemma {:induction false} WinsWalkLevelsInOrder(n: int, count: int, wins: nat)
  requires 1 <= n <= count && wins <= count
  ensures LevelAfterWins(n, count, wins) == if n + wins <= count then n + wins else n + wins - count
{
  if wins > 0 {
    WinsWalkLevelsInOrder(n, count, wins - 1);
  }
}

/** After as many wins as there are levels, the player is back at the level they started from. */
lemma WinsCycleBack(n: int, count: int)
  requires 1 <= n <= count
  ensures LevelAfterWins(n, count, count) == n
  ensures forall w :: 0 < w < count ==> LevelAfterWins(n, count, w) != n
{
  WinsWalkLevelsInOrder(n, count, count);
  forall w | 0 < w < count
    ensures LevelAfterWins(n, count, w) != n
  {
    WinsWalkLevelsInOrder(n, count, w);
  }
}

/** A stage once StartStage has run on it: wall up, hazards moving, ChainBroke subscribed. */
function Started(st: Stage): Stage
{
  st.(wallActive := true, hazardsMoving := true, subscribed := true)
}

/** A stage once SetStageComplete has run on it: obstacles hidden, hazards disabled. */
function Completed(st: Stage): Stage
{
  st.(obstaclesActive := false, hazardsDisabled := true)
}

class GameManager {
  const spawner: BalloonSpawner
  const loader: LevelLoader
  /** The level files, already parsed. */
  const levels: seq<LevelData>

  var balloonLimit: int
  var balloonsUsed: int
  var currentLevelNumber: int
  var currentStageNumber: int
  var gameState: GameState
  /** The stages of the loaded level; empty before the first level is loaded. */
  var stages: seq<Stage>
  /** Time.timeScale is 0. */
  var paused: bool
  /** The "Level" entry of PlayerPrefs. */
  var savedLevel: int
  /** The level presentation is moving the camera down to stage 0. */
  var presenting: bool
  /** NextStageTransition is moving the camera up to the next stage. */
  var transitioning: bool
  var camY: real
  var camSize: real
  /** The state the UI was last told to show. */
  ghost var shownState: GameState

  ghost function Chains(): set<Chain>
    reads this
  {
    set k | 0 <= k < |stages| :: stages[k].chain
  }

  /** The stage list keeps its length and every stage keeps its chain. */
  twostate predicate ChainsKept()
    reads this
  {
    |stages| == |old(stages)| && forall k :: 0 <= k < |stages| ==> stages[k].chain == old(stages)[k].chain
  }

  /** The game has not moved on: the stage records and number, the level number, its save and the camera moves are as they were. */
  twostate predicate ProgressKept()
    reads this
  {
    && stages == old(stages) && currentStageNumber == old(currentStageNumber)
    && currentLevelNumber == old(currentLevelNumber) && savedLevel == old(savedLevel)
    && transitioning == old(transitioning) && presenting == old(presenting)
  }

  /**
   * What NextStageTransition did, from the stage records `from`: the stage
   * number advances. Past the last stage the level is won and its successor
   * saved, and no balloon but `moved` (the one whose contact led here, if any)
   * changes; otherwise the next stage's bottom wall is lowered, every listed
   * balloon is unlinked and the camera move starts. The balloon list, time and
   * every listed balloon's flags, size and number are kept.
   */
  twostate predicate StageAdvanced(from: seq<Stage>, moved: BalloonController?)
    reads this, spawner, spawner.balloons
  {
    var cur := old(currentStageNumber);
    && paused == old(paused) && spawner.balloons == old(spawner.balloons)
    && currentStageNumber == cur + 1
    && 1 <= cur <= |from|
    && (if cur == |from| then
          && stages == from
          && gameState == GameWin && shownState == GameWin && !spawner.enabled && !transitioning
          && currentLevelNumber == NextLevelNumber(old(currentLevelNumber), |levels|)
          && savedLevel == currentLevelNumber
          && (forall x :: x in old(spawner.balloons) && x != moved ==> unchanged(x))
        else
          && stages == from[cur := from[cur].(wallActive := false)]
          && transitioning && gameState == old(gameState) && shownState == old(shownState)
          && spawner.enabled == old(spawner.enabled)
          && currentLevelNumber == old(currentLevelNumber) && savedLevel == old(savedLevel)
          && (forall x :: x in spawner.balloons ==> !x.linked && x.linkedChain == null))
    && forall x :: x in spawner.balloons && x != moved ==> x.BodyKept()
  }

  /** What ChainBreak did: the current stage is completed, then the transition of StageAdvanced. */
  twostate predicate StageCompletedAndAdvanced(moved: BalloonController?)
    reads this, spawner, spawner.balloons
  {
    var done := old(currentStageNumber) - 1;
    0 <= done < |old(stages)| && StageAdvanced(old(stages)[done := Completed(old(stages)[done])], moved)
  }

  /**
   * How the game stands after a contact by `b`: either the stage advanced as
   * ChainBreak advances it, or nothing moved on and no balloon but `b` changed.
   */
  twostate predicate ContactSettled(b: BalloonController)
    reads this, spawner, spawner.balloons
  {
    if currentStageNumber == old(currentStageNumber) + 1 then StageCompletedAndAdvanced(b)
    else
      && ProgressKept() && gameState == old(gameState) && shownState == old(shownState) && paused == old(paused)
      && spawner.enabled == old(spawner.enabled) && spawner.balloons == old(spawner.balloons)
      && forall x :: x in old(spawner.balloons) && x != b ==> unchanged(x)
  }

  /**
   * The level list is usable, the budget is not overdrawn, and only stages
   * already reached are subscribed to, every one before the current stage
   * with its chain broken. A camera move in flight targets a stage not yet
   * started.
   */
  ghost predicate Valid()
    reads this, spawner, spawner.currentBalloon, loader, Chains()
  {
    && |levels| >= 1 && (forall i :: 0 <= i < |levels| ==> |levels[i].stages| >= 1)
    && 1 <= currentLevelNumber && 1 <= savedLevel
    && WithinBudget(balloonsUsed, balloonLimit)
    && loader.Valid() && spawner.Valid()
    && (forall k :: 0 <= k < |stages| ==> stages[k].chain.Valid())
    && (forall k :: 0 <= k < |stages| && stages[k].subscribed ==>
          k < currentStageNumber && (k < currentStageNumber - 1 ==> stages[k].chain.isBroken))
    && (transitioning ==> 2 <= currentStageNumber <= |stages| && !stages[currentStageNumber - 1].subscribed)
    && (presenting ==> currentStageNumber == 1 && |stages| >= 2 && !stages[0].subscribed)
  }

  constructor (spawner: BalloonSpawner, loader: LevelLoader, levels: seq<LevelData>, savedLevel: int)
    requires |levels| >= 1 && forall i :: 0 <= i < |levels| ==> |levels[i].stages| >= 1
    requires spawner.Valid() && loader.Valid() && savedLevel >= 1
    ensures Valid()
    ensures this.spawner == spawner && this.loader == loader && this.levels == levels && this.savedLevel == savedLevel
    ensures balloonLimit == 0 && balloonsUsed == 0 && currentLevelNumber == 1 && currentStageNumber == 0
    ensures gameState == MainMenu && stages == [] && !paused && !presenting && !transitioning
  {
    this.spawner := spawner;
    this.loader := loader;
    this.levels := levels;
    this.savedLevel := savedLevel;
    balloonLimit := 0;
    balloonsUsed := 0;
    currentLevelNumber := 1;
    currentStageNumber := 0;
    gameState := MainMenu;
    stages := [];
    paused := false;
    presenting := false;
    transitioning := false;
    camY := 0.0;
    camSize := 0.0;
    shownState := MainMenu;
  }

  /** Disables the spawner and reads the saved level; the UI shows the main menu. */
  method Start()
    requires Valid()
    modifies this`currentLevelNumber, this`shownState, spawner`enabled
    ensures Valid()
    ensures currentLevelNumber == savedLevel && !spawner.enabled && shownState == gameState
  {
    spawner.enabled := false;
    currentLevelNumber := savedLevel;
    shownState := gameState;
  }

  function CanCreateBalloon(): (r: bool)
    reads this
    ensures r <==> !IsOutOfBalloons()
  {
    CanCreate(balloonsUsed, balloonLimit)
  }

  /** Within the budget, out of balloons means every balloon the limit allows has been used. */
  function IsOutOfBalloons(): (r: bool)
    reads this
    ensures r <==> !CanCreate(balloonsUsed, balloonLimit)
    ensures WithinBudget(balloonsUsed, balloonLimit) ==>
              (r <==> balloonsUsed == if balloonLimit > 0 then balloonLimit else 0)
  {
    balloonsUsed >= balloonLimit
  }

  /** A new level's budget: the limit is set and nothing has been used. */
  method SetBalloonLimit(limit: int)
    modifies this`balloonLimit, this`balloonsUsed
    ensures balloonLimit == limit && balloonsUsed == 0
    ensures WithinBudget(balloonsUsed, balloonLimit)
  {
    balloonLimit := limit;
    balloonsUsed := 0;
  }

  /** What RegisterBalloon did: counted one balloon if the budget allowed it, and nothing else. */
  twostate predicate BalloonRegistered()
    reads this
  {
    && balloonsUsed == Registered(old(balloonsUsed), balloonLimit)
    && gameState == old(gameState) && paused == old(paused) && shownState == old(shownState)
  }

  method RegisterBalloon()
    modifies this`balloonsUsed
    ensures BalloonRegistered()
    ensures old(WithinBudget(balloonsUsed, balloonLimit)) ==> WithinBudget(balloonsUsed, balloonLimit)
  {
    if !CanCreateBalloon() {
      return;
    }
    balloonsUsed := balloonsUsed + 1;
  }

  /** What CheckForLose did: lost and paused exactly when out of balloons, nothing else. */
  twostate predicate LoseChecked()
    reads this
  {
    && gameState == (if old(IsOutOfBalloons()) then GameLose else old(gameState))
    && shownState == (if old(IsOutOfBalloons()) then GameLose else old(shownState))
    && paused == (old(paused) || old(IsOutOfBalloons()))
    && balloonsUsed == old(balloonsUsed)
  }

  method CheckForLose()
    modifies this`gameState, this`paused, this`shownState
    ensures LoseChecked()
  {
    if IsOutOfBalloons() {
      Lose();
    }
  }

  /** Loses and freezes time; the level number is kept, so the retry reloads the same level. */
  method Lose()
    modifies this`gameState, this`paused, this`shownState
    ensures gameState == GameLose && shownState == GameLose && paused
    ensures currentLevelNumber == old(currentLevelNumber)
  {
    gameState := GameLose;
    shownState := gameState;
    paused := true;
  }

  /** Disables the spawner, advances and saves the level number, and shows the win state. */
  method Win()
    requires Valid()
    modifies spawner`enabled, this`currentLevelNumber, this`savedLevel, this`gameState, this`shownState
    ensures Valid()
    ensures !spawner.enabled && gameState == GameWin && shownState == GameWin
    ensures currentLevelNumber == NextLevelNumber(old(currentLevelNumber), |levels|)
    ensures savedLevel == currentLevelNumber
    ensures old(currentLevelNumber) <= |levels| ==> currentLevelNumber <= |levels|
  {
    spawner.enabled := false;
    currentLevelNumber := currentLevelNumber + 1;
    if currentLevelNumber > |levels| {
      currentLevelNumber := 1;
    }
    savedLevel := currentLevelNumber;
    gameState := GameWin;
    shownState := gameState;
  }

  /** Raises stage k's bottom wall, subscribes to its ChainBroke, starts its hazards and enables input. */
  method StartStage(k: nat)
    requires k < |stages|
    modifies this`stages, spawner`enabled
    ensures stages == old(stages)[k := Started(old(stages)[k])]
    ensures spawner.enabled
  {
    stages := stages[k := Started(stages[k])];
    spawner.enabled := true;
  }

  /**
   * The start, win and lose buttons: resumes time, destroys every balloon,
   * loads the (clamped) current level, resets the budget and shows the
   * level's top stage; a one-stage level starts at once, a longer one waits
   * for the presentation to bring the camera down to stage 0.
   */
  method NextLevelTransition()
    requires Valid()
    modifies this, spawner`balloons, spawner`enabled, set b | b in spawner.balloons
    ensures Valid()
    ensures !paused && !transitioning && savedLevel == old(savedLevel)
    ensures currentLevelNumber == ClampLevel(old(currentLevelNumber), |levels|)
    ensures 1 <= currentLevelNumber <= |levels|
    ensures spawner.balloons == [] && forall b :: b in old(spawner.balloons) ==> b.destroyed
    ensures var data := levels[currentLevelNumber - 1];
      && |stages| == |data.stages|
      && balloonLimit == data.balloonLimit && balloonsUsed == 0
      && currentStageNumber == 1 && gameState == Gameplay && shownState == Gameplay
      && (forall k :: 0 <= k < |stages| ==> fresh(stages[k].chain))
      && (forall i, j :: 0 <= i < j < |stages| ==> stages[i].chain != stages[j].chain)
      && (forall k :: 1 <= k < |stages| ==>
            FreshlyLoaded(stages[k], data.stages[k], k, loader.scaleFactor, loader.levelHeight, loader.baseOrthoSize))
      && FreshlyLoaded(stages[0].(hazardsMoving := false, subscribed := false), data.stages[0], 0,
                       loader.scaleFactor, loader.levelHeight, loader.baseOrthoSize)
      && stages[0].hazardsMoving == stages[0].subscribed == (|stages| == 1)
    ensures camY == stages[|stages| - 1].posY && camSize == stages[|stages| - 1].camSize
    ensures presenting == (|stages| > 1) && spawner.enabled == (|stages| == 1)
  {
    ClearScene();
    LoadAndShowLevel();
  }

  /**
   * The first part of NextLevelTransition: time resumes, every balloon is
   * destroyed and input is disabled. A stage transition still in flight is
   * dropped with the level it belonged to.
   */
  method ClearScene()
    requires Valid()
    modifies this`paused, this`transitioning, spawner`balloons, spawner`enabled, set b | b in spawner.balloons
    ensures Valid() && !paused && !transitioning && !spawner.enabled
    ensures spawner.balloons == [] && forall b :: b in old(spawner.balloons) ==> b.destroyed
  {
    paused := false;
    spawner.ClearBalloons();
    spawner.enabled := false;
    assert spawner.Valid();
    transitioning := false;
  }

  /**
   * The rest of NextLevelTransition: the clamped level is loaded and its top
   * stage framed, and a one-stage level starts at once.
   */
  method LoadAndShowLevel()
    requires Valid() && !transitioning && !spawner.enabled
    modifies this`currentLevelNumber, this`stages, this`currentStageNumber, this`balloonLimit, this`balloonsUsed
    modifies this`gameState, this`shownState, this`camY, this`camSize, this`presenting, spawner`enabled
    ensures Valid()
    ensures currentLevelNumber == ClampLevel(old(currentLevelNumber), |levels|)
    ensures 1 <= currentLevelNumber <= |levels|
    ensures var data := levels[currentLevelNumber - 1];
      && |stages| == |data.stages|
      && balloonLimit == data.balloonLimit && balloonsUsed == 0
      && currentStageNumber == 1 && gameState == Gameplay && shownState == Gameplay
      && (forall k :: 0 <= k < |stages| ==> fresh(stages[k].chain))
      && (forall i, j :: 0 <= i < j < |stages| ==> stages[i].chain != stages[j].chain)
      && (forall k :: 1 <= k < |stages| ==>
            FreshlyLoaded(stages[k], data.stages[k], k, loader.scaleFactor, loader.levelHeight, loader.baseOrthoSize))
      && FreshlyLoaded(stages[0].(hazardsMoving := false, subscribed := false), data.stages[0], 0,
                       loader.scaleFactor, loader.levelHeight, loader.baseOrthoSize)
      && stages[0].hazardsMoving == stages[0].subscribed == (|stages| == 1)
    ensures camY == stages[|stages| - 1].posY && camSize == stages[|stages| - 1].camSize
    ensures presenting == (|stages| > 1) && spawner.enabled == (|stages| == 1)
  {
    LoadCurrentLevel();
    ShowLevel();
  }

  /**
   * The loading part of NextLevelTransition: the level number is clamped to
   * the last level, that level is built, and the stage number, the budget and
   * the game state start afresh.
   */
  method LoadCurrentLevel()
    requires |levels| >= 1 && (forall i :: 0 <= i < |levels| ==> |levels[i].stages| >= 1)
    requires 1 <= currentLevelNumber
    modifies this`currentLevelNumber, this`stages, this`currentStageNumber
    modifies this`balloonLimit, this`balloonsUsed, this`gameState, this`shownState
    ensures currentLevelNumber == ClampLevel(old(currentLevelNumber), |levels|)
    ensures 1 <= currentLevelNumber <= |levels|
    ensures var data := levels[currentLevelNumber - 1];
      && |stages| == |data.stages| >= 1
      && balloonLimit == data.balloonLimit && balloonsUsed == 0
      && currentStageNumber == 1 && gameState == Gameplay && shownState == Gameplay
      && (forall k :: 0 <= k < |stages| ==>
            fresh(stages[k].chain)
            && FreshlyLoaded(stages[k], data.stages[k], k, loader.scaleFactor, loader.levelHeight, loader.baseOrthoSize))
      && forall i, j :: 0 <= i < j < |stages| ==> stages[i].chain != stages[j].chain
  {
    if currentLevelNumber > |levels| {
      currentLevelNumber := |levels|;
    }
    var level := loader.LoadLevel(levels[currentLevelNumber - 1]);
    stages := level.stages;
    currentStageNumber := 1;
    SetBalloonLimit(level.balloonLimit);
    gameState := Gameplay;
    shownState := gameState;
  }

  /**
   * The part of StartLevelPresentation before its first yield: the camera
   * frames the top stage, and a one-stage level starts at once.
   */
  method ShowLevel()
    requires |stages| >= 1
    modifies this`camY, this`camSize, this`presenting, this`stages, spawner`enabled
    ensures |stages| == |old(stages)|
    ensures camY == stages[|stages| - 1].posY && camSize == stages[|stages| - 1].camSize
    ensures presenting == (|stages| > 1)
    ensures if |stages| == 1 then stages == old(stages)[0 := Started(old(stages)[0])] && spawner.enabled
            else stages == old(stages) && spawner.enabled == old(spawner.enabled)
  {
    camY := stages[|stages| - 1].posY;
    camSize := stages[|stages| - 1].camSize;
    if |stages| == 1 {
      presenting := false;
      StartStage(0);
    } else {
      presenting := true;
    }
  }

  /** The presentation's camera move has ended exactly on stage 0, which now starts. */
  method FinishPresentation()
    requires Valid() && presenting
    modifies this`stages, this`presenting, this`camY, this`camSize, spawner`enabled
    ensures Valid() && !presenting
    ensures camY == old(stages)[0].posY && camSize == old(stages)[0].camSize
    ensures stages == old(stages)[0 := Started(old(stages)[0])]
    ensures spawner.enabled
  {
    camY := stages[0].posY;
    camSize := stages[0].camSize;
    presenting := false;
    StartStage(0);
  }

  /**
   * The stage transition's camera move has ended exactly on the new stage:
   * the completed stage is deactivated and the new one starts.
   */
  method FinishStageTransition()
    requires Valid() && transitioning
    modifies this`stages, this`transitioning, this`camY, this`camSize, spawner`enabled
    ensures Valid() && !transitioning
    ensures var k := currentStageNumber - 1;
      && camY == old(stages)[k].posY && camSize == old(stages)[k].camSize
      && stages == old(stages)[k - 1 := old(stages)[k - 1].(active := false)][k := Started(old(stages)[k])]
    ensures spawner.enabled
  {
    var k := currentStageNumber - 1;
    camY := stages[k].posY;
    camSize := stages[k].camSize;
    stages := stages[k - 1 := stages[k - 1].(active := false)];
    transitioning := false;
    StartStage(k);
  }

  /**
   * The current stage's ChainBroke: the stage is completed and the stage
   * number advances by one. Past the last stage the level is won; otherwise
   * the next stage's bottom wall is lowered, every balloon's link is reset
   * and the camera starts moving up.
   */
  method ChainBreak()
    requires Valid()
    requires 1 <= currentStageNumber <= |stages|
    requires stages[currentStageNumber - 1].subscribed && stages[currentStageNumber - 1].chain.isBroken
    modifies this`stages, this`currentStageNumber, this`transitioning, this`currentLevelNumber
    modifies this`savedLevel, this`gameState, this`shownState, spawner`enabled, set b | b in spawner.balloons
    ensures Valid() && ChainsKept() && StageCompletedAndAdvanced(null)
  {
    SetStageComplete(currentStageNumber - 1);
    NextStageTransition();
  }

  /** Hides the stage's obstacles and disables its hazards. */
  method SetStageComplete(k: nat)
    requires k < |stages|
    modifies this`stages
    ensures stages == old(stages)[k := Completed(old(stages)[k])]
  {
    stages := stages[k := Completed(stages[k])];
  }

  /**
   * The part of NextStageTransition before its first yield: the stage number
   * advances; past the last stage the level is won, otherwise the next stage's
   * bottom wall is lowered, every listed balloon's link is reset and the
   * camera move starts.
   */
  method NextStageTransition()
    requires Valid()
    requires 1 <= currentStageNumber <= |stages|
    requires stages[currentStageNumber - 1].subscribed && stages[currentStageNumber - 1].chain.isBroken
    modifies this`stages, this`currentStageNumber, this`transitioning, this`currentLevelNumber
    modifies this`savedLevel, this`gameState, this`shownState, spawner`enabled, set b | b in spawner.balloons
    ensures Valid() && ChainsKept() && StageAdvanced(old(stages), null)
  {
    currentStageNumber := currentStageNumber + 1;
    if currentStageNumber > |stages| {
      Win();
      return;
    }
    BeginStageTransition();
  }

  /**
   * NextStageTransition once the stage number has moved to a stage that
   * exists: that stage's bottom wall is lowered, every listed balloon's link
   * is reset and the camera move starts.
   */
  method BeginStageTransition()
    requires Valid() && 2 <= currentStageNumber <= |stages| && !stages[currentStageNumber - 1].subscribed
    modifies this`stages, this`transitioning, set b | b in spawner.balloons
    ensures Valid() && transitioning
    ensures var next := currentStageNumber - 1;
            stages == old(stages)[next := old(stages)[next].(wallActive := false)]
    ensures forall b :: b in spawner.balloons ==> !b.linked && b.linkedChain == null
    ensures forall b :: b in spawner.balloons ==> b.BodyKept()
  {
    var next := currentStageNumber - 1;
    stages := stages[next := stages[next].(wallActive := false)];
    spawner.ResetActiveBalloons();
    transitioning := true;
  }

  /** The spawner's OnBalloonPopped handler. */
  method BalloonPop()
    modifies this`gameState, this`paused, this`shownState
    ensures LoseChecked()
  {
    CheckForLose();
  }

  /** Whether the ChainBroke of `c` reaches ChainBreak: some stage holding it has been started. */
  predicate Subscribed(c: Chain)
    reads this
  {
    exists k :: 0 <= k < |stages| && stages[k].subscribed && stages[k].chain == c
  }

  /**
   * Routes what a balloon reported: a pop reaches the spawner's BalloonPopped
   * and then BalloonPop; a chain break reaches ChainBreak if the chain's stage
   * was started.
   */
  method DeliverBalloonEvent(b: BalloonController, ev: BalloonEvent)
    requires Valid()
    requires ev.ChainBrokeEvent? ==> ev.chain.isBroken
    requires ev.ChainBrokeEvent? ==>
               forall k :: 0 <= k < |stages| && stages[k].subscribed && stages[k].chain == ev.chain ==>
                 k == currentStageNumber - 1
    modifies this`stages, this`currentStageNumber, this`transitioning, this`currentLevelNumber, this`savedLevel
    modifies this`gameState, this`shownState, this`paused, spawner`balloons, spawner`enabled
    modifies set x | x in spawner.balloons
    ensures Valid() && ChainsKept()
    ensures ev.NoEvent? ==> unchanged(this) && unchanged(spawner) && forall x :: x in old(spawner.balloons) ==> unchanged(x)
    ensures ev.PoppedEvent? ==>
              && spawner.balloons == RemoveFirst(old(spawner.balloons), b) && LoseChecked() && ProgressKept()
              && spawner.enabled == old(spawner.enabled)
              && forall x :: x in old(spawner.balloons) ==> unchanged(x)
    ensures ev.ChainBrokeEvent? ==>
              if old(Subscribed(ev.chain)) then StageCompletedAndAdvanced(null)
              else unchanged(this) && unchanged(spawner) && forall x :: x in old(spawner.balloons) ==> unchanged(x)
    ensures b.BodyKept()
    ensures var nonFinal := ev.ChainBrokeEvent? && old(Subscribed(ev.chain)) && old(currentStageNumber) < |old(stages)|;
            !(nonFinal && b in spawner.balloons) ==> b.linked == old(b.linked) && b.linkedChain == old(b.linkedChain)
  {
    match ev
    case NoEvent =>
    case PoppedEvent =>
      DeliverPopped(b);
    case ChainBrokeEvent(c) =>
      DeliverChainBroke(c);

  }

  /** Popped reaches the spawner's BalloonPopped, which raises OnBalloonPopped, handled by BalloonPop. */
  method DeliverPopped(b: BalloonController)
    modifies spawner`balloons, this`gameState, this`paused, this`shownState
    ensures spawner.balloons == RemoveFirst(old(spawner.balloons), b) && LoseChecked()
  {
    spawner.BalloonPopped(b);
    BalloonPop();
  }

  /** ChainBroke reaches ChainBreak only if the chain's stage has been started. */
  method DeliverChainBroke(c: Chain)
    requires Valid() && c.isBroken
    requires forall k :: 0 <= k < |stages| && stages[k].subscribed && stages[k].chain == c ==> k == currentStageNumber - 1
    modifies this`stages, this`currentStageNumber, this`transitioning, this`currentLevelNumber
    modifies this`savedLevel, this`gameState, this`shownState, spawner`enabled, set b | b in spawner.balloons
    ensures Valid() && ChainsKept()
    ensures if old(Subscribed(c)) then StageCompletedAndAdvanced(null)
            else unchanged(this) && unchanged(spawner) && forall x :: x in old(spawner.balloons) ==> unchanged(x)
  {
    if Subscribed(c) {
      ChainBreak();
    }
  }
  /**
   * Why a ChainBroke reported after a contact can only be the current stage's:
   * the target was unbroken before the contact, and every started stage before
   * the current one already has a broken chain.
   */
  twostate lemma OnlyCurrentStageBreaks(target: Chain)
    requires old(Valid()) && !old(target.isBroken)
    requires stages == old(stages) && currentStageNumber == old(currentStageNumber)
    ensures forall k :: 0 <= k < |stages| && stages[k].subscribed && stages[k].chain == target ==>
              k == currentStageNumber - 1
  {
  }

  /**
   * A balloon's OnCollisionStay2D with everything its notifications reach. The
   * stage advances exactly when a launched, unlinked balloon links to the
   * current stage's chain and breaks it. After a break that is not the last,
   * the balloon that broke the chain ends up unlinked (if it is listed): its
   * link is set before the subtraction whose break resets every link.
   */
  method BalloonCollisionStay(b: BalloonController, other: Collider)
    requires Valid()
    requires LinkTarget(other.chain, other.balloon) != null ==> LinkTarget(other.chain, other.balloon) in Chains()
    modifies this, spawner`balloons, spawner`enabled, b, LinkTarget(other.chain, other.balloon)
    modifies set x | x in spawner.balloons
    ensures Valid()
    ensures var target := old(LinkTarget(other.chain, other.balloon));
            var cur := old(currentStageNumber);
            var breaks := (other.tag == ChainTag || other.tag == BalloonTag) && old(b.launched) && !old(b.linked)
                          && target != null && 1 <= cur <= |old(stages)|
                          && old(stages)[cur - 1].subscribed && old(stages)[cur - 1].chain == target
                          && BreaksOn(old(target.State()), old(b.GetCurrentNumber()));
            currentStageNumber == cur + (if breaks then 1 else 0)
    ensures var target := old(LinkTarget(other.chain, other.balloon));
            var links := (other.tag == ChainTag || other.tag == BalloonTag) && old(b.launched) && !old(b.linked);
            target != null ==>
              target.State() == if links then Subtracted(old(target.State()), old(b.GetCurrentNumber())) else old(target.State())
    ensures ChainsKept()
    ensures balloonLimit == old(balloonLimit) && balloonsUsed == old(balloonsUsed)
    ensures var target := old(LinkTarget(other.chain, other.balloon));
            var nonFinal := currentStageNumber == old(currentStageNumber) + 1 && old(currentStageNumber) < |old(stages)|;
            if (other.tag == ChainTag || other.tag == BalloonTag) && old(b.launched) && !old(b.linked) && target != null then
              !(nonFinal && b in spawner.balloons) ==> b.linked && b.linkedChain == target
            else b.linked == old(b.linked) && b.linkedChain == old(b.linkedChain)
    ensures b.launched == old(b.launched) && b.currentSize == old(b.currentSize) && b.currentNumber == old(b.currentNumber)
    ensures other.tag != SpikeTag ==> b.BodyKept() && ContactSettled(b)
    ensures other.tag == SpikeTag ==>
              && ProgressKept() && spawner.enabled == old(spawner.enabled)
              && (forall x :: x in old(spawner.balloons) && x != b ==> unchanged(x))
              && if old(b.popped) then
                   && unchanged(b) && spawner.balloons == old(spawner.balloons)
                   && gameState == old(gameState) && shownState == old(shownState) && paused == old(paused)
                 else b.popped && b.destroyed && spawner.balloons == RemoveFirst(old(spawner.balloons), b) && LoseChecked()
  {
    if other.tag == SpikeTag {
      var ev := StayContact(b, other);
      DeliverBalloonEvent(b, ev);
    } else if other.tag == ChainTag || other.tag == BalloonTag {
      LinkingContact(b, other, false);
    }
  }

  /** A balloon's OnCollisionEnter2D: only a "Chain" contact links, with the same outcome as above. */
  method BalloonCollisionEnter(b: BalloonController, other: Collider)
    requires Valid()
    requires LinkTarget(other.chain, other.balloon) != null ==> LinkTarget(other.chain, other.balloon) in Chains()
    modifies this, spawner`balloons, spawner`enabled, b, LinkTarget(other.chain, other.balloon)
    modifies set x | x in spawner.balloons
    ensures Valid()
    ensures var target := old(LinkTarget(other.chain, other.balloon));
            var cur := old(currentStageNumber);
            var breaks := other.tag == ChainTag && old(b.launched) && !old(b.linked)
                          && target != null && 1 <= cur <= |old(stages)|
                          && old(stages)[cur - 1].subscribed && old(stages)[cur - 1].chain == target
                          && BreaksOn(old(target.State()), old(b.GetCurrentNumber()));
            currentStageNumber == cur + (if breaks then 1 else 0)
    ensures var target := old(LinkTarget(other.chain, other.balloon));
            var links := other.tag == ChainTag && old(b.launched) && !old(b.linked);
            target != null ==>
              target.State() == if links then Subtracted(old(target.State()), old(b.GetCurrentNumber())) else old(target.State())
    ensures ChainsKept()
    ensures balloonLimit == old(balloonLimit) && balloonsUsed == old(balloonsUsed)
    ensures var target := old(LinkTarget(other.chain, other.balloon));
            var nonFinal := currentStageNumber == old(currentStageNumber) + 1 && old(currentStageNumber) < |old(stages)|;
            if other.tag == ChainTag && old(b.launched) && !old(b.linked) && target != null then
              !(nonFinal && b in spawner.balloons) ==> b.linked && b.linkedChain == target
            else b.linked == old(b.linked) && b.linkedChain == old(b.linkedChain)
    ensures b.launched == old(b.launched) && b.currentSize == old(b.currentSize) && b.currentNumber == old(b.currentNumber)
    ensures b.BodyKept() && ContactSettled(b)
  {
    if other.tag == ChainTag {
      LinkingContact(b, other, true);
    }
  }

  /**
   * A contact that can link, with everything its notifications reach: a
   * "Chain" contact on entry (`enter`) or a "Chain" or "Balloon" contact
   * while it lasts. A launched, unlinked balloon with a link target links to
   * it and subtracts its number once; the stage advances exactly when that
   * breaks the current stage's chain. Nothing pops, and the balloon list and
   * every balloon's flags, size and number stay as they are.
   */
  method LinkingContact(b: BalloonController, other: Collider, enter: bool)
    requires Valid()
    requires other.tag == ChainTag || (!enter && other.tag == BalloonTag)
    requires LinkTarget(other.chain, other.balloon) != null ==> LinkTarget(other.chain, other.balloon) in Chains()
    modifies this, spawner`balloons, spawner`enabled, b, LinkTarget(other.chain, other.balloon)
    modifies set x | x in spawner.balloons
    ensures Valid() && ChainsKept()
    ensures var target := old(LinkTarget(other.chain, other.balloon));
            var links := old(b.launched) && !old(b.linked) && target != null;
            var cur := old(currentStageNumber);
            var breaks := links && 1 <= cur <= |old(stages)|
                          && old(stages)[cur - 1].subscribed && old(stages)[cur - 1].chain == target
                          && BreaksOn(old(target.State()), old(b.GetCurrentNumber()));
            var nonFinal := breaks && cur < |old(stages)|;
            && currentStageNumber == cur + (if breaks then 1 else 0)
            && (target != null ==>
                  target.State() == if links then Subtracted(old(target.State()), old(b.GetCurrentNumber())) else old(target.State()))
            && if links then
                 (nonFinal && b in spawner.balloons ==> !b.linked)
                 && (!(nonFinal && b in spawner.balloons) ==> b.linked && b.linkedChain == target)
               else b.linked == old(b.linked) && b.linkedChain == old(b.linkedChain)
    ensures ContactSettled(b)
    ensures balloonLimit == old(balloonLimit) && balloonsUsed == old(balloonsUsed)
    ensures b.BodyKept()
  {
    var ev := LinkContact(b, other, enter);
    DeliverLinkEvent(b, ev);
  }

  /** The balloon's own handler for a contact that can link: TryLink, reported as an event. */
  method LinkContact(b: BalloonController, other: Collider, enter: bool) returns (ev: BalloonEvent)
    requires Valid()
    requires other.tag == ChainTag || (!enter && other.tag == BalloonTag)
    requires LinkTarget(other.chain, other.balloon) != null ==> LinkTarget(other.chain, other.balloon) in Chains()
    modifies b, LinkTarget(other.chain, other.balloon)
    ensures Valid()
    ensures ev.NoEvent? || ev.ChainBrokeEvent?
    ensures ev.ChainBrokeEvent? ==> ev.chain.isBroken
    ensures ev.ChainBrokeEvent? ==>
              forall k :: 0 <= k < |stages| && stages[k].subscribed && stages[k].chain == ev.chain ==>
                k == currentStageNumber - 1
    ensures b.LinkedOnContact(old(LinkTarget(other.chain, other.balloon)), ev) && b.BodyKept()
    ensures forall x :: x in spawner.balloons && x != b ==> unchanged(x)
  {
    if enter {
      ev := EnterContact(b, other);
    } else {
      ev := StayContact(b, other);
    }
  }

  /**
   * DeliverBalloonEvent for what a linking contact can report: nothing, or a
   * break of a chain that only the current stage can hold. The stage advances
   * exactly when the current stage was started and holds that chain; after a
   * break that is not the last, the reporting balloon is unlinked if it is
   * listed, and otherwise keeps its link.
   */
  method DeliverLinkEvent(b: BalloonController, ev: BalloonEvent)
    requires Valid()
    requires ev.NoEvent? || ev.ChainBrokeEvent?
    requires ev.ChainBrokeEvent? ==> ev.chain.isBroken
    requires ev.ChainBrokeEvent? ==>
               forall k :: 0 <= k < |stages| && stages[k].subscribed && stages[k].chain == ev.chain ==>
                 k == currentStageNumber - 1
    modifies this`stages, this`currentStageNumber, this`transitioning, this`currentLevelNumber, this`savedLevel
    modifies this`gameState, this`shownState, this`paused, spawner`balloons, spawner`enabled
    modifies set x | x in spawner.balloons
    ensures Valid() && ChainsKept()
    ensures var cur := old(currentStageNumber);
            var breaks := ev.ChainBrokeEvent? && 1 <= cur <= |old(stages)|
                          && old(stages)[cur - 1].subscribed && old(stages)[cur - 1].chain == ev.chain;
            && currentStageNumber == cur + (if breaks then 1 else 0)
            && if breaks && cur < |old(stages)| && b in spawner.balloons then !b.linked
               else b.linked == old(b.linked) && b.linkedChain == old(b.linkedChain)
    ensures ContactSettled(b)
    ensures b.BodyKept()
  {
    DeliverBalloonEvent(b, ev);
  }

  /**
   * The balloon's OnCollisionStay2D, seen from the game manager: the contact
   * keeps the manager's invariant, and a ChainBroke it reports can only be the
   * current stage's.
   */
  method StayContact(b: BalloonController, other: Collider) returns (ev: BalloonEvent)
    requires Valid()
    requires LinkTarget(other.chain, other.balloon) != null ==> LinkTarget(other.chain, other.balloon) in Chains()
    modifies b, LinkTarget(other.chain, other.balloon)
    ensures Valid()
    ensures ev.ChainBrokeEvent? ==> ev.chain.isBroken
    ensures ev.ChainBrokeEvent? ==>
              forall k :: 0 <= k < |stages| && stages[k].subscribed && stages[k].chain == ev.chain ==>
                k == currentStageNumber - 1
    ensures var target := old(LinkTarget(other.chain, other.balloon));
      match other.tag
      case SpikeTag =>
        ev == (if old(b.popped) then NoEvent else PoppedEvent)
        && (if old(b.popped) then unchanged(b) else b.popped && b.destroyed)
        && b.linked == old(b.linked) && b.linkedChain == old(b.linkedChain) && (target != null ==> unchanged(target))
      case ChainTag => b.LinkedOnContact(target, ev) && b.popped == old(b.popped) && b.destroyed == old(b.destroyed)
      case BalloonTag => b.LinkedOnContact(target, ev) && b.popped == old(b.popped) && b.destroyed == old(b.destroyed)
      case OtherTag => ev == NoEvent && unchanged(b) && (target != null ==> unchanged(target))
    ensures b.launched == old(b.launched) && b.currentSize == old(b.currentSize) && b.currentNumber == old(b.currentNumber)
  {
    ghost var target := LinkTarget(other.chain, other.balloon);
    ev := b.OnCollisionStay2D(other);
    if ev.ChainBrokeEvent? {
      OnlyCurrentStageBreaks(target);
    }
  }

  /** The balloon's OnCollisionEnter2D, seen from the game manager, as StayContact. */
  method EnterContact(b: BalloonController, other: Collider) returns (ev: BalloonEvent)
    requires Valid()
    requires LinkTarget(other.chain, other.balloon) != null ==> LinkTarget(other.chain, other.balloon) in Chains()
    modifies b, LinkTarget(other.chain, other.balloon)
    ensures Valid()
    ensures ev.ChainBrokeEvent? ==> ev.chain.isBroken
    ensures ev.ChainBrokeEvent? ==>
              forall k :: 0 <= k < |stages| && stages[k].subscribed && stages[k].chain == ev.chain ==>
                k == currentStageNumber - 1
    ensures var target := old(LinkTarget(other.chain, other.balloon));
      if other.tag == ChainTag then b.LinkedOnContact(target, ev)
      else ev == NoEvent && unchanged(b) && (target != null ==> unchanged(target))
    ensures ev != PoppedEvent
    ensures b.BodyKept()
  {
    ghost var target := LinkTarget(other.chain, other.balloon);
    ev := b.OnCollisionEnter2D(other);
    if ev.ChainBrokeEvent? {
      OnlyCurrentStageBreaks(target);
    }
  }

  /**
   * A spike ball's contact with a balloon: an active spike ball pops a balloon
   * that has not been launched; a launched balloon bounces it off untouched.
   */
  method SpikeBallCollision(b: BalloonController, spikeActive: bool)
    requires Valid()
    modifies this`gameState, this`paused, this`shownState, spawner`balloons, b
    ensures Valid()
    ensures !(spikeActive && !old(b.launched) && !old(b.popped)) ==>
              unchanged(b) && spawner.balloons == old(spawner.balloons)
              && gameState == old(gameState) && shownState == old(shownState) && paused == old(paused)
    ensures spikeActive && !old(b.launched) && !old(b.popped) ==>
              b.popped && b.destroyed && spawner.balloons == RemoveFirst(old(spawner.balloons), b) && LoseChecked()
    ensures b.launched == old(b.launched) && b.linked == old(b.linked) && b.linkedChain == old(b.linkedChain)
    ensures b.currentSize == old(b.currentSize) && b.currentNumber == old(b.currentNumber)
  {
    if spikeActive && !b.launched {
      var notified := b.Pop();
      if notified {
        spawner.BalloonPopped(b);
        BalloonPop();
      }
    }
  }
}
