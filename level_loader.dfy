// Building a level from its data (Assets/Scripts/LevelLoader.cs): one Stage
// per stage record, each stage scaled up by `scaleFactor` from the previous
// one and placed directly above it, with a camera size scaled the same way.
//
// JSON parsing, prefab instantiation, colours and the obstacle and hazard
// geometry are left out. A parsed level is a LevelData value, and a stage keeps
// its chain, its placement, its obstacle and hazard counts and the on/off
// state of its objects.

datatype ObstacleData = ObstacleData(x: real, y: real, width: real, height: real)
datatype HazardData = HazardData(x: real, y: real, speed: real)
datatype StageData = StageData(chainValue: int, obstacles: seq<ObstacleData>, hazards: seq<HazardData>)
datatype LevelData = LevelData(balloonLimit: int, stages: seq<StageData>)

/**
 * A built stage: its chain, its placement, how many obstacles and hazards it
 * holds, whether its stage object, bottom wall and obstacles are active,
 * whether its hazards have started moving or been disabled, and whether the
 * game manager has subscribed to its ChainBroke.
 */
datatype Stage = Stage(
  chain: Chain,
  posY: real, scale: real, camSize: real,
  obstacleCount: nat, hazardCount: nat,
  active: bool, wallActive: bool, obstaclesActive: bool,
  hazardsMoving: bool, hazardsDisabled: bool,
  subscribed: bool)

datatype Level = Level(balloonLimit: int, stages: seq<Stage>)

/** Where a stage sits: the y of its centre, its scale and the camera size that frames it. */
datatype Placement = Placement(posY: real, scale: real, camSize: real)

/**
 * The layout recurrence. Stage 0 keeps the prefab's place (y 0, scale 1) and the
 * base camera size. Each later stage is `scaleFactor` times the previous one
 * and sits on top of it: half the previous height plus half its own above the
 * previous centre.
 */
function PlacementAt(i: nat, scaleFactor: real, levelHeight: real, baseOrthoSize: real): Placement
  decreases i
{
  if i == 0 then Placement(0.0, 1.0, baseOrthoSize)
  else
    var last := PlacementAt(i - 1, scaleFactor, levelHeight, baseOrthoSize);
    var curScale := last.scale * scaleFactor;
    Placement(StageY(last.posY, last.scale, curScale, levelHeight), curScale, last.camSize * scaleFactor)
}

/** The centre of a stage of scale curScale resting on one of scale lastScale centred at lastY. */
function StageY(lastY: real, lastScale: real, curScale: real, levelHeight: real): (y: real)
  ensures y - levelHeight * curScale / 2.0 == lastY + levelHeight * lastScale / 2.0
{
  0.5 * (levelHeight * lastScale) + 0.5 * (levelHeight * curScale) + lastY
}

function Pow(x: real, n: nat): real
  decreases n
{
  if n == 0 then 1.0 else x * Pow(x, n - 1)
}

lemma {:induction false} PowPositive(x: real, n: nat)
  requires x > 0.0
  ensures Pow(x, n) > 0.0
  decreases n
{
  if n > 0 {
    PowPositive(x, n - 1);
  }
}

/** Closed form of the recurrence: stage i is scaleFactor^i times stage 0, camera included. */
lemma {:induction false} ScaleAndCamSizeClosedForm(i: nat, scaleFactor: real, levelHeight: real, baseOrthoSize: real)
  ensures PlacementAt(i, scaleFactor, levelHeight, baseOrthoSize).scale == Pow(scaleFactor, i)
  ensures PlacementAt(i, scaleFactor, levelHeight, baseOrthoSize).camSize == baseOrthoSize * Pow(scaleFactor, i)
  decreases i
{
  if i > 0 {
    var last := PlacementAt(i - 1, scaleFactor, levelHeight, baseOrthoSize);
    var p := Pow(scaleFactor, i - 1);
    assert last.scale == p && last.camSize == baseOrthoSize * p by {
      ScaleAndCamSizeClosedForm(i - 1, scaleFactor, levelHeight, baseOrthoSize);
    }
    ScaleStep(scaleFactor, p, baseOrthoSize, last.scale, last.camSize, Pow(scaleFactor, i));
  }
}

/** One step of the closed form: multiplying x^(i-1) and c * x^(i-1) by x gives x^i and c * x^i. */
lemma ScaleStep(x: real, p: real, c: real, lastScale: real, lastCamSize: real, q: real)
  requires lastScale == p && lastCamSize == c * p && q == x * p
  ensures lastScale * x == q
  ensures lastCamSize * x == c * q
{
  assert c * p * x == c * (x * p);
}

/** One step of the recurrence, from the placement of stage i-1. */
lemma PlacementNext(i: nat, scaleFactor: real, levelHeight: real, baseOrthoSize: real, last: Placement)
  requires i > 0 && last == PlacementAt(i - 1, scaleFactor, levelHeight, baseOrthoSize)
  ensures var curScale := last.scale * scaleFactor;
          PlacementAt(i, scaleFactor, levelHeight, baseOrthoSize)
          == Placement(StageY(last.posY, last.scale, curScale, levelHeight), curScale, last.camSize * scaleFactor)
{
}

/**
 * No gap and no overlap: the bottom edge of stage i (i > 0) is the top edge of
 * stage i-1.
 */
lemma StagesAbut(i: nat, scaleFactor: real, levelHeight: real, baseOrthoSize: real)
  requires i > 0
  ensures var cur := PlacementAt(i, scaleFactor, levelHeight, baseOrthoSize);
          var last := PlacementAt(i - 1, scaleFactor, levelHeight, baseOrthoSize);
          cur.posY - levelHeight * cur.scale / 2.0 == last.posY + levelHeight * last.scale / 2.0
{
}

/** With a positive scale factor and height, every stage is strictly above all earlier ones. */
lemma {:induction false} PosYStrictlyIncreasing(i: nat, j: nat, scaleFactor: real, levelHeight: real, baseOrthoSize: real)
  requires scaleFactor > 0.0 && levelHeight > 0.0
  requires i < j
  ensures PlacementAt(i, scaleFactor, levelHeight, baseOrthoSize).posY
          < PlacementAt(j, scaleFactor, levelHeight, baseOrthoSize).posY
  decreases j
{
  ScaleAndCamSizeClosedForm(j - 1, scaleFactor, levelHeight, baseOrthoSize);
  ScaleAndCamSizeClosedForm(j, scaleFactor, levelHeight, baseOrthoSize);
  PowPositive(scaleFactor, j - 1);
  PowPositive(scaleFactor, j);
  var last := PlacementAt(j - 1, scaleFactor, levelHeight, baseOrthoSize);
  var cur := PlacementAt(j, scaleFactor, levelHeight, baseOrthoSize);
  assert levelHeight * last.scale > 0.0 && levelHeight * cur.scale > 0.0;
  assert last.posY < cur.posY;
  if i < j - 1 {
    PosYStrictlyIncreasing(i, j - 1, scaleFactor, levelHeight, baseOrthoSize);
  }
}

/** With factor 3, height 10 and camera size 5 the first three stages sit at 0, 20 and 80. */
lemma DefaultLayoutExample()
  ensures PlacementAt(0, 3.0, 10.0, 5.0) == Placement(0.0, 1.0, 5.0)
  ensures PlacementAt(1, 3.0, 10.0, 5.0) == Placement(20.0, 3.0, 15.0)
  ensures PlacementAt(2, 3.0, 10.0, 5.0) == Placement(80.0, 9.0, 45.0)
{
  var p1 := PlacementAt(1, 3.0, 10.0, 5.0);
  assert p1.scale == 3.0 && p1.camSize == 15.0;
  assert p1.posY == 0.5 * (10.0 * 1.0) + 0.5 * (10.0 * 3.0) + 0.0;
  var p2 := PlacementAt(2, 3.0, 10.0, 5.0);
  assert p2.scale == 9.0 && p2.camSize == 45.0;
  assert p2.posY == 0.5 * (10.0 * 3.0) + 0.5 * (10.0 * 9.0) + 20.0;
}

/** Stage i as LoadLevel leaves it: placed by the recurrence, only stage 0's bottom wall active. */
ghost predicate FreshlyLoaded(st: Stage, data: StageData, i: nat, scaleFactor: real, levelHeight: real, baseOrthoSize: real)
  reads st.chain
{
  && Placement(st.posY, st.scale, st.camSize) == PlacementAt(i, scaleFactor, levelHeight, baseOrthoSize)
  && st.chain.Valid() && st.chain.State() == ChainState(data.chainValue, false)
  && st.obstacleCount == |data.obstacles| && st.hazardCount == |data.hazards|
  && st.active && st.wallActive == (i == 0) && st.obstaclesActive
  && !st.hazardsMoving && !st.hazardsDisabled && !st.subscribed
}

class LevelLoader {
  const levelHeight: real
  const scaleFactor: real
  const referenceHeight: real
  const referenceOrthoSize: real
  var baseOrthoSize: real

  ghost predicate Valid()
    reads this
  {
    referenceHeight > 0.0 && referenceOrthoSize > 0.0
  }

  /** The inspector settings; the base camera size starts at 5. */
  constructor (levelHeight: real, scaleFactor: real, referenceHeight: real, referenceOrthoSize: real)
    requires referenceHeight > 0.0 && referenceOrthoSize > 0.0
    ensures Valid() && baseOrthoSize == 5.0
    ensures this.levelHeight == levelHeight && this.scaleFactor == scaleFactor
    ensures this.referenceHeight == referenceHeight && this.referenceOrthoSize == referenceOrthoSize
  {
    this.levelHeight := levelHeight;
    this.scaleFactor := scaleFactor;
    this.referenceHeight := referenceHeight;
    this.referenceOrthoSize := referenceOrthoSize;
    baseOrthoSize := 5.0;
  }

  /**
   * Keeps the base camera size unless the screen is taller than the reference,
   * in which case the camera keeps the reference's pixels per unit: the size
   * becomes screenHeight * referenceOrthoSize / referenceHeight, more than the
   * reference size.
   */
  method Start(screenHeight: int)
    requires Valid()
    modifies this
    ensures screenHeight as real <= referenceHeight ==> baseOrthoSize == old(baseOrthoSize)
    ensures screenHeight as real > referenceHeight ==>
              baseOrthoSize == screenHeight as real * referenceOrthoSize / referenceHeight
              && baseOrthoSize > referenceOrthoSize
  {
    if screenHeight as real <= referenceHeight {
      return;
    }
    var pixelsPerUnit := referenceHeight / (2.0 * referenceOrthoSize);
    baseOrthoSize := screenHeight as real / (2.0 * pixelsPerUnit);
    assert 2.0 * pixelsPerUnit == referenceHeight / referenceOrthoSize;
    assert screenHeight as real * referenceOrthoSize / referenceHeight > referenceHeight * referenceOrthoSize / referenceHeight;
  }

  /** Builds one stage per stage record, in order, each with a new chain set to the record's value. */
  method LoadLevel(data: LevelData) returns (level: Level)
    ensures level.balloonLimit == data.balloonLimit
    ensures |level.stages| == |data.stages|
    ensures forall i :: 0 <= i < |level.stages| ==>
              fresh(level.stages[i].chain)
              && FreshlyLoaded(level.stages[i], data.stages[i], i, scaleFactor, levelHeight, baseOrthoSize)
    ensures forall i, j :: 0 <= i < j < |level.stages| ==> level.stages[i].chain != level.stages[j].chain
  {
    var stages: seq<Stage> := [];
    var lastPosY := 0.0;
    var lastScale := 1.0;
    var lastCamSize := baseOrthoSize;
    var i := 0;
    while i < |data.stages|
      invariant 0 <= i <= |data.stages| && |stages| == i
      invariant Placement(lastPosY, lastScale, lastCamSize)
                == PlacementAt(if i == 0 then 0 else i - 1, scaleFactor, levelHeight, baseOrthoSize)
      invariant forall k :: 0 <= k < i ==>
                  fresh(stages[k].chain)
                  && FreshlyLoaded(stages[k], data.stages[k], k, scaleFactor, levelHeight, baseOrthoSize)
      invariant forall k, m :: 0 <= k < m < i ==> stages[k].chain != stages[m].chain
    {
      var stageData := data.stages[i];
      var chain := new Chain();
      chain.SetRequiredNumber(stageData.chainValue);
      var stage := Stage(chain, 0.0, 1.0, 5.0, |stageData.obstacles|, |stageData.hazards|,
                         true, false, true, false, false, false);
      if i == 0 {
        stage := stage.(camSize := baseOrthoSize, wallActive := true);
      } else {
        PlacementNext(i, scaleFactor, levelHeight, baseOrthoSize, Placement(lastPosY, lastScale, lastCamSize));
        var curScale := lastScale * scaleFactor;
        var stagePosY := 0.5 * (levelHeight * lastScale) + 0.5 * (levelHeight * curScale) + lastPosY;
        stage := stage.(posY := stagePosY, scale := curScale);
        lastScale := curScale;
        lastPosY := stagePosY;
        stage := stage.(camSize := lastCamSize * scaleFactor);
        lastCamSize := stage.camSize;
      }
      stages := stages + [stage];
      i := i + 1;
    }
    level := Level(data.balloonLimit, stages);
  }
}
