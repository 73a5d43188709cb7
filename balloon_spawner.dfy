// The balloon spawner (Assets/Scripts/BalloonSpawner.cs): press, hold and
// release for the one current balloon, and the list of live balloons.
//
// Input arrives as the three flags HandleInput receives plus the eight probe
// results and the growth step of the balloon being inflated. Unity's
// overloaded == makes a destroyed object equal to null; the model tests the
// balloon's `destroyed` flag where the C# tests for null.

/** The list after List.Remove: the first occurrence of x taken out, if there is one. */
function RemoveFirst<T(==)>(s: seq<T>, x: T): (r: seq<T>)
  ensures |r| == if x in s then |s| - 1 else |s|
  decreases |s|
{
  if s == [] then []
  else if s[0] == x then s[1..]
  else [s[0]] + RemoveFirst(s[1..], x)
}

/** RemoveFirst leaves a list that does not hold x as it is. */
lemma {:induction false} RemoveFirstAbsent<T>(s: seq<T>, x: T)
  requires x !in s
  ensures RemoveFirst(s, x) == s
  decreases |s|
{
  if s != [] {
    RemoveFirstAbsent(s[1..], x);
  }
}

/**
 * When x first occurs at index k, RemoveFirst cuts out exactly that element,
 * keeps the order of the rest, and so takes one x out of the multiset.
 */
lemma {:induction false} RemoveFirstCutsFirstOccurrence<T>(s: seq<T>, x: T, k: nat)
  requires k < |s| && s[k] == x && x !in s[..k]
  ensures RemoveFirst(s, x) == s[..k] + s[k + 1..]
  ensures multiset(RemoveFirst(s, x)) == multiset(s) - multiset{x}
  decreases k
{
  if k > 0 {
    assert s[0] == s[..k][0];
    assert s[1..][..k - 1] == s[1..k];
    RemoveFirstCutsFirstOccurrence(s[1..], x, k - 1);
    assert s[..k] == [s[0]] + s[1..][..k - 1];
    assert s[k + 1..] == s[1..][k..];
  }
  MultisetCut(s, k);
}

/** Cutting out the element at index k takes one copy of it out of the multiset. */
lemma MultisetCut<T>(s: seq<T>, k: nat)
  requires k < |s|
  ensures multiset(s[..k] + s[k + 1..]) == multiset(s) - multiset{s[k]}
{
  assert s == s[..k] + [s[k]] + s[k + 1..];
}

/** The balloon is there and not destroyed: what `balloon != null` means in Unity. */
predicate Live(b: BalloonController?)
  reads b
{
  b != null && !b.destroyed
}

class BalloonSpawner {
  /** The prefab's scale, which every new balloon starts with. */
  const prefabScale: real
  var balloons: seq<BalloonController>
  var currentBalloon: BalloonController?
  /** Unity runs Update, and so HandleInput, only while the component is enabled. */
  var enabled: bool

  /** The balloon being held has not been launched: a launched balloon is never inflated again. */
  ghost predicate Valid()
    reads this, currentBalloon
  {
    Live(currentBalloon) ==> !currentBalloon.launched
  }

  constructor (prefabScale: real)
    ensures Valid()
    ensures this.prefabScale == prefabScale
    ensures balloons == [] && currentBalloon == null && enabled
  {
    this.prefabScale := prefabScale;
    balloons := [];
    currentBalloon := null;
    enabled := true;
  }

  /**
   * One frame of input. A press when the budget is spent only checks for a
   * loss. A permitted press registers one balloon, creates it and makes it
   * current; hold inflates the current balloon by one step; release launches
   * it and lets it go.
   */
  method HandleInput(gm: GameManager, isHeld: bool, justPressed: bool, justReleased: bool,
                     probes: seq<bool>, delta: real)
    requires gm.spawner == this && gm.Valid() && enabled
    requires |probes| == ProbeCount
    modifies this, currentBalloon, gm`balloonsUsed, gm`gameState, gm`paused, gm`shownState
    ensures gm.Valid()
    ensures enabled == old(enabled)
    ensures justPressed && !old(gm.CanCreateBalloon()) ==>
              && gm.LoseChecked()
              && balloons == old(balloons) && currentBalloon == old(currentBalloon)
              && (old(currentBalloon) != null ==> unchanged(old(currentBalloon)))
    ensures justPressed && old(gm.CanCreateBalloon()) ==>
              && gm.BalloonRegistered()
              && |balloons| == |old(balloons)| + 1 && balloons[..|old(balloons)|] == old(balloons)
              && (var b := balloons[|old(balloons)|];
                  && fresh(b) && b.Valid() && !b.linked && !b.popped && !b.destroyed
                  && b.launched == justReleased
                  && b.currentSize == (if isHeld && CanGrow(probes) then prefabScale + delta else prefabScale)
                  && b.currentNumber == (if isHeld && CanGrow(probes) then b.currentSize * 5.0 else 1.0)
                  && currentBalloon == (if justReleased then null else b))
              && (old(currentBalloon) != null ==> unchanged(old(currentBalloon)))
    ensures !justPressed ==>
              && unchanged(gm) && balloons == old(balloons)
              && (var b := old(currentBalloon);
                  if !old(Live(b)) then currentBalloon == b && (b != null ==> unchanged(b))
                  else
                    && currentBalloon == (if justReleased then null else b)
                    && b.launched == justReleased
                    && b.currentSize == (if isHeld && CanGrow(probes) then old(b.currentSize) + delta else old(b.currentSize))
                    && b.currentNumber == (if isHeld && CanGrow(probes) then b.currentSize * 5.0 else old(b.currentNumber))
                    && b.linked == old(b.linked) && b.linkedChain == old(b.linkedChain)
                    && b.popped == old(b.popped) && !b.destroyed)
  {
    if justPressed {
      var granted := Press(gm);
      if !granted {
        return;
      }
    }
    HoldAndRelease(gm, isHeld, justReleased, probes, delta);
  }

  /**
   * The press branch of HandleInput. `granted` says whether the budget allowed
   * a balloon: if not, only CheckForLose runs; if so, one balloon is
   * registered, created, listed and made current.
   */
  method Press(gm: GameManager) returns (granted: bool)
    requires gm.spawner == this && gm.Valid()
    modifies this`balloons, this`currentBalloon, gm`balloonsUsed, gm`gameState, gm`paused, gm`shownState
    ensures gm.Valid()
    ensures granted == old(gm.CanCreateBalloon())
    ensures !granted ==> gm.LoseChecked() && balloons == old(balloons) && currentBalloon == old(currentBalloon)
    ensures granted ==>
              && gm.BalloonRegistered()
              && currentBalloon != null && fresh(currentBalloon) && balloons == old(balloons) + [currentBalloon]
              && currentBalloon.Valid() && !currentBalloon.launched && !currentBalloon.linked
              && !currentBalloon.popped && !currentBalloon.destroyed
              && currentBalloon.currentSize == prefabScale && currentBalloon.currentNumber == 1.0
  {
    if !gm.CanCreateBalloon() {
      gm.CheckForLose();
      return false;
    }
    granted := true;
    gm.RegisterBalloon();
    var b := new BalloonController(prefabScale);
    currentBalloon := b;
    balloons := balloons + [b];
  }

  /**
   * The hold and release branches of HandleInput: hold inflates the current
   * balloon by one step, release launches it and lets it go; with no live
   * current balloon neither does anything.
   */
  method HoldAndRelease(gm: GameManager, isHeld: bool, justReleased: bool, probes: seq<bool>, delta: real)
    requires gm.spawner == this && gm.Valid()
    requires |probes| == ProbeCount
    modifies this`currentBalloon, currentBalloon
    ensures gm.Valid()
    ensures var b := old(currentBalloon);
      if !old(Live(b)) then currentBalloon == b && (b != null ==> unchanged(b))
      else
        && currentBalloon == (if justReleased then null else b)
        && b.launched == (old(b.launched) || justReleased)
        && b.currentSize == (if isHeld && CanGrow(probes) then old(b.currentSize) + delta else old(b.currentSize))
        && b.currentNumber == (if isHeld && CanGrow(probes) then b.currentSize * 5.0 else old(b.currentNumber))
        && b.linked == old(b.linked) && b.linkedChain == old(b.linkedChain)
        && b.popped == old(b.popped) && !b.destroyed
  {
    if isHeld && currentBalloon != null && !currentBalloon.destroyed {
      currentBalloon.TrySmartGrow(probes, delta);
    }
    if justReleased && currentBalloon != null && !currentBalloon.destroyed {
      currentBalloon.Launch();
      currentBalloon := null;
    }
  }

  /** Popped handler: drops the balloon from the list if it is there. */
  method BalloonPopped(b: BalloonController)
    modifies this`balloons
    ensures balloons == RemoveFirst(old(balloons), b)
  {
    var k := 0;
    while k < |balloons| && balloons[k] != b
      invariant 0 <= k <= |balloons| && b !in balloons[..k]
    {
      assert balloons[..k + 1] == balloons[..k] + [balloons[k]];
      k := k + 1;
    }
    if k < |balloons| {
      RemoveFirstCutsFirstOccurrence(balloons, b, k);
      balloons := balloons[..k] + balloons[k + 1..];
    } else {
      assert balloons[..k] == balloons;
      RemoveFirstAbsent(balloons, b);
    }
  }

  /** Forgets the link of every listed balloon; the list and everything else stay as they are. */
  method ResetActiveBalloons()
    modifies set b | b in balloons
    ensures forall b :: b in balloons ==> b.Valid() && !b.linked && b.linkedChain == null
    ensures forall b :: b in balloons ==>
              && b.launched == old(b.launched) && b.popped == old(b.popped) && b.destroyed == old(b.destroyed)
              && b.currentSize == old(b.currentSize) && b.currentNumber == old(b.currentNumber)
  {
    var i := 0;
    while i < |balloons|
      invariant 0 <= i <= |balloons|
      invariant forall j :: 0 <= j < i ==> balloons[j].Valid() && !balloons[j].linked && balloons[j].linkedChain == null
      invariant forall b :: b in balloons ==>
                  && b.launched == old(b.launched) && b.popped == old(b.popped) && b.destroyed == old(b.destroyed)
                  && b.currentSize == old(b.currentSize) && b.currentNumber == old(b.currentNumber)
    {
      balloons[i].ResetLink();
      i := i + 1;
    }
  }

  /** Destroys every listed balloon and empties the list. */
  method ClearBalloons()
    modifies this`balloons, set b | b in balloons
    ensures balloons == []
    ensures forall b :: b in old(balloons) ==>
              && b.destroyed && b.launched == old(b.launched) && b.popped == old(b.popped)
              && b.linked == old(b.linked) && b.linkedChain == old(b.linkedChain)
              && b.currentSize == old(b.currentSize) && b.currentNumber == old(b.currentNumber)
  {
    var i := 0;
    while i < |balloons|
      invariant 0 <= i <= |balloons| && balloons == old(balloons)
      invariant forall j :: 0 <= j < i ==> balloons[j].destroyed
      invariant forall b :: b in balloons ==>
                  && b.launched == old(b.launched) && b.popped == old(b.popped)
                  && b.linked == old(b.linked) && b.linkedChain == old(b.linkedChain)
                  && b.currentSize == old(b.currentSize) && b.currentNumber == old(b.currentNumber)
    {
      balloons[i].Destroy();
      i := i + 1;
    }
    balloons := [];
  }
}
