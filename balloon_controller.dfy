// One balloon (Assets/Scripts/BalloonController.cs): its launched, linked and
// popped flags, its size, its number, and the rule that links it to a chain.
//
// Physics is replaced by inputs. The eight overlap queries of TrySmartGrow
// become eight booleans ("this probe found only the balloon itself"). A
// collision becomes a Collider value: the other body's tag and the results of
// its GetComponent lookups. The Popped and ChainBroke notifications become the
// BalloonEvent a collision handler returns.

/** The number of probe directions: the four axes and the four diagonals. */
const ProbeCount: nat := 8

/** How many probes found free space. */
function CountFree(probes: seq<bool>): (n: nat)
  ensures n <= |probes|
  decreases |probes|
{
  if probes == [] then 0
  else CountFree(probes[..|probes| - 1]) + (if probes[|probes| - 1] then 1 else 0)
}

/** Growth is allowed when at least one direction is free (not all eight need be). */
predicate CanGrow(probes: seq<bool>)
{
  exists i :: 0 <= i < |probes| && probes[i]
}

/** The counting loop of TrySmartGrow decides exactly CanGrow. */
lemma {:induction false} CountFreePositiveIffCanGrow(probes: seq<bool>)
  ensures CountFree(probes) > 0 <==> CanGrow(probes)
  decreases |probes|
{
  if probes != [] {
    var init := probes[..|probes| - 1];
    CountFreePositiveIffCanGrow(init);
    if CanGrow(init) {
      var i :| 0 <= i < |init| && init[i];
      assert probes[i];
    }
    if CanGrow(probes) && !probes[|probes| - 1] {
      var i :| 0 <= i < |probes| && probes[i];
      assert init[i];
    }
  }
}

/** The tag of the other collider in a collision. */
datatype Tag = SpikeTag | ChainTag | BalloonTag | OtherTag

/**
 * The other side of a collision: its tag, the Chain found on it or on a parent,
 * and the BalloonController found on it (null when there is none).
 */
datatype Collider = Collider(tag: Tag, chain: Chain?, balloon: BalloonController?)

/** What a balloon's collision handler notifies its subscribers of. */
datatype BalloonEvent = NoEvent | PoppedEvent | ChainBrokeEvent(chain: Chain)

/**
 * The chain a contact links a launched, unlinked balloon to: the touched chain
 * when it is unbroken, otherwise the chain of a touched balloon that is linked
 * to an unbroken chain, otherwise none.
 */
function LinkTarget(touchedChain: Chain?, touchedBalloon: BalloonController?): (c: Chain?)
  reads touchedChain, touchedBalloon
  reads if touchedBalloon != null then {touchedBalloon.linkedChain} else {}
  ensures c != null ==> !c.isBroken
  ensures c != null ==> c == touchedChain || (touchedBalloon != null && touchedBalloon.linked && c == touchedBalloon.linkedChain)
  ensures touchedChain != null && !touchedChain.isBroken ==> c == touchedChain
  ensures c == null ==> (touchedChain == null || touchedChain.isBroken)
                        && (touchedBalloon == null || !touchedBalloon.linked || touchedBalloon.linkedChain == null
                            || touchedBalloon.linkedChain.isBroken)
{
  if touchedChain != null && !touchedChain.isBroken then touchedChain
  else if touchedBalloon != null && touchedBalloon.linked && touchedBalloon.linkedChain != null
          && !touchedBalloon.linkedChain.isBroken then touchedBalloon.linkedChain
  else null
}

class BalloonController {
  var launched: bool
  var linked: bool
  var popped: bool
  var linkedChain: Chain?
  var currentSize: real
  var currentNumber: real
  /** Destroy(gameObject) has run: Unity then compares the object equal to null. */
  var destroyed: bool

  /** A balloon is linked exactly when it holds a chain. */
  ghost predicate Valid()
    reads this
  {
    linked <==> linkedChain != null
  }

  /** A new balloon: number 1, size from the prefab's scale, not launched, linked or popped. */
  constructor (prefabScale: real)
    ensures Valid()
    ensures !launched && !linked && !popped && linkedChain == null
    ensures currentSize == prefabScale && currentNumber == 1.0 && !destroyed
  {
    destroyed := false;
    launched := false;
    linked := false;
    popped := false;
    linkedChain := null;
    currentSize := prefabScale;
    currentNumber := 1.0;
  }

  /** The number shown and used for linking: the number rounded down. */
  function GetCurrentNumber(): (n: int)
    reads this
    ensures n as real <= currentNumber < n as real + 1.0
  {
    currentNumber.Floor
  }

  method Launch()
    modifies this
    ensures launched
    ensures linked == old(linked) && linkedChain == old(linkedChain) && popped == old(popped) && destroyed == old(destroyed)
    ensures currentSize == old(currentSize) && currentNumber == old(currentNumber)
    ensures old(Valid()) ==> Valid()
  {
    launched := true;
  }

  /**
   * Pops the balloon and destroys it; `notified` says whether Popped was
   * invoked, which happens only the first time.
   */
  method Pop() returns (notified: bool)
    modifies this
    ensures notified == !old(popped)
    ensures if old(popped) then unchanged(this) else popped && destroyed
    ensures launched == old(launched) && linked == old(linked) && linkedChain == old(linkedChain)
    ensures currentSize == old(currentSize) && currentNumber == old(currentNumber)
    ensures old(Valid()) ==> Valid()
  {
    if popped {
      return false;
    }
    notified := true;
    popped := true;
    destroyed := true;
  }

  /** Destroy(gameObject) without popping, as ClearBalloons does. */
  method Destroy()
    modifies this
    ensures destroyed
    ensures launched == old(launched) && linked == old(linked) && linkedChain == old(linkedChain)
    ensures popped == old(popped) && currentSize == old(currentSize) && currentNumber == old(currentNumber)
    ensures old(Valid()) ==> Valid()
  {
    destroyed := true;
  }

  /** Forgets the link so the balloon can pay into another chain; nothing else changes. */
  method ResetLink()
    modifies this
    ensures Valid() && !linked && linkedChain == null
    ensures launched == old(launched) && popped == old(popped) && destroyed == old(destroyed)
    ensures currentSize == old(currentSize) && currentNumber == old(currentNumber)
  {
    linkedChain := null;
    linked := false;
  }

  /**
   * One inflate step: grows by `delta` (growth rate times frame time) when at
   * least one of the eight probes is free, and then the number becomes five
   * times the size.
   */
  method TrySmartGrow(probes: seq<bool>, delta: real)
    requires |probes| == ProbeCount
    modifies this
    ensures CanGrow(probes) ==> currentSize == old(currentSize) + delta && currentNumber == currentSize * 5.0
    ensures !CanGrow(probes) ==> currentSize == old(currentSize) && currentNumber == old(currentNumber)
    ensures launched == old(launched) && linked == old(linked) && linkedChain == old(linkedChain)
    ensures popped == old(popped) && destroyed == old(destroyed)
    ensures old(Valid()) ==> Valid()
  {
    var freeCount := 0;
    var i := 0;
    while i < |probes|
      invariant 0 <= i <= |probes|
      invariant freeCount == CountFree(probes[..i])
    {
      assert probes[..i + 1][..i] == probes[..i];
      if probes[i] {
        freeCount := freeCount + 1;
      }
      i := i + 1;
    }
    assert probes[..i] == probes;
    CountFreePositiveIffCanGrow(probes);
    if freeCount > 0 {
      currentSize := currentSize + delta;
      currentNumber := currentSize * 5.0;
    }
  }

  /** Links to `chain` (set before subtracting) and pays the rounded-down number into it. */
  method LinkToChain(chain: Chain) returns (broke: bool)
    requires chain.Valid()
    modifies this, chain
    ensures Valid() && linked && linkedChain == chain
    ensures chain.Valid()
    ensures chain.State() == Subtracted(old(chain.State()), old(GetCurrentNumber()))
    ensures broke == BreaksOn(old(chain.State()), old(GetCurrentNumber()))
    ensures launched == old(launched) && popped == old(popped) && destroyed == old(destroyed)
    ensures currentSize == old(currentSize) && currentNumber == old(currentNumber)
  {
    linked := true;
    linkedChain := chain;
    broke := chain.Subtract(GetCurrentNumber());
  }

  /**
   * The link rule: only a launched, unlinked balloon links, and it links to
   * LinkTarget, subtracting from that chain exactly once; every other contact
   * changes nothing. `broke` says whether the chain's ChainBroke fired.
   */
  method TryLink(touchedChain: Chain?, touchedBalloon: BalloonController?) returns (broke: bool)
    requires LinkTarget(touchedChain, touchedBalloon) != null ==> LinkTarget(touchedChain, touchedBalloon).Valid()
    modifies this, LinkTarget(touchedChain, touchedBalloon)
    ensures var target := old(LinkTarget(touchedChain, touchedBalloon));
      if old(linked) || !old(launched) || target == null then
        !broke && linked == old(linked) && linkedChain == old(linkedChain)
        && (target != null ==> unchanged(target))
      else
        linked && linkedChain == target && target.Valid()
        && target.State() == Subtracted(old(target.State()), old(GetCurrentNumber()))
        && broke == BreaksOn(old(target.State()), old(GetCurrentNumber()))
    ensures old(Valid()) ==> Valid()
    ensures launched == old(launched) && popped == old(popped) && destroyed == old(destroyed)
    ensures currentSize == old(currentSize) && currentNumber == old(currentNumber)
  {
    broke := false;
    if linked || !launched {
      return;
    }
    var chain := touchedChain;
    if chain != null && !chain.isBroken {
      broke := LinkToChain(chain);
      return;
    }
    var other := touchedBalloon;
    if other != null && other.linked && other.linkedChain != null && !other.linkedChain.isBroken {
      broke := LinkToChain(other.linkedChain);
    }
  }

  /** Everything but the link is as it was: launched and pop state, the destroyed flag, size and number. */
  twostate predicate BodyKept()
    reads this
  {
    && launched == old(launched) && popped == old(popped) && destroyed == old(destroyed)
    && currentSize == old(currentSize) && currentNumber == old(currentNumber)
  }

  /**
   * What a TryLink on a contact whose LinkTarget was `target` did, as the event
   * it reports: a link and one subtraction, or nothing at all.
   */
  twostate predicate LinkedOnContact(target: Chain?, new ev: BalloonEvent)
    reads this, target
  {
    if !old(linked) && old(launched) && target != null then
      linked && linkedChain == target && target.Valid()
      && target.State() == Subtracted(old(target.State()), old(GetCurrentNumber()))
      && ev == (if BreaksOn(old(target.State()), old(GetCurrentNumber())) then ChainBrokeEvent(target) else NoEvent)
    else
      ev == NoEvent && linked == old(linked) && linkedChain == old(linkedChain)
      && (target != null ==> unchanged(target))
  }

  /** Collision entry: only a "Chain" contact is handled, by TryLink. */
  method OnCollisionEnter2D(other: Collider) returns (ev: BalloonEvent)
    requires LinkTarget(other.chain, other.balloon) != null ==> LinkTarget(other.chain, other.balloon).Valid()
    modifies this, LinkTarget(other.chain, other.balloon)
    ensures var target := old(LinkTarget(other.chain, other.balloon));
      if other.tag == ChainTag then LinkedOnContact(target, ev)
      else ev == NoEvent && unchanged(this) && (target != null ==> unchanged(target))
    ensures ev != PoppedEvent
    ensures old(Valid()) ==> Valid()
    ensures launched == old(launched) && popped == old(popped) && destroyed == old(destroyed)
    ensures currentSize == old(currentSize) && currentNumber == old(currentNumber)
  {
    ev := NoEvent;
    if other.tag == ChainTag {
      var target := LinkTarget(other.chain, other.balloon);
      var broke := TryLink(other.chain, other.balloon);
      if broke {
        ev := ChainBrokeEvent(target);
      }
    }
  }

  /**
   * Ongoing contact: a "Spike" contact pops the balloon, launched or not; a
   * "Chain" or "Balloon" contact is handled by TryLink; anything else is ignored.
   */
  method OnCollisionStay2D(other: Collider) returns (ev: BalloonEvent)
    requires LinkTarget(other.chain, other.balloon) != null ==> LinkTarget(other.chain, other.balloon).Valid()
    modifies this, LinkTarget(other.chain, other.balloon)
    ensures var target := old(LinkTarget(other.chain, other.balloon));
      match other.tag
      case SpikeTag =>
        ev == (if old(popped) then NoEvent else PoppedEvent)
        && (if old(popped) then unchanged(this) else popped && destroyed)
        && linked == old(linked) && linkedChain == old(linkedChain) && (target != null ==> unchanged(target))
      case ChainTag => LinkedOnContact(target, ev) && popped == old(popped) && destroyed == old(destroyed)
      case BalloonTag => LinkedOnContact(target, ev) && popped == old(popped) && destroyed == old(destroyed)
      case OtherTag => ev == NoEvent && unchanged(this) && (target != null ==> unchanged(target))
    ensures old(Valid()) ==> Valid()
    ensures launched == old(launched)
    ensures currentSize == old(currentSize) && currentNumber == old(currentNumber)
  {
    ev := NoEvent;
    if other.tag == SpikeTag {
      var notified := Pop();
      if notified {
        ev := PoppedEvent;
      }
    } else if other.tag == ChainTag || other.tag == BalloonTag {
      var target := LinkTarget(other.chain, other.balloon);
      var broke := TryLink(other.chain, other.balloon);
      if broke {
        ev := ChainBrokeEvent(target);
      }
    }
  }
}
