// The chain threshold budget of one stage (Assets/Scripts/Chain.cs).
//
// A chain holds a required number that linked balloons subtract their values
// from. Reaching zero or below breaks the chain: a one-way latch that fires the
// ChainBroke notification once. Here the notification is the `broke` result of
// Subtract, which the caller routes to its subscriber.

/** The value part of a chain: the remaining required number and the broken latch. */
datatype ChainState = ChainState(required: int, broken: bool)

/** The required number a chain holds until SetRequiredNumber is called. */
const DefaultRequiredNumber: int := 20

/** The number the chain's label shows: the required number, never below zero. */
function DisplayedNumber(s: ChainState): (d: int)
  ensures d >= 0 && d >= s.required
  ensures d == s.required || d == 0
{
  if s.required < 0 then 0 else s.required
}

/** Whether Subtract(v) on state s fires ChainBroke. */
predicate BreaksOn(s: ChainState, v: int)
{
  !s.broken && s.required - v <= 0
}

/** The state after Subtract(v): a no-op once broken, otherwise the value is taken off. */
function Subtracted(s: ChainState, v: int): (r: ChainState)
  ensures s.broken ==> r == s
  ensures !s.broken ==> r.required == s.required - v
  ensures r.broken <==> s.broken || BreaksOn(s, v)
{
  if s.broken then s
  else ChainState(s.required - v, s.required - v <= 0)
}

/** The state after subtracting every value of vs in order. */
function SubtractAll(s: ChainState, vs: seq<int>): ChainState
  decreases |vs|
{
  if vs == [] then s else SubtractAll(Subtracted(s, vs[0]), vs[1..])
}

/** How many times ChainBroke fires while the values of vs are subtracted in order. */
function BreakCount(s: ChainState, vs: seq<int>): nat
  decreases |vs|
{
  if vs == [] then 0
  else (if BreaksOn(s, vs[0]) then 1 else 0) + BreakCount(Subtracted(s, vs[0]), vs[1..])
}

function Sum(vs: seq<int>): int
  decreases |vs|
{
  if vs == [] then 0 else vs[0] + Sum(vs[1..])
}

/** Once broken, a chain ignores every further subtraction. */
lemma {:induction false} BrokenChainIgnoresSubtract(s: ChainState, vs: seq<int>)
  requires s.broken
  ensures SubtractAll(s, vs) == s && BreakCount(s, vs) == 0
  decreases |vs|
{
  if vs != [] {
    BrokenChainIgnoresSubtract(Subtracted(s, vs[0]), vs[1..]);
  }
}

/**
 * Over any sequence of subtractions ChainBroke fires at most once, and it fires
 * exactly when the chain goes from unbroken to broken.
 */
lemma {:induction false} ChainBrokeFiresAtMostOnce(s: ChainState, vs: seq<int>)
  ensures BreakCount(s, vs) <= 1
  ensures BreakCount(s, vs) == 1 <==> !s.broken && SubtractAll(s, vs).broken
  ensures s.broken ==> SubtractAll(s, vs).broken
  decreases |vs|
{
  if vs == [] {
  } else if s.broken {
    BrokenChainIgnoresSubtract(s, vs);
  } else if BreaksOn(s, vs[0]) {
    BrokenChainIgnoresSubtract(Subtracted(s, vs[0]), vs[1..]);
  } else {
    ChainBrokeFiresAtMostOnce(Subtracted(s, vs[0]), vs[1..]);
  }
}

/** While a chain stays unbroken, it has lost exactly the sum of the values subtracted. */
lemma {:induction false} UnbrokenChainLosesTheSum(s: ChainState, vs: seq<int>)
  requires !SubtractAll(s, vs).broken
  ensures !s.broken
  ensures SubtractAll(s, vs).required == s.required - Sum(vs)
  decreases |vs|
{
  if vs != [] {
    if Subtracted(s, vs[0]).broken {
      BrokenChainIgnoresSubtract(Subtracted(s, vs[0]), vs[1..]);
    }
    UnbrokenChainLosesTheSum(Subtracted(s, vs[0]), vs[1..]);
  }
}

/** With non-negative values (balloon numbers), subtraction never raises the required number. */
lemma {:induction false} SubtractNeverRaises(s: ChainState, vs: seq<int>)
  requires forall i :: 0 <= i < |vs| ==> vs[i] >= 0
  ensures SubtractAll(s, vs).required <= s.required
  decreases |vs|
{
  if vs != [] {
    SubtractNeverRaises(Subtracted(s, vs[0]), vs[1..]);
  }
}

lemma {:induction false} SubtractAllAppend(s: ChainState, vs: seq<int>, ws: seq<int>)
  ensures SubtractAll(s, vs + ws) == SubtractAll(SubtractAll(s, vs), ws)
  decreases |vs|
{
  if vs == [] {
    assert vs + ws == ws;
  } else {
    assert (vs + ws)[0] == vs[0] && (vs + ws)[1..] == vs[1..] + ws;
    SubtractAllAppend(Subtracted(s, vs[0]), vs[1..], ws);
  }
}

/**
 * A chain broken by subtraction shows 0 for ever after, whatever is subtracted
 * later.
 */
lemma {:induction false} BrokenChainShowsZero(s: ChainState, vs: seq<int>, ws: seq<int>)
  requires !s.broken && SubtractAll(s, vs).broken
  ensures DisplayedNumber(SubtractAll(s, vs + ws)) == 0
  decreases |vs|
{
  SubtractAllAppend(s, vs, ws);
  BrokenChainIgnoresSubtract(SubtractAll(s, vs), ws);
  var t := Subtracted(s, vs[0]);
  if t.broken {
    BrokenChainIgnoresSubtract(t, vs[1..]);
    assert SubtractAll(s, vs) == t;
  } else {
    BrokenChainShowsZero(t, vs[1..], []);
    assert vs[1..] + [] == vs[1..];
  }
}

/** A stage's chain object; the fields the C# class updates in place. */
class Chain {
  var requiredNumber: int
  var isBroken: bool
  /** How many times ChainBroke has been invoked on this chain. */
  ghost var notifications: nat

  /** The latch and the notification count agree, so ChainBroke fires at most once. */
  ghost predicate Valid()
    reads this
  {
    notifications == if isBroken then 1 else 0
  }

  function State(): ChainState
    reads this
  {
    ChainState(requiredNumber, isBroken)
  }

  constructor ()
    ensures Valid()
    ensures State() == ChainState(DefaultRequiredNumber, false)
  {
    requiredNumber := DefaultRequiredNumber;
    isBroken := false;
    notifications := 0;
  }

  /** Sets the threshold; the broken latch is left as it is. */
  method SetRequiredNumber(number: int)
    requires Valid()
    modifies this
    ensures Valid()
    ensures State() == ChainState(number, old(isBroken))
    ensures notifications == old(notifications)
  {
    requiredNumber := number;
  }

  /** Takes `value` off the threshold; `broke` is true when ChainBroke fired. */
  method Subtract(value: int) returns (broke: bool)
    requires Valid()
    modifies this
    ensures Valid()
    ensures State() == Subtracted(old(State()), value)
    ensures broke == BreaksOn(old(State()), value)
    ensures notifications == old(notifications) + (if broke then 1 else 0)
    ensures old(isBroken) ==> isBroken
  {
    broke := false;
    if isBroken {
      return;
    }
    requiredNumber := requiredNumber - value;
    if requiredNumber <= 0 {
      Break();
      broke := true;
    }
  }

  /** Sets the latch and invokes ChainBroke; only Subtract calls it, on an unbroken chain. */
  method Break()
    requires Valid() && !isBroken
    modifies this
    ensures Valid() && isBroken && requiredNumber == old(requiredNumber)
    ensures notifications == old(notifications) + 1
  {
    isBroken := true;
    notifications := notifications + 1;
  }
}
