/**
 * Dice layer: one die (a face value kept in 1..6 and a hold flag) and a set of
 * dice with a per-turn roll counter.
 *
 * A JavaScript input value is modelled as Option<int>: Some(n) for a finite
 * integer n, None for anything that is not a finite number.  The value drawn
 * from Math.random is a nondeterministic face.
 */
module Dice {
  import opened Wrappers

  /** A face a die can show. */
  predicate IsFace(v: int) {
    1 <= v <= 6
  }

  /** The die's private clamp: a face stays as it is, anything else becomes 1. */
  function Clamp(v: Option<int>): (r: int)
    ensures IsFace(r)
    ensures v.Some? && IsFace(v.value) ==> r == v.value
    ensures !(v.Some? && IsFace(v.value)) ==> r == 1
  {
    match v
    case None => 1
    case Some(n) => if n < 1 || n > 6 then 1 else n
  }

  class Die {
    var value: int
    var held: bool

    ghost predicate Valid()
      reads this
    {
      IsFace(value)
    }

    /** `new Die(v)`; the source's default argument is Some(1). */
    constructor (initial: Option<int>)
      ensures Valid()
      ensures value == Clamp(initial) && !held
    {
      value := Clamp(initial);
      held := false;
    }

    /** A held die keeps its face; an unheld die shows some face (random in the source). */
    method Roll() returns (v: int)
      requires Valid()
      modifies this
      ensures Valid()
      ensures v == value && held == old(held)
      ensures old(held) ==> value == old(value)
    {
      if held {
        return value;
      }
      var face :| IsFace(face);
      value := face;
      return value;
    }

    method SetValue(v: Option<int>)
      modifies this
      ensures Valid()
      ensures value == Clamp(v) && held == old(held)
    {
      value := Clamp(v);
    }

    method ToggleHold()
      modifies this
      ensures old(Valid()) ==> Valid()
      ensures held == !old(held) && value == old(value)
    {
      held := !held;
    }
  }

  class DiceSet {
    const count: nat
    const dice: array<Die>
    var rollsThisTurn: nat
    /** The dice objects this set owns. */
    ghost const Repr: set<Die>

    ghost predicate Valid()
      reads this, dice, Repr
    {
      dice.Length == count && 1 <= count &&
      (forall i :: 0 <= i < count ==> dice[i] in Repr) &&
      (forall i, j :: 0 <= i < j < count ==> dice[i] != dice[j]) &&
      (forall d :: d in Repr ==> d.Valid())
    }

    /** `new DiceSet(count)`: max(1, count) dice, each showing 1 and unheld. */
    constructor (requested: int)
      ensures Valid() && fresh(dice) && fresh(Repr)
      ensures count == if requested < 1 then 1 else requested
      ensures rollsThisTurn == 0
      ensures forall i :: 0 <= i < count ==> dice[i].value == 1 && !dice[i].held
    {
      var n := if requested < 1 then 1 else requested;
      var made: seq<Die> := [];
      while |made| < n
        invariant |made| <= n
        invariant forall i :: 0 <= i < |made| ==> fresh(made[i])
        invariant forall i :: 0 <= i < |made| ==> made[i].Valid() && made[i].value == 1 && !made[i].held
        invariant forall i, j :: 0 <= i < j < |made| ==> made[i] != made[j]
      {
        var d := new Die(Some(1));
        made := made + [d];
      }
      count := n;
      dice := new Die[n](i requires 0 <= i < n => made[i]);
      Repr := set i | 0 <= i < n :: made[i];
      rollsThisTurn := 0;
    }

    /** The faces in die order. */
    function Values(): (vs: seq<int>)
      reads this, dice, Repr
      requires Valid()
      ensures |vs| == count
      ensures forall i :: 0 <= i < count ==> vs[i] == dice[i].value && IsFace(vs[i])
    {
      seq(count, i requires 0 <= i < count && dice[i] in Repr reads dice, Repr => dice[i].value)
    }

    /** The hold flags in die order. */
    function HeldFlags(): (hs: seq<bool>)
      reads this, dice, Repr
      requires Valid()
      ensures |hs| == count
      ensures forall i :: 0 <= i < count ==> hs[i] == dice[i].held
    {
      seq(count, i requires 0 <= i < count && dice[i] in Repr reads dice, Repr => dice[i].held)
    }

    /** Roll every die (held ones keep their face) and count the roll. */
    method RollAll() returns (vs: seq<int>)
      requires Valid()
      modifies this, Repr
      ensures Valid()
      ensures rollsThisTurn == old(rollsThisTurn) + 1
      ensures vs == Values()
      ensures forall i :: 0 <= i < count ==> dice[i].held == old(dice[i].held)
      ensures forall i :: 0 <= i < count && old(dice[i].held) ==> dice[i].value == old(dice[i].value)
    {
      var i := 0;
      while i < count
        invariant 0 <= i <= count
        invariant Valid()
        invariant rollsThisTurn == old(rollsThisTurn)
        invariant forall j :: 0 <= j < count ==> dice[j].held == old(dice[j].held)
        invariant forall j :: 0 <= j < count && old(dice[j].held) ==> dice[j].value == old(dice[j].value)
      {
        var _ := dice[i].Roll();
        i := i + 1;
      }
      rollsThisTurn := rollsThisTurn + 1;
      vs := Values();
    }

    /** Start of a turn: no die held, counter back to 0, faces kept. */
    method ResetTurn()
      requires Valid()
      modifies this, Repr
      ensures Valid()
      ensures rollsThisTurn == 0
      ensures forall i :: 0 <= i < count ==> !dice[i].held && dice[i].value == old(dice[i].value)
    {
      var i := 0;
      while i < count
        invariant 0 <= i <= count
        invariant Valid()
        invariant forall j :: 0 <= j < i ==> !dice[j].held
        invariant forall j :: 0 <= j < count ==> dice[j].value == old(dice[j].value)
      {
        dice[i].held := false;
        i := i + 1;
      }
      rollsThisTurn := 0;
    }

    /** Force the first min(|vals|, count) dice to the clamped values, held or not. */
    method SetValues(vals: seq<Option<int>>)
      requires Valid()
      modifies Repr
      ensures Valid()
      ensures forall i :: 0 <= i < count ==> dice[i].held == old(dice[i].held)
      ensures forall i :: 0 <= i < count ==>
        dice[i].value == if i < |vals| then Clamp(vals[i]) else old(dice[i].value)
    {
      var n := if |vals| < count then |vals| else count;
      var i := 0;
      while i < n
        invariant 0 <= i <= n
        invariant Valid()
        invariant forall j :: 0 <= j < count ==> dice[j].held == old(dice[j].held)
        invariant forall j :: 0 <= j < i ==> dice[j].value == Clamp(vals[j])
        invariant forall j :: i <= j < count ==> dice[j].value == old(dice[j].value)
      {
        dice[i].SetValue(vals[i]);
        i := i + 1;
      }
    }

    /**
     * Merge externally supplied values into the unheld dice only.  A missing
     * list (not an array) counts as empty; an entry that is absent or not a
     * finite number is replaced by some face.  The roll is counted.
     */
    method ApplyServerRoll(serverValues: Option<seq<Option<int>>>) returns (vs: seq<int>)
      requires Valid()
      modifies this, Repr
      ensures Valid()
      ensures rollsThisTurn == old(rollsThisTurn) + 1
      ensures vs == Values()
      ensures forall i :: 0 <= i < count ==> dice[i].held == old(dice[i].held)
      ensures forall i :: 0 <= i < count && old(dice[i].held) ==> dice[i].value == old(dice[i].value)
      ensures forall i ::
        (0 <= i < count && !old(dice[i].held) &&
         serverValues.Some? && i < |serverValues.value| && serverValues.value[i].Some?) ==>
        dice[i].value == Clamp(serverValues.value[i])
    {
      var src := if serverValues.Some? then serverValues.value else [];
      var i := 0;
      while i < count
        invariant 0 <= i <= count
        invariant Valid()
        invariant rollsThisTurn == old(rollsThisTurn)
        invariant forall j :: 0 <= j < count ==> dice[j].held == old(dice[j].held)
        invariant forall j :: 0 <= j < count && (old(dice[j].held) || i <= j) ==> dice[j].value == old(dice[j].value)
        invariant forall j :: 0 <= j < i && !old(dice[j].held) && j < |src| && src[j].Some? ==>
          dice[j].value == Clamp(src[j])
      {
        if !dice[i].held {
          var v: Option<int>;
          if i < |src| && src[i].Some? {
            v := src[i];
          } else {
            var face :| IsFace(face);
            v := Some(face);
          }
          dice[i].SetValue(v);
        }
        i := i + 1;
      }
      rollsThisTurn := rollsThisTurn + 1;
      vs := Values();
    }
  }
}
