/** The player's movement-freedom record: which of the six axis directions
    the collision query leaves open, and the rule by which the controls
    adopt a newly computed record. */
module Physics {

  /** The six keys of the record: 'x+', 'y+', 'z+', 'x-', 'y-', 'z-'. */
  datatype Direction = XPlus | YPlus | ZPlus | XMinus | YMinus | ZMinus

  /** The order the record's keys were created in, which is the order
      `Object.keys` enumerates them in. */
  const KeyOrder: seq<Direction> := [XPlus, YPlus, ZPlus, XMinus, YMinus, ZMinus]

  /** A movement-freedom record: true where the player may move. */
  type Freedom = map<Direction, bool>

  /** The record carries all six keys. */
  predicate Complete(f: Freedom)
  {
    forall d: Direction :: d in f
  }

  /** A record that holds each of the six keys named one by one is complete. */
  lemma SixKeysComplete(f: Freedom)
    requires XPlus in f && YPlus in f && ZPlus in f && XMinus in f && YMinus in f && ZMinus in f
    ensures Complete(f)
  {
    forall d: Direction ensures d in f {
      match d
      case XPlus =>
      case YPlus =>
      case ZPlus =>
      case XMinus =>
      case YMinus =>
      case ZMinus =>
    }
  }

  /** A body reported by the collision query; only how many there are matters here. */
  type Body = nat

  /** The collision query's result: the bodies overlapping each face of the player's box. */
  datatype Collisions = Collisions(
    top: seq<Body>, bottom: seq<Body>,
    left: seq<Body>, right: seq<Body>,
    up: seq<Body>, down: seq<Body>,
    forward: seq<Body>, back: seq<Body>,
    middle: seq<Body>)

  /** calculateFreedom: start with every direction open, let `top` and
      `bottom` decide 'y+' and 'y-', then let each other non-empty list close
      its direction. */
  function CalculateFreedom(cs: Collisions): (f: Freedom)
    ensures Complete(f)
    ensures f[XPlus] == (|cs.left| == 0)
    ensures f[XMinus] == (|cs.right| == 0)
    ensures f[YPlus] == (|cs.top| == 0 && |cs.up| == 0)
    ensures f[YMinus] == (|cs.bottom| == 0 && |cs.down| == 0)
    ensures f[ZPlus] == (|cs.back| == 0)
    ensures f[ZMinus] == (|cs.forward| == 0)
  {
    var f0 := map[XPlus := true, YPlus := true, ZPlus := true, XMinus := true, YMinus := true, ZMinus := true];
    var f1 := f0[YPlus := |cs.top| == 0][YMinus := |cs.bottom| == 0];
    var f2 := if |cs.left| > 0 then f1[XPlus := false] else f1;
    var f3 := if |cs.right| > 0 then f2[XMinus := false] else f2;
    var f4 := if |cs.up| > 0 then f3[YPlus := false] else f3;
    var f5 := if |cs.down| > 0 then f4[YMinus := false] else f4;
    var f6 := if |cs.forward| > 0 then f5[ZMinus := false] else f5;
    var f7 := if |cs.back| > 0 then f6[ZPlus := false] else f6;
    SixKeysComplete(f7);
    f7
  }

  /** `up` and `down` only ever close 'y+' and 'y-': clearing them can open
      those two directions again and changes no other direction. */
  lemma UpDownOnlyClear(cs: Collisions)
    ensures var f, g := CalculateFreedom(cs), CalculateFreedom(cs.(up := [], down := []));
      (f[YPlus] ==> g[YPlus]) && (f[YMinus] ==> g[YMinus]) &&
      f[XPlus] == g[XPlus] && f[XMinus] == g[XMinus] && f[ZPlus] == g[ZPlus] && f[ZMinus] == g[ZMinus]
  {
  }

  /** No direction is open exactly when every face of the box is touched. */
  lemma NothingFreeIff(cs: Collisions)
    ensures (forall d: Direction :: !CalculateFreedom(cs)[d]) <==>
      (|cs.left| > 0 && |cs.right| > 0 && |cs.forward| > 0 && |cs.back| > 0 &&
       (|cs.top| > 0 || |cs.up| > 0) && (|cs.bottom| > 0 || |cs.down| > 0))
  {
    var f := CalculateFreedom(cs);
    if |cs.left| > 0 && |cs.right| > 0 && |cs.forward| > 0 && |cs.back| > 0 &&
       (|cs.top| > 0 || |cs.up| > 0) && (|cs.bottom| > 0 || |cs.down| > 0)
    {
      forall d: Direction ensures !f[d] {
        match d
        case XPlus =>
        case YPlus =>
        case ZPlus =>
        case XMinus =>
        case YMinus =>
        case ZMinus =>
      }
    }
  }

  /** The number of keys among `ks` whose value is true, as `degrees += freedom[key]` adds it up. */
  function TrueCount(f: Freedom, ks: seq<Direction>): nat
    requires Complete(f)
  {
    if ks == [] then 0 else TrueCount(f, ks[..|ks| - 1]) + (if f[ks[|ks| - 1]] then 1 else 0)
  }

  lemma {:induction false} TrueCountZeroIff(f: Freedom, ks: seq<Direction>)
    requires Complete(f)
    ensures TrueCount(f, ks) == 0 <==> forall i :: 0 <= i < |ks| ==> !f[ks[i]]
  {
    if ks != [] {
      var init := ks[..|ks| - 1];
      TrueCountZeroIff(f, init);
      assert forall i :: 0 <= i < |init| ==> init[i] == ks[i];
    }
  }

  /** Where each key stands in the enumeration order. */
  function KeyIndex(d: Direction): (i: nat)
    ensures i < |KeyOrder| && KeyOrder[i] == d
  {
    match d
    case XPlus => 0
    case YPlus => 1
    case ZPlus => 2
    case XMinus => 3
    case YMinus => 4
    case ZMinus => 5
  }

  /** The `degrees` loop of updatePlayerPhysics: how many directions are open. */
  method Degrees(f: Freedom) returns (degrees: nat)
    requires Complete(f)
    ensures degrees == TrueCount(f, KeyOrder)
    ensures degrees == 0 <==> forall d: Direction :: !f[d]
  {
    degrees := 0;
    for i := 0 to |KeyOrder|
      invariant degrees == TrueCount(f, KeyOrder[..i])
    {
      assert KeyOrder[..i + 1][..i] == KeyOrder[..i];
      degrees := degrees + (if f[KeyOrder[i]] then 1 else 0);
    }
    assert KeyOrder[..|KeyOrder|] == KeyOrder;
    TrueCountZeroIff(f, KeyOrder);
    if degrees == 0 {
      forall d: Direction ensures !f[d] {
        assert !f[KeyOrder[KeyIndex(d)]];
      }
    }
  }

  /** The part of the player controls that updatePlayerPhysics writes. */
  class Controls {
    var freedom: Freedom

    constructor (initial: Freedom)
      ensures freedom == initial
    {
      freedom := initial;
    }

    /** The freedom rule of updatePlayerPhysics, given what the collision
        query reported: adopt the new record unless it closes every direction. */
    method UpdateFreedom(cs: Collisions)
      modifies this
      ensures var next := CalculateFreedom(cs);
        freedom == if exists d: Direction :: next[d] then next else old(freedom)
      ensures Complete(old(freedom)) ==> Complete(freedom)
    {
      var next := CalculateFreedom(cs);
      var degrees := Degrees(next);
      freedom := if degrees == 0 then freedom else next;
    }
  }
}
