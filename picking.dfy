/** Hover picking (mouse_callback): which catalog entry lies under the
    pointer. Bodies are scanned in catalog order; each body's moons are tested,
    in order, before the body itself; the first entry that is hit wins. */
module Picking {
  import opened Geometry
  import opened Catalog
  import opened Orbit

  datatype Option<T> = None | Some(value: T)

  /** A selectable entry: body `body`, or moon `moon` of body `body`. */
  datatype Target = BodyTarget(body: nat) | MoonTarget(body: nat, moon: nat)

  /** A moon is hit within 3.5 of its radii, a body within 2.5 of its radii. */
  const MOON_PICK_FACTOR: real := 3.5
  const BODY_PICK_FACTOR: real := 2.5

  /** The separator between body and moon in a hover label. */
  const SEPARATOR: string := " - "

  predicate IsTarget(cat: seq<SolarObject>, x: Target) {
    x.body < |cat| && (x.MoonTarget? ==> x.moon < |cat[x.body].moons|)
  }

  /** The pointer at world point `w` hits target `x` at time `t`. */
  predicate Hits(trig: Trig, cat: seq<SolarObject>, t: real, w: Point, x: Target) {
    && IsTarget(cat, x)
    && var parent := BodyPosition(trig, cat[x.body], t);
       match x
       case BodyTarget(i) =>
         WithinRadius(w, parent, cat[i].radius * BODY_PICK_FACTOR)
       case MoonTarget(i, j) =>
         WithinRadius(w, MoonPosition(trig, parent, cat[i].moons[j], t), cat[i].moons[j].radius * MOON_PICK_FACTOR)
  }

  /** `y` is tested before `x`: an earlier body, or a moon of the same body
      that comes earlier or whose body is `x` itself. */
  predicate ScannedBefore(y: Target, x: Target) {
    || y.body < x.body
    || (y.body == x.body && y.MoonTarget? && (x.BodyTarget? || y.moon < x.moon))
  }

  /** No target scanned before `x` is hit. */
  ghost predicate NoEarlierHit(trig: Trig, cat: seq<SolarObject>, t: real, w: Point, x: Target) {
    forall y: Target :: ScannedBefore(y, x) ==> !Hits(trig, cat, t, w, y)
  }

  /** The first moon of body `i`, from moon `j` on, that is hit. */
  function PickMoon(trig: Trig, cat: seq<SolarObject>, t: real, w: Point, i: nat, j: nat): (r: Option<nat>)
    requires i < |cat| && j <= |cat[i].moons|
    ensures r.Some? ==> j <= r.value < |cat[i].moons| && Hits(trig, cat, t, w, MoonTarget(i, r.value))
    ensures r.Some? ==> forall k :: j <= k < r.value ==> !Hits(trig, cat, t, w, MoonTarget(i, k))
    ensures r.None? ==> forall k :: j <= k < |cat[i].moons| ==> !Hits(trig, cat, t, w, MoonTarget(i, k))
    decreases |cat[i].moons| - j
  {
    if j == |cat[i].moons| then None
    else if Hits(trig, cat, t, w, MoonTarget(i, j)) then Some(j)
    else PickMoon(trig, cat, t, w, i, j + 1)
  }

  /** The first target, from body `i` on, that is hit. */
  function PickFrom(trig: Trig, cat: seq<SolarObject>, t: real, w: Point, i: nat): (r: Option<Target>)
    requires i <= |cat|
    ensures r.Some? ==> i <= r.value.body && Hits(trig, cat, t, w, r.value)
    ensures r.Some? ==> forall y: Target :: i <= y.body && ScannedBefore(y, r.value) ==> !Hits(trig, cat, t, w, y)
    ensures r.None? ==> forall y: Target :: i <= y.body ==> !Hits(trig, cat, t, w, y)
    decreases |cat| - i
  {
    if i == |cat| then None
    else match PickMoon(trig, cat, t, w, i, 0)
      case Some(j) => Some(MoonTarget(i, j))
      case None =>
        if Hits(trig, cat, t, w, BodyTarget(i)) then Some(BodyTarget(i))
        else PickFrom(trig, cat, t, w, i + 1)
  }

  /** One step of the moon scan, phrased as the test mouse_callback makes. */
  lemma PickMoonStep(trig: Trig, cat: seq<SolarObject>, t: real, w: Point, i: nat, j: nat)
    requires i < |cat| && j < |cat[i].moons|
    ensures PickMoon(trig, cat, t, w, i, j)
      == if WithinRadius(w, MoonPosition(trig, BodyPosition(trig, cat[i], t), cat[i].moons[j], t),
                         cat[i].moons[j].radius * MOON_PICK_FACTOR)
         then Some(j) else PickMoon(trig, cat, t, w, i, j + 1)
  {
  }

  /** One step of the body scan, phrased as the test mouse_callback makes. */
  lemma PickFromStep(trig: Trig, cat: seq<SolarObject>, t: real, w: Point, i: nat)
    requires i < |cat|
    ensures PickMoon(trig, cat, t, w, i, 0).Some? ==>
      PickFrom(trig, cat, t, w, i) == Some(MoonTarget(i, PickMoon(trig, cat, t, w, i, 0).value))
    ensures PickMoon(trig, cat, t, w, i, 0).None? ==>
      PickFrom(trig, cat, t, w, i)
      == if WithinRadius(w, BodyPosition(trig, cat[i], t), cat[i].radius * BODY_PICK_FACTOR)
         then Some(BodyTarget(i)) else PickFrom(trig, cat, t, w, i + 1)
  {
  }

  /** The target under the pointer at world point `w`, if any. */
  function Pick(trig: Trig, cat: seq<SolarObject>, t: real, w: Point): Option<Target> {
    PickFrom(trig, cat, t, w, 0)
  }

  /** The hover label of a target: "Body" or "Body - Moon". */
  function Label(cat: seq<SolarObject>, x: Target): string
    requires IsTarget(cat, x)
  {
    match x
    case BodyTarget(i) => cat[i].name
    case MoonTarget(i, j) => cat[i].name + SEPARATOR + cat[i].moons[j].name
  }

  /** The text mouse_callback leaves in selectedObjectInfo. */
  function HoverText(trig: Trig, cat: seq<SolarObject>, t: real, w: Point): string {
    match Pick(trig, cat, t, w)
    case None => ""
    case Some(x) => Label(cat, x)
  }

  /** Scan order is total on distinct targets. */
  lemma ScanOrderTotal(x: Target, y: Target)
    requires x != y
    ensures ScannedBefore(x, y) || ScannedBefore(y, x)
  {
  }

  /** The pick is exactly the first target in scan order that is hit. */
  lemma PickIsFirstHit(trig: Trig, cat: seq<SolarObject>, t: real, w: Point, x: Target)
    ensures Pick(trig, cat, t, w) == Some(x)
      <==> Hits(trig, cat, t, w, x) && NoEarlierHit(trig, cat, t, w, x)
  {
    var r := Pick(trig, cat, t, w);
    if Hits(trig, cat, t, w, x) && NoEarlierHit(trig, cat, t, w, x) {
      assert r.Some?;
      if r.value != x {
        ScanOrderTotal(r.value, x);
        assert false;
      }
    }
  }

  /** Nothing is picked exactly when no target is hit. */
  lemma PickNoneIffNoHit(trig: Trig, cat: seq<SolarObject>, t: real, w: Point)
    ensures Pick(trig, cat, t, w) == None <==> forall y: Target :: !Hits(trig, cat, t, w, y)
  {
  }

  /** When every name is non-empty, the hover text is empty exactly when no
      target is hit. */
  lemma HoverTextEmptyIffNoHit(trig: Trig, cat: seq<SolarObject>, t: real, w: Point)
    requires forall i :: 0 <= i < |cat| ==> cat[i].name != []
    ensures HoverText(trig, cat, t, w) == [] <==> forall y: Target :: !Hits(trig, cat, t, w, y)
  {
    match Pick(trig, cat, t, w)
    case None =>
    case Some(x) =>
      assert |Label(cat, x)| > 0;
  }

  /** A pointer exactly over a body's centre picks that body, unless one of
      its own moons or an earlier entry is hit first. */
  lemma PointerOnBodyPicksIt(trig: Trig, cat: seq<SolarObject>, t: real, i: nat)
    requires i < |cat| && 0.0 < cat[i].radius
    requires NoEarlierHit(trig, cat, t, BodyPosition(trig, cat[i], t), BodyTarget(i))
    ensures Pick(trig, cat, t, BodyPosition(trig, cat[i], t)) == Some(BodyTarget(i))
  {
    var w := BodyPosition(trig, cat[i], t);
    assert 0.0 < cat[i].radius * BODY_PICK_FACTOR;
    CentreIsWithinRadius(w, cat[i].radius * BODY_PICK_FACTOR);
    PickIsFirstHit(trig, cat, t, w, BodyTarget(i));
  }
}
