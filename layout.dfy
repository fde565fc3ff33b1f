/** The radial layout of the skill tree: for every skill, the angle (in degrees)
    and distance from the centre at which its card sits, and the card's rotation.
    The model stops at the exact angle; the conversion to radians and the
    cosine/sine step that turn it into x/y offsets are not modelled. */
module Layout {
  import opened Catalog

  /** Distance of a category's first skill from the centre. */
  const BaseRadius: nat := 150
  /** Extra distance for each later skill of the same category. */
  const RadiusStep: nat := 95
  /** Added to the placement angle to turn the card outward. */
  const RotationOffset: real := 90.0

  /** Where one skill's card goes: angle and rotation in degrees, radius in pixels. */
  datatype Placement = Placement(skill: Skill, deg: real, radius: nat, rotation: real)

  /** The arc actually used by a category: a lone skill gets none. */
  function EffectiveSpread(count: nat, spread: real): real
  {
    if count > 1 then spread else 0.0
  }

  /** The angular gap between neighbouring skills; the divisor falls back to 1
      when `count - 1` is zero, as the page's `count - 1 || 1` does. */
  function Step(count: nat, spread: real): (step: real)
    ensures count > 1 ==> step * ((count - 1) as real) == spread
    ensures count <= 1 ==> step == 0.0
  {
    if count > 1 then
      var divisor := count - 1;
      EffectiveSpread(count, spread) / (if divisor != 0 then divisor as real else 1.0)
    else 0.0
  }

  /** The angle of the skill at position `index` among `count` skills of a
      category centred on `angle` with configured width `spread`. */
  function Angle(angle: real, spread: real, count: nat, index: nat): (deg: real)
    requires index < count
    ensures count == 1 ==> deg == angle
    ensures count > 1 ==> deg == angle - spread / 2.0 + (index as real) * spread / ((count - 1) as real)
  {
    var s := EffectiveSpread(count, spread);
    angle - s / 2.0 + (index as real) * (if count == 1 then 0.0 else Step(count, spread))
  }

  /** Distance from the centre of the skill at position `index` in its category. */
  function Radius(index: nat): (r: nat)
    ensures r >= BaseRadius
    ensures index > 0 ==> r >= BaseRadius + RadiusStep
  {
    BaseRadius + index * RadiusStep
  }

  /** The placement of the skill at position `index` of category `c`. */
  function Place(c: Category, index: nat): (p: Placement)
    requires index < |c.skills|
    ensures p.skill == c.skills[index]
    ensures p.rotation == p.deg + RotationOffset
    ensures |c.skills| == 1 ==> p.deg == c.angle
    ensures c.spread >= 0.0 ==> c.angle - c.spread / 2.0 <= p.deg <= c.angle + c.spread / 2.0
  {
    var deg := Angle(c.angle, c.spread, |c.skills|, index);
    ArcBounds(c.angle, c.spread, |c.skills|, index);
    Placement(c.skills[index], deg, Radius(index), deg + RotationOffset)
  }

  /** One placement per skill of a category, in the category's order; none for
      a category without skills. */
  function CategoryPlacements(c: Category): (ps: seq<Placement>)
    ensures |ps| == |c.skills|
    ensures forall i :: 0 <= i < |ps| ==> ps[i] == Place(c, i)
  {
    seq(|c.skills|, i requires 0 <= i < |c.skills| => Place(c, i))
  }

  /** Every skill of every category placed, category after category. */
  function TreePlacements(cats: seq<Category>): (ps: seq<Placement>)
    ensures |ps| == TotalSkills(cats)
    ensures forall k :: 0 <= k < |ps| ==> ps[k].radius >= BaseRadius && ps[k].rotation == ps[k].deg + RotationOffset
  {
    if cats == [] then []
    else
      var head := CategoryPlacements(cats[0]);
      var rest := TreePlacements(cats[1..]);
      var ps := head + rest;
      assert forall k :: |head| <= k < |ps| ==> ps[k] == rest[k - |head|];
      ps
  }

  /** The k-th placement of the tree holds the k-th skill of the catalog. */
  lemma {:induction false} TreeSkillOrder(cats: seq<Category>)
    ensures var ps := TreePlacements(cats);
      forall k :: 0 <= k < |ps| ==> ps[k].skill == AllSkills(cats)[k]
  {
    if cats != [] {
      var head: seq<Placement> := CategoryPlacements(cats[0]);
      var rest: seq<Placement> := TreePlacements(cats[1..]);
      var later: seq<Skill> := AllSkills(cats[1..]);
      TreeSkillOrder(cats[1..]);
      assert TreePlacements(cats) == head + rest;
      assert AllSkills(cats) == cats[0].skills + later;
      forall k: int | 0 <= k < |head| + |rest|
        ensures (head + rest)[k].skill == (cats[0].skills + later)[k]
      {
        if k >= |head| {
          assert (head + rest)[k] == rest[k - |head|];
        }
      }
    }
  }

  /** The placement of skill `si` of category `ci` sits in the tree's sequence
      right after the skills of the earlier categories. */
  lemma {:induction false} TreePlacementAt(cats: seq<Category>, ci: nat, si: nat)
    requires ci < |cats| && si < |cats[ci].skills|
    ensures TotalSkills(cats[..ci]) + si < |TreePlacements(cats)|
    ensures TreePlacements(cats)[TotalSkills(cats[..ci]) + si] == Place(cats[ci], si)
  {
    if ci == 0 {
      assert cats[..0] == [];
      TreeHeadAt(cats, si);
    } else {
      TreePlacementAt(cats[1..], ci - 1, si);
      PrefixSkills(cats, ci);
      TreeRestAt(cats, TotalSkills(cats[1..][..ci - 1]) + si);
    }
  }

  /** The first category's placements open the tree's sequence. */
  lemma TreeHeadAt(cats: seq<Category>, si: nat)
    requires cats != [] && si < |cats[0].skills|
    ensures si < |TreePlacements(cats)| && TreePlacements(cats)[si] == Place(cats[0], si)
  {
    var head := CategoryPlacements(cats[0]);
    assert TreePlacements(cats) == head + TreePlacements(cats[1..]);
    assert (head + TreePlacements(cats[1..]))[si] == head[si];
  }

  /** After the first category's placements come those of the rest. */
  lemma TreeRestAt(cats: seq<Category>, k: nat)
    requires cats != [] && k < |TreePlacements(cats[1..])|
    ensures |cats[0].skills| + k < |TreePlacements(cats)|
    ensures TreePlacements(cats)[|cats[0].skills| + k] == TreePlacements(cats[1..])[k]
  {
    var head := CategoryPlacements(cats[0]);
    var rest := TreePlacements(cats[1..]);
    assert TreePlacements(cats) == head + rest;
    assert (head + rest)[|head| + k] == rest[k];
  }

  /** The skills before category `ci` are the first category's and those
      before `ci - 1` in the rest. */
  lemma PrefixSkills(cats: seq<Category>, ci: nat)
    requires 0 < ci <= |cats|
    ensures TotalSkills(cats[..ci]) == |cats[0].skills| + TotalSkills(cats[1..][..ci - 1])
  {
    assert cats[..ci][1..] == cats[1..][..ci - 1];
  }

  /** Across the whole tree, every card lies on its own category's arc and at
      the radius of its position in that category. */
  lemma TreeOnArcs(cats: seq<Category>, ci: nat, si: nat)
    requires ci < |cats| && si < |cats[ci].skills|
    ensures var k := TotalSkills(cats[..ci]) + si;
      var ps := TreePlacements(cats);
      var c := cats[ci];
      && k < |ps|
      && ps[k].skill == c.skills[si]
      && ps[k].radius == BaseRadius + si * RadiusStep
      && (c.spread >= 0.0 ==> c.angle - c.spread / 2.0 <= ps[k].deg <= c.angle + c.spread / 2.0)
  {
    TreePlacementAt(cats, ci, si);
  }

  /** Every angle lies on the category's arc when the spread is not negative. */
  lemma ArcBounds(angle: real, spread: real, count: nat, index: nat)
    requires index < count
    ensures spread >= 0.0 ==> angle - spread / 2.0 <= Angle(angle, spread, count, index) <= angle + spread / 2.0
  {
    if spread >= 0.0 && count > 1 {
      var n := (count - 1) as real;
      var i := index as real;
      var step := Step(count, spread);
      assert step >= 0.0 by {
        assert step == spread / n;
      }
      Scale(i, n, step);
      assert n * step == spread;
      var offset := i * step;
      assert 0.0 <= offset;
      assert offset <= n * step;
      assert Angle(angle, spread, count, index) == angle - spread / 2.0 + offset;
    }
  }

  /** Scaling by a factor that is not negative keeps a weak order. */
  lemma Scale(x: real, y: real, k: real)
    requires 0.0 <= x <= y && k >= 0.0
    ensures 0.0 <= x * k <= y * k
  {
    assert (y - x) * k >= 0.0;
  }

  /** Neighbouring skills are exactly `spread / (count - 1)` degrees apart. */
  lemma EvenSpacing(angle: real, spread: real, count: nat, index: nat)
    requires count > 1 && index + 1 < count
    ensures Angle(angle, spread, count, index + 1) - Angle(angle, spread, count, index) == spread / ((count - 1) as real)
  {
    var n := (count - 1) as real;
    var i := index as real;
    var step := Step(count, spread);
    assert step == spread / n;
    assert (i + 1.0) * step - i * step == step;
  }

  /** The first skill sits at one end of the arc and the last at the other. */
  lemma ArcEnds(angle: real, spread: real, count: nat)
    requires count > 1
    ensures Angle(angle, spread, count, 0) == angle - spread / 2.0
    ensures Angle(angle, spread, count, count - 1) == angle + spread / 2.0
  {
    var n := (count - 1) as real;
    var step := Step(count, spread);
    assert step == spread / n;
    assert n * step == spread;
  }

  /** Positions mirrored about the middle of the category are mirrored about its angle. */
  lemma Symmetric(angle: real, spread: real, count: nat, index: nat)
    requires index < count
    ensures Angle(angle, spread, count, index) + Angle(angle, spread, count, count - 1 - index) == 2.0 * angle
  {
    if count > 1 {
      var n := (count - 1) as real;
      var i := index as real;
      var step := Step(count, spread);
      assert n * step == spread;
      assert Angle(angle, spread, count, index) == angle - spread / 2.0 + i * step;
      assert Angle(angle, spread, count, count - 1 - index) == angle - spread / 2.0 + (n - i) * step;
      assert i * step + (n - i) * step == n * step;
    }
  }

  /** With a positive spread, later skills sit at strictly larger angles. */
  lemma AngleIncreasing(angle: real, spread: real, count: nat, i: nat, j: nat)
    requires spread > 0.0 && i < j < count
    ensures Angle(angle, spread, count, i) < Angle(angle, spread, count, j)
  {
    var n := (count - 1) as real;
    var step := Step(count, spread);
    assert step > 0.0 by {
      assert step == spread / n;
    }
    ScaleStrict(i as real, j as real, step);
  }

  /** Scaling by a positive factor keeps a strict order. */
  lemma ScaleStrict(x: real, y: real, k: real)
    requires x < y && k > 0.0
    ensures x * k < y * k
  {
    assert (y - x) * k > 0.0;
  }

  /** Later skills of a category sit strictly farther from the centre. */
  lemma RadiusIncreasing(i: nat, j: nat)
    requires i < j
    ensures BaseRadius <= Radius(i) < Radius(j)
  {
  }

  /** The Passing branch: three skills at -120, -90 and -60 degrees, on radii
      150, 245 and 340, with cards turned to -30, 0 and 30 degrees. */
  lemma PassingPlacements()
    ensures var ps := CategoryPlacements(Passing());
      && |ps| == 3
      && ps[0].deg == -120.0 && ps[1].deg == -90.0 && ps[2].deg == -60.0
      && ps[0].radius == 150 && ps[1].radius == 245 && ps[2].radius == 340
      && ps[0].rotation == -30.0 && ps[1].rotation == 0.0 && ps[2].rotation == 30.0
  {
  }

  /** The Receiving branch's odd spread of 65 gives half-degree angles. */
  lemma ReceivingPlacements()
    ensures var ps := CategoryPlacements(Receiving());
      && |ps| == 3
      && ps[0].deg == 57.5 && ps[1].deg == 90.0 && ps[2].deg == 122.5
  {
  }

  /** A branch with one skill at 180 degrees places it at exactly 180 degrees,
      whatever its configured spread. */
  lemma LoneSkillAtBase(name: string, spread: real, color: string, s: Skill)
    ensures CategoryPlacements(Category(name, 180.0, spread, color, [s])) == [Placement(s, 180.0, BaseRadius, 270.0)]
  {
  }
}
