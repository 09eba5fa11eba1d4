/** One flower: the outline of each petal and leaf archetype, the layout of
    stem, receptacle, petals and leaves, and the growth animation that scales
    the whole flower from nothing to full size. Angles are fractions of a
    full turn (1/8 is 45 degrees). */
module Flower {
  import opened Types
  import opened Paths

  // ---------------------------------------------------------------------------
  // Outlines
  // ---------------------------------------------------------------------------

  /** The unit outline of each petal archetype, as a list of path commands. */
  function PetalOutline(shape: PetalShape): (r: seq<PathCmd>)
    ensures |r| >= 2 && r[0] == MoveTo(Origin)
    // ROUND and HEART: one cubic curve out to the tip and its mirror image back
    ensures (shape == Round || shape == Heart) ==>
              |r| == 3 && r[1].BezierCurveTo? && r[1].p == Point(0.0, 2.0) &&
              MirrorsBack(Origin, r[1], r[2]) && PathEnd(r) == Some(Origin)
    // POINTY: a symmetric closed polygon whose highest vertex is the tip (0, 2.5)
    ensures shape == Pointy ==>
              IsClosedPolygon(r) && SymmetricPolygon(r) && PathEnd(r) == Some(Origin) &&
              (exists i :: 0 <= i < |r| - 1 && Vertex(r, i) == Point(0.0, 2.5)) &&
              forall i :: 0 <= i < |r| - 1 ==> Vertex(r, i).y <= 2.5
    // SLENDER: one whole unrotated ellipse, 0.1 wide by 1.5 high, centred at (0, 1.5)
    ensures shape == Slender ==>
              |r| == 2 && r[1].Ellipse? && EllipseCentre(r, 1) == Some(Point(0.0, 1.5)) &&
              r[1].rx == 0.1 && r[1].ry == 1.5 && r[1].endTurn - r[1].startTurn == 1.0 &&
              r[1].rotationTurn == 0.0 && !r[1].clockwise
  {
    match shape
    case Round =>
      var r := [MoveTo(Origin),
                BezierCurveTo(Point(0.5, 0.5), Point(0.5, 1.5), Point(0.0, 2.0)),
                BezierCurveTo(Point(-0.5, 1.5), Point(-0.5, 0.5), Origin)];
      assert PathEnd(r) == Some(Origin) by { ThreeStepEnd(r); }
      r
    case Pointy =>
      var r := [MoveTo(Origin), LineTo(Point(0.3, 1.0)), LineTo(Point(0.0, 2.5)),
                LineTo(Point(-0.3, 1.0)), ClosePath];
      assert Vertex(r, 2) == Point(0.0, 2.5);
      assert PathEnd(r) == Some(Origin) by {
        assert r == [r[0]] + ([r[1]] + ([r[2]] + ([r[3]] + [ClosePath])));
        assert [ClosePath][1..] == [];
        EndPointAfterStroke(r[3], [ClosePath], r[2].p, Origin);
        EndPointAfterStroke(r[2], [r[3]] + [ClosePath], r[1].p, Origin);
        EndPointAfterStroke(r[1], [r[2]] + ([r[3]] + [ClosePath]), Origin, Origin);
        assert r[1..] == [r[1]] + ([r[2]] + ([r[3]] + [ClosePath]));
      }
      r
    case Heart =>
      var r := [MoveTo(Origin),
                BezierCurveTo(Point(1.0, 1.0), Point(1.0, 2.5), Point(0.0, 2.0)),
                BezierCurveTo(Point(-1.0, 2.5), Point(-1.0, 1.0), Origin)];
      assert PathEnd(r) == Some(Origin) by { ThreeStepEnd(r); }
      r
    case Slender =>
      var r := [MoveTo(Origin), Ellipse(Point(0.0, 1.5), 0.1, 1.5, 0.0, 1.0, false, 0.0)];
      assert r[..1] == [MoveTo(Origin)] && r[..1][1..] == [];
      assert EndPoint(r[..1], Origin, Origin) == EndPoint([], Origin, Origin) == Some(Origin);
      r
  }

  /** A move followed by two curves ends where the second curve ends. */
  lemma ThreeStepEnd(r: seq<PathCmd>)
    requires |r| == 3 && r[0].MoveTo?
    requires (r[1].QuadraticCurveTo? || r[1].BezierCurveTo?)
    requires (r[2].QuadraticCurveTo? || r[2].BezierCurveTo?)
    ensures PathEnd(r) == Some(r[2].p)
  {
    assert r == [r[0]] + ([r[1]] + ([r[2]] + []));
    EndPointAfterStroke(r[2], [], r[1].p, r[0].p);
    EndPointAfterStroke(r[1], [r[2]], r[0].p, r[0].p);
    assert r[1..] == [r[1]] + [r[2]];
  }

  /** Drawing a line or curve first moves the pen to its end point. */
  lemma EndPointAfterStroke(c: PathCmd, rest: seq<PathCmd>, pen: Point, start: Point)
    requires c.LineTo? || c.QuadraticCurveTo? || c.BezierCurveTo?
    ensures EndPoint([c] + rest, pen, start) == EndPoint(rest, c.p, start)
  {
    assert ([c] + rest)[1..] == rest;
  }

  /** Different petal archetypes never share an outline. */
  lemma PetalOutlinesDistinct(a: PetalShape, b: PetalShape)
    requires a != b
    ensures PetalOutline(a) != PetalOutline(b)
  {
    if a.Round? || a.Heart? {
      if b.Round? || b.Heart? {
        assert PetalOutline(a)[1] != PetalOutline(b)[1];
      }
    }
  }

  /** The leaf outline: one lobe up to the tip (0, 1.2) and its mirror image
      back to the base, the same whatever leaf archetype is asked for. */
  function LeafOutline(shape: LeafShape): (r: seq<PathCmd>)
    ensures |r| == 3 && r[0] == MoveTo(Origin)
    ensures r[1].QuadraticCurveTo? && r[1].p == Point(0.0, 1.2)
    ensures MirrorsBack(Origin, r[1], r[2]) && PathEnd(r) == Some(Origin)
  {
    var r := [MoveTo(Origin),
              QuadraticCurveTo(Point(0.4, 0.5), Point(0.0, 1.2)),
              QuadraticCurveTo(Point(-0.4, 0.5), Origin)];
    assert PathEnd(r) == Some(Origin) by { ThreeStepEnd(r); }
    r
  }

  /** The leaf archetype does not reach the leaf outline. */
  lemma LeafOutlineIgnoresShape(a: LeafShape, b: LeafShape)
    ensures LeafOutline(a) == LeafOutline(b)
  {
  }

  /** Draws a petal outline with the path builder, call by call. */
  method BuildPetalShape(shape: PetalShape) returns (cmds: seq<PathCmd>)
    ensures cmds == PetalOutline(shape)
  {
    var s := new Shape();
    match shape {
      case Round =>
        s.MoveTo(0.0, 0.0);
        s.BezierCurveTo(0.5, 0.5, 0.5, 1.5, 0.0, 2.0);
        s.BezierCurveTo(-0.5, 1.5, -0.5, 0.5, 0.0, 0.0);
      case Pointy =>
        s.MoveTo(0.0, 0.0);
        s.LineTo(0.3, 1.0);
        s.LineTo(0.0, 2.5);
        s.LineTo(-0.3, 1.0);
        s.ClosePath();
      case Heart =>
        s.MoveTo(0.0, 0.0);
        s.BezierCurveTo(1.0, 1.0, 1.0, 2.5, 0.0, 2.0);
        s.BezierCurveTo(-1.0, 2.5, -1.0, 1.0, 0.0, 0.0);
      case Slender =>
        s.MoveTo(0.0, 0.0);
        s.Ellipse(0.0, 1.5, 0.1, 1.5, 0.0, 1.0, false, 0.0);
    }
    cmds := s.commands;
  }

  /** Draws the leaf outline with the path builder; the archetype is not consulted. */
  method BuildLeafShape(shape: LeafShape) returns (cmds: seq<PathCmd>)
    ensures cmds == LeafOutline(shape)
  {
    var s := new Shape();
    s.MoveTo(0.0, 0.0);
    s.QuadraticCurveTo(0.4, 0.5, 0.0, 1.2);
    s.QuadraticCurveTo(-0.4, 0.5, 0.0, 0.0);
    cmds := s.commands;
  }

  // ---------------------------------------------------------------------------
  // Layout
  // ---------------------------------------------------------------------------

  /** How many elements an array built with `length: c` has: a JavaScript
      length is the number truncated to an integer, and nothing when it is
      not positive. */
  function ArrayLength(c: real): (n: nat)
    ensures n == 0 || (1.0 <= n as real <= c)
    ensures c > 0.0 ==> c < n as real + 1.0
    ensures c >= 0.0 && c.Floor as real == c ==> n as real == c
  {
    if c <= 0.0 then 0 else c.Floor
  }

  datatype PartKind =
    | Stem(radius: real, length: real)  // a cylinder standing on the ground
    | Receptacle(radius: real)          // the sphere at the top of the stem
    | Petal
    | Leaf

  /** One part of the flower: `height` of its anchor above the flower's base,
      `turn` about the vertical axis, `tilt` away from vertical, and the
      uniform `scale` applied to its outline. */
  datatype Part = Part(kind: PartKind, height: real, turn: real, tilt: real, scale: real)

  const PetalTilt: real := 1.0 / 8.0  // 45 degrees
  const LeafTilt: real := 1.0 / 6.0   // 60 degrees
  const ReceptacleRatio: real := 0.3

  /** The stem: a cylinder of radius stemThickness and length stemHeight,
      centred half way up so that it stands on the ground. */
  function StemPart(t: Template): Part
  {
    Part(Stem(t.stemThickness, t.stemHeight), t.stemHeight / 2.0, 0.0, 0.0, 1.0)
  }

  /** The receptacle: a sphere of radius 0.3 petalSize at the stem top. */
  function ReceptaclePart(t: Template): Part
  {
    Part(Receptacle(t.petalSize * ReceptacleRatio), t.stemHeight, 0.0, 0.0, 1.0)
  }

  /** The petals, fanned radially at the stem top: as many as the array
      length of petalCount, each at the stem top, tilted 45 degrees and scaled
      by petalSize. Petal i is turned by the fraction i / petalCount of a full
      turn (`PetalTurn`). */
  function Petals(t: Template): (r: seq<Part>)
    ensures |r| == ArrayLength(t.petalCount)
    ensures forall i :: 0 <= i < |r| ==>
              r[i].kind == Petal && r[i].height == t.stemHeight &&
              r[i].tilt == PetalTilt && r[i].scale == t.petalSize
  {
    var n := ArrayLength(t.petalCount);
    seq(n, i requires 0 <= i < n => Part(Petal, t.stemHeight, i as real / t.petalCount, PetalTilt, t.petalSize))
  }

  /** Petal i is turned by i / petalCount of a full turn: a fraction in [0, 1)
      that, times petalCount, gives back i. */
  lemma PetalTurn(t: Template, i: nat)
    requires i < |Petals(t)|
    ensures 0.0 <= Petals(t)[i].turn < 1.0 && Petals(t)[i].turn * t.petalCount == i as real
  {
    TurnFraction(i, t.petalCount);
  }

  /** The leaves, spaced up the stem: as many as the array length of
      leafCount, each tilted 60 degrees and scaled by leafSize. Leaf i sits at
      the fraction (i + 1) / (leafCount + 1) of the stem height and is turned
      by i / leafCount of a full turn (`LeafLevel`). */
  function Leaves(t: Template): (r: seq<Part>)
    ensures |r| == ArrayLength(t.leafCount)
    ensures forall i :: 0 <= i < |r| ==>
              r[i].kind == Leaf && r[i].tilt == LeafTilt && r[i].scale == t.leafSize
  {
    var n := ArrayLength(t.leafCount);
    seq(n, i requires 0 <= i < n =>
      Part(Leaf, t.stemHeight * (i as real + 1.0) / (t.leafCount + 1.0),
           i as real / t.leafCount, LeafTilt, t.leafSize))
  }

  /** Leaf i's height times (leafCount + 1) is stemHeight times (i + 1), and
      its turn is a fraction in [0, 1) that, times leafCount, gives back i. */
  lemma LeafLevel(t: Template, i: nat)
    requires i < |Leaves(t)|
    ensures Leaves(t)[i].height * (t.leafCount + 1.0) == t.stemHeight * (i as real + 1.0)
    ensures 0.0 <= Leaves(t)[i].turn < 1.0 && Leaves(t)[i].turn * t.leafCount == i as real
  {
    TurnFraction(i, t.leafCount);
    DivideMultiply(t.stemHeight * (i as real + 1.0), t.leafCount + 1.0);
  }

  /** Dividing by a positive c and multiplying back gives the number. */
  lemma DivideMultiply(x: real, c: real)
    requires c > 0.0
    ensures (x / c) * c == x
  {
  }

  /** The i-th of ArrayLength(c) equal turns is i / c, a fraction in [0, 1). */
  lemma TurnFraction(i: nat, c: real)
    requires i < ArrayLength(c)
    ensures c >= 1.0
    ensures 0.0 <= i as real / c < 1.0 && (i as real / c) * c == i as real
  {
    assert (i as real) < c;
  }

  /** All parts of a flower, in drawing order. */
  function Layout(t: Template): seq<Part>
  {
    [StemPart(t), ReceptaclePart(t)] + Petals(t) + Leaves(t)
  }

  /** The number of parts whose kind satisfies `p`. */
  function Tally(parts: seq<Part>, p: PartKind -> bool): nat
  {
    if parts == [] then 0
    else (if p(parts[0].kind) then 1 else 0) + Tally(parts[1..], p)
  }

  predicate IsStem(k: PartKind) { k.Stem? }
  predicate IsReceptacle(k: PartKind) { k.Receptacle? }
  predicate IsPetal(k: PartKind) { k.Petal? }
  predicate IsLeaf(k: PartKind) { k.Leaf? }

  lemma {:induction false} TallyAppend(a: seq<Part>, b: seq<Part>, p: PartKind -> bool)
    ensures Tally(a + b, p) == Tally(a, p) + Tally(b, p)
  {
    if a == [] {
      assert a + b == b;
    } else {
      assert (a + b)[1..] == a[1..] + b;
      TallyAppend(a[1..], b, p);
    }
  }

  /** Counting parts of a kind shared by all / none of them. */
  lemma {:induction false} TallyUniform(parts: seq<Part>, p: PartKind -> bool, k: PartKind)
    requires forall i :: 0 <= i < |parts| ==> parts[i].kind == k
    ensures Tally(parts, p) == if p(k) then |parts| else 0
  {
    if parts != [] {
      TallyUniform(parts[1..], p, k);
    }
  }

  /** Counting over the layout is counting over its stem and receptacle,
      its petals and its leaves. */
  lemma LayoutTally(t: Template, p: PartKind -> bool)
    ensures Tally(Layout(t), p) ==
            (if p(StemPart(t).kind) then 1 else 0) + (if p(ReceptaclePart(t).kind) then 1 else 0) +
            Tally(Petals(t), p) + Tally(Leaves(t), p)
  {
    var head := [StemPart(t), ReceptaclePart(t)];
    assert head[1..][1..] == [];
    TallyAppend(head + Petals(t), Leaves(t), p);
    TallyAppend(head, Petals(t), p);
  }

  /** A flower has exactly one stem, one receptacle, as many petals as
      petalCount and as many leaves as leafCount (as array lengths). */
  lemma LayoutCounts(t: Template)
    ensures Tally(Layout(t), IsStem) == 1
    ensures Tally(Layout(t), IsReceptacle) == 1
    ensures Tally(Layout(t), IsPetal) == ArrayLength(t.petalCount)
    ensures Tally(Layout(t), IsLeaf) == ArrayLength(t.leafCount)
    ensures |Layout(t)| == 2 + ArrayLength(t.petalCount) + ArrayLength(t.leafCount)
  {
    LayoutTally(t, IsStem);
    LayoutTally(t, IsReceptacle);
    LayoutTally(t, IsPetal);
    LayoutTally(t, IsLeaf);
    TallyUniform(Petals(t), IsStem, Petal);
    TallyUniform(Petals(t), IsReceptacle, Petal);
    TallyUniform(Petals(t), IsPetal, Petal);
    TallyUniform(Petals(t), IsLeaf, Petal);
    TallyUniform(Leaves(t), IsStem, Leaf);
    TallyUniform(Leaves(t), IsReceptacle, Leaf);
    TallyUniform(Leaves(t), IsPetal, Leaf);
    TallyUniform(Leaves(t), IsLeaf, Leaf);
  }

  /** The stem stands on the ground and reaches exactly the receptacle, a
      sphere of radius 0.3 petalSize that sits at stemHeight together with
      every petal. */
  lemma StemReachesHead(t: Template)
    ensures ReceptaclePart(t).kind == Receptacle(0.3 * t.petalSize)
    ensures StemPart(t).height - t.stemHeight / 2.0 == 0.0
    ensures StemPart(t).height + StemPart(t).kind.length / 2.0 == ReceptaclePart(t).height
    ensures StemPart(t).kind.radius == t.stemThickness && StemPart(t).kind.length == t.stemHeight
    ensures forall i :: 0 <= i < |Petals(t)| ==> Petals(t)[i].height == ReceptaclePart(t).height
  {
  }

  /** Two different petals are turned by different amounts even modulo a full
      turn: their turns differ by a non-integer fraction. */
  lemma PetalTurnsDistinct(t: Template, i: nat, j: nat)
    requires i < j < |Petals(t)|
    ensures var d := Petals(t)[j].turn - Petals(t)[i].turn;
            0.0 < d < 1.0 && d.Floor as real != d
  {
    var r := Petals(t);
    var c := t.petalCount;
    TurnFraction(j, c);
    assert r[i].turn == i as real / c && r[j].turn == j as real / c;
    assert r[j].turn - r[i].turn == (j - i) as real / c;
  }

  /** h * c == x with c positive means h is x / c. */
  lemma DivideBack(h: real, c: real, x: real)
    requires c > 0.0 && h * c == x
    ensures h == x / c
  {
  }

  /** On a positive stem every leaf sits strictly between the ground and the
      stem top. */
  lemma LeafInsideStem(t: Template, i: nat)
    requires t.stemHeight > 0.0
    requires i < |Leaves(t)|
    ensures 0.0 < Leaves(t)[i].height < t.stemHeight
  {
    var r := Leaves(t);
    LeafLevel(t, i);
    FractionInside(t.stemHeight, i as real + 1.0, t.leafCount + 1.0, r[i].height);
  }

  /** A height h with h * c == s * a, for 0 < a < c and s > 0, lies strictly
      inside (0, s). */
  lemma FractionInside(s: real, a: real, c: real, h: real)
    requires s > 0.0 && 0.0 < a < c && h * c == s * a
    ensures 0.0 < h < s
  {
    DivideBack(h, c, s * a);
    assert s * a < s * c;
  }

  /** Leaves sit strictly inside a positive stem, strictly rising with their
      index. */
  lemma LeafHeights(t: Template, i: nat, j: nat)
    requires t.stemHeight > 0.0
    requires i < j < |Leaves(t)|
    ensures 0.0 < Leaves(t)[i].height < Leaves(t)[j].height < t.stemHeight
  {
    var r := Leaves(t);
    assert j as real + 1.0 < t.leafCount + 1.0;
    LeafLevel(t, i);
    LeafLevel(t, j);
    LeafPair(t.stemHeight, t.leafCount + 1.0, i, j, r[i].height, r[j].height);
  }

  /** Leaves j and i are (j - i) stemHeight / (leafCount + 1) apart: the gap
      times (leafCount + 1) is (j - i) stemHeight. */
  lemma LeafSpacing(t: Template, i: nat, j: nat)
    requires i < j < |Leaves(t)|
    ensures (Leaves(t)[j].height - Leaves(t)[i].height) * (t.leafCount + 1.0) ==
            (j - i) as real * t.stemHeight
  {
    LeafLevel(t, i);
    LeafLevel(t, j);
    Gap(Leaves(t)[i].height, Leaves(t)[j].height, t.leafCount + 1.0, t.stemHeight, i, j);
  }

  /** Subtracting hi c == s (i + 1) from hj c == s (j + 1). */
  lemma Gap(hi: real, hj: real, c: real, s: real, i: nat, j: nat)
    requires hi * c == s * (i as real + 1.0) && hj * c == s * (j as real + 1.0) && i < j
    ensures (hj - hi) * c == (j - i) as real * s
  {
    assert (hj - hi) * c == hj * c - hi * c;
    assert (j - i) as real * s == s * (j as real + 1.0) - s * (i as real + 1.0);
  }

  /** Heights at the fractions (i + 1) / c and (j + 1) / c of a positive stem s. */
  lemma LeafPair(s: real, c: real, i: nat, j: nat, hi: real, hj: real)
    requires s > 0.0 && i < j && j as real + 1.0 < c
    requires hi * c == s * (i as real + 1.0) && hj * c == s * (j as real + 1.0)
    ensures 0.0 < hi < hj < s
  {
    DivideBack(hi, c, s * (i as real + 1.0));
    DivideBack(hj, c, s * (j as real + 1.0));
    ScaledFractionBounds(s, i as real + 1.0, j as real + 1.0, c);
  }

  /** For 0 < a < b < c and s > 0: 0 < s a / c < s b / c < s. */
  lemma ScaledFractionBounds(s: real, a: real, b: real, c: real)
    requires s > 0.0 && 0.0 < a < b < c
    ensures 0.0 < s * a / c < s * b / c < s
  {
    assert s * a < s * b < s * c;
  }

  /** With no leaves asked for there are none, so the turn i / leafCount is
      never computed. */
  lemma NoLeaves(t: Template)
    requires t.leafCount <= 0.0
    ensures Leaves(t) == []
    ensures Tally(Layout(t), IsLeaf) == 0
  {
    LayoutCounts(t);
  }

  // ---------------------------------------------------------------------------
  // The flower as drawn
  // ---------------------------------------------------------------------------

  /** What the scene draws for one flower record at the current growth: the
      group placed at the record's position and scaled uniformly by growth. */
  datatype FlowerModel = FlowerModel(
    position: Vec3,
    scale: Vec3,
    petalOutline: seq<PathCmd>,
    leafOutline: seq<PathCmd>,
    parts: seq<Part>)

  function Build(f: FlowerConfig, growth: real): (m: FlowerModel)
    ensures m.position == f.position
    ensures m.scale.x == growth && m.scale.y == growth && m.scale.z == growth
    ensures m.petalOutline == PetalOutline(f.petalShape)
    ensures m.leafOutline == LeafOutline(f.leafShape)
    ensures m.parts == Layout(TemplateOf(f))
  {
    FlowerModel(f.position, Vec3(growth, growth, growth),
                PetalOutline(f.petalShape), LeafOutline(f.leafShape), Layout(TemplateOf(f)))
  }

  /** The builder reads neither `density` nor, beyond the outline it ignores,
      `leafShape`; nor any of the colours. */
  lemma BuildIgnoresUnusedFields(f: FlowerConfig, growth: real, d: real, s: LeafShape, pc: Color, cc: Color)
    ensures Build(f.(density := d, leafShape := s, petalColor := pc, centerColor := cc), growth) ==
            Build(f, growth)
  {
  }

  // ---------------------------------------------------------------------------
  // Growth
  // ---------------------------------------------------------------------------

  /** Growth per second. */
  const GrowthRate: real := 1.2

  function Min(a: real, b: real): real
  {
    if a <= b then a else b
  }

  /** One frame of growth lasting `delta` seconds: a flower still growing
      advances by delta * GrowthRate, clamped at full size 1; a flower at full
      size is left alone. */
  function GrowthStep(g: real, delta: real): (r: real)
    ensures g >= 1.0 ==> r == g
    ensures g < 1.0 ==> r <= 1.0
    ensures g < 1.0 && delta >= 0.0 ==> g <= r
    ensures g < 1.0 ==> (r == 1.0 <==> g + delta * GrowthRate >= 1.0)
    ensures g < 1.0 && r < 1.0 ==> r - g == delta * GrowthRate
  {
    if g < 1.0 then Min(1.0, g + delta * GrowthRate) else g
  }

  /** Growth after `n` frames of `delta` seconds each, starting from `g`. */
  function GrowthAfter(g: real, delta: real, n: nat): real
  {
    if n == 0 then g else GrowthStep(GrowthAfter(g, delta, n - 1), delta)
  }

  /** From any growth in [0, 1] and with non-negative frames, growth after n
      frames is the unclamped growth n * delta * GrowthRate capped at 1. */
  lemma {:induction false} GrowthClosedForm(g: real, delta: real, n: nat)
    requires 0.0 <= g <= 1.0 && delta >= 0.0
    ensures GrowthAfter(g, delta, n) == Min(1.0, g + n as real * delta * GrowthRate)
  {
    if n > 0 {
      GrowthClosedForm(g, delta, n - 1);
      ClosedFormStep(g, delta, n, GrowthAfter(g, delta, n - 1));
    }
  }

  /** One frame taken from the closed form after n - 1 frames gives the
      closed form after n frames. */
  lemma ClosedFormStep(g: real, delta: real, n: nat, prev: real)
    requires delta >= 0.0 && n > 0
    requires prev == Min(1.0, g + (n - 1) as real * delta * GrowthRate)
    ensures GrowthStep(prev, delta) == Min(1.0, g + n as real * delta * GrowthRate)
  {
    var step := delta * GrowthRate;
    assert n as real * delta * GrowthRate == (n - 1) as real * delta * GrowthRate + step;
  }

  /** Growth never decreases from frame to frame and never exceeds 1. */
  lemma GrowthMonotone(g: real, delta: real, m: nat, n: nat)
    requires 0.0 <= g <= 1.0 && delta >= 0.0 && m <= n
    ensures g <= GrowthAfter(g, delta, m) <= GrowthAfter(g, delta, n) <= 1.0
  {
    GrowthClosedForm(g, delta, m);
    GrowthClosedForm(g, delta, n);
    assert m as real * delta <= n as real * delta;
  }

  /** Enough frames of positive length bring any seedling to full bloom. */
  lemma GrowthBlooms(g: real, delta: real, n: nat)
    requires 0.0 <= g <= 1.0 && delta > 0.0 && g + n as real * delta * GrowthRate >= 1.0
    ensures GrowthAfter(g, delta, n) == 1.0
  {
    GrowthClosedForm(g, delta, n);
  }

  /** Total length of a run of frames, in seconds. */
  function Sum(ds: seq<real>): real
  {
    if ds == [] then 0.0 else Sum(ds[..|ds| - 1]) + ds[|ds| - 1]
  }

  /** Every frame of the run has a non-negative length. */
  predicate NonNegative(ds: seq<real>)
  {
    forall i :: 0 <= i < |ds| ==> ds[i] >= 0.0
  }

  /** Growth after a run of frames of lengths `ds`, oldest first, each frame
      with its own length as the frame callback receives it. */
  function GrowthAfterFrames(g: real, ds: seq<real>): real
  {
    if ds == [] then g else GrowthStep(GrowthAfterFrames(g, ds[..|ds| - 1]), ds[|ds| - 1])
  }

  /** One more frame taken from the closed form gives the closed form with
      that frame's length added. */
  lemma FrameStep(g: real, s: real, delta: real, prev: real)
    requires delta >= 0.0 && prev == Min(1.0, g + s * GrowthRate)
    ensures GrowthStep(prev, delta) == Min(1.0, g + (s + delta) * GrowthRate)
  {
    assert (s + delta) * GrowthRate == s * GrowthRate + delta * GrowthRate;
  }

  /** From growth at most 1 and with frames of any non-negative lengths,
      growth is the unclamped growth over the total time, capped at 1. */
  lemma {:induction false} FramesClosedForm(g: real, ds: seq<real>)
    requires g <= 1.0 && NonNegative(ds)
    ensures GrowthAfterFrames(g, ds) == Min(1.0, g + Sum(ds) * GrowthRate)
  {
    if ds != [] {
      var init := ds[..|ds| - 1];
      assert forall i :: 0 <= i < |init| ==> init[i] == ds[i];
      FramesClosedForm(g, init);
      FrameStep(g, Sum(init), ds[|ds| - 1], GrowthAfterFrames(g, init));
    }
  }

  /** A flower reaches full bloom exactly when its frames add up to enough
      time; frames that add up to less, however many, leave it short of 1. */
  lemma FramesBloom(g: real, ds: seq<real>)
    requires g <= 1.0 && NonNegative(ds)
    ensures GrowthAfterFrames(g, ds) == 1.0 <==> g + Sum(ds) * GrowthRate >= 1.0
    ensures GrowthAfterFrames(g, ds) <= 1.0
  {
    FramesClosedForm(g, ds);
  }

  /** The time in a prefix of a run is non-negative and at most the run's. */
  lemma {:induction false} SumPrefix(ds: seq<real>, m: nat)
    requires NonNegative(ds) && m <= |ds|
    ensures 0.0 <= Sum(ds[..m]) <= Sum(ds)
  {
    if ds != [] {
      var init := ds[..|ds| - 1];
      assert forall i :: 0 <= i < |init| ==> init[i] == ds[i];
      if m == |ds| {
        assert ds[..m] == ds;
        SumPrefix(init, |init|);
        assert init[..|init|] == init;
      } else {
        assert init[..m] == ds[..m];
        SumPrefix(init, m);
      }
    }
  }

  /** Whatever the frame lengths, growth never decreases along the run and
      never exceeds 1. */
  lemma FramesMonotone(g: real, ds: seq<real>, m: nat)
    requires 0.0 <= g <= 1.0 && NonNegative(ds) && m <= |ds|
    ensures g <= GrowthAfterFrames(g, ds[..m]) <= GrowthAfterFrames(g, ds) <= 1.0
  {
    assert forall i :: 0 <= i < m ==> ds[..m][i] == ds[i];
    SumPrefix(ds, m);
    FramesClosedForm(g, ds[..m]);
    FramesClosedForm(g, ds);
  }

  /** A run of `n` frames of `delta` seconds each. */
  function Repeat(delta: real, n: nat): (r: seq<real>)
    ensures |r| == n
  {
    if n == 0 then [] else Repeat(delta, n - 1) + [delta]
  }

  /** Runs of equal frames are the special case of `GrowthAfter`. */
  lemma {:induction false} EqualFrames(g: real, delta: real, n: nat)
    ensures GrowthAfter(g, delta, n) == GrowthAfterFrames(g, Repeat(delta, n))
  {
    if n > 0 {
      EqualFrames(g, delta, n - 1);
      assert Repeat(delta, n)[..n - 1] == Repeat(delta, n - 1);
    }
  }

  /** A run of n equal frames lasts n times one frame. */
  lemma {:induction false} RepeatSum(delta: real, n: nat)
    ensures Sum(Repeat(delta, n)) == n as real * delta
  {
    if n > 0 {
      RepeatSum(delta, n - 1);
      assert Repeat(delta, n)[..n - 1] == Repeat(delta, n - 1);
    }
  }

  /** Frames that shrink can stop short of full bloom: two frames, the second
      half the first, leave a seedling at 3/4. */
  lemma ShrinkingFrames()
    ensures GrowthAfterFrames(0.0, [0.5 / 1.2, 0.25 / 1.2]) == 0.75
  {
    assert [0.5 / 1.2, 0.25 / 1.2][..1] == [0.5 / 1.2];
    assert [0.5 / 1.2][..0] == [];
  }

  /** Once full size, a flower stays at full size whatever the frames. */
  lemma {:induction false} BloomIsFinal(ds: seq<real>)
    ensures GrowthAfterFrames(1.0, ds) == 1.0
  {
    if ds != [] {
      BloomIsFinal(ds[..|ds| - 1]);
    }
  }

  /** From a fresh seedling, one frame of 1 / 1.2 seconds reaches exactly 1. */
  lemma OneFrameToBloom()
    ensures GrowthStep(0.0, 1.0 / 1.2) == 1.0
  {
  }

  /** The growth scalar of one drawn flower instance. */
  class Growth {
    var value: real

    /** A flower instance starts as a seedling at scale 0. */
    constructor ()
      ensures value == 0.0
    {
      value := 0.0;
    }

    /** The per-frame callback: advance growth by one frame of `delta` seconds. */
    method Tick(delta: real)
      modifies this
      ensures value == GrowthStep(old(value), delta)
      ensures 0.0 <= old(value) <= 1.0 && delta >= 0.0 ==> old(value) <= value <= 1.0
      ensures old(value) == 1.0 ==> value == 1.0
    {
      if value < 1.0 {
        value := Min(1.0, value + delta * GrowthRate);
      }
    }
  }
}
