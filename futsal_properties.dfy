/**
 * What the futsal pitch configuration guarantees: the shape of the landmark
 * table, how the projection treats each axis, and the order, count and
 * arguments of the extra drawing calls, including the side-dependent sweep
 * of the penalty arcs.
 */
module FutsalProperties {
  import opened PyInt
  import opened Futsal

  // ---------------------------------------------------------------------
  // Landmark table

  function Midpoint(p: Pos, q: Pos): Pos {
    Pos((p.x + q.x) / 2.0, (p.y + q.y) / 2.0)
  }

  /**
   * Six landmarks: the corners of the length-by-width rectangle in the order
   * bottom-left, top-left, top-right, bottom-right, then the midpoints of the
   * bottom and top sides, which are the ends of the centre line.
   */
  lemma VerticesLayout(c: PitchConfig)
    ensures var v := Vertices(c);
      && |v| == 6
      && v[0] == Pos(0.0, 0.0)
      && v[1] == Pos(0.0, c.width as real)
      && v[2] == Pos(c.length as real, c.width as real)
      && v[3] == Pos(c.length as real, 0.0)
      && v[4] == Midpoint(v[0], v[3]) && v[5] == Midpoint(v[1], v[2])
      && v[4].x == v[5].x == c.length as real / 2.0
  {
  }

  /**
   * Every default edge indexes the landmark table; the first four go round
   * the corners as the closed cycle 0-1-2-3-0, and the fifth is the centre
   * line, joining the two landmarks at half the length.
   */
  lemma DefaultEdgesValid(c: PitchConfig)
    ensures var e, v := DefaultEdges(), Vertices(c);
      && |e| == 5
      && (forall k :: 0 <= k < |e| ==> 0 <= e[k].0 < |v| && 0 <= e[k].1 < |v|)
      && (forall k :: 0 <= k < 3 ==> e[k].1 == e[k + 1].0)
      && e[3].1 == e[0].0
      && {e[0].0, e[1].0, e[2].0, e[3].0} == {0, 1, 2, 3}
      && e[4] == (4, 5)
      && v[e[4].0].x == v[e[4].1].x == Half(c.length)
      && v[e[4].0].y == 0.0 && v[e[4].1].y == c.width as real
  {
  }

  /** The default label and colour lists run parallel to the landmark table. */
  lemma DefaultTablesParallel(c: PitchConfig)
    ensures |DefaultLabels()| == |DefaultColors()| == |Vertices(c)| == 6
    ensures forall k :: 0 <= k < 6 ==> DefaultLabels()[k] == "" && DefaultColors()[k] == "#FFFFFF"
  {
  }

  // ---------------------------------------------------------------------
  // Projection

  /**
   * Each pixel coordinate is the exact affine image of the same coordinate,
   * truncated toward zero: it lies between zero and the exact value, less
   * than one pixel from it.
   */
  lemma PxTruncatesAffine(c: PitchConfig, p: Pos)
    ensures var ex, ey := p.x * c.scale + c.offset.x as real, p.y * c.scale + c.offset.y as real;
      && Px(c, p) == Pixel(Trunc(ex), Trunc(ey))
      && (0.0 <= ex ==> 0.0 <= Px(c, p).x as real <= ex < Px(c, p).x as real + 1.0)
      && (ex < 0.0 ==> ex <= Px(c, p).x as real <= 0.0 && Px(c, p).x as real - 1.0 < ex)
      && (0.0 <= ey ==> 0.0 <= Px(c, p).y as real <= ey < Px(c, p).y as real + 1.0)
      && (ey < 0.0 ==> ey <= Px(c, p).y as real <= 0.0 && Px(c, p).y as real - 1.0 < ey)
  {
  }

  /** The pixel x depends on the point's x alone, the pixel y on its y alone. */
  lemma PxAxisIndependent(c: PitchConfig, p: Pos, q: Pos)
    ensures p.x == q.x ==> Px(c, p).x == Px(c, q).x
    ensures p.y == q.y ==> Px(c, p).y == Px(c, q).y
  {
  }

  /** Scaling by a positive factor and then shifting keeps the order. */
  lemma ScaleMonotone(a: real, b: real, s: real, o: real)
    requires a <= b && 0.0 < s
    ensures a * s + o <= b * s + o
  {
    assert b * s - a * s == (b - a) * s;
  }

  /** Along x, a positive scale keeps the order of the projected points. */
  lemma PxMonotoneX(c: PitchConfig, p: Pos, q: Pos)
    requires c.scale > 0.0 && p.x <= q.x
    ensures Px(c, p).x <= Px(c, q).x
  {
    var s, o := c.scale, c.offset.x as real;
    ScaleMonotone(p.x, q.x, s, o);
    TruncMonotone(p.x * s + o, q.x * s + o);
    assert Px(c, p).x == Trunc(p.x * s + o);
    assert Px(c, q).x == Trunc(q.x * s + o);
  }

  /** Along y, a positive scale keeps the order of the projected points. */
  lemma PxMonotoneY(c: PitchConfig, p: Pos, q: Pos)
    requires c.scale > 0.0 && p.y <= q.y
    ensures Px(c, p).y <= Px(c, q).y
  {
    var s, o := c.scale, c.offset.y as real;
    ScaleMonotone(p.y, q.y, s, o);
    TruncMonotone(p.y * s + o, q.y * s + o);
    assert Px(c, p).y == Trunc(p.y * s + o);
    assert Px(c, q).y == Trunc(q.y * s + o);
  }

  /** The projected corners still form an axis-aligned rectangle. */
  lemma CornersAligned(c: PitchConfig)
    ensures var v := Vertices(c);
      && Px(c, v[0]).x == Px(c, v[1]).x
      && Px(c, v[2]).x == Px(c, v[3]).x
      && Px(c, v[0]).y == Px(c, v[3]).y
      && Px(c, v[1]).y == Px(c, v[2]).y
  {
    var v := Vertices(c);
    PxAxisIndependent(c, v[0], v[1]);
    PxAxisIndependent(c, v[2], v[3]);
    PxAxisIndependent(c, v[0], v[3]);
    PxAxisIndependent(c, v[1], v[2]);
  }

  // ---------------------------------------------------------------------
  // The passes, position by position

  /** The penalty pass emits, for the k-th position, its marker and then its arc. */
  lemma {:induction false} PenaltyPassAt(c: PitchConfig, xs: seq<real>, k: nat)
    requires k < |xs|
    ensures PenaltyPass(c, xs)[2 * k] == PenaltyOps(c, xs[k])[0]
    ensures PenaltyPass(c, xs)[2 * k + 1] == PenaltyOps(c, xs[k])[1]
  {
    var init := xs[..|xs| - 1];
    if k < |xs| - 1 {
      PenaltyPassAt(c, init, k);
      assert init[k] == xs[k];
    }
  }

  /** The goal pass emits the line for the k-th position k-th. */
  lemma {:induction false} GoalPassAt(c: PitchConfig, xs: seq<real>, k: nat)
    requires k < |xs|
    ensures GoalPass(c, xs)[k] == GoalOp(c, xs[k])
  {
    var init := xs[..|xs| - 1];
    if k < |xs| - 1 {
      GoalPassAt(c, init, k);
      assert init[k] == xs[k];
    }
  }

  /** The first call of the extra pass is the centre circle. */
  lemma ExtrasCircle(c: PitchConfig)
    ensures |Extras(c)| == 7 && Extras(c)[0] == CentreCircleOp(c)
  {
  }

  /** Calls 1-2 are the left penalty spot's, calls 3-4 the right one's. */
  lemma ExtrasPenalty(c: PitchConfig, k: nat)
    requires k < 2
    ensures |Extras(c)| == 7
    ensures Extras(c)[1 + 2 * k] == PenaltyOps(c, PenaltyXs(c)[k])[0]
    ensures Extras(c)[2 + 2 * k] == PenaltyOps(c, PenaltyXs(c)[k])[1]
  {
    PenaltyPassAt(c, PenaltyXs(c), k);
  }

  /** Calls 5 and 6 are the left and the right goal mouth. */
  lemma ExtrasGoal(c: PitchConfig, k: nat)
    requires k < 2
    ensures |Extras(c)| == 7
    ensures Extras(c)[5 + k] == GoalOp(c, GoalXs(c)[k])
  {
    GoalPassAt(c, GoalXs(c), k);
  }

  // ---------------------------------------------------------------------
  // The extra drawing calls

  /**
   * Seven calls in a fixed order: the centre circle outline, then a filled
   * marker and an arc for each penalty spot, then two goal-mouth lines.
   */
  lemma ExtrasOrder(c: PitchConfig)
    ensures var e := Extras(c);
      && |e| == 7
      && e[0].Circle? && e[0].thickness == StrokeThickness
      && e[1].Circle? && e[1].thickness == Filled && e[1].radius == SpotRadius
      && e[2].Ellipse?
      && e[3].Circle? && e[3].thickness == Filled && e[3].radius == SpotRadius
      && e[4].Ellipse?
      && e[5].Line? && e[6].Line?
  {
    ExtrasCircle(c);
    ExtrasPenalty(c, 0);
    ExtrasPenalty(c, 1);
    ExtrasGoal(c, 0);
    ExtrasGoal(c, 1);
  }

  /**
   * The centre circle is centred on the projected pitch centre, and its
   * radius is the centre-circle radius scaled (and truncated), whatever the
   * offset.
   */
  lemma CentreCircleDrawn(c: PitchConfig)
    ensures Extras(c)[0].Circle?
    ensures Extras(c)[0].center == Px(c, Pos(c.length as real / 2.0, c.width as real / 2.0))
    ensures Extras(c)[0].radius == ScaledRadius(c, c.centreCircleRadius)
  {
    ExtrasCircle(c);
  }

  /**
   * A scaled radius is the measurement times the scale, truncated: with a
   * non-negative measurement and scale it is the whole pixels below the exact
   * value. The offset plays no part.
   */
  lemma ScaledRadiusMeaning(c: PitchConfig, r: int, offset: Pixel)
    ensures ScaledRadius(c, r) == Trunc(r as real * c.scale)
    ensures ScaledRadius(c.(offset := offset), r) == ScaledRadius(c, r)
    ensures 0 <= r && 0.0 <= c.scale ==>
      0 <= ScaledRadius(c, r) && ScaledRadius(c, r) as real <= r as real * c.scale < ScaledRadius(c, r) as real + 1.0
  {
    var v := r as real * c.scale;
    if 0 <= r && 0.0 <= c.scale {
      assert 0.0 <= v;
    }
    TruncBounds(v);
  }

  /** Both axes of the k-th penalty arc are the scaled arc radius. */
  lemma ArcAxes(c: PitchConfig, k: nat)
    requires k < 2
    ensures |Extras(c)| == 7 && Extras(c)[2 + 2 * k].Ellipse?
    ensures Extras(c)[2 + 2 * k].axes
      == (ScaledRadius(c, c.penaltyArcRadius), ScaledRadius(c, c.penaltyArcRadius))
  {
    ExtrasPenalty(c, k);
  }

  /** Moving the pitch on the image changes no radius: not the circle's, not the arcs'. */
  lemma RadiiIgnoreOffset(c: PitchConfig, offset: Pixel)
    ensures var c' := c.(offset := offset);
      && Extras(c)[0].Circle? && Extras(c')[0].Circle?
      && Extras(c)[2].Ellipse? && Extras(c')[2].Ellipse?
      && Extras(c)[4].Ellipse? && Extras(c')[4].Ellipse?
      && Extras(c')[0].radius == Extras(c)[0].radius
      && Extras(c')[2].axes == Extras(c)[2].axes
      && Extras(c')[4].axes == Extras(c)[4].axes
  {
    var c' := c.(offset := offset);
    ScaledRadiusMeaning(c, c.centreCircleRadius, offset);
    ScaledRadiusMeaning(c, c.penaltyArcRadius, offset);
    CentreCircleDrawn(c);
    CentreCircleDrawn(c');
    ArcAxes(c, 0);
    ArcAxes(c', 0);
    ArcAxes(c, 1);
    ArcAxes(c', 1);
  }

  /**
   * The k-th penalty spot (k = 0 at penaltySpotDistance, k = 1 at
   * length - penaltySpotDistance, both at half the width) gets a filled
   * marker and then an arc on the same projected centre, with both axes the
   * scaled arc radius; the sweep is 270 to 90 when the spot lies left of
   * half the length and 90 to 270 otherwise.
   */
  lemma PenaltyFeatures(c: PitchConfig, k: nat)
    requires k < 2
    ensures PenaltyXs(c) == [c.penaltySpotDistance as real, (c.length - c.penaltySpotDistance) as real]
    ensures var x := PenaltyXs(c)[k];
      var spot := Px(c, Pos(x, c.width as real / 2.0));
      var r := ScaledRadius(c, c.penaltyArcRadius);
      var sweep := if x < c.length as real / 2.0 then (270, 90) else (90, 270);
      && Extras(c)[1 + 2 * k] == Circle(spot, SpotRadius, Filled)
      && Extras(c)[2 + 2 * k] == Ellipse(spot, (r, r), 0, sweep.0, sweep.1, StrokeThickness)
  {
    ExtrasPenalty(c, k);
    var x := PenaltyXs(c)[k];
    assert Spot(c, x) == Pos(x, c.width as real / 2.0);
    assert ArcAngles(c, x) == if x < c.length as real / 2.0 then (270, 90) else (90, 270);
  }

  /**
   * The sweep of each arc is decided by its side: each arc sweeps 270 to 90
   * exactly when its spot lies left of the centre line. For the second
   * arc, at length - penaltySpotDistance, that happens only when the spots
   * have crossed over. Each sweep is one of the two half-circle pairs.
   */
  lemma ArcOrientation(c: PitchConfig)
    ensures Extras(c)[2].Ellipse? && Extras(c)[4].Ellipse?
    ensures (Extras(c)[2].startAngle, Extras(c)[2].endAngle) == (270, 90)
        <==> c.penaltySpotDistance as real < c.length as real / 2.0
    ensures (Extras(c)[4].startAngle, Extras(c)[4].endAngle) == (270, 90)
        <==> c.penaltySpotDistance as real > c.length as real / 2.0
    ensures forall k :: k in {2, 4} ==>
        (Extras(c)[k].startAngle, Extras(c)[k].endAngle) in {(270, 90), (90, 270)}
  {
    PenaltyFeatures(c, 0);
    PenaltyFeatures(c, 1);
  }

  /** With each spot inside its own half, the two arcs get swapped angle pairs. */
  lemma ArcsSwapped(c: PitchConfig)
    requires c.penaltySpotDistance as real < c.length as real / 2.0
    ensures Extras(c)[2].Ellipse? && Extras(c)[4].Ellipse?
    ensures Extras(c)[2].startAngle == 270 && Extras(c)[2].endAngle == 90
    ensures Extras(c)[4].startAngle == 90 && Extras(c)[4].endAngle == 270
  {
    ArcOrientation(c);
  }

  /** The penalty spots sit on the same pixel row as the centre of the centre circle. */
  lemma SpotsOnMidline(c: PitchConfig)
    ensures Extras(c)[1].Circle? && Extras(c)[3].Circle? && Extras(c)[0].Circle?
    ensures Extras(c)[1].center.y == Extras(c)[3].center.y == Extras(c)[0].center.y
  {
    ExtrasOrder(c);
    CentreCircleDrawn(c);
    PenaltyFeatures(c, 0);
    PenaltyFeatures(c, 1);
    var mid := c.width as real / 2.0;
    PxAxisIndependent(c, Pos(c.penaltySpotDistance as real, mid), Pos(c.length as real / 2.0, mid));
    PxAxisIndependent(c, Pos((c.length - c.penaltySpotDistance) as real, mid), Pos(c.length as real / 2.0, mid));
  }

  /**
   * The goal mouths are drawn at x = 0 and then at x = length, each from half
   * the goal width below the midline to half above it. Both ends of a goal
   * line share the pixel column of that side's projected corners, and with
   * a positive scale and a non-negative goal width the first end's pixel y
   * is at most the second's.
   */
  lemma GoalMouths(c: PitchConfig)
    ensures var e, v, mid, g := Extras(c), Vertices(c), c.width as real / 2.0, c.goalWidth as real / 2.0;
      && e[5] == Line(Px(c, Pos(0.0, mid - g)), Px(c, Pos(0.0, mid + g)), StrokeThickness)
      && e[6] == Line(Px(c, Pos(c.length as real, mid - g)), Px(c, Pos(c.length as real, mid + g)), StrokeThickness)
      && e[5].p1.x == e[5].p2.x == Px(c, v[0]).x == Px(c, v[1]).x
      && e[6].p1.x == e[6].p2.x == Px(c, v[2]).x == Px(c, v[3]).x
      && (c.scale > 0.0 && c.goalWidth >= 0 ==> e[5].p1.y <= e[5].p2.y && e[6].p1.y <= e[6].p2.y)
  {
    var e, v, mid, g := Extras(c), Vertices(c), c.width as real / 2.0, c.goalWidth as real / 2.0;
    ExtrasGoal(c, 0);
    ExtrasGoal(c, 1);
    PxAxisIndependent(c, Pos(0.0, mid - g), v[0]);
    PxAxisIndependent(c, Pos(0.0, mid + g), v[1]);
    PxAxisIndependent(c, Pos(c.length as real, mid - g), v[2]);
    PxAxisIndependent(c, Pos(c.length as real, mid + g), v[3]);
    CornersAligned(c);
    if c.scale > 0.0 && c.goalWidth >= 0 {
      PxMonotoneY(c, Pos(0.0, mid - g), Pos(0.0, mid + g));
      PxMonotoneY(c, Pos(c.length as real, mid - g), Pos(c.length as real, mid + g));
    }
  }

  // ---------------------------------------------------------------------
  // The default pitch

  /** The default pitch, corner to corner, projects onto (50,50)-(1050,550). */
  lemma DefaultProjection()
    ensures Px(Default(), Pos(0.0, 0.0)) == Pixel(50, 50)
    ensures Px(Default(), Pos(4000.0, 2000.0)) == Pixel(1050, 550)
  {
    // every exact image is whole, so int() leaves it as it is
    var c := Default();
    assert 0.0 * c.scale + 50.0 == 50 as real;
    assert 4000.0 * c.scale + 50.0 == 1050 as real;
    assert 2000.0 * c.scale + 50.0 == 550 as real;
    TruncOfWhole(50);
    TruncOfWhole(1050);
    TruncOfWhole(550);
  }

  /**
   * The default pitch draws its centre circle at (550,300) with radius 75,
   * spots at (200,300) and (900,300) with arcs of radius 150 swept 270-90
   * and 90-270, and goal lines (50,262)-(50,337) and (1050,262)-(1050,337),
   * where 262.5 and 337.5 have been truncated.
   */
  lemma DefaultExtras()
    ensures Extras(Default()) == [
      Circle(Pixel(550, 300), 75, 2),
      Circle(Pixel(200, 300), 4, -1),
      Ellipse(Pixel(200, 300), (150, 150), 0, 270, 90, 2),
      Circle(Pixel(900, 300), 4, -1),
      Ellipse(Pixel(900, 300), (150, 150), 0, 90, 270, 2),
      Line(Pixel(50, 262), Pixel(50, 337), 2),
      Line(Pixel(1050, 262), Pixel(1050, 337), 2)]
  {
    var c := Default();
    ExtrasOrder(c);
    CentreCircleDrawn(c);
    PenaltyFeatures(c, 0);
    PenaltyFeatures(c, 1);
    GoalMouths(c);
    assert Trunc(262.5) == 262;
    assert Trunc(337.5) == 337;
  }
}
