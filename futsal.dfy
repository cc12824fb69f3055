/**
 * The futsal pitch configuration: measurements in centimetres, the landmark
 * table, the projection to pixels and the extra shapes drawn on top of the
 * line-work (centre circle, penalty spots and arcs, goal mouths).
 *
 * Drawing calls are not executed; each one is recorded as a DrawOp carrying
 * the arguments it would be given, and a drawing pass appends to that log.
 */
module Futsal {
  import opened PyInt

  /** A point in real-world centimetres (Python builds these from ints and floats). */
  datatype Pos = Pos(x: real, y: real)

  /** A point in pixel space, as returned by the projection. */
  datatype Pixel = Pixel(x: int, y: int)

  /** The pitch configuration; its methods never change its fields. */
  datatype PitchConfig = PitchConfig(
    width: int,
    length: int,
    centreCircleRadius: int,
    penaltySpotDistance: int,
    penaltyArcRadius: int,
    goalWidth: int,
    scale: real,
    offset: Pixel,
    edges: seq<(int, int)>,
    labels: seq<string>,
    colors: seq<string>)

  /** A drawing call and its arguments; the colour is always white and is not carried. */
  datatype DrawOp =
    | Circle(center: Pixel, radius: int, thickness: int)
    | Ellipse(center: Pixel, axes: (int, int), angle: int, startAngle: int, endAngle: int, thickness: int)
    | Line(p1: Pixel, p2: Pixel, thickness: int)

  /** Stroke width of every outline. */
  const StrokeThickness := 2
  /** A negative thickness asks for a filled shape. */
  const Filled := -1
  /** Pixel radius of a penalty-spot marker. */
  const SpotRadius := 4

  // ---------------------------------------------------------------------
  // Defaults

  function DefaultEdges(): seq<(int, int)> {
    [(0, 1), (1, 2), (2, 3), (3, 0), (4, 5)]
  }

  function DefaultLabels(): seq<string> {
    seq(6, _ => "")
  }

  function DefaultColors(): seq<string> {
    seq(6, _ => "#FFFFFF")
  }

  /** Standard futsal dimensions, 0.25 px per cm, a 50 px margin. */
  function Default(): PitchConfig {
    PitchConfig(
      width := 2000, length := 4000,
      centreCircleRadius := 300, penaltySpotDistance := 600,
      penaltyArcRadius := 600, goalWidth := 300,
      scale := 0.25, offset := Pixel(50, 50),
      edges := DefaultEdges(), labels := DefaultLabels(), colors := DefaultColors())
  }

  // ---------------------------------------------------------------------
  // Landmarks and projection

  /** Half of an integer measurement, by true division. */
  function Half(n: int): real {
    n as real / 2.0
  }

  /** Corners 0-3 of the outer rectangle, then the two ends 4-5 of the centre line. */
  function Vertices(c: PitchConfig): seq<Pos> {
    var w, l := c.width as real, c.length as real;
    [Pos(0.0, 0.0), Pos(0.0, w), Pos(l, w), Pos(l, 0.0),
     Pos(Half(c.length), 0.0), Pos(Half(c.length), w)]
  }

  /** Project a point: scale it, add the offset, truncate each coordinate. */
  function Px(c: PitchConfig, p: Pos): Pixel {
    Pixel(Trunc(p.x * c.scale + c.offset.x as real),
          Trunc(p.y * c.scale + c.offset.y as real))
  }

  /** A length in centimetres scaled to pixels; the offset plays no part. */
  function ScaledRadius(c: PitchConfig, r: int): int {
    Trunc(r as real * c.scale)
  }

  // ---------------------------------------------------------------------
  // The extra shapes, as a specification of what the drawing pass emits

  function CentreCircleOp(c: PitchConfig): DrawOp {
    Circle(Px(c, Pos(Half(c.length), Half(c.width))),
           ScaledRadius(c, c.centreCircleRadius), StrokeThickness)
  }

  /** The x-positions visited by the penalty loop, left spot first. */
  function PenaltyXs(c: PitchConfig): seq<real> {
    [c.penaltySpotDistance as real, (c.length - c.penaltySpotDistance) as real]
  }

  /** The x-positions visited by the goal loop, left goal line first. */
  function GoalXs(c: PitchConfig): seq<real> {
    [0.0, c.length as real]
  }

  /** A penalty spot lies on the pitch's horizontal midline. */
  function Spot(c: PitchConfig, x: real): Pos {
    Pos(x, Half(c.width))
  }

  /** Start and end angle of the penalty arc; the pair is swapped in the right half. */
  function ArcAngles(c: PitchConfig, x: real): (int, int) {
    if x < Half(c.length) then (270, 90) else (90, 270)
  }

  /** The marker and then the arc for the penalty spot at x. */
  function PenaltyOps(c: PitchConfig, x: real): seq<DrawOp> {
    var spot := Px(c, Spot(c, x));
    var r := ScaledRadius(c, c.penaltyArcRadius);
    [Circle(spot, SpotRadius, Filled),
     Ellipse(spot, (r, r), 0, ArcAngles(c, x).0, ArcAngles(c, x).1, StrokeThickness)]
  }

  /** The vertical goal mouth at x, centred on the midline, goalWidth tall. */
  function GoalOp(c: PitchConfig, x: real): DrawOp {
    var g := Half(c.goalWidth);
    Line(Px(c, Pos(x, Half(c.width) - g)), Px(c, Pos(x, Half(c.width) + g)), StrokeThickness)
  }

  /** The penalty loop run over xs: two commands per position. */
  function PenaltyPass(c: PitchConfig, xs: seq<real>): (ops: seq<DrawOp>)
    ensures |ops| == 2 * |xs|
  {
    if xs == [] then [] else PenaltyPass(c, xs[..|xs| - 1]) + PenaltyOps(c, xs[|xs| - 1])
  }

  /** The goal loop run over xs: one line per position. */
  function GoalPass(c: PitchConfig, xs: seq<real>): (ops: seq<DrawOp>)
    ensures |ops| == |xs|
  {
    if xs == [] then [] else GoalPass(c, xs[..|xs| - 1]) + [GoalOp(c, xs[|xs| - 1])]
  }

  /** Everything the extra-drawing pass adds, in order. */
  function Extras(c: PitchConfig): seq<DrawOp> {
    [CentreCircleOp(c)] + PenaltyPass(c, PenaltyXs(c)) + GoalPass(c, GoalXs(c))
  }

  // ---------------------------------------------------------------------
  // The drawing pass

  /**
   * Issue the extra drawing calls onto the image `img` (the log of calls
   * made so far) and return it.
   */
  method DrawExtras(c: PitchConfig, img: seq<DrawOp>) returns (out: seq<DrawOp>)
    ensures out == img + Extras(c)
  {
    // centre circle
    out := img + [Circle(Px(c, Pos(Half(c.length), Half(c.width))),
                         ScaledRadius(c, c.centreCircleRadius), StrokeThickness)];
    ghost var afterCircle := out;
    // penalty spots and arcs
    var xs := PenaltyXs(c);
    for i := 0 to |xs|
      invariant out == afterCircle + PenaltyPass(c, xs[..i])
    {
      ghost var before := out;
      var x := xs[i];
      var spot := Px(c, Pos(x, Half(c.width)));
      out := out + [Circle(spot, SpotRadius, Filled)];
      var start, end := if x < Half(c.length) then 270 else 90,
                        if x < Half(c.length) then 90 else 270;
      var r := ScaledRadius(c, c.penaltyArcRadius);
      out := out + [Ellipse(spot, (r, r), 0, start, end, StrokeThickness)];
      assert out == before + PenaltyOps(c, x);
      assert xs[..i + 1][..i] == xs[..i];
    }
    assert xs[..|xs|] == xs;
    ghost var afterPenalties := out;
    // goal mouths
    var g := Half(c.goalWidth);
    var gs := GoalXs(c);
    for i := 0 to |gs|
      invariant out == afterPenalties + GoalPass(c, gs[..i])
    {
      var x := gs[i];
      out := out + [Line(Px(c, Pos(x, Half(c.width) - g)), Px(c, Pos(x, Half(c.width) + g)),
                         StrokeThickness)];
      assert gs[..i + 1][..i] == gs[..i];
    }
    assert gs[..|gs|] == gs;
  }
}
