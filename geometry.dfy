/** The gauge's geometry: turning a value into a sweep angle, a sweep angle
    into a large-arc flag, and two angles into an SVG "moveto + elliptical
    arc" path (the elliptical arc command, section 8.3.8 of the SVG 1.1
    specification). Everything here
    is a pure function over exact reals. */
module Geometry {
  import opened Wrappers

  /** Fixed logical centre of the 1000 x 1000 drawing. */
  const CenterX: real := 500.0
  const CenterY: real := 500.0

  datatype Point = Point(x: real, y: real)

  /** The host's mapping of (cx, cy, radius, angle in degrees) to a point on
      the circle. Cosine, sine and the rounding to 3 decimals are not modelled,
      so the mapping is a parameter. */
  type Cartesian = (real, real, real, real) -> Point

  function Abs(x: real): (r: real)
    ensures r >= 0.0 && (r == x || r == -x)
  {
    if x < 0.0 then -x else x
  }

  /** Clamps `value` to the range [0, limit]; the upper bound is tested first. */
  function Normalize(value: real, limit: real): (r: real)
    ensures limit >= 0.0 ==> 0.0 <= r <= limit
    ensures value > limit ==> r == limit
    ensures value <= limit && value < 0.0 ==> r == 0.0
    ensures 0.0 <= value <= limit ==> r == value
  {
    if value > limit then limit
    else if value < 0.0 then 0.0
    else value
  }

  /** For a non-negative limit the clamped value is the point of [0, limit]
      nearest to the value. */
  lemma NormalizeIsNearest(value: real, limit: real, y: real)
    requires 0.0 <= y <= limit
    ensures Abs(Normalize(value, limit) - value) <= Abs(y - value)
  {
  }

  /** For a non-negative limit, clamping a clamped value changes nothing, so
      re-setting the value a gauge reports back leaves the value unchanged. */
  lemma NormalizeIdempotent(value: real, limit: real)
    requires limit >= 0.0
    ensures Normalize(Normalize(value, limit), limit) == Normalize(value, limit)
  {
  }

  /** A negative limit is not rejected, and then clamping is not idempotent:
      a value above the limit clamps to the negative limit, which clamps
      again to 0. With limit -10, 3 becomes -10 and -10 becomes 0. */
  lemma NegativeLimitDrifts(value: real, limit: real)
    requires limit < 0.0 && value > limit
    ensures Normalize(value, limit) == limit
    ensures Normalize(Normalize(value, limit), limit) == 0.0
    ensures Normalize(Normalize(value, limit), limit) != Normalize(value, limit)
  {
  }

  /** `100 * value / limit`. A zero limit makes the source's result non-finite
      (an infinity or NaN), which is modelled as None. */
  function Percentage(value: real, limit: real): (r: Option<real>)
    ensures r.Some? <==> limit != 0.0
    ensures r.Some? ==> r.value * limit == 100.0 * value
  {
    if limit == 0.0 then None else Some(100.0 * value / limit)
  }

  /** The share of a span of `spanAngle` degrees that `percentage` percent is. */
  function Angle(percentage: real, spanAngle: real): (r: real)
    ensures 100.0 * r == percentage * spanAngle
  {
    percentage * spanAngle / 100.0
  }

  /** The span of the dial: it always goes the long way round from
      `startAngle` to `endAngle`. */
  function DialSpan(startAngle: real, endAngle: real): (r: real)
    ensures r <= 360.0
    ensures startAngle >= endAngle ==> r == 360.0 - (startAngle - endAngle)
  {
    360.0 - Abs(startAngle - endAngle)
  }

  /** The large-arc flag the gauge passes for an arc of `angle` degrees. */
  function LargeArcFlag(angle: real): (f: real)
    ensures f == 0.0 || f == 1.0
    ensures f == 0.0 <==> angle <= 180.0
  {
    if angle <= 180.0 then 0.0 else 1.0
  }

  /** Puts the dial's two angles in the order the gauge needs: when the start
      angle is below the end angle the two are swapped. */
  function OrderAngles(startAngle: real, endAngle: real): (r: (real, real))
    ensures r.0 >= r.1
    ensures multiset{r.0, r.1} == multiset{startAngle, endAngle}
    ensures startAngle >= endAngle ==> r == (startAngle, endAngle)
    ensures DialSpan(r.0, r.1) == DialSpan(startAngle, endAngle)
  {
    if startAngle < endAngle then (endAngle, startAngle) else (startAngle, endAngle)
  }

  /** The points of the circle of `radius` about the fixed centre at the two
      angles, as (start, end). */
  function DialCoords(radius: real, startAngle: real, endAngle: real, cartesian: Cartesian): (r: (Point, Point))
    ensures r.0 == cartesian(CenterX, CenterY, radius, startAngle)
    ensures r.1 == cartesian(CenterX, CenterY, radius, endAngle)
  {
    (cartesian(CenterX, CenterY, radius, startAngle), cartesian(CenterX, CenterY, radius, endAngle))
  }

  /** One element of the space-separated path text: a literal word or a number
      (whose decimal formatting is the host's and is not modelled). */
  datatype Token = Word(text: string) | Num(n: real)

  /** The path text `M x1 y1 A r r 0 flag 1 x2 y2` as its eleven items, from
      the start angle's point to the end angle's point. An omitted flag is 1. */
  function PathString(radius: real, startAngle: real, endAngle: real, largeArc: Option<real>, cartesian: Cartesian): seq<Token>
  {
    var coords := DialCoords(radius, startAngle, endAngle, cartesian);
    var start := coords.0;
    var end := coords.1;
    var largeArcFlag := largeArc.GetOr(1.0);
    [Word("M"), Num(start.x), Num(start.y), Word("A"), Num(radius), Num(radius), Word("0"),
     Num(largeArcFlag), Word("1"), Num(end.x), Num(end.y)]
  }

  /** The two commands of a parsed path: a moveto and one elliptical arc. */
  datatype ArcTo = ArcTo(rx: real, ry: real, rotation: real, largeArc: bool, sweep: bool, to: Point)
  datatype MoveArc = MoveArc(from: Point, arc: ArcTo)

  /** A number as it reads once the items are joined with spaces: the words
      "0" and "1" read as numbers too. */
  function NumberOf(t: Token): (r: Option<real>)
    ensures t.Num? ==> r == Some(t.n)
  {
    match t
    case Num(n) => Some(n)
    case Word(w) => if w == "0" then Some(0.0) else if w == "1" then Some(1.0) else None
  }

  /** An arc flag: the SVG path grammar admits only "0" and "1". */
  function FlagOf(t: Token): (r: Option<bool>)
    ensures r.Some? <==> NumberOf(t) == Some(0.0) || NumberOf(t) == Some(1.0)
    ensures r == Some(true) <==> NumberOf(t) == Some(1.0)
  {
    match NumberOf(t)
    case Some(n) => if n == 0.0 then Some(false) else if n == 1.0 then Some(true) else None
    case None => None
  }

  /** Reads `M x y A rx ry rotation large-arc sweep x y` by the SVG 1.1 path
      data grammar, where both radii are non-negative numbers and the flags
      are "0" or "1"; anything else is refused. */
  function ParseMoveArc(ts: seq<Token>): Option<MoveArc>
  {
    if |ts| != 11 || ts[0] != Word("M") || ts[3] != Word("A") then None
    else
      match (NumberOf(ts[1]), NumberOf(ts[2]), NumberOf(ts[4]), NumberOf(ts[5]), NumberOf(ts[6]))
      case (Some(x1), Some(y1), Some(rx), Some(ry), Some(rot)) =>
        if rx < 0.0 || ry < 0.0 then None
        else (match (FlagOf(ts[7]), FlagOf(ts[8]), NumberOf(ts[9]), NumberOf(ts[10]))
         case (Some(large), Some(sweep), Some(x2), Some(y2)) =>
           Some(MoveArc(Point(x1, y1), ArcTo(rx, ry, rot, large, sweep, Point(x2, y2))))
         case _ => None)
      case _ => None
  }

  /** The arc path reads back as a moveto to the start angle's point
      and a clockwise circular arc of the given radius to the end angle's point,
      exactly when the radius is non-negative and the flag is omitted, 0 or 1. */
  lemma PathStringParses(radius: real, startAngle: real, endAngle: real, largeArc: Option<real>, cartesian: Cartesian)
    ensures var p := ParseMoveArc(PathString(radius, startAngle, endAngle, largeArc, cartesian));
            (p.Some? <==> radius >= 0.0 && (largeArc.None? || largeArc.value == 0.0 || largeArc.value == 1.0)) &&
            (p.Some? ==> p.value == MoveArc(cartesian(CenterX, CenterY, radius, startAngle),
                                             ArcTo(radius, radius, 0.0, largeArc != Some(0.0), true,
                                                   cartesian(CenterX, CenterY, radius, endAngle))))
  {
    var ts := PathString(radius, startAngle, endAngle, largeArc, cartesian);
    assert NumberOf(ts[6]) == Some(0.0);
    assert NumberOf(ts[8]) == Some(1.0);
  }

  /** Equal angles, as in the value-0 path, give an arc whose two end points
      coincide. */
  lemma ZeroSweepCoincides(radius: real, angle: real, largeArc: Option<real>, cartesian: Cartesian)
    requires radius >= 0.0
    requires largeArc.None? || largeArc.value == 0.0 || largeArc.value == 1.0
    ensures var p := ParseMoveArc(PathString(radius, angle, angle, largeArc, cartesian));
            p.Some? && p.value.from == p.value.arc.to
  {
    PathStringParses(radius, angle, angle, largeArc, cartesian);
  }

  /** The sweep of the value arc: `value` as a share of the dial span, or None
      when the limit is zero. */
  function SweepAngle(value: real, limit: real, startAngle: real, endAngle: real): Option<real>
  {
    match Percentage(value, limit)
    case None => None
    case Some(p) => Some(Angle(p, DialSpan(startAngle, endAngle)))
  }

  /** Taking a percentage of the limit and then that percentage of the span
      is taking the value's fraction of the span. */
  lemma PercentOfSpan(value: real, limit: real, span: real)
    requires limit != 0.0
    ensures Angle(100.0 * value / limit, span) == value * span / limit
  {
    var q := value / limit;
    assert 100.0 * value / limit == 100.0 * q;
    assert value * span / limit == q * span;
  }

  /** The sweep angle is the value's fraction of the limit times the span. */
  lemma SweepAngleIsShare(value: real, limit: real, startAngle: real, endAngle: real)
    requires limit != 0.0
    ensures SweepAngle(value, limit, startAngle, endAngle) == Some(value * DialSpan(startAngle, endAngle) / limit)
  {
    PercentOfSpan(value, limit, DialSpan(startAngle, endAngle));
  }

  /** A value at the limit sweeps the whole dial, and zero sweeps nothing. */
  lemma SweepAngleBounds(limit: real, startAngle: real, endAngle: real)
    requires limit != 0.0
    ensures SweepAngle(limit, limit, startAngle, endAngle) == Some(DialSpan(startAngle, endAngle))
    ensures SweepAngle(0.0, limit, startAngle, endAngle) == Some(0.0)
  {
    SweepAngleIsShare(limit, limit, startAngle, endAngle);
    SweepAngleIsShare(0.0, limit, startAngle, endAngle);
  }

  /** The path of the value arc drawn by the gauge for `value`, or None when a
      zero limit makes the source's geometry non-finite. */
  function ForegroundPath(radius: real, startAngle: real, endAngle: real, limit: real, value: real,
                          cartesian: Cartesian): Option<seq<Token>>
  {
    match SweepAngle(value, limit, startAngle, endAngle)
    case None => None
    case Some(angle) => Some(PathString(radius, startAngle, angle + startAngle, Some(LargeArcFlag(angle)), cartesian))
  }

  /** The value arc starts at the start angle, ends `value / limit` of the span
      further on, and takes the large arc exactly when that sweep exceeds 180
      degrees. A negative radius gives a path that does not read back. */
  lemma ForegroundArc(radius: real, startAngle: real, endAngle: real, limit: real, value: real, cartesian: Cartesian)
    ensures ForegroundPath(radius, startAngle, endAngle, limit, value, cartesian).Some? <==> limit != 0.0
    ensures limit != 0.0 && radius >= 0.0 ==>
      var sweep := value * DialSpan(startAngle, endAngle) / limit;
      ParseMoveArc(ForegroundPath(radius, startAngle, endAngle, limit, value, cartesian).value) ==
        Some(MoveArc(cartesian(CenterX, CenterY, radius, startAngle),
                     ArcTo(radius, radius, 0.0, sweep > 180.0, true,
                           cartesian(CenterX, CenterY, radius, startAngle + sweep))))
    ensures limit != 0.0 && radius < 0.0 ==>
      ParseMoveArc(ForegroundPath(radius, startAngle, endAngle, limit, value, cartesian).value) == None
  {
    if limit != 0.0 {
      var sweep := value * DialSpan(startAngle, endAngle) / limit;
      SweepAngleIsShare(value, limit, startAngle, endAngle);
      PathStringParses(radius, startAngle, startAngle + sweep, Some(LargeArcFlag(sweep)), cartesian);
    }
  }

  /** The background arc: the full dial at 100 percent, from the start angle
      to the end angle. */
  function BackgroundPath(radius: real, startAngle: real, endAngle: real, cartesian: Cartesian): seq<Token>
  {
    var angle := Angle(100.0, DialSpan(startAngle, endAngle));
    PathString(radius, startAngle, endAngle, Some(LargeArcFlag(angle)), cartesian)
  }

  /** The background arc runs from the start angle's point to the end angle's
      point and takes the large arc exactly when the span exceeds 180 degrees. */
  lemma BackgroundArc(radius: real, startAngle: real, endAngle: real, cartesian: Cartesian)
    requires radius >= 0.0
    ensures ParseMoveArc(BackgroundPath(radius, startAngle, endAngle, cartesian)) ==
      Some(MoveArc(cartesian(CenterX, CenterY, radius, startAngle),
                   ArcTo(radius, radius, 0.0, DialSpan(startAngle, endAngle) > 180.0, true,
                         cartesian(CenterX, CenterY, radius, endAngle))))
  {
    var span := DialSpan(startAngle, endAngle);
    assert Angle(100.0, span) == span;
    PathStringParses(radius, startAngle, endAngle, Some(LargeArcFlag(span)), cartesian);
  }

  /** With the default dial from 135 to 45 degrees the span is 270 degrees:
      half the limit sweeps 135 degrees on the small arc, 80 percent sweeps
      216 degrees on the large arc. */
  lemma DefaultDialSweeps(limit: real)
    requires limit > 0.0
    ensures DialSpan(135.0, 45.0) == 270.0
    ensures SweepAngle(limit / 2.0, limit, 135.0, 45.0) == Some(135.0) && LargeArcFlag(135.0) == 0.0
    ensures SweepAngle(0.8 * limit, limit, 135.0, 45.0) == Some(216.0) && LargeArcFlag(216.0) == 1.0
  {
    SweepAngleIsShare(limit / 2.0, limit, 135.0, 45.0);
    SweepAngleIsShare(0.8 * limit, limit, 135.0, 45.0);
  }

  /** With the default gauge (limit 100, radius 400, dial from 135 to 45
      degrees) the value 50 is drawn as a small arc from the point at 135
      degrees to the point at 270 degrees. */
  lemma DefaultGaugeAtHalf(cartesian: Cartesian)
    ensures ForegroundPath(400.0, 135.0, 45.0, 100.0, 50.0, cartesian).Some?
    ensures ParseMoveArc(ForegroundPath(400.0, 135.0, 45.0, 100.0, 50.0, cartesian).value) ==
      Some(MoveArc(cartesian(CenterX, CenterY, 400.0, 135.0),
                   ArcTo(400.0, 400.0, 0.0, false, true, cartesian(CenterX, CenterY, 400.0, 270.0))))
  {
    ForegroundArc(400.0, 135.0, 45.0, 100.0, 50.0, cartesian);
    assert 50.0 * DialSpan(135.0, 45.0) / 100.0 == 135.0;
  }

  /** Math.round: the nearest integer, halves rounded up. */
  function RoundHalfUp(x: real): (n: int)
    ensures x - 0.5 < n as real <= x + 0.5
  {
    (x + 0.5).Floor
  }

  /** The rounding to two decimals applied to every animated frame value. */
  function RoundTo2(x: real): (r: real)
    ensures x - 0.005 < r <= x + 0.005
    ensures (r * 100.0).Floor as real == r * 100.0
  {
    var n := RoundHalfUp(x * 100.0);
    assert (n as real / 100.0) * 100.0 == n as real;
    n as real / 100.0
  }

  /** A tie between two hundredths goes up, as `Math.round` does. */
  lemma RoundTo2TieRoundsUp()
    ensures RoundTo2(0.125) == 0.13
  {
    assert RoundHalfUp(12.5) == 13;
  }

  /** A value that already has two decimals is left as it is, so rounding
      twice is rounding once. */
  lemma {:induction false} RoundTo2Exact(k: int)
    ensures RoundTo2(k as real / 100.0) == k as real / 100.0
  {
    var x := k as real / 100.0;
    assert x * 100.0 == k as real;
    var n := RoundHalfUp(x * 100.0);
    assert k as real - 0.5 < n as real <= k as real + 0.5;
    assert n == k;
  }
}
