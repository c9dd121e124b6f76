/** The gauge widget: a background arc for the whole range, a value arc and
    a label, redrawn from the current value. Its mutable state is the limit,
    the value, the value arc's path, the label text and the pending animation
    frames; the dial's angles are fixed once the constructor has put them in
    order. */
module GaugeWidget {
  import opened Wrappers
  import opened Geometry
  import opened Animation

  /** `option || default` on a number: an omitted or zero option takes the default. */
  function OrDefault(option: Option<real>, default: real): (r: real)
    ensures option.None? || option.value == 0.0 ==> r == default
    ensures option.Some? && option.value != 0.0 ==> r == option.value
  {
    if option.None? || option.value == 0.0 then default else option.value
  }

  /** The values an animation's frames draw: each step value rounded to two
      decimals. */
  function Rounded(t: seq<real>): (r: seq<real>)
    ensures |r| == |t|
    ensures forall i :: 0 <= i < |t| ==> r[i] == RoundTo2(t[i])
  {
    seq(|t|, i requires 0 <= i < |t| => RoundTo2(t[i]))
  }

  /** A job's step values: this frame's, then the rest while it asks for
      another frame. */
  lemma TraceUnfold(j: Job)
    requires j.Valid() && j.iterations > 0.0
    ensures Trace(j) == [FrameValue(j)] + (if Reschedules(j) then Trace(Advance(j)) else [])
  {
    ReschedulesIff(j);
  }

  /** The values that running all the pending frames draws, in order: the
      jobs take turns frame by frame, first in, first out, each frame drawing
      its step value rounded to two decimals. */
  function Drawing(js: seq<Job>): seq<real>
    requires AllPositive(js)
    decreases PendingFrames(js)
  {
    if js == [] then []
    else
      AfterFrameCount(js);
      [RoundTo2(FrameValue(js[0]))] + Drawing(AfterFrame(js))
  }

  /** Draining a queue draws one value per frame its jobs still owe. */
  lemma {:induction false} DrawingLength(js: seq<Job>)
    requires AllPositive(js)
    ensures |Drawing(js)| == PendingFrames(js)
    decreases PendingFrames(js)
  {
    if js != [] {
      AfterFrameCount(js);
      DrawingLength(AfterFrame(js));
    }
  }

  /** A lone job draws its own step values, rounded, and nothing else. */
  lemma {:induction false} LoneJobDrawing(j: Job)
    requires j.Valid() && j.iterations > 0.0
    ensures AllPositive([j])
    ensures Drawing([j]) == Rounded(Trace(j))
    decreases Ceil(j.iterations) - j.currentIteration
  {
    var js := [j];
    assert AllPositive(js);
    AfterFrameCount(js);
    TraceUnfold(j);
    assert js[1..] == [];
    ReschedulesIff(j);
    if Reschedules(j) {
      assert AfterFrame(js) == [Advance(j)];
      LoneJobDrawing(Advance(j));
      assert Rounded([FrameValue(j)] + Trace(Advance(j))) == [RoundTo2(FrameValue(j))] + Rounded(Trace(Advance(j)));
    } else {
      assert AfterFrame(js) == [];
    }
  }

  class Gauge {
    var limit: real
    var value: real
    const radius: real
    const startAngle: real
    const endAngle: real
    const showValue: bool
    /** The label renderer, composed with the host's conversion to text. */
    const renderLabel: real -> string
    const cartesian: Cartesian
    /** The `d` attribute of the background arc, drawn once. */
    const dialPath: seq<Token>
    /** The `d` attribute of the value arc. None stands for the non-finite
        coordinates that a zero limit produces. */
    var valuePath: Option<seq<Token>>
    var labelText: string
    /** The gauge's pending animation frames. */
    const frames: FrameScheduler
    /** The values that animation frames have drawn, in order. */
    ghost var drawn: seq<real>

    ghost predicate Valid()
      reads this, frames
    {
      startAngle >= endAngle && frames.Valid()
    }

    /** The value arc that drawing `v` with the current limit produces. */
    ghost function PathFor(v: real): Option<seq<Token>>
      reads this
    {
      ForegroundPath(radius, startAngle, endAngle, limit, v, cartesian)
    }

    /** What the label shows after drawing `v`: the rendered value when the
        label is shown, else what it showed before. */
    ghost function LabelAfter(v: real, before: string): string
      reads this
    {
      if showValue then renderLabel(v) else before
    }

    /** Builds the gauge from its options (None for an omitted one), swapping
        the dial angles when the start angle is below the end angle, draws the
        background arc and the value arc for the starting value. The label is
        shown unless `showValue` is false; the default label renders
        `Math.round(value)` through `formatNumber`. */
    constructor (max: Option<real>, initialValue: Option<real>, radiusOption: Option<real>,
                 dialStartAngle: Option<real>, dialEndAngle: Option<real>, showValueOption: Option<bool>,
                 labelRenderer: Option<real -> string>, formatNumber: real -> string, cartesian: Cartesian)
      ensures Valid() && fresh(frames)
      ensures limit == OrDefault(max, 100.0)
      ensures value == Normalize(OrDefault(initialValue, 0.0), limit)
      ensures radius == OrDefault(radiusOption, 400.0)
      ensures (startAngle, endAngle) == OrderAngles(dialStartAngle.GetOr(135.0), dialEndAngle.GetOr(45.0))
      ensures startAngle >= endAngle
      ensures multiset{startAngle, endAngle} == multiset{dialStartAngle.GetOr(135.0), dialEndAngle.GetOr(45.0)}
      ensures showValue == showValueOption.GetOr(true) && this.cartesian == cartesian
      ensures labelRenderer.Some? ==> renderLabel == labelRenderer.value
      ensures labelRenderer.None? ==> forall v :: renderLabel(v) == formatNumber(RoundHalfUp(v) as real)
      ensures dialPath == BackgroundPath(radius, startAngle, endAngle, cartesian)
      ensures valuePath == PathFor(value)
      ensures labelText == LabelAfter(value, "")
      ensures frames.pending == [] && drawn == []
    {
      var lim := OrDefault(max, 100.0);
      var r := OrDefault(radiusOption, 400.0);
      var s := dialStartAngle.GetOr(135.0);
      var e := dialEndAngle.GetOr(45.0);
      if s < e {
        var tmp := s;
        s := e;
        e := tmp;
      }
      limit := lim;
      value := Normalize(OrDefault(initialValue, 0.0), lim);
      radius := r;
      showValue := showValueOption.GetOr(true);
      var defaultRenderer: real -> string := v => formatNumber(RoundHalfUp(v) as real);
      renderLabel := labelRenderer.GetOr(defaultRenderer);
      this.cartesian := cartesian;
      startAngle, endAngle := s, e;
      labelText := "";
      valuePath := Some(PathString(r, s, s, None, cartesian));
      dialPath := PathString(r, s, e, Some(LargeArcFlag(Angle(100.0, DialSpan(s, e)))), cartesian);
      frames := new FrameScheduler();
      drawn := [];
      new;
      UpdateGauge(value);
    }

    /** Redraws the value arc, and the label when it is shown, for `theValue`. */
    method UpdateGauge(theValue: real)
      modifies this`valuePath, this`labelText
      ensures valuePath == PathFor(theValue)
      ensures labelText == LabelAfter(theValue, old(labelText))
    {
      var val := Percentage(theValue, limit);
      if showValue {
        labelText := renderLabel(theValue);
      }
      match val {
        case None =>
          valuePath := None;
        case Some(p) =>
          var angle := Angle(p, DialSpan(startAngle, endAngle));
          var flag := LargeArcFlag(angle);
          valuePath := Some(PathString(radius, startAngle, angle + startAngle, Some(flag), cartesian));
      }
    }

    /** Replaces the limit and redraws nothing. */
    method SetMaxValue(max: real)
      modifies this`limit
      ensures limit == max
      ensures value == old(value) && valuePath == old(valuePath) && labelText == old(labelText)
    {
      limit := max;
    }

    /** Sets the value, clamped to the limit, and redraws it at once. */
    method SetValue(v: real)
      modifies this`value, this`valuePath, this`labelText
      ensures value == Normalize(v, limit)
      ensures limit >= 0.0 ==> 0.0 <= value <= limit
      ensures valuePath == PathFor(value)
      ensures labelText == LabelAfter(value, old(labelText))
    {
      value := Normalize(v, limit);
      UpdateGauge(value);
    }

    /** Sets the value, clamped to the limit, at once, and queues an animation
        from the old value to the new one over `duration` seconds (one when
        omitted or zero). An unchanged value queues nothing. */
    method SetValueAnimated(v: real, duration: Option<real>)
      requires Valid()
      modifies this`value, frames
      ensures Valid()
      ensures value == Normalize(v, limit)
      ensures old(value) == value ==> frames.pending == old(frames.pending)
      ensures old(value) != value ==>
        frames.pending == old(frames.pending) + [Start(old(value), value, OrDefault(duration, 1.0), EaseInOutCubic)]
      ensures valuePath == old(valuePath) && labelText == old(labelText)
    {
      var oldVal := value;
      value := Normalize(v, limit);
      if oldVal == value {
        return;
      }
      frames.Request(Start(oldVal, value, OrDefault(duration, 1.0), EaseInOutCubic));
    }

    /** The last value set, whatever frames are still pending. */
    method GetValue() returns (r: real)
      ensures r == value
    {
      r := value;
    }

    /** The host runs the first pending frame: its job's step value, rounded
        to two decimals, is drawn. */
    method RunFrame()
      requires Valid() && frames.pending != []
      modifies this`valuePath, this`labelText, this`drawn, frames
      ensures Valid()
      ensures frames.pending == AfterFrame(old(frames.pending))
      ensures drawn == old(drawn) + [RoundTo2(FrameValue(old(frames.pending[0])))]
      ensures valuePath == PathFor(drawn[|drawn| - 1])
      ensures labelText == LabelAfter(drawn[|drawn| - 1], old(labelText))
      ensures AllPositive(old(frames.pending)) ==>
        AllPositive(frames.pending) && old(Drawing(frames.pending)) == [drawn[|drawn| - 1]] + Drawing(frames.pending)
    {
      ghost var js := frames.pending;
      if AllPositive(js) {
        AfterFrameCount(js);
      }
      var job, v := frames.RunFrame();
      drawn := drawn + [RoundTo2(v)];
      UpdateGauge(RoundTo2(v));
    }

    /** Runs frames until none is pending; every pending job must have a
        positive duration, since a negative one never ends. The values drawn
        are those of Drawing, one per frame the jobs still owe, and the value
        arc and the label are left drawn at the last of them. */
    method Drain() returns (count: nat)
      requires Valid() && AllPositive(frames.pending)
      modifies this`valuePath, this`labelText, this`drawn, frames
      ensures Valid() && frames.pending == []
      ensures drawn == old(drawn) + old(Drawing(frames.pending))
      ensures count == |old(Drawing(frames.pending))|
      ensures valuePath == if old(frames.pending) == [] then old(valuePath)
                           else PathFor(drawn[|drawn| - 1])
      ensures labelText == if old(frames.pending) == [] then old(labelText)
                           else LabelAfter(drawn[|drawn| - 1], old(labelText))
    {
      count := 0;
      if frames.pending == [] {
        return;
      }
      ghost var all := Drawing(frames.pending);
      RunFrame();
      count := 1;
      assert all == [drawn[|drawn| - 1]] + Drawing(frames.pending);
      while frames.pending != []
        invariant Valid() && AllPositive(frames.pending)
        invariant old(drawn) + all == drawn + Drawing(frames.pending)
        invariant count == |drawn| - |old(drawn)|
        invariant |drawn| > 0
        invariant valuePath == PathFor(drawn[|drawn| - 1])
        invariant labelText == LabelAfter(drawn[|drawn| - 1], old(labelText))
        decreases |Drawing(frames.pending)|
      {
        ghost var before := drawn;
        ghost var rest := Drawing(frames.pending);
        RunFrame();
        ShiftFrame(old(drawn), all, before, rest, drawn[|drawn| - 1], Drawing(frames.pending));
        count := count + 1;
      }
    }
  }

  /** Moving one drawn value from the values still owed to the values drawn
      keeps the whole drawing. */
  lemma ShiftFrame(d0: seq<real>, all: seq<real>, before: seq<real>, rest: seq<real>, x: real, after: seq<real>)
    requires d0 + all == before + rest && rest == [x] + after
    ensures d0 + all == (before + [x]) + after
  {
    assert before + rest == (before + [x]) + after;
  }

  /** From an idle gauge, an animated change to a new value records the
      target at once; running its frames then takes
      `60 * duration` frames for a whole number of frames, draws each step
      value rounded to two decimals, and leaves the
      value arc drawn, and the label (when shown) rendered, at the target
      rounded to two decimals. */
  method AnimatedChangeSettles(g: Gauge, v: real, duration: real) returns (count: nat)
    requires g.Valid() && g.frames.pending == []
    requires duration > 0.0 && (60.0 * duration).Floor as real == 60.0 * duration
    requires g.value != Normalize(v, g.limit)
    modifies g`value, g`valuePath, g`labelText, g`drawn, g.frames
    ensures g.Valid() && g.frames.pending == []
    ensures g.value == Normalize(v, g.limit)
    ensures count as real == 60.0 * duration
    ensures g.valuePath == g.PathFor(RoundTo2(g.value))
    ensures g.labelText == g.LabelAfter(RoundTo2(g.value), old(g.labelText))
    ensures g.drawn == old(g.drawn) + Rounded(Trace(Start(old(g.value), g.value, duration, EaseInOutCubic)))
  {
    g.SetValueAnimated(v, Some(duration));
    var target := g.GetValue();
    ghost var j := Start(old(g.value), target, duration, EaseInOutCubic);
    assert g.frames.pending == [j];
    LoneJobDrawing(j);
    StartFrameCount(old(g.value), target, duration, EaseInOutCubic);
    CeilOfWhole(60.0 * duration);
    EaseInOutCubicFixedPoints();
    StartLastFrameIsEnd(old(g.value), target, duration, EaseInOutCubic);
    count := g.Drain();
  }
}
