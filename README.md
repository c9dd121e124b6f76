# Gauge engine model

A Dafny model of the engine behind `Desktop/gauge.js`, a circular SVG gauge. A gauge draws two arcs and a label. The background arc covers the whole range. The value arc's sweep encodes the current value. Value changes can be shown at once or animated frame by frame with an easing curve.

The model has four modules:

- `Wrappers` holds `Option`. It stands for omitted options and for numbers that the source computes as non-finite.
- `Geometry` holds the pure helpers over exact reals:
  - clamping (`Normalize`), the percentage, the angle share and the dial span;
  - the large-arc flag rule and the angle swap;
  - the eleven items of the path text `M x1 y1 A r r 0 flag 1 x2 y2`;
  - `ParseMoveArc`, a reader for that path under the path data grammar in section 8.3.9 of the SVG 1.1 specification (the elliptical arc command is section 8.3.8), where both radii are non-negative and the flags are 0 or 1, so the path contracts can state what a reader of the path gets back;
  - `Math.round` and the rounding to two decimals, modelled exactly as `floor(x + 1/2)`.
- `Animation` holds the easing, an animation job (its options plus its mutable iteration counter), the step values a job produces (`Trace`) and `FrameScheduler`. That class is the host's queue of pending frame callbacks, one entry per job waiting for its next frame.
- `GaugeWidget` holds the `Gauge` class. Its mutable fields are `limit`, `value`, the value arc's path, the label text and its frame queue. The constructor swaps inverted angles. The class has the methods `UpdateGauge`, `SetMaxValue`, `SetValue`, `SetValueAnimated` and `GetValue`, plus `RunFrame` and `Drain`, which stand for the host running frames.

Two host services become parameters:

- `cartesian` maps (cx, cy, radius, angle) to a point. It covers cosine, sine and the 3-decimal rounding.
- `formatNumber` turns a number into label text.

Paths are therefore stated in terms of `cartesian(500, 500, r, angle)`.

Three behaviours of `Desktop/gauge.js` that are easy to misread:

- For a positive duration, an animation runs `ceil(60 * duration)` frames. The iteration count `60 * duration` is never rounded (`Desktop/gauge.js:41`, `:53-59`).
- The value is not kept in `[0, limit]` at all times. `setMaxValue` neither re-clamps the value nor redraws (`Desktop/gauge.js:244-246`).
- Equal angles are not swapped. The invariant kept is `startAngle >= endAngle`, not a strict `>`.

## Model

| member | source | states |
|---|---|---|
| Geometry.Normalize | Desktop/gauge.js:105-110 | Above the limit gives the limit. Otherwise below 0 gives 0. Otherwise the value is kept. For a limit >= 0 the result lies in `[0, limit]`. |
| Geometry.NormalizeIsNearest | Desktop/gauge.js:105-110 | For a limit >= 0 the clamped value is the point of `[0, limit]` nearest the input. |
| Geometry.NormalizeIdempotent | Desktop/gauge.js:105-110 | For a limit >= 0, clamping twice is clamping once. |
| Geometry.NegativeLimitDrifts | Desktop/gauge.js:105-110 | For a negative limit, a value above it clamps to the limit, and clamping again gives 0, so clamping is not idempotent. |
| Geometry.Percentage | Desktop/gauge.js:112-114 | Defined exactly when the limit is non-zero. Then `r * limit == 100 * value`. |
| Geometry.Angle | Desktop/gauge.js:97-103 | `percentage` percent of the span: `100 * r == percentage * span`. |
| Geometry.DialSpan | Desktop/gauge.js:233-236 | At most 360. For ordered angles it is `360 - (start - end)`, the long way round. |
| Geometry.LargeArcFlag | Desktop/gauge.js:233-238 | The flag is 0 or 1, and it is 0 exactly when the sweep is <= 180 degrees. |
| Geometry.OrderAngles | Desktop/gauge.js:180-185 | Result has `start >= end`. It is the same multiset of angles with the same dial span. Ordered input is left unchanged. |
| Geometry.DialCoords | Desktop/gauge.js:132-142 | The start and end points are the circle points at the two angles about the fixed centre (500, 500). |
| Geometry.PathStringParses | Desktop/gauge.js:187-194 | The path reads back as a moveto to the start point plus a clockwise arc of radius r with rotation 0 to the end point. This holds exactly when the radius is non-negative and the flag is omitted, 0 or 1. A negative radius, which `opts.radius` may give, does not read back. An omitted flag reads as the large arc. |
| Geometry.ZeroSweepCoincides | Desktop/gauge.js:211 | For a non-negative radius, the same angle for both ends gives an arc whose endpoints coincide. |
| Geometry.PercentOfSpan | Desktop/gauge.js:101-114 | `getAngle(getValueInPercentage(v, l), span) == v * span / l` for `l != 0`. |
| Geometry.SweepAngleIsShare | Desktop/gauge.js:233-236 | The value arc's sweep is `value * span / limit` for a non-zero limit. |
| Geometry.SweepAngleBounds | Desktop/gauge.js:233-236 | The limit sweeps the full span and 0 sweeps nothing. |
| Geometry.ForegroundArc | Desktop/gauge.js:233-241 | The value arc is defined exactly for a non-zero limit. With a negative radius it does not read back. Otherwise it goes from the start angle to `start + value * span / limit` and takes the large arc exactly when that sweep exceeds 180. |
| Geometry.BackgroundArc | Desktop/gauge.js:214-226 | For a non-negative radius, the background arc goes from the start angle to the end angle and takes the large arc exactly when the span exceeds 180. |
| Geometry.DefaultDialSweeps | Desktop/gauge.js:171-172 | With 135/45 the span is 270. Then 50% sweeps 135 with flag 0, and 80% sweeps 216 with flag 1. |
| Geometry.DefaultGaugeAtHalf | Desktop/gauge.js:233-241 | The default gauge at value 50 draws a small arc from the 135-degree point to the 270-degree point. |
| Geometry.PathString | Desktop/gauge.js:187-194 | Specified by PathStringParses: the eleven items read back as the moveto and the arc, with an omitted flag taken as 1. |
| Geometry.SweepAngle | Desktop/gauge.js:233-236 | Specified by SweepAngleIsShare and SweepAngleBounds: the sweep is `value * span / limit`, undefined for a zero limit. |
| Geometry.ForegroundPath | Desktop/gauge.js:233-241 | Specified by ForegroundArc: the value arc's start point, end point and flag. |
| Geometry.BackgroundPath | Desktop/gauge.js:214-226 | Specified by BackgroundArc: the whole dial from start to end, with the flag of the full span. |
| Geometry.RoundHalfUp | Desktop/gauge.js:144-146 | `Math.round`: the integer n with `x - 1/2 < n <= x + 1/2`. |
| Geometry.RoundTo2 | Desktop/gauge.js:262 | A whole number of hundredths in `(x - 0.005, x + 0.005]`, so a tie rounds up. |
| Geometry.RoundTo2TieRoundsUp | Desktop/gauge.js:262 | 0.125 goes to 0.13, as `Math.round(12.5) / 100` does. |
| Geometry.RoundTo2Exact | Desktop/gauge.js:262 | A value with two decimals is left unchanged. |
| Animation.EaseInOutCubic | Desktop/gauge.js:46-50 | Specified by EaseInOutCubicFixedPoints, EaseInOutCubicSymmetric and EaseInOutCubicInUnitRange. |
| Animation.EaseInOutCubicFixedPoints | Desktop/gauge.js:46-50 | The easing maps 0 to 0, 0.5 to 0.5 and 1 to 1. |
| Animation.EaseInOutCubicSymmetric | Desktop/gauge.js:46-50 | `ease(1 - p) == 1 - ease(p)` for every p. |
| Animation.EaseInOutCubicInUnitRange | Desktop/gauge.js:46-50 | Progress in `[0, 1]` is eased into `[0, 1]`. |
| Animation.Start | Desktop/gauge.js:38-45 | A new job has counter 1 and `60 * duration` iterations, with the given start and end. |
| Animation.Progress | Desktop/gauge.js:53 | Specified by ReschedulesIff: the counter over the iteration count, below 1 exactly while frames remain. |
| Animation.FrameValue | Desktop/gauge.js:54 | Specified by TraceAt and FreshFrameValue: `change * easing(progress) + start`. |
| Animation.Reschedules | Desktop/gauge.js:57-59 | Specified by ReschedulesIff and NegativeDurationNeverStops. |
| Animation.Advance | Desktop/gauge.js:53 | The next frame finds the same job with the counter one further. |
| Animation.AfterFrame | Desktop/gauge.js:52-60 | Specified by AfterFrameCount: one frame lowers the owed frames by exactly one. |
| Animation.ReschedulesIff | Desktop/gauge.js:53-59 | For a positive count, `progress < 1` holds exactly when the counter is below the count, which is the same as below its ceiling. |
| Animation.NegativeDurationNeverStops | Desktop/gauge.js:41-59 | A negative duration asks for another frame on every frame. |
| Animation.Trace | Desktop/gauge.js:52-62 | Specified by TraceLength and TraceAt: the step values a job passes, one per frame, in order. |
| Animation.TraceLength | Desktop/gauge.js:52-62 | A job makes one step call per frame until its counter reaches the ceiling of the count. |
| Animation.TraceAt | Desktop/gauge.js:53-56 | The k-th step value is `change * easing((i + k) / iterations) + start`. |
| Animation.StartFrameCount | Desktop/gauge.js:41-62 | A started job with `duration > 0` calls step exactly `ceil(60 * duration)` times. |
| Animation.FreshFrameValue | Desktop/gauge.js:40-56 | Frame k + 1 of a job whose counter starts at 1 passes `change * easing((k + 1) / iterations) + start`. |
| Animation.StartFrameValue | Desktop/gauge.js:38-56 | The same for a job as `Animation(options)` starts it. |
| Animation.FreshLastFrameIsEnd | Desktop/gauge.js:44-57 | A whole iteration count and `easing(1) == 1` make the last value exactly `end`. |
| Animation.StartLastFrameIsEnd | Desktop/gauge.js:41-57 | The same for a started job with `60 * duration` whole. |
| Animation.ShortDurationOvershoots | Desktop/gauge.js:41-57 | Over 0.01 s (0.6 iterations) the single step passes 5900/27, past the end value 100. |
| Animation.AfterFrameCount | Desktop/gauge.js:52-59 | Each frame lowers the queue's total of owed frames by exactly one. |
| Animation.FrameScheduler.constructor | Desktop/gauge.js:18-24 | The queue starts empty. |
| Animation.FrameScheduler.Request | Desktop/gauge.js:57-62 | `requestAnimationFrame` appends the job last. |
| Animation.FrameScheduler.RunFrame | Desktop/gauge.js:52-60 | The first job's frame returns its step value. The job is re-queued with counter + 1 exactly while its progress is < 1. |
| GaugeWidget.OrDefault | Desktop/gauge.js:166-168 | The JavaScript `or` default for numbers: an omitted or zero option gives the default, and any other value is kept. |
| GaugeWidget.Drawing | Desktop/gauge.js:52-62 | Specified by DrawingLength and LoneJobDrawing: the rounded values drawn while the queue drains, one per owed frame. |
| GaugeWidget.DrawingLength | Desktop/gauge.js:52-62 | Draining draws exactly as many values as the jobs still owe frames. |
| GaugeWidget.LoneJobDrawing | Desktop/gauge.js:52-62 | A lone job draws its own step values rounded to two decimals, and nothing else. |
| GaugeWidget.Gauge.constructor | Desktop/gauge.js:163-185 | Options are defaulted as `x or default` (limit 100, radius 400) or by an undefined test (angles 135/45). The value is clamped and inverted angles are swapped. The background arc is drawn. The value arc and label are drawn for the value. The label is shown unless `showValue` is false. A supplied renderer is used as given, and otherwise the label is `formatNumber(Math.round(v))`. The frame queue is empty. |
| GaugeWidget.Gauge.UpdateGauge | Desktop/gauge.js:233-241 | The value arc becomes the path for the value under the current limit. The label changes only when it is shown. |
| GaugeWidget.Gauge.SetMaxValue | Desktop/gauge.js:244-246 | Only the limit changes. The value, the path and the label are untouched. |
| GaugeWidget.Gauge.SetValue | Desktop/gauge.js:247-250 | The value becomes `Normalize(v, limit)` and is redrawn at once. |
| GaugeWidget.Gauge.SetValueAnimated | Desktop/gauge.js:251-265 | The value becomes `Normalize(v, limit)` at once. An unchanged value queues nothing. Otherwise exactly one job is queued, from the old value to the new, over `duration or 1` seconds with the default easing. Nothing is redrawn. |
| GaugeWidget.Gauge.GetValue | Desktop/gauge.js:266-268 | Returns the last value set, whatever frames are pending. |
| GaugeWidget.Gauge.RunFrame | Desktop/gauge.js:52-60 | One frame: the queue advances as in `FrameScheduler.RunFrame`. The job's step value, rounded to two decimals, is drawn on the arc, and on the label when it is shown. |
| GaugeWidget.Gauge.Drain | Desktop/gauge.js:52-62 | With every pending duration positive, the queue empties. The values drawn are exactly `Drawing` of the old queue, one frame per value. The arc is left at the last of them, and so is the label when shown. With nothing pending, the label and the arc are unchanged. |
| GaugeWidget.AnimatedChangeSettles | Desktop/gauge.js:251-265 | From an idle gauge, an animated change with a whole number of frames records the target at once. It then runs exactly `60 * duration` frames, drawing each step value rounded to two decimals, and leaves the arc, and the label when shown, at the target rounded to two decimals. |

## Left out

- The UMD/AMD/CommonJS registration wrapper (`Desktop/gauge.js:2-16`). It only detects the environment.
- `requestAnimationFrame` and its vendor and `setTimeout` fallbacks (`Desktop/gauge.js:18-24`). They are replaced by the explicit frame queue `FrameScheduler`. Wall-clock timing is not modelled.
- The queue belongs to one gauge. Frames of other gauges sharing the host's queue are not modelled.
- Only the draining of a queue whose durations are all positive is modelled. A negative duration never ends (NegativeDurationNeverStops), so such a queue can only be run frame by frame with `RunFrame`.
- The `svg` DOM builder, the element attributes and the class names (`Desktop/gauge.js:83-95`, `:196-231`). Only the `d` attributes of the two arcs and the label's text are kept.
- Cosine, sine and the 3-decimal rounding in `getCartesian` (`Desktop/gauge.js:124-130`). They are the `cartesian` parameter.
- The number-to-text conversion of a path's numbers and of the label. Path items stay tokens, and the label goes through the `formatNumber` parameter.
- Floating point in general. Everything is exact real arithmetic. With a zero limit the source computes Infinity or NaN and draws an arc to non-finite coordinates; the model records that path as `None`.
- `Number()` coercion of the value, non-numeric options, `console.log` and the `this` binding of a custom label renderer. A non-function `label` option counts as omitted. These are JavaScript dynamic-typing details.
- Animation.Start: takes the easing already resolved. The gauge never passes one, so the `options.easing || easeInOutCubic` choice always yields the default and is not a separate member. The `options.start || 0` fallback changes no number and is not modelled.
- Animation.Start: requires a non-zero duration. Its only caller passes `duration || 1`, which is never 0, so the `Infinity` progress of a zero duration cannot arise.
- `Backend/index.js` (HTTP routing, dynamic module loading, a timer-based sleep, the listening server) is not part of this model.
