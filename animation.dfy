/** The frame-counting interpolator behind `setValueAnimated`. A job keeps an
    iteration counter; each frame computes `progress = i / iterations`, eases
    it, hands `change * eased + start` to the step callback and asks for
    another frame while `progress < 1`. The host's frame callbacks
    (requestAnimationFrame) are modelled as an explicit first-in first-out
    queue of pending jobs. */
module Animation {
  import opened Wrappers

  /** The default easing: a cubic ease-in for the first half of the progress
      and the mirrored cubic ease-out for the second half. */
  function EaseInOutCubic(pos: real): real
  {
    var p := pos / 0.5;
    if p < 1.0 then 0.5 * (p * p * p)
    else 0.5 * ((p - 2.0) * (p - 2.0) * (p - 2.0) + 2.0)
  }

  /** The easing starts at 0, passes 0.5 at half time and ends at 1. */
  lemma EaseInOutCubicFixedPoints()
    ensures EaseInOutCubic(0.0) == 0.0
    ensures EaseInOutCubic(0.5) == 0.5
    ensures EaseInOutCubic(1.0) == 1.0
  {
  }

  /** The ease-in for the first half, as a polynomial in the progress. */
  lemma EaseInBranch(pos: real)
    requires pos < 0.5
    ensures EaseInOutCubic(pos) == 4.0 * (pos * pos * pos)
  {
    var p := pos / 0.5;
    assert p == 2.0 * pos;
    assert p * p * p == 8.0 * (pos * pos * pos);
  }

  /** The ease-out for the second half, as a polynomial in the progress. */
  lemma EaseOutBranch(pos: real)
    requires pos >= 0.5
    ensures EaseInOutCubic(pos) == 1.0 - 4.0 * ((1.0 - pos) * (1.0 - pos) * (1.0 - pos))
  {
    var p := pos / 0.5;
    assert p - 2.0 == -2.0 * (1.0 - pos);
    var d := 1.0 - pos;
    assert (p - 2.0) * (p - 2.0) * (p - 2.0) == -8.0 * (d * d * d);
  }

  /** The easing is point-symmetric about (0.5, 0.5): the ease-out mirrors
      the ease-in. */
  lemma EaseInOutCubicSymmetric(pos: real)
    ensures EaseInOutCubic(1.0 - pos) == 1.0 - EaseInOutCubic(pos)
  {
    if pos < 0.5 {
      EaseInBranch(pos);
      EaseOutBranch(1.0 - pos);
      assert 1.0 - (1.0 - pos) == pos;
    } else if pos == 0.5 {
      EaseInOutCubicFixedPoints();
    } else {
      EaseOutBranch(pos);
      EaseInBranch(1.0 - pos);
    }
  }

  /** On the progress range [0, 1] the eased progress stays in [0, 1]. */
  lemma EaseInOutCubicInUnitRange(pos: real)
    requires 0.0 <= pos <= 1.0
    ensures 0.0 <= EaseInOutCubic(pos) <= 1.0
  {
    if pos < 0.5 {
      EaseInBranch(pos);
      CubeBounds(pos);
    } else {
      EaseOutBranch(pos);
      CubeBounds(1.0 - pos);
    }
  }

  lemma CubeBounds(x: real)
    requires 0.0 <= x <= 0.5
    ensures 0.0 <= x * x * x <= 0.125
  {
    MulMonotone(x, x, 0.5);
    assert x * x <= x * 0.5;
    assert x * 0.5 <= 0.25;
    assert 0.0 <= x * x <= 0.25;
    MulMonotone(x, x * x, 0.25);
    assert x * (x * x) == x * x * x;
  }

  lemma MulMonotone(a: real, b: real, c: real)
    requires 0.0 <= a && 0.0 <= b <= c
    ensures 0.0 <= a * b <= a * c
  {
  }

  /** The smallest integer not below `x`. */
  function Ceil(x: real): (n: int)
    ensures x <= n as real < x + 1.0
  {
    -((-x).Floor)
  }

  /** One animation job: its fixed options and its iteration counter. */
  datatype Job = Job(start: real, end: real, iterations: real, easing: real -> real, currentIteration: int)
  {
    /** The counter starts at 1 and the iteration count is never 0, because
        the only caller replaces a zero duration by one second. */
    predicate Valid()
    {
      iterations != 0.0 && currentIteration >= 1
    }
  }

  /** The job `Animation(options)` sets up: 60 frames per second of
      `duration` and the counter at 1. The easing is the resolved one: the
      gauge never passes its own, so it is always EaseInOutCubic there. */
  function Start(start: real, end: real, duration: real, easing: real -> real): (j: Job)
    requires duration != 0.0
    ensures j.Valid() && j.currentIteration == 1
    ensures j.iterations == 60.0 * duration
    ensures j.start == start && j.end == end && j.easing == easing
  {
    Job(start, end, 60.0 * duration, easing, 1)
  }

  function Progress(j: Job): real
    requires j.Valid()
  {
    j.currentIteration as real / j.iterations
  }

  /** The value handed to the step callback on this frame. */
  function FrameValue(j: Job): real
    requires j.Valid()
  {
    (j.end - j.start) * j.easing(Progress(j)) + j.start
  }

  /** Whether the frame asks for another one. */
  predicate Reschedules(j: Job)
    requires j.Valid()
  {
    Progress(j) < 1.0
  }

  /** The job as the next frame finds it: the counter one further. */
  function Advance(j: Job): (k: Job)
    requires j.Valid()
    ensures k.Valid()
    ensures k == j.(currentIteration := j.currentIteration + 1)
  {
    j.(currentIteration := j.currentIteration + 1)
  }

  /** For a positive iteration count a frame asks for another one exactly
      when the counter is still below the iteration count, that is below its
      ceiling. */
  lemma ReschedulesIff(j: Job)
    requires j.Valid() && j.iterations > 0.0
    ensures Reschedules(j) <==> j.currentIteration as real < j.iterations
    ensures Reschedules(j) <==> j.currentIteration < Ceil(j.iterations)
  {
    var i := j.currentIteration as real;
    if i < j.iterations {
      assert i / j.iterations < 1.0;
    } else {
      assert i / j.iterations >= 1.0;
    }
  }

  /** A negative duration never finishes: every frame asks for another. */
  lemma NegativeDurationNeverStops(j: Job)
    requires j.Valid() && j.iterations < 0.0
    ensures Reschedules(j) && Advance(j).iterations < 0.0
  {
    assert Progress(j) <= 0.0;
  }

  /** The number of step calls a job with a positive iteration count still
      makes, this frame included. */
  function FramesLeft(j: Job): (n: nat)
    requires j.Valid() && j.iterations > 0.0
    ensures n >= 1
  {
    if j.currentIteration < Ceil(j.iterations) then Ceil(j.iterations) - j.currentIteration + 1 else 1
  }

  /** The values a job with a positive iteration count hands to the step
      callback, frame by frame, when its frames run: one more frame follows
      while the counter is below the iteration count (ReschedulesIff). */
  function Trace(j: Job): seq<real>
    requires j.Valid() && j.iterations > 0.0
    decreases Ceil(j.iterations) - j.currentIteration
  {
    if j.currentIteration as real < j.iterations then [FrameValue(j)] + Trace(Advance(j)) else [FrameValue(j)]
  }

  /** A job calls its step once per frame until its counter reaches the
      ceiling of the iteration count. */
  lemma {:induction false} TraceLength(j: Job)
    requires j.Valid() && j.iterations > 0.0
    ensures |Trace(j)| == FramesLeft(j)
    decreases Ceil(j.iterations) - j.currentIteration
  {
    ReschedulesIff(j);
    if Reschedules(j) {
      TraceLength(Advance(j));
    }
  }

  /** The `k`-th step value is the frame value at counter `currentIteration + k`. */
  lemma {:induction false} TraceAt(j: Job, k: nat)
    requires j.Valid() && j.iterations > 0.0
    requires k < |Trace(j)|
    ensures Trace(j)[k] == (j.end - j.start) * j.easing((j.currentIteration + k) as real / j.iterations) + j.start
    decreases k
  {
    if k > 0 {
      ReschedulesIff(j);
      assert Reschedules(j);
      TraceAt(Advance(j), k - 1);
      assert Advance(j).currentIteration + (k - 1) == j.currentIteration + k;
    }
  }

  /** A job started for a positive duration calls its step exactly
      `ceil(60 * duration)` times. */
  lemma StartFrameCount(start: real, end: real, duration: real, easing: real -> real)
    requires duration > 0.0
    ensures |Trace(Start(start, end, duration, easing))| == Ceil(60.0 * duration)
  {
    var j := Start(start, end, duration, easing);
    TraceLength(j);
    assert Ceil(j.iterations) >= 1;
  }

  /** On frame `k + 1` a job whose counter starts at 1 passes
      `change * easing((k + 1) / iterations) + start`. */
  lemma FreshFrameValue(j: Job, k: nat)
    requires j.Valid() && j.iterations > 0.0 && j.currentIteration == 1
    requires k < Ceil(j.iterations)
    ensures k < |Trace(j)|
    ensures Trace(j)[k] == (j.end - j.start) * j.easing((k + 1) as real / j.iterations) + j.start
  {
    TraceLength(j);
    FreshTraceAt(j, k);
  }

  /** TraceAt with the counter starting at 1. */
  lemma FreshTraceAt(j: Job, k: nat)
    requires j.Valid() && j.iterations > 0.0 && j.currentIteration == 1
    requires k < |Trace(j)|
    ensures Trace(j)[k] == (j.end - j.start) * j.easing((k + 1) as real / j.iterations) + j.start
  {
    TraceAt(j, k);
    assert j.currentIteration + k == k + 1;
  }

  /** The same for a job as `Animation(options)` starts it. */
  lemma StartFrameValue(start: real, end: real, duration: real, easing: real -> real, k: nat)
    requires duration > 0.0
    requires k < Ceil(60.0 * duration)
    ensures k < |Trace(Start(start, end, duration, easing))|
    ensures Trace(Start(start, end, duration, easing))[k] ==
              (end - start) * easing((k + 1) as real / (60.0 * duration)) + start
  {
    var j := Start(start, end, duration, easing);
    FreshFrameValue(j, k);
  }

  /** When the iteration count is a whole number and the easing ends at 1
      (as the default one does, EaseInOutCubicFixedPoints), the last step
      value of a job whose counter starts at 1 is exactly its end value. */
  lemma FreshLastFrameIsEnd(j: Job)
    requires j.Valid() && j.iterations > 0.0 && j.currentIteration == 1
    requires j.iterations.Floor as real == j.iterations
    requires j.easing(1.0) == 1.0
    ensures var t := Trace(j); t[|t| - 1] == j.end
  {
    var n := Ceil(j.iterations);
    CeilOfWhole(j.iterations);
    TraceLength(j);
    assert |Trace(j)| == n;
    FreshFrameValue(j, n - 1);
    assert Trace(j)[n - 1] == (j.end - j.start) * j.easing(n as real / j.iterations) + j.start;
    assert n as real / j.iterations == 1.0;
  }

  lemma CeilOfWhole(x: real)
    requires x.Floor as real == x
    ensures Ceil(x) as real == x
  {
    assert (-x).Floor == -(x.Floor);
  }

  /** The same for a job as `Animation(options)` starts it. */
  lemma StartLastFrameIsEnd(start: real, end: real, duration: real, easing: real -> real)
    requires duration > 0.0
    requires (60.0 * duration).Floor as real == 60.0 * duration
    requires easing(1.0) == 1.0
    ensures var t := Trace(Start(start, end, duration, easing)); t[|t| - 1] == end
  {
    FreshLastFrameIsEnd(Start(start, end, duration, easing));
  }

  /** When the iteration count is not a whole number the last frame's progress
      exceeds 1 and the default easing overshoots: over 0.01 seconds (0.6
      iterations) a single step passes 5900/27, beyond the end value 100. */
  lemma ShortDurationOvershoots()
    ensures Trace(Start(0.0, 100.0, 0.01, EaseInOutCubic)) == [5900.0 / 27.0]
  {
    var j := Start(0.0, 100.0, 0.01, EaseInOutCubic);
    ReschedulesIff(j);
    assert Ceil(0.6) == 1;
    assert Progress(j) == 5.0 / 3.0;
  }

  /** Every job in the queue has a positive iteration count. */
  predicate AllPositive(js: seq<Job>)
  {
    forall i :: 0 <= i < |js| ==> js[i].Valid() && js[i].iterations > 0.0
  }

  /** The number of frames still to run for a queue of such jobs. */
  function PendingFrames(js: seq<Job>): nat
    requires AllPositive(js)
  {
    if js == [] then 0 else FramesLeft(js[0]) + PendingFrames(js[1..])
  }

  lemma {:induction false} PendingFramesAppend(a: seq<Job>, b: seq<Job>)
    requires AllPositive(a) && AllPositive(b)
    ensures AllPositive(a + b)
    ensures PendingFrames(a + b) == PendingFrames(a) + PendingFrames(b)
  {
    if a != [] {
      assert (a + b)[1..] == a[1..] + b;
      PendingFramesAppend(a[1..], b);
    } else {
      assert a + b == b;
    }
  }

  /** The queue after its first job has run one frame. */
  function AfterFrame(js: seq<Job>): seq<Job>
    requires js != [] && js[0].Valid()
  {
    js[1..] + (if Reschedules(js[0]) then [Advance(js[0])] else [])
  }

  /** Each frame takes exactly one frame off the queue's total. */
  lemma AfterFrameCount(js: seq<Job>)
    requires js != [] && AllPositive(js)
    ensures AllPositive(AfterFrame(js))
    ensures PendingFrames(AfterFrame(js)) == PendingFrames(js) - 1
  {
    var j := js[0];
    ReschedulesIff(j);
    var tail := if Reschedules(j) then [Advance(j)] else [];
    assert AllPositive(tail);
    assert Reschedules(j) ==> PendingFrames(tail) == FramesLeft(j) - 1 by {
      if Reschedules(j) {
        assert tail[1..] == [];
      }
    }
    assert !Reschedules(j) ==> FramesLeft(j) == 1;
    PendingFramesAppend(js[1..], tail);
  }

  /** The host's pending frame callbacks: each entry is the animation job
      whose `animate` runs on that frame. */
  class FrameScheduler {
    var pending: seq<Job>

    ghost predicate Valid()
      reads this
    {
      forall i :: 0 <= i < |pending| ==> pending[i].Valid()
    }

    constructor ()
      ensures Valid() && pending == []
    {
      pending := [];
    }

    /** requestAnimationFrame: the job's next frame is queued last. */
    method Request(j: Job)
      requires Valid() && j.Valid()
      modifies this
      ensures Valid()
      ensures pending == old(pending) + [j]
    {
      pending := pending + [j];
    }

    /** The host runs the first pending frame: its job's value for this frame
        is returned for the step callback, and the job asks for its next frame
        while its progress is below 1. */
    method RunFrame() returns (job: Job, value: real)
      requires Valid() && pending != []
      modifies this
      ensures Valid()
      ensures job == old(pending[0]) && value == FrameValue(job)
      ensures pending == AfterFrame(old(pending))
    {
      job := pending[0];
      var progress := job.currentIteration as real / job.iterations;
      assert progress == Progress(job);
      value := (job.end - job.start) * job.easing(progress) + job.start;
      pending := pending[1..];
      if progress < 1.0 {
        pending := pending + [job.(currentIteration := job.currentIteration + 1)];
      }
    }
  }
}
