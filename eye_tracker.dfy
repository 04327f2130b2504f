/** Offline eye-contact analysis of a video (`analyzeEyeContact` in
    SpeechFlow/EyeTracker.swift): sample the video at a fixed cadence, run the
    face-landmark heuristic on every sampled frame, collect the times at which a
    face makes eye contact, and hand the collection to the result handler when
    the frame at the last sampled time has been processed.

    Times are `CMTime` values at timescale 600, modelled as integer ticks of
    1/600 s. The frame extractor and the face-landmark detector are an oracle
    `frameAt` that gives, per requested time, either no image or the faces
    detected in it. */
module EyeTracker {

  import opened Basics
  import opened EyeContactGeometry

  /** `preferredTimescale` of the sampling step. */
  const Timescale: int := 600
  /** The default `interval` parameter of `analyzeEyeContact`, in seconds. */
  const DefaultInterval: real := 0.5

  /** `CMTimeGetSeconds` of a time of `ticks` units at timescale 600. */
  function Seconds(ticks: int): (r: real)
    ensures r * 600.0 == ticks as real
    ensures ticks >= 0 ==> r >= 0.0
  {
    ticks as real / Timescale as real
  }

  /** The value of `CMTimeMakeWithSeconds(seconds, preferredTimescale: 600)`:
      the nearest tick, halves rounded away from zero. */
  function TicksOf(seconds: real): (n: int)
    ensures Abs(n as real - seconds * 600.0) <= 0.5
    ensures seconds >= 0.0 ==> n >= 0
  {
    if seconds >= 0.0 then (seconds * 600.0 + 0.5).Floor
    else -((-seconds * 600.0 + 0.5).Floor)
  }

  /** The default interval of half a second is a step of 300 ticks. */
  lemma DefaultStep()
    ensures TicksOf(DefaultInterval) == 300
  {
  }

  /** The smallest integer not below x. */
  function Ceil(x: real): (n: int)
    ensures n as real - 1.0 < x <= n as real
  {
    -((-x).Floor)
  }

  // ---------------------------------------------------------------------------
  // The timestamp sampler.

  /** How many times `0, step, 2 step, ...` lie before `duration` seconds. */
  function SampleCount(duration: real, step: int): nat
    requires duration > 0.0 ==> step > 0
  {
    if duration <= 0.0 then 0 else Ceil(duration * 600.0 / step as real)
  }

  /** The requested times, in ticks. */
  function Samples(duration: real, step: int): seq<int>
    requires duration > 0.0 ==> step > 0
  {
    seq(SampleCount(duration, step), i => i * step)
  }

  /** `n` is the number of sampled times: the n-th multiple of `step` is the
      first that is not before `duration`. */
  ghost predicate IsSampleCount(duration: real, step: int, n: nat)
  {
    (n == 0 || Seconds((n - 1) * step) < duration) && Seconds(n * step) >= duration
  }

  /** For a positive duration the count is the ceiling of duration * 600 / step,
      where step is the interval rounded to the nearest tick; for the default
      0.5 s (300 ticks) that is the ceiling of duration / 0.5. */
  lemma {:induction false} SampleCountIsCeiling(duration: real, step: int, n: nat)
    requires step > 0
    requires IsSampleCount(duration, step, n)
    ensures n == SampleCount(duration, step)
  {
    var x := duration * 600.0 / step as real;
    if duration <= 0.0 {
      assert n == 0;
    } else {
      assert n > 0;
      BeforeDuration(n, duration, step);
      BeforeDuration(n - 1, duration, step);
      var c := Ceil(x);
      assert (n - 1) as real < x <= n as real;
      assert c as real - 1.0 < x <= c as real;
    }
  }

  /** The k-th multiple of the step lies before `duration` exactly when k is
      below duration / interval. */
  lemma BeforeDuration(k: int, duration: real, step: int)
    requires step > 0
    ensures Seconds(k * step) < duration <==> (k as real) < duration * 600.0 / step as real
  {
  }

  /** Every sampled time is before the duration, and the next multiple of the
      step is not: the samples cover [0, duration) at the given cadence. */
  lemma SamplesCoverDuration(duration: real, step: int)
    requires duration > 0.0 ==> step > 0
    ensures forall i :: 0 <= i < |Samples(duration, step)| ==> Seconds(Samples(duration, step)[i]) < duration
    ensures Seconds(|Samples(duration, step)| * step) >= duration
  {
    var n := SampleCount(duration, step);
    if duration > 0.0 {
      BeforeDuration(n, duration, step);
      forall i | 0 <= i < n
        ensures Seconds(i * step) < duration
      {
        BeforeDuration(i, duration, step);
      }
    }
  }

  /** The sampled times are strictly increasing, start at 0 whenever the
      duration is positive, and are absent altogether otherwise. */
  lemma SamplesShape(duration: real, step: int)
    requires duration > 0.0 ==> step > 0
    ensures forall i, j :: 0 <= i < j < |Samples(duration, step)| ==> Samples(duration, step)[i] < Samples(duration, step)[j]
    ensures duration > 0.0 ==> |Samples(duration, step)| > 0 && Samples(duration, step)[0] == 0
    ensures duration <= 0.0 ==> Samples(duration, step) == [] && Last(Samples(duration, step)) == None
  {
  }

  /** For a positive duration, `lastRequestedTime` is the largest multiple of
      the step that lies before the duration. */
  lemma LastSample(duration: real, step: int)
    requires duration > 0.0 && step > 0
    ensures Last(Samples(duration, step)) == Some((SampleCount(duration, step) - 1) * step)
    ensures Seconds((SampleCount(duration, step) - 1) * step) < duration
    ensures Seconds(SampleCount(duration, step) * step) >= duration
  {
    SamplesShape(duration, step);
    SamplesCoverDuration(duration, step);
  }

  /** The sampling loop (`while CMTimeGetSeconds(t) < duration`). The Swift loop
      never ends when the step rounds to zero or below and the duration is
      positive, hence the precondition. */
  method SampleTimes(duration: real, step: int) returns (times: seq<int>)
    requires duration > 0.0 ==> step > 0
    ensures times == Samples(duration, step)
  {
    times := [];
    var t := 0;
    while Seconds(t) < duration
      invariant step > 0 || times == []
      invariant t == |times| * step
      invariant forall i :: 0 <= i < |times| ==> times[i] == i * step
      invariant |times| == 0 || Seconds((|times| - 1) * step) < duration
      decreases (duration * 600.0).Floor - t
    {
      times := times + [t];
      t := t + step;
    }
    if step > 0 {
      SampleCountIsCeiling(duration, step, |times|);
    }
  }

  /** With a step of zero or fewer ticks and a positive duration, the loop
      guard holds at every iteration: the Swift loop never ends. */
  lemma NonPositiveStepNeverStops(duration: real, step: int, k: nat)
    requires duration > 0.0 && step <= 0
    ensures Seconds(k * step) < duration
  {
    assert k * step <= 0;
  }

  /** `times.last` */
  function Last(times: seq<int>): (r: Option<int>)
    ensures r.None? <==> times == []
    ensures r.Some? ==> r.value == times[|times| - 1]
  {
    if times == [] then None else Some(times[|times| - 1])
  }

  // ---------------------------------------------------------------------------
  // The frame callback.

  /** What the image generator and the landmark request give for one requested
      time: no image, or the faces found in the image (none when the Vision
      request fails). */
  datatype Frame = NoImage | Image(faces: seq<Face>)

  /** The number of faces in a frame that make eye contact. */
  function QualifyingFaces(faces: seq<Face>): (n: nat)
    ensures n <= |faces|
  {
    if faces == [] then 0
    else QualifyingFaces(faces[..|faces| - 1]) + (if IsMakingEyeContact(faces[|faces| - 1]) then 1 else 0)
  }

  /** n copies of x. */
  function Repeat(x: real, n: nat): (r: seq<real>)
    ensures |r| == n && forall i :: 0 <= i < n ==> r[i] == x
  {
    seq(n, _ => x)
  }

  /** What the callback for `requested` appends to `eyeContactTimes`: the
      requested time, in seconds, once per face that makes eye contact. */
  function FrameHits(requested: int, frame: Frame): seq<real>
  {
    match frame
    case NoImage => []
    case Image(faces) => Repeat(Seconds(requested), QualifyingFaces(faces))
  }

  /** x is the time in seconds of one of the requested times. */
  ghost predicate IsSampled(times: seq<int>, x: real)
  {
    exists t :: t in times && x == Seconds(t)
  }

  /** The state the generator callbacks of one `analyzeEyeContact` run share:
      the requested times, `lastRequestedTime`, the collected
      `eyeContactTimes`, and every list handed to `resultHandler` so far. */
  class EyeContactRun {
    const times: seq<int>
    const lastRequestedTime: Option<int>
    var eyeContactTimes: seq<real>
    var delivered: seq<seq<real>>

    ghost predicate Valid()
      reads this
    {
      && lastRequestedTime == Last(times)
      && (forall x :: x in eyeContactTimes ==> IsSampled(times, x))
      && (forall r :: r in delivered ==> forall x :: x in r ==> IsSampled(times, x))
    }

    constructor (times: seq<int>)
      ensures Valid()
      ensures this.times == times && lastRequestedTime == Last(times)
      ensures eyeContactTimes == [] && delivered == []
    {
      this.times := times;
      lastRequestedTime := Last(times);
      eyeContactTimes := [];
      delivered := [];
    }

    /** The completion handler of `generateCGImagesAsynchronously` for one
        requested time: without an image it returns at once; otherwise it
        appends the time once per face making eye contact and, when the time is
        the last requested one, hands `eyeContactTimes` to the result handler. */
    method HandleFrame(requestedTime: int, frame: Frame)
      requires Valid() && requestedTime in times
      modifies this
      ensures Valid()
      ensures eyeContactTimes == old(eyeContactTimes) + FrameHits(requestedTime, frame)
      ensures delivered == if frame.Image? && lastRequestedTime == Some(requestedTime)
                           then old(delivered) + [eyeContactTimes]
                           else old(delivered)
    {
      if frame.NoImage? {
        return;
      }
      var faces := frame.faces;
      var i := 0;
      while i < |faces|
        invariant 0 <= i <= |faces|
        invariant eyeContactTimes == old(eyeContactTimes) + Repeat(Seconds(requestedTime), QualifyingFaces(faces[..i]))
        invariant delivered == old(delivered)
        invariant Valid()
      {
        assert faces[..i + 1][..i] == faces[..i];
        if IsMakingEyeContact(faces[i]) {
          eyeContactTimes := eyeContactTimes + [Seconds(requestedTime)];
        }
        i := i + 1;
      }
      assert faces[..i] == faces;
      if lastRequestedTime == Some(requestedTime) {
        delivered := delivered + [eyeContactTimes];
      }
    }
  }

  // ---------------------------------------------------------------------------
  // The whole run, with the callbacks taken in request order.

  /** The times collected after the frames at `times` have all been processed. */
  function AllHits(times: seq<int>, frameAt: int -> Frame): (r: seq<real>)
    ensures forall x :: x in r ==> IsSampled(times, x)
  {
    if times == [] then []
    else AllHits(times[..|times| - 1], frameAt) + FrameHits(times[|times| - 1], frameAt(times[|times| - 1]))
  }

  /** What reaches the result handler: the collected times, once, exactly when
      the frame at the last requested time yields an image. */
  function Delivery(times: seq<int>, frameAt: int -> Frame): (r: seq<seq<real>>)
    ensures |r| <= 1
    ensures r != [] <==> times != [] && frameAt(times[|times| - 1]).Image?
    ensures r != [] ==> r[0] == AllHits(times, frameAt)
  {
    if times != [] && frameAt(times[|times| - 1]).Image? then [AllHits(times, frameAt)] else []
  }

  /** `analyzeEyeContact(in:interval:resultHandler:)` once the duration has
      been loaded (`None` when loading it failed, which ends the task).
      Returns every argument passed to the result handler. */
  method AnalyzeEyeContact(loadedDuration: Option<real>, interval: real, frameAt: int -> Frame)
    returns (results: seq<seq<real>>)
    requires loadedDuration.Some? && loadedDuration.value > 0.0 ==> TicksOf(interval) > 0
    ensures loadedDuration.None? ==> results == []
    ensures loadedDuration.Some? ==> results == Delivery(Samples(loadedDuration.value, TicksOf(interval)), frameAt)
  {
    if loadedDuration.None? {
      return [];
    }
    var duration := loadedDuration.value;
    var step := TicksOf(interval);
    var times := SampleTimes(duration, step);
    SamplesShape(duration, step);
    var run := new EyeContactRun(times);
    var i := 0;
    while i < |times|
      invariant 0 <= i <= |times|
      invariant run.Valid() && run.times == times
      invariant run.eyeContactTimes == AllHits(times[..i], frameAt)
      invariant run.delivered == if i == |times| then Delivery(times, frameAt) else []
    {
      assert times[..i + 1][..i] == times[..i];
      run.HandleFrame(times[i], frameAt(times[i]));
      i := i + 1;
    }
    assert times[..i] == times;
    results := run.delivered;
  }

  // ---------------------------------------------------------------------------
  // Properties of the collected times.

  /** A sampled time is collected once per face making eye contact in its
      frame, so it appears several times when several faces qualify. */
  lemma {:induction false} HitsCountFaces(times: seq<int>, frameAt: int -> Frame, k: nat)
    requires forall i, j :: 0 <= i < j < |times| ==> times[i] < times[j]
    requires k < |times|
    ensures multiset(AllHits(times, frameAt))[Seconds(times[k])] ==
            if frameAt(times[k]).Image? then QualifyingFaces(frameAt(times[k]).faces) else 0
  {
    var last := |times| - 1;
    var prefix := times[..last];
    var x := Seconds(times[k]);
    var hits := FrameHits(times[last], frameAt(times[last]));
    assert AllHits(times, frameAt) == AllHits(prefix, frameAt) + hits;
    if k == last {
      NotInHits(prefix, frameAt, x);
      RepeatCount(hits, x, frameAt(times[last]), times[last]);
    } else {
      HitsCountFaces(prefix, frameAt, k);
      assert x != Seconds(times[last]);
      RepeatCount(hits, x, frameAt(times[last]), times[last]);
    }
  }

  /** How often x occurs among the times one frame contributes. */
  lemma RepeatCount(hits: seq<real>, x: real, frame: Frame, t: int)
    requires hits == FrameHits(t, frame)
    ensures multiset(hits)[x] ==
            if x == Seconds(t) && frame.Image? then QualifyingFaces(frame.faces) else 0
  {
    if frame.Image? {
      RepeatMultiset(Seconds(t), QualifyingFaces(frame.faces), x);
    }
  }

  /** The multiset of n copies of y counts x n times if x == y, else never. */
  lemma {:induction false} RepeatMultiset(y: real, n: nat, x: real)
    ensures multiset(Repeat(y, n))[x] == if x == y then n else 0
  {
    if n > 0 {
      assert Repeat(y, n) == Repeat(y, n - 1) + [y];
      RepeatMultiset(y, n - 1, x);
    }
  }

  /** A time later than every sampled time is not among the collected times. */
  lemma {:induction false} NotInHits(times: seq<int>, frameAt: int -> Frame, x: real)
    requires forall i :: 0 <= i < |times| ==> Seconds(times[i]) < x
    ensures x !in AllHits(times, frameAt)
  {
    if times != [] {
      NotInHits(times[..|times| - 1], frameAt, x);
    }
  }

  /** With no positive duration nothing is sampled, `lastRequestedTime` is nil
      and the result handler is never invoked. */
  lemma NoDurationNoResult(duration: real, step: int, frameAt: int -> Frame)
    requires duration <= 0.0
    ensures Last(Samples(duration, step)) == None
    ensures Delivery(Samples(duration, step), frameAt) == []
  {
    SamplesShape(duration, step);
  }

  /** When the frame at the last sampled time has no image the guard returns
      before the completion check, and the handler never fires. */
  lemma MissingLastFrameNoResult(times: seq<int>, frameAt: int -> Frame)
    requires times != [] && frameAt(times[|times| - 1]) == NoImage
    ensures Delivery(times, frameAt) == []
  {
  }
}
