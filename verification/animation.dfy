/** The animation timer: steps a parameter `t` from 0 toward 1 at a fixed frame rate,
    handing the animator one interpolated state per frame.

    The animator and the state's `interpolate` are supplied from outside and are not
    modelled: the state type is a type parameter, `interpolate` is a function parameter
    and each call on the animator becomes one `Frame` of the result. Threads and
    `Thread.sleep` are not modelled either; the sleeps are only summed. */
module Animation {
  import opened Numerics

  datatype Option<T> = None | Some(value: T)

  /** The two runtime exceptions the frame loop can raise. */
  datatype Error =
    | ArithmeticException        // `1000 / FPS` with FPS == 0
    | IllegalArgumentException   // `Thread.sleep` of a negative delay

  /** One call `animator.animate(current)`, with the `t` it was interpolated at. */
  datatype Frame<S> = Frame(t: real, state: S)

  /** What one run of the frame loop does: the frames shown, the milliseconds it asked to
      sleep, and the exception that ended it, if any. */
  datatype Outcome<S> = Outcome(frames: seq<Frame<S>>, slept: int, error: Option<Error>)

  /** The start state, end state and duration last handed to the timer. */
  datatype Job<S> = Job(start: S, end: S, duration: int)

  /** The timer's fields: the public frame rate, the completion flag and the current job
      (none before the first animation). */
  datatype Timer<S> = Timer(fps: int, complete: bool, job: Option<Job<S>>)

  /** The constructor: 10 frames per second, complete, no job yet. */
  function NewTimer<S>(): (t: Timer<S>)
    ensures t.fps == 10 && t.complete && t.job.None?
  {
    Timer(10, true, None)
  }

  /** `frame_delay`: milliseconds per frame, Java's truncating `1000 / FPS`. */
  function FrameDelay(fps: int): (d: int)
    requires fps != 0
    ensures fps > 0 ==> 0 <= d <= 1000
    ensures d > 0 <==> 0 < fps <= 1000
    ensures d < 0 <==> -1000 <= fps < 0
  {
    JavaDiv(1000, fps)
  }

  /** The value of `t` after `k` steps of `t = t + dt` from 0. */
  function Time(dt: real, k: nat): real
  {
    k as real * dt
  }

  /** How the frame loop unfolds for a frame rate and duration:
      - `Throws(shown, e)`: `shown` frames, then exception `e`;
      - `Frames(count, dt)`: `count` frames at `t = k * dt`, then it returns;
      - `Forever(dt)`: frames at `t = k * dt` for ever, since `t` never reaches 1. */
  datatype Schedule =
    | Throws(shown: nat, error: Error)
    | Frames(count: nat, dt: real)
    | Forever(dt: real)

  /** The number of frames a positive delay and duration give: the least `n` with
      `n * frameDelay >= duration`. */
  function FrameCount(frameDelay: int, duration: int): nat
    requires frameDelay > 0 && duration > 0
  {
    (duration + frameDelay - 1) / frameDelay
  }

  /** The frame loop's schedule. A zero duration makes `dt` infinite (or NaN when the
      delay is also zero) in IEEE arithmetic; either way the body runs exactly once, which
      the step 1.0 reproduces. */
  function Plan(fps: int, duration: int): (s: Schedule)
    ensures s.Throws? <==> fps == 0 || -1000 <= fps < 0
    ensures s.Throws? ==> (s.error == ArithmeticException <==> fps == 0) && s.shown == (if fps == 0 then 0 else 1)
    ensures s.Forever? <==> duration != 0 && (fps > 1000 || fps < -1000 || (0 < fps && duration < 0))
  {
    if fps == 0 then Throws(0, ArithmeticException)
    else
      var fd := FrameDelay(fps);
      if fd < 0 then Throws(1, IllegalArgumentException)
      else if duration == 0 then Frames(1, 1.0)
      else if fd == 0 || duration < 0 then Forever(fd as real / duration as real)
      else Frames(FrameCount(fd, duration), fd as real / duration as real)
  }

  lemma MulMonotone(a: int, b: int, c: int)
    requires a <= b && c >= 0
    ensures a * c <= b * c
  {
    assert (b - a) * c >= 0;
  }

  /** `FrameCount` is exactly the number of whole frame delays that fit strictly below
      the duration. */
  lemma FrameCountExact(fd: int, duration: int, k: nat)
    requires fd > 0 && duration > 0
    ensures k < FrameCount(fd, duration) <==> k * fd < duration
  {
    var n := FrameCount(fd, duration);
    var m := duration + fd - 1;
    assert n * fd <= m < n * fd + fd;
    if k < n {
      MulMonotone(k, n - 1, fd);
    } else {
      MulMonotone(n, k, fd);
    }
  }

  /** After `k` steps `t` is below 1 exactly when `k` frame delays fall short of the duration. */
  lemma TimeBelowOne(fd: int, duration: int, k: nat)
    requires fd > 0 && duration > 0
    ensures Time(fd as real / duration as real, k) < 1.0 <==> k * fd < duration
  {
    var dt := fd as real / duration as real;
    var d := duration as real;
    assert Time(dt, k) * d == (k * fd) as real;
    ScaleInequality(d, Time(dt, k), d);
    ScaleInequality(Time(dt, k), 1.0, d);
  }

  /** The schedule agrees with the loop `for (t = 0.0; t < 1.0; t = t + dt)`: a finite
      schedule shows a frame exactly at the steps where `t < 1`, and a never-ending one has
      a step that is not positive, so that `t` stays below 1 at every step. An exception
      is raised exactly when FPS is 0 or the frame delay is negative. */
  lemma PlanMatchesLoop(fps: int, duration: int)
    ensures var s := Plan(fps, duration);
      (s.Frames? ==> forall k: nat :: k < s.count <==> Time(s.dt, k) < 1.0) &&
      (s.Forever? ==> s.dt <= 0.0 && forall k: nat :: Time(s.dt, k) < 1.0) &&
      (s.Forever? <==> duration != 0 && (fps > 1000 || fps < -1000 || (0 < fps && duration < 0)))
  {
    var s := Plan(fps, duration);
    if s.Frames? && duration != 0 {
      var fd := FrameDelay(fps);
      forall k: nat
        ensures k < s.count <==> Time(s.dt, k) < 1.0
      {
        FrameCountExact(fd, duration, k);
        TimeBelowOne(fd, duration, k);
      }
    } else if s.Frames? {
      forall k: nat
        ensures k < s.count <==> Time(s.dt, k) < 1.0
      {
      }
    } else if s.Forever? {
      var fd := FrameDelay(fps);
      assert fd >= 0;
      if fd > 0 {
        assert duration < 0;
        assert s.dt * (-duration as real) == -(fd as real);
        ScaleInequality(s.dt, 0.0, -duration as real);
      }
      forall k: nat
        ensures Time(s.dt, k) < 1.0
      {
        assert (k as real) * (-s.dt) >= 0.0;
      }
    }
  }

  /** The frames and sleeps a run of the loop produces, by its schedule. */
  function Expected<S>(fps: int, duration: int, start: S, end: S, interp: (S, S, real) -> S): (r: Outcome<S>)
    requires !Plan(fps, duration).Forever?
    ensures r.error.Some? <==> fps == 0 || -1000 <= fps < 0
    ensures r.error.Some? ==> r.slept == 0 && |r.frames| == (if fps == 0 then 0 else 1)
    ensures r.error.None? ==> r.slept == |r.frames| * FrameDelay(fps)
    ensures forall k :: 0 <= k < |r.frames| ==> r.frames[k].state == interp(start, end, r.frames[k].t)
    ensures |r.frames| > 0 ==> r.frames[0].t == 0.0
  {
    match Plan(fps, duration)
    case Throws(shown, e) =>
      Outcome(seq(shown, k requires 0 <= k < shown => Frame(0.0, interp(start, end, 0.0))), 0, Some(e))
    case Frames(n, dt) =>
      Outcome(seq(n, k requires 0 <= k < n => Frame(Time(dt, k), interp(start, end, Time(dt, k)))),
              n * FrameDelay(fps), None)
  }

  /** A completed animation shows one frame per frame delay that starts before the
      duration is over: it sleeps at least `duration` milliseconds in total and less than
      one frame delay more. The first frame is the start of the interpolation (t = 0),
      every `t` lies in [0, 1), and the frames come in increasing `t`, `dt` apart. */
  lemma ExpectedTiming<S>(fps: int, duration: int, start: S, end: S, interp: (S, S, real) -> S)
    requires 0 < fps <= 1000 && duration > 0
    ensures var r := Expected(fps, duration, start, end, interp);
      r.error.None? &&
      duration <= r.slept < duration + FrameDelay(fps) &&
      |r.frames| > 0 && r.frames[0] == Frame(0.0, interp(start, end, 0.0)) &&
      (forall k :: 0 <= k < |r.frames| ==> 0.0 <= r.frames[k].t < 1.0 && r.frames[k].state == interp(start, end, r.frames[k].t)) &&
      (forall k :: 0 < k < |r.frames| ==>
        r.frames[k - 1].t < r.frames[k].t && r.frames[k].t - r.frames[k - 1].t == FrameDelay(fps) as real / duration as real)
  {
    var fd := FrameDelay(fps);
    var n := FrameCount(fd, duration);
    var r := Expected(fps, duration, start, end, interp);
    FrameCountExact(fd, duration, n);
    FrameCountExact(fd, duration, n - 1);
    assert n > 0;
    assert (n - 1) * fd == n * fd - fd;
    PlanMatchesLoop(fps, duration);
    var dt := fd as real / duration as real;
    assert dt > 0.0;
    forall k | 0 <= k < |r.frames|
      ensures 0.0 <= r.frames[k].t < 1.0
    {
      assert r.frames[k].t == Time(dt, k);
      assert (k as real) * dt >= 0.0;
    }
    forall k | 0 < k < |r.frames|
      ensures r.frames[k].t - r.frames[k - 1].t == dt
    {
      assert r.frames[k].t == Time(dt, k) && r.frames[k - 1].t == Time(dt, k - 1);
      assert (k as real) * dt - ((k - 1) as real) * dt == dt;
    }
  }

  /** `doAnimation`: the frame loop as written, with `t` a real. */
  method DoAnimation<S>(fps: int, duration: int, start: S, end: S, interp: (S, S, real) -> S)
    returns (r: Outcome<S>)
    requires !Plan(fps, duration).Forever?
    ensures r == Expected(fps, duration, start, end, interp)
  {
    if fps == 0 {
      return Outcome([], 0, Some(ArithmeticException));
    }
    var frameDelay := FrameDelay(fps);
    var dt := if duration == 0 then 1.0 else frameDelay as real / duration as real;
    ghost var plan := Plan(fps, duration);
    ghost var bound := if plan.Frames? then plan.count else 1;
    PlanMatchesLoop(fps, duration);
    var frames: seq<Frame<S>> := [];
    var slept := 0;
    var t := 0.0;
    while t < 1.0
      invariant |frames| <= bound
      invariant frameDelay < 0 ==> |frames| == 0
      invariant t == Time(dt, |frames|)
      invariant forall j :: 0 <= j < |frames| ==> frames[j] == Frame(Time(dt, j), interp(start, end, Time(dt, j)))
      invariant slept == |frames| * frameDelay
      decreases bound - |frames|
    {
      frames := frames + [Frame(t, interp(start, end, t))];
      if frameDelay < 0 {
        return Outcome(frames, 0, Some(IllegalArgumentException));
      }
      slept := slept + frameDelay;
      t := t + dt;
    }
    return Outcome(frames, slept, None);
  }

  /** `doSyncAnimation`: records the job and runs the loop in the caller's thread; the
      completion flag is left as it was. */
  method DoSyncAnimation<S>(timer: Timer<S>, start: S, end: S, duration: int, interp: (S, S, real) -> S)
    returns (after: Timer<S>, r: Outcome<S>)
    requires !Plan(timer.fps, duration).Forever?
    ensures after.fps == timer.fps && after.complete == timer.complete
    ensures after.job == Some(Job(start, end, duration))
    ensures r == Expected(timer.fps, duration, start, end, interp)
  {
    after := timer.(job := Some(Job(start, end, duration)));
    r := DoAnimation(timer.fps, duration, start, end, interp);
  }

  /** `doAsyncAnimation` up to the thread start: records the job and clears the completion
      flag. The new thread's body is `Run`. */
  function StartAsync<S>(timer: Timer<S>, start: S, end: S, duration: int): (after: Timer<S>)
    ensures !after.complete && after.fps == timer.fps
    ensures after.job == Some(Job(start, end, duration))
  {
    timer.(job := Some(Job(start, end, duration)), complete := false)
  }

  /** `run`: the loop on the recorded job, then `complete = true`. An exception from the
      loop ends the thread before the flag is set. */
  method Run<S>(timer: Timer<S>, interp: (S, S, real) -> S) returns (after: Timer<S>, r: Outcome<S>)
    requires timer.job.Some?
    requires !Plan(timer.fps, timer.job.value.duration).Forever?
    ensures r == Expected(timer.fps, timer.job.value.duration, timer.job.value.start, timer.job.value.end, interp)
    ensures after.fps == timer.fps && after.job == timer.job
    ensures after.complete <==> timer.complete || r.error.None?
  {
    var job := timer.job.value;
    r := DoAnimation(timer.fps, job.duration, job.start, job.end, interp);
    if r.error.None? {
      after := timer.(complete := true);
    } else {
      after := timer;
    }
  }

  /** `doAsyncAnimation` followed by the thread's `run`: afterwards `isComplete()` holds
      exactly when the frame rate is neither 0 nor in [-1000, -1]; otherwise the thread
      dies with the exception and the timer reports an animation in progress for ever. */
  method DoAsyncAnimation<S>(timer: Timer<S>, start: S, end: S, duration: int, interp: (S, S, real) -> S)
    returns (after: Timer<S>, r: Outcome<S>)
    requires !Plan(timer.fps, duration).Forever?
    ensures r == Expected(timer.fps, duration, start, end, interp)
    ensures after.fps == timer.fps && after.job == Some(Job(start, end, duration))
    ensures after.complete <==> !(timer.fps == 0 || -1000 <= timer.fps < 0)
  {
    var started := StartAsync(timer, start, end, duration);
    after, r := Run(started, interp);
  }

  /** With the default 10 frames per second, an animation lasting `duration` milliseconds
      shows one frame every 100 milliseconds: `ceil(duration / 100)` frames, at
      `t = k * 100 / duration`. */
  lemma DefaultRateFrames<S>(duration: int, start: S, end: S, interp: (S, S, real) -> S)
    requires duration > 0
    ensures var r := Expected(NewTimer<S>().fps, duration, start, end, interp);
      |r.frames| == (duration + 99) / 100 &&
      forall k :: 0 <= k < |r.frames| ==> r.frames[k].t == (100 * k) as real / duration as real
  {
    assert FrameDelay(10) == 100;
    var r := Expected(NewTimer<S>().fps, duration, start, end, interp);
    forall k | 0 <= k < |r.frames|
      ensures r.frames[k].t == (100 * k) as real / duration as real
    {
      assert r.frames[k].t == Time(100 as real / duration as real, k);
    }
  }
}
