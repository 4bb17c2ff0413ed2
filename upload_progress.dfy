/**
 * The simulated upload progress of `src/lib/utils/upload-progress.ts`.
 *
 * The duration of an upload is estimated from the file size, clamped to
 * 1.5 to 10 seconds. An animator then reports eased progress values on
 * every animation frame until the estimated duration has passed, never
 * above its cap (95 by default); completing it reports 100.
 *
 * Numbers are modelled as exact reals and the clock as whole milliseconds.
 * The host's animation-frame queue is modelled by the animator's own
 * fields: the id the host hands out next and the set of frames scheduled.
 */
module UploadProgress {

  /** The conservative upload speed, 2.5 MiB per second. */
  const BytesPerSecond: real := 2.5 * 1024.0 * 1024.0

  /** The cap `createProgressAnimator` uses when no cap is given. */
  const DefaultMaxProgress: int := 95

  /** The value `complete` reports. */
  const CompleteProgress: int := 100

  function MinReal(a: real, b: real): real {
    if a <= b then a else b
  }

  function MaxReal(a: real, b: real): real {
    if a >= b then a else b
  }

  /** `estimateR2UploadDuration`: the estimated upload time in milliseconds. */
  function EstimateUploadDuration(fileSizeBytes: real): (ms: real)
    ensures 1500.0 <= ms <= 10000.0
  {
    MaxReal(1.5, MinReal(10.0, fileSizeBytes / BytesPerSecond + 0.5)) * 1000.0
  }

  /** Files up to one second's worth of bytes take the 1.5 second minimum. */
  lemma EstimateFloor(fileSizeBytes: real)
    requires fileSizeBytes <= BytesPerSecond
    ensures EstimateUploadDuration(fileSizeBytes) == 1500.0
  {
  }

  /** Files of 9.5 seconds' worth of bytes or more take the 10 second maximum. */
  lemma EstimateCeiling(fileSizeBytes: real)
    requires fileSizeBytes >= 9.5 * BytesPerSecond
    ensures EstimateUploadDuration(fileSizeBytes) == 10000.0
  {
  }

  /** In between, the estimate is the transfer time plus half a second of latency. */
  lemma EstimateBetween(fileSizeBytes: real)
    requires BytesPerSecond <= fileSizeBytes <= 9.5 * BytesPerSecond
    ensures EstimateUploadDuration(fileSizeBytes)
              == (fileSizeBytes / BytesPerSecond + 0.5) * 1000.0
  {
  }

  /** A larger file never gets a shorter estimate. */
  lemma EstimateMonotone(a: real, b: real)
    requires a <= b
    ensures EstimateUploadDuration(a) <= EstimateUploadDuration(b)
  {
  }

  function Pow4(x: real): real {
    x * x * x * x
  }

  /** `easeOutQuart`: starts fast and slows near the end. */
  function EaseOutQuart(t: real): real {
    1.0 - Pow4(1.0 - t)
  }

  lemma MulMonotone(a: real, b: real, c: real, d: real)
    requires 0.0 <= a <= b && 0.0 <= c <= d
    ensures a * c <= b * d
  {
    assert a * c <= b * c;
    assert b * c <= b * d;
  }

  /** On non-negative numbers the fourth power keeps order and stays within [0, 1] below 1. */
  lemma Pow4Monotone(x: real, y: real)
    requires 0.0 <= x <= y
    ensures 0.0 <= Pow4(x) <= Pow4(y)
    ensures y <= 1.0 ==> Pow4(y) <= 1.0
  {
    MulMonotone(x, y, x, y);
    MulMonotone(x * x, y * y, x, y);
    MulMonotone(x * x * x, y * y * y, x, y);
    if y <= 1.0 {
      MulMonotone(y, 1.0, y, 1.0);
      MulMonotone(y * y, 1.0, y, 1.0);
      MulMonotone(y * y * y, 1.0, y, 1.0);
    }
  }

  /** The easing starts at 0 and ends at 1. */
  lemma EaseEndpoints()
    ensures EaseOutQuart(0.0) == 0.0 && EaseOutQuart(1.0) == 1.0
  {
  }

  /** Between 0 and 1 the easing stays within [0, 1] and never goes back. */
  lemma EaseMonotone(a: real, b: real)
    requires 0.0 <= a <= b <= 1.0
    ensures 0.0 <= EaseOutQuart(a) <= EaseOutQuart(b) <= 1.0
  {
    Pow4Monotone(1.0 - b, 1.0 - a);
  }

  /** `Math.round`: the nearest integer, halves rounded up. */
  function Round(x: real): int {
    (x + 0.5).Floor
  }

  /** Rounding keeps order and leaves integers alone. */
  lemma RoundProperties(x: real, y: real, n: int)
    requires x <= y
    ensures Round(x) <= Round(y)
    ensures Round(n as real) == n
  {
  }

  /** `Math.min(elapsed / duration, 1)`: the share of the duration that has passed. */
  function RawProgress(elapsed: int, duration: real): real
    requires duration > 0.0
  {
    MinReal(elapsed as real / duration, 1.0)
  }

  /** The rounded, eased value for a share `t` of the duration and the cap. */
  function EasedValue(t: real, maxProgress: int): int {
    Round(EaseOutQuart(t) * maxProgress as real)
  }

  /** The value one animation frame reports, `elapsed` milliseconds after the start. */
  function TickValue(elapsed: int, duration: real, maxProgress: int): int
    requires duration > 0.0
  {
    EasedValue(RawProgress(elapsed, duration), maxProgress)
  }

  /** The share of the duration passed is within [0, 1] and grows with the elapsed time. */
  lemma RawProgressMonotone(e1: int, e2: int, duration: real)
    requires 0 <= e1 <= e2 && duration > 0.0
    ensures 0.0 <= RawProgress(e1, duration) <= RawProgress(e2, duration) <= 1.0
  {
    assert 0.0 <= e1 as real / duration;
    assert e1 as real / duration <= e2 as real / duration;
  }

  /** No time passed is a share of 0; the whole duration or more is a share of 1. */
  lemma RawProgressEnds(elapsed: int, duration: real)
    requires duration > 0.0
    ensures elapsed == 0 ==> RawProgress(elapsed, duration) == 0.0
    ensures elapsed as real >= duration ==> RawProgress(elapsed, duration) == 1.0
  {
    if elapsed as real >= duration {
      assert elapsed as real / duration >= duration / duration;
    }
  }

  /** Before the whole duration has passed, the share is below 1. */
  lemma RawProgressBelowOne(elapsed: int, duration: real)
    requires duration > 0.0 && elapsed as real < duration
    ensures RawProgress(elapsed, duration) < 1.0
  {
    assert elapsed as real / duration < duration / duration;
  }

  /** Scaling a share in [0, 1] by a non-negative cap stays within [0, cap]. */
  lemma ScaleBounds(e: real, m: real)
    requires 0.0 <= e <= 1.0 && 0.0 <= m
    ensures 0.0 <= e * m <= m
  {
    MulMonotone(0.0, e, m, m);
    MulMonotone(e, 1.0, m, m);
  }

  /** A share of 0 gives 0. */
  lemma EasedAtZero(maxProgress: int)
    ensures EasedValue(0.0, maxProgress) == 0
  {
  }

  /** A share of 1 gives the cap. */
  lemma EasedAtOne(maxProgress: int)
    ensures EasedValue(1.0, maxProgress) == maxProgress
  {
    RoundProperties(maxProgress as real, maxProgress as real, maxProgress);
  }

  /** Rounding a value scaled from a share in [0, 1] stays within [0, cap]. */
  lemma RoundedScaleBounds(e: real, maxProgress: int)
    requires 0.0 <= e <= 1.0 && maxProgress >= 0
    ensures 0 <= Round(e * maxProgress as real) <= maxProgress
  {
    var m := maxProgress as real;
    ScaleBounds(e, m);
    RoundProperties(0.0, e * m, 0);
    RoundProperties(e * m, m, maxProgress);
  }

  /** Eased values stay within [0, cap] and grow with the share. */
  lemma EasedMonotone(t1: real, t2: real, maxProgress: int)
    requires 0.0 <= t1 <= t2 <= 1.0 && maxProgress >= 0
    ensures 0 <= EasedValue(t1, maxProgress) <= EasedValue(t2, maxProgress) <= maxProgress
  {
    EaseMonotone(t1, t2);
    var e1, e2 := EaseOutQuart(t1), EaseOutQuart(t2);
    var m := maxProgress as real;
    MulMonotone(e1, e2, m, m);
    RoundProperties(e1 * m, e2 * m, 0);
    RoundedScaleBounds(e1, maxProgress);
    RoundedScaleBounds(e2, maxProgress);
  }

  /** Reported values stay between 0 and the cap. */
  lemma TickBounds(elapsed: int, duration: real, maxProgress: int)
    requires elapsed >= 0 && duration > 0.0 && maxProgress >= 0
    ensures 0 <= TickValue(elapsed, duration, maxProgress) <= maxProgress
  {
    RawProgressMonotone(elapsed, elapsed, duration);
    var t := RawProgress(elapsed, duration);
    EasedMonotone(t, t, maxProgress);
  }

  /** The first frame, at the start, reports 0. */
  lemma TickAtStart(duration: real, maxProgress: int)
    requires duration > 0.0
    ensures TickValue(0, duration, maxProgress) == 0
  {
    RawProgressEnds(0, duration);
    EasedAtZero(maxProgress);
  }

  /** Once the duration has passed, the share is 1 and the frame reports exactly the cap. */
  lemma TickAtEnd(elapsed: int, duration: real, maxProgress: int)
    requires duration > 0.0 && elapsed as real >= duration
    ensures RawProgress(elapsed, duration) == 1.0
    ensures TickValue(elapsed, duration, maxProgress) == maxProgress
  {
    RawProgressEnds(elapsed, duration);
    EasedAtOne(maxProgress);
  }

  /** Later frames never report less than earlier ones. */
  lemma TickMonotone(e1: int, e2: int, duration: real, maxProgress: int)
    requires 0 <= e1 <= e2 && duration > 0.0 && maxProgress >= 0
    ensures TickValue(e1, duration, maxProgress) <= TickValue(e2, duration, maxProgress)
  {
    RawProgressMonotone(e1, e2, duration);
    EasedMonotone(RawProgress(e1, duration), RawProgress(e2, duration), maxProgress);
  }

  /**
   * Rounding lets the cap appear before the duration has passed: with a
   * 1000 ms duration and the default cap, the frame at 900 ms already
   * reports 95 (0.9999 * 95 = 94.9905 rounds up).
   */
  lemma CapReachedBeforeEnd()
    ensures RawProgress(900, 1000.0) < 1.0
    ensures TickValue(900, 1000.0, DefaultMaxProgress) == DefaultMaxProgress
  {
    assert RawProgress(900, 1000.0) == 0.9;
    assert EaseOutQuart(0.9) == 0.9999;
    var x := 0.9999 * 95.0 + 0.5;
    assert 95.0 <= x < 96.0;
  }

  /**
   * The animator `createProgressAnimator` returns, together with the part
   * of the host it talks to: the frame ids it hands out and the frames it
   * has scheduled.
   */
  class ProgressAnimator {
    const duration: real
    const maxProgress: int
    /** The clock reading `start` took, in milliseconds. */
    var startTime: int
    /** The id of the last frame requested; 0 stands for `null`. */
    var animationFrame: nat
    /** The id the host hands out next; ids start at 1, so every id is truthy. */
    var nextFrame: nat
    /** The frames requested and neither run nor cancelled yet. */
    var scheduled: set<nat>
    /** Every value passed to `onProgress`, in order. */
    var reported: seq<int>
    /** The clock reading of the last `animate`. */
    ghost var lastTick: int

    ghost predicate Valid()
      reads this
    {
      duration > 0.0 && 1 <= nextFrame && animationFrame < nextFrame
      && forall id :: id in scheduled ==> 1 <= id < nextFrame
    }

    /** At most one frame is pending, and it is the one `animationFrame` names. */
    ghost predicate SingleChain()
      reads this
    {
      scheduled <= {animationFrame}
    }

    /**
     * The animation is running: the last value reported is the eased value
     * for the clock reading of the last `animate`, taken after the start.
     */
    ghost predicate Ticking()
      reads this
    {
      Valid() && |reported| > 0 && startTime <= lastTick
      && reported[|reported| - 1] == TickValue(lastTick - startTime, duration, maxProgress)
    }

    constructor (duration: real, maxProgress: int)
      requires duration > 0.0
      ensures Valid() && SingleChain()
      ensures this.duration == duration && this.maxProgress == maxProgress
      ensures animationFrame == 0 && nextFrame == 1 && scheduled == {} && reported == []
    {
      this.duration := duration;
      this.maxProgress := maxProgress;
      startTime := 0;
      lastTick := 0;
      animationFrame := 0;
      nextFrame := 1;
      scheduled := {};
      reported := [];
    }

    /**
     * `animate`: report the eased value for the time elapsed, and request
     * the next frame while the duration has not passed.
     */
    method Animate(now: int)
      requires Valid()
      modifies this
      ensures Valid()
      ensures startTime == old(startTime) && lastTick == now
      ensures reported == old(reported) + [TickValue(now - startTime, duration, maxProgress)]
      ensures RawProgress(now - startTime, duration) < 1.0 ==>
                animationFrame == old(nextFrame) && nextFrame == old(nextFrame) + 1
                && scheduled == old(scheduled) + {old(nextFrame)}
      ensures RawProgress(now - startTime, duration) >= 1.0 ==>
                animationFrame == old(animationFrame) && nextFrame == old(nextFrame)
                && scheduled == old(scheduled)
    {
      var elapsed := now - startTime;
      var rawProgress := RawProgress(elapsed, duration);
      reported := reported + [TickValue(elapsed, duration, maxProgress)];
      lastTick := now;
      if rawProgress < 1.0 {
        animationFrame := nextFrame;
        scheduled := scheduled + {nextFrame};
        nextFrame := nextFrame + 1;
      }
    }

    /**
     * `start`: read the clock for the start time, then animate at once, which
     * reads the clock again. When both readings agree the first value is 0
     * and a frame is requested. A frame left from an earlier start stays
     * scheduled but is no longer the one `animationFrame` names.
     */
    method Start(startNow: int, animateNow: int)
      requires Valid()
      modifies this
      ensures Valid()
      ensures startTime == startNow && lastTick == animateNow
      ensures reported == old(reported) + [TickValue(animateNow - startNow, duration, maxProgress)]
      ensures RawProgress(animateNow - startNow, duration) < 1.0 ==>
                animationFrame == old(nextFrame) && nextFrame == old(nextFrame) + 1
                && scheduled == old(scheduled) + {old(nextFrame)}
      ensures RawProgress(animateNow - startNow, duration) >= 1.0 ==>
                animationFrame == old(animationFrame) && nextFrame == old(nextFrame)
                && scheduled == old(scheduled)
      ensures startNow == animateNow ==>
                reported[|reported| - 1] == 0 && animationFrame == old(nextFrame)
                && scheduled == old(scheduled) + {old(nextFrame)}
      ensures startNow <= animateNow ==> Ticking()
      ensures old(scheduled) == {} ==> SingleChain()
    {
      startTime := startNow;
      if startNow == animateNow {
        TickAtStart(duration, maxProgress);
        RawProgressEnds(0, duration);
        assert animateNow - startNow == 0;
      }
      Animate(animateNow);
    }

    /**
     * The host runs a scheduled frame: `animate` again. While the duration
     * has not passed the frame requests its successor; once it has, the
     * frame reports the cap and requests none. On a running animation and a
     * clock that does not go back, the value reported never decreases.
     */
    method RunFrame(id: nat, now: int)
      requires Valid() && id in scheduled
      modifies this
      ensures Valid()
      ensures startTime == old(startTime) && lastTick == now
      ensures reported == old(reported) + [TickValue(now - startTime, duration, maxProgress)]
      ensures old(SingleChain()) ==> SingleChain()
      ensures RawProgress(now - startTime, duration) < 1.0 ==>
                animationFrame == old(nextFrame) && nextFrame == old(nextFrame) + 1
                && scheduled == old(scheduled) - {id} + {old(nextFrame)}
      ensures (now - startTime) as real >= duration ==>
                reported[|reported| - 1] == maxProgress
                && scheduled == old(scheduled) - {id} && animationFrame == old(animationFrame)
                && nextFrame == old(nextFrame)
      ensures old(Ticking()) && old(lastTick) <= now ==> Ticking()
      ensures old(Ticking()) && old(lastTick) <= now && maxProgress >= 0 ==>
                old(reported[|reported| - 1]) <= reported[|reported| - 1]
    {
      ghost var previous := lastTick;
      scheduled := scheduled - {id};
      if (now - startTime) as real >= duration {
        TickAtEnd(now - startTime, duration, maxProgress);
      }
      if previous <= now && startTime <= previous && maxProgress >= 0 {
        TickMonotone(previous - startTime, now - startTime, duration, maxProgress);
      }
      Animate(now);
    }

    /**
     * `complete`: cancel the named frame, if any, and report 100. The id is
     * kept, as in the source. With a single chain nothing stays scheduled.
     */
    method Complete()
      requires Valid()
      modifies this
      ensures Valid()
      ensures reported == old(reported) + [CompleteProgress]
      ensures animationFrame == old(animationFrame) && nextFrame == old(nextFrame)
      ensures startTime == old(startTime)
      ensures old(animationFrame) != 0 ==> scheduled == old(scheduled) - {old(animationFrame)}
      ensures old(animationFrame) == 0 ==> scheduled == old(scheduled)
      ensures old(SingleChain()) ==> scheduled == {}
    {
      if animationFrame != 0 {
        scheduled := scheduled - {animationFrame};
      }
      reported := reported + [CompleteProgress];
    }

    /** `cancel`: cancel the named frame, if any, and report nothing. */
    method Cancel()
      requires Valid()
      modifies this
      ensures Valid()
      ensures reported == old(reported)
      ensures animationFrame == old(animationFrame) && nextFrame == old(nextFrame)
      ensures startTime == old(startTime)
      ensures old(animationFrame) != 0 ==> scheduled == old(scheduled) - {old(animationFrame)}
      ensures old(animationFrame) == 0 ==> scheduled == old(scheduled)
      ensures old(SingleChain()) ==> scheduled == {}
    {
      if animationFrame != 0 {
        scheduled := scheduled - {animationFrame};
      }
    }
  }

  /**
   * A fresh animator whose `start` reads the clock at `t0` and then at `t1`,
   * and whose next frame, if one was requested, the host runs at `t2`. The
   * first value is 0 when the two readings agree; later values never fall
   * and never pass the cap; before the duration has passed exactly one frame
   * is pending.
   */
  method StartThenRunFrame(duration: real, maxProgress: nat, t0: int, t1: int, t2: int)
    returns (animator: ProgressAnimator)
    requires duration > 0.0 && t0 <= t1 <= t2
    ensures fresh(animator) && animator.Valid() && animator.SingleChain()
    ensures |animator.reported| >= 1
    ensures t0 == t1 ==> animator.reported[0] == 0
    ensures (t1 - t0) as real < duration ==>
              |animator.reported| == 2
              && 0 <= animator.reported[0] <= animator.reported[1] <= maxProgress
    ensures (t1 - t0) as real < duration && RawProgress(t2 - t0, duration) < 1.0 ==>
              animator.scheduled == {animator.animationFrame}
    ensures (t1 - t0) as real < duration && (t2 - t0) as real >= duration ==>
              animator.reported[1] == maxProgress && animator.scheduled == {}
    ensures (t1 - t0) as real >= duration ==>
              animator.reported == [maxProgress] && animator.scheduled == {}
  {
    animator := new ProgressAnimator(duration, maxProgress);
    animator.Start(t0, t1);
    assert animator.reported == [TickValue(t1 - t0, duration, maxProgress)];
    TickBounds(t1 - t0, duration, maxProgress);
    if (t1 - t0) as real < duration {
      RawProgressBelowOne(t1 - t0, duration);
      var id := animator.animationFrame;
      assert animator.scheduled == {id};
      assert animator.Ticking();
      animator.RunFrame(id, t2);
      assert |animator.reported| == 2;
      TickBounds(t2 - t0, duration, maxProgress);
    } else {
      TickAtEnd(t1 - t0, duration, maxProgress);
    }
  }

  /**
   * The two clock readings of `start` matter: 1 ms apart with a 100 ms
   * duration, the first value reported is 4, not 0.
   */
  lemma FirstValueAfterClockGap()
    ensures TickValue(1, 100.0, DefaultMaxProgress) == 4
  {
    assert RawProgress(1, 100.0) == 0.01;
    assert EaseOutQuart(0.01) == 0.03940399;
    var x := 0.03940399 * 95.0 + 0.5;
    assert 4.0 <= x < 5.0;
  }
}
