/*
 * The polling loop of `main` (PISS.c): two screenshot cadences driven by
 * the wall clock.
 *
 * The loop keeps two variables: `sshour`, the hour index last handled,
 * and `PRNGTime`, the armed instant of the hour's random screenshot. On
 * every pass it reads the clock; when the hour index differs from
 * `sshour` the hourly cadence fires and the random instant is re-armed
 * with PRNGTimeGen; then, when the clock has reached `PRNGTime`, the
 * random cadence fires and `PRNGTime` is pushed to the start of the hour
 * one day later. The configuration flags only decide whether a capture is
 * taken; the state changes happen regardless, so a pass is modelled as
 * returning which cadences fired.
 *
 * Step and Events are the specification of one pass and of a sequence of
 * passes; the class Scheduler is the loop's state, with the start-up code
 * as its constructor and one pass as Poll.
 */
module Scheduler {
  import opened TimeGen

  /** The loop's variables `sshour` and `PRNGTime`. */
  datatype Schedule = Schedule(sshour: int, prngTime: int)

  /** Which cadences fired on one pass. */
  datatype Fired = Fired(hourly: bool, random: bool)

  /** The state after one pass and what the pass fired. */
  datatype Outcome = Outcome(next: Schedule, fired: Fired)

  /** `(time_t)(hoursSinceEpoch * 3600) + (3600 * 24)`: the target a random fire leaves behind. */
  function DisarmTarget(hour: int): (r: int)
    ensures r >= (hour + 1) * SECONDS_PER_HOUR
  {
    hour * SECONDS_PER_HOUR + SECONDS_PER_DAY
  }

  /** Start-up: `sshour = now / 3600` and `PRNGTime = PRNGTimeGen(now)`. */
  function Start(now: int): (r: Schedule)
    requires ValidTime(now)
    ensures r.sshour == HourIndex(now) && now < r.prngTime
  {
    Schedule(HourIndex(now), PrngTime(now))
  }

  /**
   * One pass of the loop body at clock reading `now`, where a random fire
   * sets `PRNGTime` to `disarm`.
   */
  function Pass(s: Schedule, now: int, disarm: int): (o: Outcome)
    requires ValidTime(now)
    ensures o.fired.hourly <==> s.sshour != HourIndex(now)
    ensures o.next.sshour == HourIndex(now)
    ensures o.fired.hourly ==> !o.fired.random && o.next == Start(now)
  {
    var hour := HourIndex(now);
    var hourly := s.sshour != hour;
    var armed := if hourly then Schedule(hour, PrngTime(now)) else s;
    var random := now >= armed.prngTime;
    var next := if random then armed.(prngTime := disarm) else armed;
    Outcome(next, Fired(hourly, random))
  }

  /** One pass of the loop body at clock reading `now`. */
  function Step(s: Schedule, now: int): (o: Outcome)
    requires ValidTime(now)
    ensures o.next.prngTime > now
    ensures o.fired.random ==> o.next.prngTime >= (HourIndex(now) + 1) * SECONDS_PER_HOUR
  {
    Pass(s, now, DisarmTarget(HourIndex(now)))
  }

  /** Every reading in `nows` is a valid clock reading. */
  predicate AllValid(nows: seq<int>) {
    forall i :: 0 <= i < |nows| ==> ValidTime(nows[i])
  }

  /** The clock never goes backwards along `nows`. */
  predicate NonDecreasing(nows: seq<int>) {
    forall i, j :: 0 <= i < j < |nows| ==> nows[i] <= nows[j]
  }

  /** The state after the passes at `nows`, starting from `s`. */
  function Run(s: Schedule, nows: seq<int>): (r: Schedule)
    requires AllValid(nows)
    ensures |nows| > 0 ==> r.sshour == HourIndex(nows[|nows| - 1]) && r.prngTime > nows[|nows| - 1]
    decreases |nows|
  {
    if |nows| == 0 then s else Run(Step(s, nows[0]).next, nows[1..])
  }

  /** What each of the passes at `nows` fired, starting from `s`. */
  function Events(s: Schedule, nows: seq<int>): (fired: seq<Fired>)
    requires AllValid(nows)
    ensures |fired| == |nows|
    decreases |nows|
  {
    if |nows| == 0 then []
    else
      var o := Step(s, nows[0]);
      [o.fired] + Events(o.next, nows[1..])
  }

  /**
   * One pass: the hourly cadence fires exactly when the hour index differs
   * from `sshour`, and afterwards `sshour` is the current hour index. The
   * two cadences never fire on the same pass, because a re-armed target is
   * always in the future, and after every pass the armed target is in the
   * future.
   */
  lemma StepFacts(s: Schedule, now: int)
    requires ValidTime(now)
    ensures Step(s, now).fired.hourly <==> s.sshour != HourIndex(now)
    ensures Step(s, now).next.sshour == HourIndex(now)
    ensures !(Step(s, now).fired.hourly && Step(s, now).fired.random)
    ensures Step(s, now).next.prngTime > now
    ensures s.sshour != HourIndex(now) ==> Step(s, now) == Outcome(Start(now), Fired(true, false))
  {
    PrngTimeInFuture(now);
  }

  /**
   * A pass in the hour already handled fires the random cadence exactly
   * when the clock has reached the armed target, and a random fire
   * disarms the target past the end of the hour.
   */
  lemma StepSameHour(s: Schedule, now: int)
    requires ValidTime(now) && s.sshour == HourIndex(now)
    ensures !Step(s, now).fired.hourly
    ensures Step(s, now).fired.random <==> now >= s.prngTime
    ensures Step(s, now).fired.random ==> Step(s, now).next == Schedule(s.sshour, DisarmTarget(s.sshour))
    ensures !Step(s, now).fired.random ==> Step(s, now).next == s
    ensures DisarmTarget(s.sshour) >= (s.sshour + 1) * SECONDS_PER_HOUR
  {
  }

  /**
   * Over any sequence of passes, the hourly cadence fires on a pass
   * exactly when its hour index differs from that of the previous pass
   * (for the first pass: from `sshour`).
   */
  lemma {:induction false} HourlyIffNewHour(s: Schedule, nows: seq<int>)
    requires AllValid(nows)
    ensures forall i :: 0 <= i < |nows| ==>
      (Events(s, nows)[i].hourly <==>
        HourIndex(nows[i]) != (if i == 0 then s.sshour else HourIndex(nows[i - 1])))
    decreases |nows|
  {
    if |nows| > 0 {
      var o := Step(s, nows[0]);
      StepFacts(s, nows[0]);
      HourlyIffNewHour(o.next, nows[1..]);
      assert Events(s, nows)[0] == o.fired;
      forall i | 1 <= i < |nows|
        ensures Events(s, nows)[i].hourly <==> HourIndex(nows[i]) != HourIndex(nows[i - 1])
      {
        assert Events(s, nows)[i] == Events(o.next, nows[1..])[i - 1];
        assert nows[1..][i - 1] == nows[i];
        if i > 1 {
          assert nows[1..][i - 2] == nows[i - 1];
        }
      }
    }
  }

  /**
   * Once the target is at or past the end of the hour `s.sshour`, nothing
   * fires for the rest of that hour: with the clock not going backwards
   * and not before the hour `s.sshour`, every later pass in that hour
   * leaves the state as it is.
   */
  lemma {:induction false} QuietRestOfHour(s: Schedule, nows: seq<int>)
    requires AllValid(nows) && NonDecreasing(nows)
    requires forall i :: 0 <= i < |nows| ==> s.sshour * SECONDS_PER_HOUR <= nows[i]
    requires s.prngTime >= (s.sshour + 1) * SECONDS_PER_HOUR
    ensures forall i :: 0 <= i < |nows| && HourIndex(nows[i]) == s.sshour ==>
      Events(s, nows)[i] == Fired(false, false)
    decreases |nows|
  {
    if |nows| > 0 {
      var o := Step(s, nows[0]);
      if HourIndex(nows[0]) == s.sshour {
        StepSameHour(s, nows[0]);
        assert o.next == s;
        assert Events(s, nows)[0] == o.fired;
        QuietRestOfHour(s, nows[1..]);
        forall i | 1 <= i < |nows| && HourIndex(nows[i]) == s.sshour
          ensures Events(s, nows)[i] == Fired(false, false)
        {
          assert Events(s, nows)[i] == Events(o.next, nows[1..])[i - 1];
          assert nows[1..][i - 1] == nows[i];
        }
      } else {
        // The first reading is in a later hour than `sshour`, and so is every later one.
        forall i | 0 <= i < |nows|
          ensures HourIndex(nows[i]) != s.sshour
        {
          assert nows[0] <= nows[i];
        }
      }
    }
  }

  /**
   * With the clock not going backwards, the random cadence fires at most
   * once per hour.
   */
  lemma {:induction false} RandomAtMostOncePerHour(s: Schedule, nows: seq<int>)
    requires AllValid(nows) && NonDecreasing(nows)
    ensures forall i, j ::
      (0 <= i < j < |nows| && HourIndex(nows[i]) == HourIndex(nows[j]) && Events(s, nows)[i].random)
      ==> !Events(s, nows)[j].random
    decreases |nows|
  {
    if |nows| > 0 {
      var o := Step(s, nows[0]);
      RandomAtMostOncePerHour(o.next, nows[1..]);
      if o.fired.random {
        StepFacts(s, nows[0]);
        forall k | 0 <= k < |nows[1..]|
          ensures o.next.sshour * SECONDS_PER_HOUR <= nows[1..][k]
        {
          assert nows[0] <= nows[k + 1];
        }
        QuietRestOfHour(o.next, nows[1..]);
      }
      forall i, j | 0 <= i < j < |nows| && HourIndex(nows[i]) == HourIndex(nows[j]) &&
          Events(s, nows)[i].random
        ensures !Events(s, nows)[j].random
      {
        assert Events(s, nows)[j] == Events(o.next, nows[1..])[j - 1];
        assert nows[1..][j - 1] == nows[j];
        if i > 0 {
          assert Events(s, nows)[i] == Events(o.next, nows[1..])[i - 1];
          assert nows[1..][i - 1] == nows[i];
        }
      }
    }
  }

  /**
   * With the clock not going backwards, the hourly cadence fires at most
   * once per hour.
   */
  lemma HourlyAtMostOncePerHour(s: Schedule, nows: seq<int>)
    requires AllValid(nows) && NonDecreasing(nows)
    ensures forall i, j :: 0 <= i < j < |nows| && HourIndex(nows[i]) == HourIndex(nows[j]) ==>
      !Events(s, nows)[j].hourly
  {
    HourlyIffNewHour(s, nows);
    forall i, j | 0 <= i < j < |nows| && HourIndex(nows[i]) == HourIndex(nows[j])
      ensures !Events(s, nows)[j].hourly
    {
      assert nows[i] <= nows[j - 1] <= nows[j];
    }
  }

  /**
   * After start-up at `start`, the passes in the same hour never fire the
   * hourly cadence, and fire the random cadence exactly on the first pass
   * at or after the hour's random instant, provided that instant was still
   * ahead at start-up; when it had already passed, the random cadence
   * stays silent for the rest of the hour.
   */
  lemma StartHour(start: int, nows: seq<int>)
    requires ValidTime(start) && AllValid(nows) && NonDecreasing(nows)
    requires forall i :: 0 <= i < |nows| ==> start <= nows[i] && HourIndex(nows[i]) == HourIndex(start)
    ensures forall i :: 0 <= i < |nows| ==> !Events(Start(start), nows)[i].hourly
    ensures forall i :: 0 <= i < |nows| ==>
      (Events(Start(start), nows)[i].random <==>
        start < Candidate(start) <= nows[i] && (i == 0 || nows[i - 1] < Candidate(start)))
  {
    var s := Start(start);
    FirstReach(s, nows);
    forall i | 0 <= i < |nows|
      ensures Events(s, nows)[i].random <==>
        start < Candidate(start) <= nows[i] && (i == 0 || nows[i - 1] < Candidate(start))
    {
      StartTarget(start, nows[i]);
      if i > 0 {
        StartTarget(start, nows[i - 1]);
      }
    }
  }

  /**
   * An hour rollover: the pass at `n0` that first sees a new hour fires the
   * hourly cadence alone and arms that hour's target; the later passes of
   * the hour never fire the hourly cadence again, and fire the random
   * cadence exactly on the first of them at or after the hour's random
   * instant, provided that instant was still ahead at the rollover.
   */
  lemma RolloverHour(s: Schedule, n0: int, nows: seq<int>)
    requires ValidTime(n0) && AllValid(nows) && NonDecreasing(nows)
    requires s.sshour != HourIndex(n0)
    requires forall i :: 0 <= i < |nows| ==> n0 <= nows[i] && HourIndex(nows[i]) == HourIndex(n0)
    ensures Step(s, n0).fired == Fired(true, false)
    ensures forall i :: 0 <= i < |nows| ==> !Events(Step(s, n0).next, nows)[i].hourly
    ensures forall i :: 0 <= i < |nows| ==>
      (Events(Step(s, n0).next, nows)[i].random <==>
        n0 < Candidate(n0) <= nows[i] && (i == 0 || nows[i - 1] < Candidate(n0)))
  {
    StepFacts(s, n0);
    StartHour(n0, nows);
  }

  /**
   * The target armed at start-up, compared with a later reading `now` in
   * the same hour: reached exactly when the hour's random instant was still
   * ahead at start-up and `now` has reached it.
   */
  lemma StartTarget(start: int, now: int)
    requires ValidTime(start) && ValidTime(now)
    requires start <= now && HourIndex(now) == HourIndex(start)
    ensures Start(start).prngTime <= now <==> start < Candidate(start) <= now
  {
    PrngTimeInFuture(start);
  }

  /**
   * Within the hour `s.sshour`, the passes fire nothing but the random
   * cadence, and that exactly on the first pass at or after the armed
   * target.
   */
  lemma FirstReach(s: Schedule, nows: seq<int>)
    requires AllValid(nows) && NonDecreasing(nows)
    requires forall i :: 0 <= i < |nows| ==> HourIndex(nows[i]) == s.sshour
    ensures forall i :: 0 <= i < |nows| ==> !Events(s, nows)[i].hourly
    ensures forall i :: 0 <= i < |nows| ==>
      (Events(s, nows)[i].random <==> s.prngTime <= nows[i] && (i == 0 || nows[i - 1] < s.prngTime))
  {
    forall i | 0 <= i < |nows|
      ensures !Events(s, nows)[i].hourly
      ensures Events(s, nows)[i].random <==> s.prngTime <= nows[i] && (i == 0 || nows[i - 1] < s.prngTime)
    {
      FirstReachAt(s, nows, i);
    }
  }

  /** FirstReach at the single pass `i`, by induction on `i`. */
  lemma {:induction false} FirstReachAt(s: Schedule, nows: seq<int>, i: nat)
    requires AllValid(nows) && NonDecreasing(nows) && i < |nows|
    requires forall k :: 0 <= k < |nows| ==> HourIndex(nows[k]) == s.sshour
    ensures !Events(s, nows)[i].hourly
    ensures Events(s, nows)[i].random <==> s.prngTime <= nows[i] && (i == 0 || nows[i - 1] < s.prngTime)
    decreases i
  {
    var o := Step(s, nows[0]);
    StepSameHour(s, nows[0]);
    if i == 0 {
      assert Events(s, nows)[0] == o.fired;
    } else {
      FirstReachAt(o.next, nows[1..], i - 1);
      assert Events(s, nows)[i] == Events(o.next, nows[1..])[i - 1];
      assert nows[1..][i - 1] == nows[i];
      if i > 1 {
        assert nows[1..][i - 2] == nows[i - 1];
      }
      assert nows[0] <= nows[i - 1];
    }
  }

  /** The events of a sequence of passes extended by one more pass. */
  lemma {:induction false} EventsSnoc(s: Schedule, nows: seq<int>, now: int)
    requires AllValid(nows) && ValidTime(now)
    ensures AllValid(nows + [now])
    ensures Run(s, nows + [now]) == Step(Run(s, nows), now).next
    ensures Events(s, nows + [now]) == Events(s, nows) + [Step(Run(s, nows), now).fired]
    decreases |nows|
  {
    assert AllValid(nows + [now]) by {
      forall i | 0 <= i < |nows + [now]|
        ensures ValidTime((nows + [now])[i])
      {
        if i < |nows| {
          assert (nows + [now])[i] == nows[i];
        }
      }
    }
    if |nows| > 0 {
      assert (nows + [now])[1..] == nows[1..] + [now];
      EventsSnoc(Step(s, nows[0]).next, nows[1..], now);
    } else {
      assert nows + [now] == [now];
    }
  }

  /*
   * The disarm target as the source computes it. `hoursSinceEpoch` is a C
   * `int`, so `hoursSinceEpoch * 3600` is 32-bit signed arithmetic and is
   * only then widened to `time_t`. From hour 596524 (2038-01-19 04:00 UTC)
   * on, the product no longer fits and wraps (on the usual two's-complement
   * targets) to a negative value, leaving a target that lies in the past.
   */

  /** Two's-complement wrap-around of `x` to a 32-bit signed `int`. */
  function Int32Wrap(x: int): (r: int)
    ensures -0x8000_0000 <= r < 0x8000_0000
    ensures (r - x) % 0x1_0000_0000 == 0
    ensures -0x8000_0000 <= x < 0x8000_0000 ==> r == x
  {
    (x + 0x8000_0000) % 0x1_0000_0000 - 0x8000_0000
  }

  /** `(time_t)(hoursSinceEpoch * 3600) + (3600 * 24)` with the product wrapped to an `int`. */
  function DisarmTargetAsWritten(hour: int): (r: int)
    ensures (r - DisarmTarget(hour)) % 0x1_0000_0000 == 0
    ensures 0 <= hour < FIRST_WRAPPING_HOUR ==> r == DisarmTarget(hour)
  {
    Int32Wrap(hour * SECONDS_PER_HOUR) + SECONDS_PER_DAY
  }

  /** One pass of the loop body as written, with the wrapped disarm target. */
  function StepAsWritten(s: Schedule, now: int): (o: Outcome)
    requires ValidTime(now)
    ensures o.fired == Step(s, now).fired
    ensures !o.fired.random ==> o.next == Step(s, now).next
    ensures o.next.sshour == Step(s, now).next.sshour
    ensures (o.next.prngTime - Step(s, now).next.prngTime) % 0x1_0000_0000 == 0
  {
    Pass(s, now, DisarmTargetAsWritten(HourIndex(now)))
  }

  /** The first hour whose start, in seconds, does not fit in an `int`. */
  const FIRST_WRAPPING_HOUR := 596524

  /**
   * Up to the last hour whose start fits in an `int` (hour 596523, the hour
   * from 2038-01-19 03:00 UTC), the pass as written is the corrected pass.
   */
  lemma StepAsWrittenAgrees(s: Schedule, now: int)
    requires ValidTime(now) && HourIndex(now) < FIRST_WRAPPING_HOUR
    ensures DisarmTargetAsWritten(HourIndex(now)) == DisarmTarget(HourIndex(now))
    ensures StepAsWritten(s, now) == Step(s, now)
  {
  }

  /**
   * In hour 596524, once the random cadence has fired as written, the
   * target left behind lies in the past, so the next pass of the same hour
   * fires it again; the corrected pass stays silent.
   */
  lemma RandomRefiresAsWritten(s: Schedule, now1: int, now2: int)
    requires ValidTime(now1) && ValidTime(now2) && now1 <= now2
    requires HourIndex(now1) == FIRST_WRAPPING_HOUR && HourIndex(now2) == FIRST_WRAPPING_HOUR
    requires s.sshour == FIRST_WRAPPING_HOUR && s.prngTime <= now1
    ensures StepAsWritten(s, now1).fired.random
    ensures DisarmTargetAsWritten(FIRST_WRAPPING_HOUR) < 0
    ensures StepAsWritten(StepAsWritten(s, now1).next, now2).fired.random
    ensures Step(s, now1).fired.random && !Step(Step(s, now1).next, now2).fired.random
  {
    assert FIRST_WRAPPING_HOUR * SECONDS_PER_HOUR == 0x8000_0000 + 2752;
    assert Int32Wrap(FIRST_WRAPPING_HOUR * SECONDS_PER_HOUR) == 2752 - 0x8000_0000;
  }

  /** The `while (true)` loop's state: `sshour` and `PRNGTime`. */
  class Scheduler {
    var sshour: int
    var prngTime: int

    /** The state as a value. */
    function State(): Schedule
      reads this
    {
      Schedule(sshour, prngTime)
    }

    /** Start-up (the code before the loop), at clock reading `now`. */
    constructor (now: int)
      requires ValidTime(now)
      ensures State() == Start(now)
    {
      var hoursSinceEpoch := now / SECONDS_PER_HOUR;
      var target := PrngTimeGen(now);
      sshour := hoursSinceEpoch;
      prngTime := target;
    }

    /**
     * One pass of the loop body at clock reading `now`: returns whether the
     * hourly and the random cadence fired.
     */
    method Poll(now: int) returns (hourly: bool, random: bool)
      requires ValidTime(now)
      modifies this
      ensures State() == Step(old(State()), now).next
      ensures Fired(hourly, random) == Step(old(State()), now).fired
    {
      var hoursSinceEpoch := now / SECONDS_PER_HOUR;
      hourly := sshour != hoursSinceEpoch;
      if hourly {
        sshour := hoursSinceEpoch;
        prngTime := PrngTimeGen(now);
      }
      random := now >= prngTime;
      if random {
        prngTime := hoursSinceEpoch * SECONDS_PER_HOUR + SECONDS_PER_DAY;
      }
    }

    /**
     * The loop over the clock readings `nows`, one pass each, collecting
     * what every pass fired.
     */
    method PollAll(nows: seq<int>) returns (fired: seq<Fired>)
      requires AllValid(nows)
      modifies this
      ensures State() == Run(old(State()), nows)
      ensures fired == Events(old(State()), nows)
    {
      fired := [];
      var i := 0;
      while i < |nows|
        invariant 0 <= i <= |nows|
        invariant AllValid(nows[..i])
        invariant State() == Run(old(State()), nows[..i])
        invariant fired == Events(old(State()), nows[..i])
      {
        EventsSnoc(old(State()), nows[..i], nows[i]);
        assert nows[..i + 1] == nows[..i] + [nows[i]];
        var hourly, random := Poll(nows[i]);
        fired := fired + [Fired(hourly, random)];
        i := i + 1;
      }
      assert nows[..i] == nows;
    }
  }
}
