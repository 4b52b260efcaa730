/** Runs of the dwell tracker: a sequence of ticks fed to `update`, with every emitted event
    stamped with the time of its tick. The once-per-session and spacing guarantees of
    `time_tracker.py` are statements about such runs. */
module SessionRuns {

  import opened Wrappers
  import opened Activity
  import opened SessionTracker

  /** One call `update(ctx)` at clock reading `now`. */
  datatype Tick = Tick(ctx: Option<ActivityContext>, now: real)

  datatype Stamped = Stamped(at: real, event: SessionEvent)

  datatype Trace = Trace(tracker: Tracker, log: seq<Stamped>)

  function StampAll(at: real, events: seq<SessionEvent>): (r: seq<Stamped>)
    ensures |r| == |events|
    ensures forall i :: 0 <= i < |events| ==> r[i] == Stamped(at, events[i])
  {
    seq(|events|, i requires 0 <= i < |events| => Stamped(at, events[i]))
  }

  /** The state after the ticks and the stamped events they emitted, in order. */
  function Run(t: Tracker, ticks: seq<Tick>): Trace
    decreases |ticks|
  {
    if |ticks| == 0 then Trace(t, [])
    else
      var s := Update(t, ticks[0].ctx, ticks[0].now);
      var rest := Run(s.tracker, ticks[1..]);
      Trace(rest.tracker, StampAll(ticks[0].now, s.events) + rest.log)
  }

  /** The context of the last tick that observed one. */
  function LastSeen(ticks: seq<Tick>): Option<ActivityContext>
    decreases |ticks|
  {
    if |ticks| == 0 then None
    else
      var later := LastSeen(ticks[1..]);
      if later.Some? then later else ticks[0].ctx
  }

  /** After a run, `get_current_session` reports the session of the last observed context;
      a run that observes nothing leaves it as it was. */
  lemma {:induction false} SessionFollowsLastSeen(t: Tracker, ticks: seq<Tick>)
    ensures LastSeen(ticks).None? ==> GetCurrentSession(Run(t, ticks).tracker) == GetCurrentSession(t)
    ensures LastSeen(ticks).Some? ==>
              && GetCurrentSession(Run(t, ticks).tracker).Some?
              && GetCurrentSession(Run(t, ticks).tracker).value.contextId == LastSeen(ticks).value.contextId
    decreases |ticks|
  {
    if |ticks| > 0 {
      var s := Update(t, ticks[0].ctx, ticks[0].now);
      CurrentSessionAfterUpdate(t, ticks[0].ctx, ticks[0].now);
      SessionFollowsLastSeen(s.tracker, ticks[1..]);
    }
  }

  /** The times at which events of one kind were emitted. */
  function TimesOf(log: seq<Stamped>, kind: SessionEventType): seq<real>
  {
    if |log| == 0 then []
    else (if log[0].event.eventType == kind then [log[0].at] else []) + TimesOf(log[1..], kind)
  }

  lemma {:induction false} TimesOfAppend(a: seq<Stamped>, b: seq<Stamped>, kind: SessionEventType)
    ensures TimesOf(a + b, kind) == TimesOf(a, kind) + TimesOf(b, kind)
  {
    if |a| == 0 {
      assert a + b == b;
    } else {
      var head := if a[0].event.eventType == kind then [a[0].at] else [];
      assert (a + b)[0] == a[0];
      assert (a + b)[1..] == a[1..] + b;
      assert TimesOf(a + b, kind) == head + TimesOf(a[1..] + b, kind);
      TimesOfAppend(a[1..], b, kind);
      assert TimesOf(a, kind) == head + TimesOf(a[1..], kind);
    }
  }

  /** Events of one tick come in strictly increasing rank, so each kind appears at most once
      and, if it does, at the tick's time. */
  lemma {:induction false} TimesOfTick(at: real, events: seq<SessionEvent>, kind: SessionEventType)
    requires forall i, j :: 0 <= i < j < |events| ==> events[i].eventType.Rank() < events[j].eventType.Rank()
    ensures TimesOf(StampAll(at, events), kind) == if kind in Kinds(events) then [at] else []
  {
    var st := StampAll(at, events);
    if |events| > 0 {
      assert st[1..] == StampAll(at, events[1..]);
      TimesOfTick(at, events[1..], kind);
      assert Kinds(events) == [events[0].eventType] + Kinds(events[1..]);
      if events[0].eventType == kind {
        assert kind !in Kinds(events[1..]);
      }
    }
  }

  /** The times of one kind in a run: those of the first tick, then those of the rest. */
  lemma RunTimes(t: Tracker, ticks: seq<Tick>, kind: SessionEventType)
    requires |ticks| > 0
    ensures var s := Update(t, ticks[0].ctx, ticks[0].now);
            TimesOf(Run(t, ticks).log, kind) ==
              (if kind in Kinds(s.events) then [ticks[0].now] else []) + TimesOf(Run(s.tracker, ticks[1..]).log, kind)
  {
    var s := Update(t, ticks[0].ctx, ticks[0].now);
    TimesOfAppend(StampAll(ticks[0].now, s.events), Run(s.tracker, ticks[1..]).log, kind);
    TimesOfTick(ticks[0].now, s.events, kind);
  }

  /** Every tick observes the tracker's current session. */
  predicate InSession(t: Tracker, ticks: seq<Tick>) {
    && t.current.Some?
    && forall i :: 0 <= i < |ticks| ==> ticks[i].ctx.Some? && ticks[i].ctx.value.contextId == t.current.value.contextId
  }

  /** Successive ticks are at least `gap` seconds apart. */
  predicate Spaced(ticks: seq<Tick>, gap: real) {
    forall i, j :: 0 <= i && j == i + 1 < |ticks| ==> ticks[j].now - ticks[i].now >= gap
  }

  /** Successive values are at least `gap` apart. */
  predicate SpacedTimes(xs: seq<real>, gap: real) {
    forall i, j :: 0 <= i && j == i + 1 < |xs| ==> xs[j] - xs[i] >= gap
  }

  lemma SpacedPrepend(x: real, xs: seq<real>, gap: real)
    requires SpacedTimes(xs, gap)
    requires forall k :: 0 <= k < |xs| ==> xs[k] >= x + gap
    ensures SpacedTimes([x] + xs, gap)
  {
    var ys := [x] + xs;
    forall i | 0 <= i < |ys| - 1
      ensures ys[i + 1] - ys[i] >= gap
    {
      if i > 0 {
        assert ys[i] == xs[i - 1] && ys[i + 1] == xs[i];
      }
    }
  }

  /** A tick of the session leaves the session in place. */
  lemma StepStaysInSession(t: Tracker, ticks: seq<Tick>)
    requires InSession(t, ticks) && |ticks| > 0
    ensures Update(t, ticks[0].ctx, ticks[0].now).tracker.current == t.current
    ensures InSession(Update(t, ticks[0].ctx, ticks[0].now).tracker, ticks[1..])
  {
  }

  /** With non-negative spacing, every later tick is at least `gap` after the first. */
  lemma {:induction false} LaterTicks(ticks: seq<Tick>, gap: real)
    requires Spaced(ticks, gap) && gap >= 0.0
    ensures forall j :: 0 < j < |ticks| ==> ticks[j].now >= ticks[0].now + gap
  {
    if |ticks| > 2 {
      LaterTicks(ticks[1..], gap);
      assert forall j :: 1 < j < |ticks| ==> ticks[j].now == ticks[1..][j - 1].now;
    }
  }

  /** With ticks in non-decreasing time, none after the first is earlier than it. */
  lemma NoEarlierTicks(ticks: seq<Tick>)
    requires Spaced(ticks, 0.0) && |ticks| > 0
    ensures forall i :: 0 <= i < |ticks[1..]| ==> ticks[0].now <= ticks[1..][i].now
  {
    LaterTicks(ticks, 0.0);
    forall i | 0 <= i < |ticks[1..]|
      ensures ticks[0].now <= ticks[1..][i].now
    {
      assert ticks[1..][i] == ticks[i + 1];
    }
  }

  /** Once every tick of a session is past the band, WARN no longer fires. */
  lemma {:induction false} NoWarnPastBand(t: Tracker, ticks: seq<Tick>)
    requires InSession(t, ticks)
    requires forall i :: 0 <= i < |ticks| ==>
               ticks[i].now - t.current.value.startedAt >= t.config.warnThresholdSec + WarnBand
    ensures TimesOf(Run(t, ticks).log, WarnThreshold) == []
    decreases |ticks|
  {
    if |ticks| > 0 {
      var s := Update(t, ticks[0].ctx, ticks[0].now);
      StepStaysInSession(t, ticks);
      RunTimes(t, ticks, WarnThreshold);
      NoWarnPastBand(s.tracker, ticks[1..]);
    }
  }

  /** With ticks at least half a second apart, WARN fires at most once in a session. */
  lemma {:induction false} WarnAtMostOnce(t: Tracker, ticks: seq<Tick>)
    requires InSession(t, ticks)
    requires Spaced(ticks, WarnBand)
    ensures |TimesOf(Run(t, ticks).log, WarnThreshold)| <= 1
    decreases |ticks|
  {
    if |ticks| > 0 {
      var s := Update(t, ticks[0].ctx, ticks[0].now);
      StepStaysInSession(t, ticks);
      RunTimes(t, ticks, WarnThreshold);
      if WarnThreshold in Kinds(s.events) {
        LaterTicks(ticks, WarnBand);
        NoWarnPastBand(s.tracker, ticks[1..]);
      } else {
        WarnAtMostOnce(s.tracker, ticks[1..]);
      }
    }
  }

  /** With a clock that never reads 0 (the "not yet" marker), LONG fires at most once in a
      session, and never again once it has fired. */
  lemma {:induction false} LongAtMostOnce(t: Tracker, ticks: seq<Tick>)
    requires InSession(t, ticks)
    requires forall i :: 0 <= i < |ticks| ==> ticks[i].now != 0.0
    ensures |TimesOf(Run(t, ticks).log, LongThreshold)| <= 1
    ensures t.lastLongAt != 0.0 ==> TimesOf(Run(t, ticks).log, LongThreshold) == []
    decreases |ticks|
  {
    if |ticks| > 0 {
      var s := Update(t, ticks[0].ctx, ticks[0].now);
      StepStaysInSession(t, ticks);
      RunTimes(t, ticks, LongThreshold);
      NonZeroTail(ticks);
      LongAtMostOnce(s.tracker, ticks[1..]);
    }
  }

  /** Every FOLLOW_UP of a session lies a full interval after any lower bound `low` of the
      follow-up marker and of the tick times. */
  lemma {:induction false} FollowUpsAfter(t: Tracker, ticks: seq<Tick>, low: real)
    requires InSession(t, ticks)
    requires t.lastFollowUpAt != 0.0 ==> low <= t.lastFollowUpAt
    requires forall i :: 0 <= i < |ticks| ==> low <= ticks[i].now
    ensures forall k :: 0 <= k < |TimesOf(Run(t, ticks).log, FollowUp)| ==>
              TimesOf(Run(t, ticks).log, FollowUp)[k] >= low + t.config.followUpIntervalSec
    decreases |ticks|
  {
    if |ticks| > 0 {
      var s := Update(t, ticks[0].ctx, ticks[0].now);
      StepStaysInSession(t, ticks);
      RunTimes(t, ticks, FollowUp);
      FollowUpsAfter(s.tracker, ticks[1..], low);
    }
  }

  /** A tick that emits FOLLOW_UP moves the follow-up marker to the tick's time. */
  lemma FollowUpMarksNow(t: Tracker, ctx: Option<ActivityContext>, now: real)
    requires FollowUp in Kinds(Update(t, ctx, now).events)
    ensures Update(t, ctx, now).tracker.lastFollowUpAt == now
  {
  }

  /** A FOLLOW_UP at `now`, the marker set to `now`, keeps the later ones spaced. */
  lemma FollowUpFirst(t: Tracker, ticks: seq<Tick>, now: real)
    requires InSession(t, ticks)
    requires t.lastFollowUpAt == now
    requires forall i :: 0 <= i < |ticks| ==> now <= ticks[i].now
    requires SpacedTimes(TimesOf(Run(t, ticks).log, FollowUp), t.config.followUpIntervalSec)
    ensures SpacedTimes([now] + TimesOf(Run(t, ticks).log, FollowUp), t.config.followUpIntervalSec)
  {
    FollowUpsAfter(t, ticks, now);
    SpacedPrepend(now, TimesOf(Run(t, ticks).log, FollowUp), t.config.followUpIntervalSec);
  }

  /** Consecutive FOLLOW_UPs of a session are at least the follow-up interval apart. */
  lemma {:induction false} FollowUpSpacing(t: Tracker, ticks: seq<Tick>)
    requires InSession(t, ticks)
    requires Spaced(ticks, 0.0)
    ensures SpacedTimes(TimesOf(Run(t, ticks).log, FollowUp), t.config.followUpIntervalSec)
    decreases |ticks|
  {
    if |ticks| > 0 {
      var now := ticks[0].now;
      var s := Update(t, ticks[0].ctx, now);
      var fired := FollowUp in Kinds(s.events);
      var later := TimesOf(Run(s.tracker, ticks[1..]).log, FollowUp);
      assert TimesOf(Run(t, ticks).log, FollowUp) == (if fired then [now] else []) + later by {
        RunTimes(t, ticks, FollowUp);
      }
      assert InSession(s.tracker, ticks[1..]) by {
        StepStaysInSession(t, ticks);
      }
      assert s.tracker.config == t.config;
      FollowUpSpacing(s.tracker, ticks[1..]);
      if fired {
        FollowUpMarksNow(t, ticks[0].ctx, now);
        NoEarlierTicks(ticks);
        FollowUpFirst(s.tracker, ticks[1..], now);
      }
    }
  }

  /** The ticks after the first keep a clock that never reads 0. */
  lemma NonZeroTail(ticks: seq<Tick>)
    requires |ticks| > 0
    requires forall i :: 0 <= i < |ticks| ==> ticks[i].now != 0.0
    ensures forall i :: 0 <= i < |ticks[1..]| ==> ticks[1..][i].now != 0.0
  {
    forall i | 0 <= i < |ticks[1..]|
      ensures ticks[1..][i].now != 0.0
    {
      assert ticks[1..][i] == ticks[i + 1];
    }
  }

  /** With clock readings other than 0 (the "not yet" marker), an anchored follow-up marker
      stays anchored, so every FOLLOW_UP of the run lies a full interval after it. */
  lemma {:induction false} FollowUpsAfterMarker(t: Tracker, ticks: seq<Tick>)
    requires InSession(t, ticks)
    requires t.lastFollowUpAt != 0.0
    requires forall i :: 0 <= i < |ticks| ==> ticks[i].now != 0.0
    ensures Run(t, ticks).tracker.lastFollowUpAt != 0.0
    ensures forall k :: 0 <= k < |TimesOf(Run(t, ticks).log, FollowUp)| ==>
              TimesOf(Run(t, ticks).log, FollowUp)[k] >= t.lastFollowUpAt + t.config.followUpIntervalSec
    decreases |ticks|
  {
    if |ticks| > 0 {
      var s := Update(t, ticks[0].ctx, ticks[0].now);
      StepStaysInSession(t, ticks);
      RunTimes(t, ticks, FollowUp);
      NonZeroTail(ticks);
      FollowUpsAfterMarker(s.tracker, ticks[1..]);
    }
  }

  /** A FOLLOW_UP at a non-zero `now`, the marker set to `now`, keeps the later ones spaced. */
  lemma FollowUpFirstAnyOrder(t: Tracker, ticks: seq<Tick>, now: real)
    requires InSession(t, ticks)
    requires t.lastFollowUpAt == now && now != 0.0
    requires forall i :: 0 <= i < |ticks| ==> ticks[i].now != 0.0
    requires SpacedTimes(TimesOf(Run(t, ticks).log, FollowUp), t.config.followUpIntervalSec)
    ensures SpacedTimes([now] + TimesOf(Run(t, ticks).log, FollowUp), t.config.followUpIntervalSec)
  {
    FollowUpsAfterMarker(t, ticks);
    SpacedPrepend(now, TimesOf(Run(t, ticks).log, FollowUp), t.config.followUpIntervalSec);
  }

  /** Consecutive FOLLOW_UPs of a session are at least the follow-up interval apart in any
      tick order, as long as no clock reading is 0. */
  lemma {:induction false} FollowUpSpacingAnyOrder(t: Tracker, ticks: seq<Tick>)
    requires InSession(t, ticks)
    requires forall i :: 0 <= i < |ticks| ==> ticks[i].now != 0.0
    ensures SpacedTimes(TimesOf(Run(t, ticks).log, FollowUp), t.config.followUpIntervalSec)
    decreases |ticks|
  {
    if |ticks| > 0 {
      var now := ticks[0].now;
      var s := Update(t, ticks[0].ctx, now);
      var later := TimesOf(Run(s.tracker, ticks[1..]).log, FollowUp);
      assert InSession(s.tracker, ticks[1..]) by {
        StepStaysInSession(t, ticks);
      }
      NonZeroTail(ticks);
      assert s.tracker.config == t.config;
      assert SpacedTimes(later, t.config.followUpIntervalSec) by {
        FollowUpSpacingAnyOrder(s.tracker, ticks[1..]);
      }
      RunTimes(t, ticks, FollowUp);
      if FollowUp in Kinds(s.events) {
        assert TimesOf(Run(t, ticks).log, FollowUp) == [now] + later;
        FollowUpMarksNow(t, ticks[0].ctx, now);
        FollowUpFirstAnyOrder(s.tracker, ticks[1..], now);
      } else {
        assert TimesOf(Run(t, ticks).log, FollowUp) == later;
      }
    }
  }

  /** A session that stays below the long threshold never emits LONG or FOLLOW_UP. */
  lemma {:induction false} NothingBeforeLong(t: Tracker, ticks: seq<Tick>)
    requires InSession(t, ticks)
    requires forall i :: 0 <= i < |ticks| ==>
               ticks[i].now - t.current.value.startedAt < t.config.longThresholdSec
    ensures TimesOf(Run(t, ticks).log, LongThreshold) == []
    ensures TimesOf(Run(t, ticks).log, FollowUp) == []
    decreases |ticks|
  {
    if |ticks| > 0 {
      var s := Update(t, ticks[0].ctx, ticks[0].now);
      StepStaysInSession(t, ticks);
      RunTimes(t, ticks, LongThreshold);
      RunTimes(t, ticks, FollowUp);
      NothingBeforeLong(s.tracker, ticks[1..]);
    }
  }

  /** With the follow-up interval switched off, no run ever emits FOLLOW_UP. */
  lemma {:induction false} NoFollowUpWhenDisabled(t: Tracker, ticks: seq<Tick>)
    requires t.config.followUpIntervalSec <= 0.0
    ensures TimesOf(Run(t, ticks).log, FollowUp) == []
    decreases |ticks|
  {
    if |ticks| > 0 {
      var s := Update(t, ticks[0].ctx, ticks[0].now);
      RunTimes(t, ticks, FollowUp);
      NoFollowUpWhenDisabled(s.tracker, ticks[1..]);
    }
  }

  /** The same context observed at each of the given times. */
  function Polls(c: ActivityContext, times: seq<real>): (ticks: seq<Tick>)
    ensures |ticks| == |times|
    ensures forall i :: 0 <= i < |times| ==> ticks[i] == Tick(Some(c), times[i])
  {
    if |times| == 0 then [] else [Tick(Some(c), times[0])] + Polls(c, times[1..])
  }

  /** One poll, unfolded. */
  lemma PollStep(t: Tracker, c: ActivityContext, now: real, times: seq<real>, s: Step, r: Trace)
    requires Update(t, Some(c), now) == s
    requires Run(s.tracker, Polls(c, times)) == r
    ensures Run(t, Polls(c, [now] + times)) == Trace(r.tracker, StampAll(now, s.events) + r.log)
  {
    assert ([now] + times)[1..] == times;
    var ticks := Polls(c, [now] + times);
    assert ticks[0] == Tick(Some(c), now);
    assert ticks[1..] == Polls(c, times);
  }

  /** A tick of the session outside the warn band and below the long threshold emits nothing
      and changes nothing. */
  lemma QuietTick(t: Tracker, c: ActivityContext, now: real)
    requires Continues(t, c)
    requires !(t.config.warnThresholdSec <= Elapsed(t, now) < t.config.warnThresholdSec + WarnBand)
    requires Elapsed(t, now) < t.config.longThresholdSec
    ensures Update(t, Some(c), now) == Step(t, [])
  {
  }

  /** A tick of the session inside the warn band and below the long threshold emits one
      WARN and changes nothing. */
  lemma WarnTick(t: Tracker, c: ActivityContext, now: real)
    requires Continues(t, c)
    requires t.config.warnThresholdSec <= Elapsed(t, now) < t.config.warnThresholdSec + WarnBand
    requires Elapsed(t, now) < t.config.longThresholdSec
    ensures Update(t, Some(c), now) == Step(t, [SessionEvent(c, WarnThreshold, Elapsed(t, now))])
  {
  }

  /** The first poll of a series, split off. */
  lemma PollsCons(c: ActivityContext, now: real, times: seq<real>)
    ensures Polls(c, [now] + times) == [Tick(Some(c), now)] + Polls(c, times)
  {
    assert ([now] + times)[1..] == times;
  }

  /** A poll that emits nothing and changes nothing adds nothing to the run. */
  lemma SilentPoll(t: Tracker, c: ActivityContext, now: real, times: seq<real>)
    requires Update(t, Some(c), now) == Step(t, [])
    ensures Run(t, [Tick(Some(c), now)] + Polls(c, times)) == Run(t, Polls(c, times))
  {
    var rest := Polls(c, times);
    assert ([Tick(Some(c), now)] + rest)[1..] == rest;
  }

  /** A poll that emits one event puts it, stamped, in front of the rest of the run. */
  lemma EventPoll(t: Tracker, c: ActivityContext, now: real, times: seq<real>, t': Tracker, e: SessionEvent)
    requires Update(t, Some(c), now) == Step(t', [e])
    ensures Run(t, Polls(c, [now] + times)) ==
              Trace(Run(t', Polls(c, times)).tracker, [Stamped(now, e)] + Run(t', Polls(c, times)).log)
  {
    PollStep(t, c, now, times, Step(t', [e]), Run(t', Polls(c, times)));
    assert StampAll(now, [e]) == [Stamped(now, e)];
  }

  /** With thresholds 20/30/15 and a poll every 5 s from 0 to 50, WARN fires at 20,
      LONG at 30 and one FOLLOW_UP at 45. */
  lemma FiveSecondPolling(c: ActivityContext)
    ensures var r := Run(NewTracker(ScenarioConfig), Polls(c, From0()));
            && TimesOf(r.log, WarnThreshold) == [20.0]
            && TimesOf(r.log, LongThreshold) == [30.0]
            && TimesOf(r.log, FollowUp) == [45.0]
  {
    var t0 := NewTracker(ScenarioConfig);
    ScenarioAfterStart(c);
    PollStep(t0, c, 0.0, From5(), Step(ScenarioSession(c), []), Trace(ScenarioEnd(c), ScenarioLog(c)));
    assert [0.0] + From5() == From0();
    assert StampAll(0.0, []) + ScenarioLog(c) == ScenarioLog(c);
    ScenarioLogTimes(c);
  }

  /** The poll times of the scenario from a given second on. */
  function From50(): seq<real> { [50.0] }
  function From45(): seq<real> { [45.0] + From50() }
  function From40(): seq<real> { [40.0] + From45() }
  function From35(): seq<real> { [35.0] + From40() }
  function From30(): seq<real> { [30.0] + From35() }
  function From25(): seq<real> { [25.0] + From30() }
  function From20(): seq<real> { [20.0] + From25() }
  function From15(): seq<real> { [15.0] + From20() }
  function From10(): seq<real> { [10.0] + From15() }
  function From5(): seq<real> { [5.0] + From10() }
  function From0(): seq<real> { [0.0] + From5() }

  const ScenarioConfig: Config := Config(20.0, 30.0, 15.0)

  function ScenarioSession(c: ActivityContext): Tracker {
    NewTracker(ScenarioConfig).(current := Some(TrackedSession(c.contextId, c, 0.0)))
  }

  function ScenarioEnd(c: ActivityContext): Tracker {
    ScenarioSession(c).(lastLongAt := 30.0, lastFollowUpAt := 45.0)
  }

  function ScenarioLog(c: ActivityContext): seq<Stamped> {
    [Stamped(20.0, SessionEvent(c, WarnThreshold, 20.0)),
     Stamped(30.0, SessionEvent(c, LongThreshold, 30.0)),
     Stamped(45.0, SessionEvent(c, FollowUp, 45.0))]
  }

  lemma ScenarioLogTimes(c: ActivityContext)
    ensures TimesOf(ScenarioLog(c), WarnThreshold) == [20.0]
    ensures TimesOf(ScenarioLog(c), LongThreshold) == [30.0]
    ensures TimesOf(ScenarioLog(c), FollowUp) == [45.0]
  {
    var log := ScenarioLog(c);
    forall kind: SessionEventType
      ensures TimesOf(log, kind) ==
                (if kind == WarnThreshold then [20.0] else [])
                + (if kind == LongThreshold then [30.0] else [])
                + (if kind == FollowUp then [45.0] else [])
    {
      assert log[2..][1..] == [];
      assert TimesOf(log[2..], kind) == (if kind == FollowUp then [45.0] else []);
      assert log[1..][1..] == log[2..];
      assert TimesOf(log[1..], kind) == (if kind == LongThreshold then [30.0] else []) + TimesOf(log[2..], kind);
    }
  }

  /** The polls from 5 s on, the session being open since 0. */
  lemma ScenarioAfterStart(c: ActivityContext)
    ensures Run(ScenarioSession(c), Polls(c, From5()))
            == Trace(ScenarioEnd(c), ScenarioLog(c))
  {
    var t1 := ScenarioSession(c);
    ScenarioFromTwenty(c);
    QuietTick(t1, c, 15.0);
    SilentPoll(t1, c, 15.0, From20());
    PollsCons(c, 15.0, From20());
    assert [15.0] + From20() == From15();
    QuietTick(t1, c, 10.0);
    SilentPoll(t1, c, 10.0, From15());
    PollsCons(c, 10.0, From15());
    assert [10.0] + From15() == From10();
    QuietTick(t1, c, 5.0);
    SilentPoll(t1, c, 5.0, From10());
    PollsCons(c, 5.0, From10());
    assert [5.0] + From10() == From5();
  }

  /** The ticks at 20, 30 and 45 s, one at a time. */
  lemma ScenarioWarnTick(c: ActivityContext)
    ensures Update(ScenarioSession(c), Some(c), 20.0) ==
              Step(ScenarioSession(c), [SessionEvent(c, WarnThreshold, 20.0)])
  {
  }

  lemma ScenarioLongTick(c: ActivityContext)
    ensures Update(ScenarioSession(c), Some(c), 30.0) ==
              Step(ScenarioSession(c).(lastLongAt := 30.0, lastFollowUpAt := 30.0),
                   [SessionEvent(c, LongThreshold, 30.0)])
  {
    var t := ScenarioSession(c);
    assert LongPhase(t, c, 30.0, 30.0) ==
             Step(t.(lastLongAt := 30.0, lastFollowUpAt := 30.0), [SessionEvent(c, LongThreshold, 30.0)]);
  }

  /** Between follow-ups nothing fires once LONG has. */
  lemma ScenarioSilentTick(c: ActivityContext, now: real)
    requires 30.0 <= now < 45.0
    ensures var t := ScenarioSession(c).(lastLongAt := 30.0, lastFollowUpAt := 30.0);
            Update(t, Some(c), now) == Step(t, [])
  {
    var t := ScenarioSession(c).(lastLongAt := 30.0, lastFollowUpAt := 30.0);
    assert LongPhase(t, c, now, now) == Step(t, []);
  }

  lemma ScenarioFollowUpTick(c: ActivityContext)
    ensures Update(ScenarioSession(c).(lastLongAt := 30.0, lastFollowUpAt := 30.0), Some(c), 45.0) ==
              Step(ScenarioEnd(c), [SessionEvent(c, FollowUp, 45.0)])
  {
    var t := ScenarioSession(c).(lastLongAt := 30.0, lastFollowUpAt := 30.0);
    assert LongPhase(t, c, 45.0, 45.0) == Step(ScenarioEnd(c), [SessionEvent(c, FollowUp, 45.0)]);
  }

  lemma ScenarioEndTick(c: ActivityContext)
    ensures Update(ScenarioEnd(c), Some(c), 50.0) == Step(ScenarioEnd(c), [])
  {
    var t := ScenarioEnd(c);
    assert LongPhase(t, c, 50.0, 50.0) == Step(t, []);
  }

  lemma ScenarioFromTwenty(c: ActivityContext)
    ensures Run(ScenarioSession(c), Polls(c, From20()))
            == Trace(ScenarioEnd(c), ScenarioLog(c))
  {
    var t1 := ScenarioSession(c);
    ScenarioFromTwentyFive(c);
    ScenarioWarnTick(c);
    EventPoll(t1, c, 20.0, From25(), t1, SessionEvent(c, WarnThreshold, 20.0));
    assert [20.0] + From25() == From20();
    var log := ScenarioLog(c);
    assert log[0] == Stamped(20.0, SessionEvent(c, WarnThreshold, 20.0));
    assert [log[0]] + log[1..] == log;
  }

  lemma ScenarioFromTwentyFive(c: ActivityContext)
    ensures Run(ScenarioSession(c), Polls(c, From25())) == Trace(ScenarioEnd(c), ScenarioLog(c)[1..])
  {
    var t1 := ScenarioSession(c);
    ScenarioFromThirty(c);
    QuietTick(t1, c, 25.0);
    SilentPoll(t1, c, 25.0, From30());
    PollsCons(c, 25.0, From30());
    assert [25.0] + From30() == From25();
  }

  lemma ScenarioFromThirty(c: ActivityContext)
    ensures Run(ScenarioSession(c), Polls(c, From30()))
            == Trace(ScenarioEnd(c), ScenarioLog(c)[1..])
  {
    var t1 := ScenarioSession(c);
    var t2 := t1.(lastLongAt := 30.0, lastFollowUpAt := 30.0);
    ScenarioFromThirtyFive(c);
    ScenarioLongTick(c);
    EventPoll(t1, c, 30.0, From35(), t2, SessionEvent(c, LongThreshold, 30.0));
    assert [30.0] + From35() == From30();
    var log := ScenarioLog(c);
    assert log[1] == Stamped(30.0, SessionEvent(c, LongThreshold, 30.0));
    assert [log[1]] + log[2..] == log[1..];
  }

  lemma ScenarioFromThirtyFive(c: ActivityContext)
    ensures Run(ScenarioSession(c).(lastLongAt := 30.0, lastFollowUpAt := 30.0), Polls(c, From35()))
            == Trace(ScenarioEnd(c), ScenarioLog(c)[2..])
  {
    var t2 := ScenarioSession(c).(lastLongAt := 30.0, lastFollowUpAt := 30.0);
    ScenarioFromForty(c);
    ScenarioSilentTick(c, 35.0);
    SilentPoll(t2, c, 35.0, From40());
    PollsCons(c, 35.0, From40());
    assert [35.0] + From40() == From35();
  }

  lemma ScenarioFromForty(c: ActivityContext)
    ensures Run(ScenarioSession(c).(lastLongAt := 30.0, lastFollowUpAt := 30.0), Polls(c, From40()))
            == Trace(ScenarioEnd(c), ScenarioLog(c)[2..])
  {
    var t2 := ScenarioSession(c).(lastLongAt := 30.0, lastFollowUpAt := 30.0);
    var t3 := ScenarioEnd(c);
    ScenarioEndTick(c);
    SilentPoll(t3, c, 50.0, []);
    PollsCons(c, 50.0, []);
    assert [50.0] + [] == From50();
    assert Run(t3, Polls(c, [])) == Trace(t3, []);
    ScenarioFollowUpTick(c);
    EventPoll(t2, c, 45.0, From50(), t3, SessionEvent(c, FollowUp, 45.0));
    assert [45.0] + From50() == From45();
    ScenarioSilentTick(c, 40.0);
    SilentPoll(t2, c, 40.0, From45());
    PollsCons(c, 40.0, From45());
    assert [40.0] + From45() == From40();
  }

  /** The session of context `c` as the default tracker opens it at time 1. */
  function OpenedAtOne(c: ActivityContext): (t: Tracker)
    ensures t == Update(NewTracker(DefaultConfig), Some(c), 1.0).tracker
  {
    NewTracker(DefaultConfig).(current := Some(TrackedSession(c.contextId, c, 1.0)))
  }

  /** WARN is a band, not a flag: polling every 0.3 s, two polls land in [20, 20.5) and WARN
      fires on both, although the source means it to fire once per session. */
  lemma WarnTwiceAtFastPolling(c: ActivityContext)
    ensures Spaced(Polls(c, [21.1, 21.4]), 0.3)
    ensures TimesOf(Run(OpenedAtOne(c), Polls(c, [21.1, 21.4])).log, WarnThreshold) == [21.1, 21.4]
  {
    var t := OpenedAtOne(c);
    var w1 := SessionEvent(c, WarnThreshold, 20.1);
    var w2 := SessionEvent(c, WarnThreshold, 20.4);
    WarnTick(t, c, 21.4);
    WarnTick(t, c, 21.1);
    PollStep(t, c, 21.4, [], Step(t, [w2]), Trace(t, []));
    assert [21.4] + [] == [21.4];
    PollStep(t, c, 21.1, [21.4], Step(t, [w1]), Trace(t, [Stamped(21.4, w2)]));
    assert [21.1] + [21.4] == [21.1, 21.4];
    var log := [Stamped(21.1, w1), Stamped(21.4, w2)];
    assert Run(t, Polls(c, [21.1, 21.4])).log == log;
    assert log[1..][1..] == [];
    assert TimesOf(log[1..], WarnThreshold) == [21.4];
  }

  /** Polling every 2 s, the polls can straddle the band and WARN never fires, although the
      session runs past the warn threshold. */
  lemma WarnMissedAtSlowPolling(c: ActivityContext)
    ensures Spaced(Polls(c, [20.9, 22.9]), 2.0)
    ensures 22.9 - OpenedAtOne(c).current.value.startedAt >= DefaultConfig.warnThresholdSec
    ensures TimesOf(Run(OpenedAtOne(c), Polls(c, [20.9, 22.9])).log, WarnThreshold) == []
  {
    var t := OpenedAtOne(c);
    QuietTick(t, c, 22.9);
    PollStep(t, c, 22.9, [], Step(t, []), Trace(t, []));
    assert [22.9] + [] == [22.9];
    QuietTick(t, c, 20.9);
    PollStep(t, c, 20.9, [22.9], Step(t, []), Trace(t, []));
    assert [20.9] + [22.9] == [20.9, 22.9];
  }
}
