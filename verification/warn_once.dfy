/** The dwell tracker with WARN as a once-per-session flag, the way `time_tracker.py`'s
    comment describes it ("fire once per session") and the way LONG already works: WARN
    fires on the first tick of a session whose duration reaches the warn threshold, whatever
    the poll cadence. Everything else is the tracker of `SessionTracker` unchanged. */
module WarnOnce {

  import opened Wrappers
  import opened Activity
  import opened SessionTracker
  import opened SessionRuns

  datatype WarnOnceTracker = WarnOnceTracker(base: Tracker, warnFired: bool)

  datatype WarnOnceStep = WarnOnceStep(tracker: WarnOnceTracker, events: seq<SessionEvent>)

  function NewWarnOnceTracker(config: Config): (w: WarnOnceTracker)
    ensures w.base == NewTracker(config) && !w.warnFired
  {
    WarnOnceTracker(NewTracker(config), false)
  }

  /** Prefixing a tick's events with at most a WARN leaves the other kinds as they were. */
  lemma LaterKinds(warn: seq<SessionEvent>, later: seq<SessionEvent>)
    requires forall i :: 0 <= i < |warn| ==> warn[i].eventType == WarnThreshold
    ensures Kinds(warn + later) == Kinds(warn) + Kinds(later)
    ensures forall k :: k != WarnThreshold ==> (k in Kinds(warn + later) <==> k in Kinds(later))
  {
    assert Kinds(warn + later) == Kinds(warn) + Kinds(later);
    forall k | k != WarnThreshold
      ensures k in Kinds(warn + later) <==> k in Kinds(later)
    {
      assert k !in Kinds(warn);
    }
  }

  /** At most one WARN followed by ordered events of the other kinds is still in order. */
  lemma WarnThenLater(warn: seq<SessionEvent>, later: seq<SessionEvent>)
    requires |warn| <= 1
    requires forall i :: 0 <= i < |warn| ==> warn[i].eventType == WarnThreshold
    requires forall i :: 0 <= i < |later| ==> later[i].eventType != WarnThreshold
    requires forall i, j :: 0 <= i < j < |later| ==> later[i].eventType.Rank() < later[j].eventType.Rank()
    ensures forall i, j :: 0 <= i < j < |warn + later| ==>
              (warn + later)[i].eventType.Rank() < (warn + later)[j].eventType.Rank()
  {
    var all := warn + later;
    forall i, j | 0 <= i < j < |all|
      ensures all[i].eventType.Rank() < all[j].eventType.Rank()
    {
      if i < |warn| {
        assert all[j] == later[j - |warn|];
      } else {
        assert all[i] == later[i - |warn|] && all[j] == later[j - |warn|];
      }
    }
  }

  /** `update` with WARN fired once per session; LONG and FOLLOW_UP are computed as before. */
  function UpdateWarnOnce(w: WarnOnceTracker, ctx: Option<ActivityContext>, now: real): (s: WarnOnceStep)
    ensures s.tracker.base == Update(w.base, ctx, now).tracker
    ensures forall k :: k != WarnThreshold ==> (k in Kinds(s.events) <==> k in Kinds(Update(w.base, ctx, now).events))
    ensures WarnThreshold in Kinds(s.events) <==>
              && ctx.Some? && Continues(w.base, ctx.value)
              && !w.warnFired && Elapsed(w.base, now) >= w.base.config.warnThresholdSec
    ensures ctx.Some? && Continues(w.base, ctx.value) ==>
              s.tracker.warnFired == (w.warnFired || Elapsed(w.base, now) >= w.base.config.warnThresholdSec)
    ensures ctx.Some? && !Continues(w.base, ctx.value) ==> !s.tracker.warnFired && s.events == []
    ensures ctx.None? ==> s == WarnOnceStep(w, [])
    ensures forall i, j :: 0 <= i < j < |s.events| ==> s.events[i].eventType.Rank() < s.events[j].eventType.Rank()
  {
    var t := w.base;
    if ctx.None? then WarnOnceStep(w, [])
    else
      var c := ctx.value;
      if !Continues(t, c) then
        WarnOnceStep(WarnOnceTracker(Update(t, ctx, now).tracker, false), [])
      else
        var dur := Elapsed(t, now);
        var fire := !w.warnFired && dur >= t.config.warnThresholdSec;
        var warn := if fire then [SessionEvent(c, WarnThreshold, dur)] else [];
        var fired := w.warnFired || dur >= t.config.warnThresholdSec;
        assert Kinds(warn) == if warn == [] then [] else [WarnThreshold];
        if dur >= t.config.longThresholdSec then
          var rest := LongPhase(t, c, dur, now);
          var inBand := if t.config.warnThresholdSec <= dur < t.config.warnThresholdSec + WarnBand
                        then [SessionEvent(c, WarnThreshold, dur)] else [];
          assert Update(t, ctx, now).events == inBand + rest.events;
          LaterKinds(inBand, rest.events);
          LaterKinds(warn, rest.events);
          WarnThenLater(warn, rest.events);
          WarnOnceStep(WarnOnceTracker(rest.tracker, fired), warn + rest.events)
        else WarnOnceStep(WarnOnceTracker(t, fired), warn)
  }

  datatype WarnOnceTrace = WarnOnceTrace(tracker: WarnOnceTracker, log: seq<Stamped>)

  function RunWarnOnce(w: WarnOnceTracker, ticks: seq<Tick>): WarnOnceTrace
    decreases |ticks|
  {
    if |ticks| == 0 then WarnOnceTrace(w, [])
    else
      var s := UpdateWarnOnce(w, ticks[0].ctx, ticks[0].now);
      var rest := RunWarnOnce(s.tracker, ticks[1..]);
      WarnOnceTrace(rest.tracker, StampAll(ticks[0].now, s.events) + rest.log)
  }

  /** Whether some tick of the run reaches the warn threshold in the session of `t`. */
  predicate ReachesWarn(t: Tracker, ticks: seq<Tick>)
    requires t.current.Some?
  {
    exists i :: 0 <= i < |ticks| && ticks[i].now - t.current.value.startedAt >= t.config.warnThresholdSec
  }

  /** The WARN times of a run: those of the first tick, then those of the rest. */
  lemma RunWarnOnceTimes(w: WarnOnceTracker, ticks: seq<Tick>)
    requires |ticks| > 0
    ensures var s := UpdateWarnOnce(w, ticks[0].ctx, ticks[0].now);
            TimesOf(RunWarnOnce(w, ticks).log, WarnThreshold) ==
              (if WarnThreshold in Kinds(s.events) then [ticks[0].now] else [])
              + TimesOf(RunWarnOnce(s.tracker, ticks[1..]).log, WarnThreshold)
  {
    var s := UpdateWarnOnce(w, ticks[0].ctx, ticks[0].now);
    TimesOfAppend(StampAll(ticks[0].now, s.events), RunWarnOnce(s.tracker, ticks[1..]).log, WarnThreshold);
    TimesOfTick(ticks[0].now, s.events, WarnThreshold);
  }

  /** Some tick reaches the threshold iff the first does or a later one does. */
  lemma ReachesWarnCons(t: Tracker, t': Tracker, ticks: seq<Tick>)
    requires t.current.Some? && |ticks| > 0
    requires t'.current == t.current && t'.config == t.config
    ensures ReachesWarn(t, ticks) <==>
              ticks[0].now - t.current.value.startedAt >= t.config.warnThresholdSec || ReachesWarn(t', ticks[1..])
  {
    var start := t.current.value.startedAt;
    if ReachesWarn(t, ticks) && ticks[0].now - start < t.config.warnThresholdSec {
      var i :| 0 <= i < |ticks| && ticks[i].now - start >= t.config.warnThresholdSec;
      assert ticks[1..][i - 1] == ticks[i];
    }
    if ReachesWarn(t', ticks[1..]) {
      var i :| 0 <= i < |ticks[1..]| && ticks[1..][i].now - start >= t.config.warnThresholdSec;
      assert ticks[i + 1] == ticks[1..][i];
    }
  }

  /** Within a session, WARN fires exactly once if it has not fired yet and some tick reaches
      the threshold, and otherwise never, at any poll cadence. */
  lemma {:induction false} WarnExactlyOnce(w: WarnOnceTracker, ticks: seq<Tick>)
    requires InSession(w.base, ticks)
    ensures var times := TimesOf(RunWarnOnce(w, ticks).log, WarnThreshold);
            && |times| <= 1
            && (|times| == 1 <==> !w.warnFired && ReachesWarn(w.base, ticks))
    decreases |ticks|
  {
    if |ticks| > 0 {
      var s := UpdateWarnOnce(w, ticks[0].ctx, ticks[0].now);
      StepStaysInSession(w.base, ticks);
      RunWarnOnceTimes(w, ticks);
      ReachesWarnCons(w.base, s.tracker.base, ticks);
      WarnExactlyOnce(s.tracker, ticks[1..]);
    }
  }

  /** The fast-polling input that makes the source fire WARN twice fires it once here. */
  lemma FastPollingWarnsOnce(c: ActivityContext)
    ensures |TimesOf(RunWarnOnce(WarnOnceTracker(OpenedAtOne(c), false), Polls(c, [21.1, 21.4])).log, WarnThreshold)| == 1
  {
    var ticks := Polls(c, [21.1, 21.4]);
    WarnExactlyOnce(WarnOnceTracker(OpenedAtOne(c), false), ticks);
    assert ticks[0].now - OpenedAtOne(c).current.value.startedAt >= DefaultConfig.warnThresholdSec;
  }

  /** The slow-polling input that makes the source miss WARN fires it once here. */
  lemma SlowPollingWarnsOnce(c: ActivityContext)
    ensures |TimesOf(RunWarnOnce(WarnOnceTracker(OpenedAtOne(c), false), Polls(c, [20.9, 22.9])).log, WarnThreshold)| == 1
  {
    var ticks := Polls(c, [20.9, 22.9]);
    WarnExactlyOnce(WarnOnceTracker(OpenedAtOne(c), false), ticks);
    assert ticks[1].now - OpenedAtOne(c).current.value.startedAt >= DefaultConfig.warnThresholdSec;
  }
}
