/** `time_tracker.py`: the dwell tracker. One session per tracker, replaced whenever the
    observed context id changes; within a session, elapsed time crossing the thresholds
    emits WARN, LONG and FOLLOW_UP events. The clock is the `now` argument, read once per
    tick (the source reads it twice: once for `now` and again for the duration). */
module SessionTracker {

  import opened Wrappers
  import opened Dispatch
  import opened Activity

  datatype SessionEventType = WarnThreshold | LongThreshold | FollowUp {

    /** The enum's string value: one wire name per kind. */
    function Value(): (s: string)
      ensures s == "warn" <==> this == WarnThreshold
      ensures s == "long" <==> this == LongThreshold
      ensures s == "follow_up" <==> this == FollowUp
    {
      match this
      case WarnThreshold => "warn"
      case LongThreshold => "long"
      case FollowUp => "follow_up"
    }

    /** Position of the event kind in the order one tick emits them. */
    function Rank(): nat {
      match this
      case WarnThreshold => 0
      case LongThreshold => 1
      case FollowUp => 2
    }
  }

  datatype SessionEvent = SessionEvent(context: ActivityContext, eventType: SessionEventType, durationSeconds: real)

  datatype TrackedSession = TrackedSession(contextId: string, context: ActivityContext, startedAt: real)

  datatype Config = Config(warnThresholdSec: real, longThresholdSec: real, followUpIntervalSec: real)

  /** The constructor's defaults. */
  const DefaultConfig: Config := Config(20.0, 30.0, 30.0)

  /** Width of the window in which WARN fires. */
  const WarnBand: real := 0.5

  /** Tracker state. `lastLongAt` and `lastFollowUpAt` use 0 as "not yet". */
  datatype Tracker = Tracker(
    config: Config,
    listeners: nat,
    current: Option<TrackedSession>,
    lastLongAt: real,
    lastFollowUpAt: real)

  function NewTracker(config: Config): (t: Tracker)
    ensures t.current.None? && t.listeners == 0 && t.config == config
  {
    Tracker(config, 0, None, 0.0, 0.0)
  }

  /** `on_session_event`: one more listener, called after all earlier ones. */
  function OnSessionEvent(t: Tracker): (t': Tracker)
    ensures t'.listeners == t.listeners + 1
    ensures t' == t.(listeners := t'.listeners)
  {
    t.(listeners := t.listeners + 1)
  }

  /** `get_current_session`: the session being tracked, if any. */
  function GetCurrentSession(t: Tracker): (r: Option<TrackedSession>)
    ensures r == t.current
  {
    t.current
  }

  /** The wire names tell the event kinds apart: a listener reading `value` recovers the kind. */
  lemma ValueIdentifiesKind(a: SessionEventType, b: SessionEventType)
    ensures a.Value() in {"warn", "long", "follow_up"}
    ensures a.Value() == b.Value() <==> a == b
  {
  }

  /** Whether `ctx` belongs to the tracker's current session. */
  predicate Continues(t: Tracker, ctx: ActivityContext) {
    t.current.Some? && t.current.value.contextId == ctx.contextId
  }

  /** Seconds spent in the current session at time `now`. */
  function Elapsed(t: Tracker, now: real): real
    requires t.current.Some?
  {
    now - t.current.value.startedAt
  }

  /** The kinds of a tick's events, in emission order. */
  function Kinds(events: seq<SessionEvent>): (ks: seq<SessionEventType>)
    ensures |ks| == |events|
    ensures forall i :: 0 <= i < |events| ==> ks[i] == events[i].eventType
  {
    seq(|events|, i requires 0 <= i < |events| => events[i].eventType)
  }

  /** What one `update` call produced: the new state and the events it emitted. */
  datatype Step = Step(tracker: Tracker, events: seq<SessionEvent>)

  /** The LONG and FOLLOW_UP part of a tick whose duration has reached the long threshold. */
  function LongPhase(t: Tracker, ctx: ActivityContext, dur: real, now: real): (s: Step)
    ensures s.tracker == t.(lastLongAt := s.tracker.lastLongAt, lastFollowUpAt := s.tracker.lastFollowUpAt)
    ensures forall i :: 0 <= i < |s.events| ==>
              && s.events[i] == SessionEvent(ctx, s.events[i].eventType, dur)
              && s.events[i].eventType != WarnThreshold
    ensures forall i, j :: 0 <= i < j < |s.events| ==> s.events[i].eventType.Rank() < s.events[j].eventType.Rank()
    ensures LongThreshold in Kinds(s.events) <==> t.lastLongAt == 0.0
    ensures LongThreshold in Kinds(s.events) ==> s.tracker.lastLongAt == now
    ensures t.lastLongAt != 0.0 ==> s.tracker.lastLongAt == t.lastLongAt
    ensures FollowUp in Kinds(s.events) <==>
              && t.config.followUpIntervalSec > 0.0
              && t.lastFollowUpAt != 0.0
              && now - t.lastFollowUpAt >= t.config.followUpIntervalSec
    ensures FollowUp in Kinds(s.events) ==> s.tracker.lastFollowUpAt == now
    // An unset follow-up marker is anchored at the first tick past the threshold.
    ensures t.config.followUpIntervalSec > 0.0 && t.lastFollowUpAt == 0.0 ==> s.tracker.lastFollowUpAt == now
    ensures FollowUp !in Kinds(s.events) && !(t.config.followUpIntervalSec > 0.0 && t.lastFollowUpAt == 0.0) ==>
              s.tracker.lastFollowUpAt == t.lastFollowUpAt
  {
    var fireLong := t.lastLongAt == 0.0;
    var t1 := if fireLong then t.(lastLongAt := now) else t;
    var long := if fireLong then [SessionEvent(ctx, LongThreshold, dur)] else [];
    assert Kinds(long) == if fireLong then [LongThreshold] else [];
    assert Kinds(long + [SessionEvent(ctx, FollowUp, dur)]) == Kinds(long) + [FollowUp];
    if t.config.followUpIntervalSec > 0.0 then
      if t.lastFollowUpAt == 0.0 then Step(t1.(lastFollowUpAt := now), long)
      else if now - t.lastFollowUpAt >= t.config.followUpIntervalSec then
        Step(t1.(lastFollowUpAt := now), long + [SessionEvent(ctx, FollowUp, dur)])
      else Step(t1, long)
    else Step(t1, long)
  }

  /** The WARN part of a tick: one event when the duration lies in the warn band. */
  function WarnPhase(t: Tracker, ctx: ActivityContext, dur: real): (warn: seq<SessionEvent>)
    ensures forall i :: 0 <= i < |warn| ==> warn[i] == SessionEvent(ctx, WarnThreshold, dur)
    ensures Kinds(warn) == if t.config.warnThresholdSec <= dur < t.config.warnThresholdSec + WarnBand
                           then [WarnThreshold] else []
  {
    if t.config.warnThresholdSec <= dur < t.config.warnThresholdSec + WarnBand
    then [SessionEvent(ctx, WarnThreshold, dur)] else []
  }

  lemma KindsAppend(a: seq<SessionEvent>, b: seq<SessionEvent>)
    ensures Kinds(a + b) == Kinds(a) + Kinds(b)
  {
    assert forall i :: 0 <= i < |a + b| ==> Kinds(a + b)[i] == (Kinds(a) + Kinds(b))[i];
  }

  /** A tick of the current session: WARN, then LONG and FOLLOW_UP once the long threshold
      is reached. */
  function Continue(t: Tracker, ctx: ActivityContext, now: real): (s: Step)
    requires Continues(t, ctx)
    ensures s.tracker == t.(lastLongAt := s.tracker.lastLongAt, lastFollowUpAt := s.tracker.lastFollowUpAt)
    ensures forall i :: 0 <= i < |s.events| ==>
              s.events[i].context == ctx && s.events[i].durationSeconds == Elapsed(t, now)
    ensures forall i, j :: 0 <= i < j < |s.events| ==> s.events[i].eventType.Rank() < s.events[j].eventType.Rank()
    ensures WarnThreshold in Kinds(s.events) <==>
              t.config.warnThresholdSec <= Elapsed(t, now) < t.config.warnThresholdSec + WarnBand
    ensures LongThreshold in Kinds(s.events) <==>
              Elapsed(t, now) >= t.config.longThresholdSec && t.lastLongAt == 0.0
    ensures LongThreshold in Kinds(s.events) ==> s.tracker.lastLongAt == now
    ensures FollowUp in Kinds(s.events) <==>
              && Elapsed(t, now) >= t.config.longThresholdSec
              && t.config.followUpIntervalSec > 0.0
              && t.lastFollowUpAt != 0.0
              && now - t.lastFollowUpAt >= t.config.followUpIntervalSec
    ensures FollowUp in Kinds(s.events) ==> s.tracker.lastFollowUpAt == now
    ensures Elapsed(t, now) >= t.config.longThresholdSec && t.config.followUpIntervalSec > 0.0 && t.lastFollowUpAt == 0.0 ==>
              s.tracker.lastFollowUpAt == now
    ensures FollowUp !in Kinds(s.events) && !(Elapsed(t, now) >= t.config.longThresholdSec
                                             && t.config.followUpIntervalSec > 0.0 && t.lastFollowUpAt == 0.0) ==>
              s.tracker.lastFollowUpAt == t.lastFollowUpAt
    ensures t.lastLongAt != 0.0 ==> s.tracker.lastLongAt == t.lastLongAt
    // Below the long threshold the tracker is left as it was.
    ensures Elapsed(t, now) < t.config.longThresholdSec ==> s.tracker == t
  {
    var dur := Elapsed(t, now);
    var warn := WarnPhase(t, ctx, dur);
    assert LongThreshold !in Kinds(warn) && FollowUp !in Kinds(warn);
    if dur >= t.config.longThresholdSec then
      var rest := LongPhase(t, ctx, dur, now);
      KindsAppend(warn, rest.events);
      assert WarnThreshold !in Kinds(rest.events);
      Step(rest.tracker, warn + rest.events)
    else Step(t, warn)
  }

  /** `SessionTracker.update(ctx)` at time `now`. */
  function Update(t: Tracker, ctx: Option<ActivityContext>, now: real): (s: Step)
    ensures s.tracker.config == t.config && s.tracker.listeners == t.listeners
    // No observation: nothing happens.
    ensures ctx.None? ==> s == Step(t, [])
    // A first or different context starts a fresh session and emits nothing.
    ensures ctx.Some? && !Continues(t, ctx.value) ==>
              && s.tracker.current == Some(TrackedSession(ctx.value.contextId, ctx.value, now))
              && s.tracker.lastLongAt == 0.0 && s.tracker.lastFollowUpAt == 0.0
              && s.events == []
    // The same context keeps the session as it was.
    ensures ctx.Some? && Continues(t, ctx.value) ==> s.tracker.current == t.current
    // Every event carries the tick's context and duration, and kinds come out in order.
    ensures forall i :: 0 <= i < |s.events| ==>
              && ctx.Some? && Continues(t, ctx.value)
              && s.events[i].context == ctx.value
              && s.events[i].durationSeconds == Elapsed(t, now)
    ensures forall i, j :: 0 <= i < j < |s.events| ==> s.events[i].eventType.Rank() < s.events[j].eventType.Rank()
    // WARN: exactly the ticks whose duration lies in the band.
    ensures WarnThreshold in Kinds(s.events) <==>
              ctx.Some? && Continues(t, ctx.value)
              && t.config.warnThresholdSec <= Elapsed(t, now) < t.config.warnThresholdSec + WarnBand
    // LONG: past the threshold and not yet fired; it records the time.
    ensures LongThreshold in Kinds(s.events) <==>
              ctx.Some? && Continues(t, ctx.value)
              && Elapsed(t, now) >= t.config.longThresholdSec && t.lastLongAt == 0.0
    ensures LongThreshold in Kinds(s.events) ==> s.tracker.lastLongAt == now
    // FOLLOW_UP: past the threshold, enabled, already anchored, and a full interval since.
    ensures FollowUp in Kinds(s.events) <==>
              ctx.Some? && Continues(t, ctx.value)
              && Elapsed(t, now) >= t.config.longThresholdSec
              && t.config.followUpIntervalSec > 0.0
              && t.lastFollowUpAt != 0.0
              && now - t.lastFollowUpAt >= t.config.followUpIntervalSec
    ensures FollowUp in Kinds(s.events) ==> s.tracker.lastFollowUpAt == now
    // The first tick past the threshold anchors an unset follow-up marker.
    ensures ctx.Some? && Continues(t, ctx.value) && Elapsed(t, now) >= t.config.longThresholdSec
            && t.config.followUpIntervalSec > 0.0 && t.lastFollowUpAt == 0.0 ==>
              s.tracker.lastFollowUpAt == now
    // Within a session the follow-up marker moves only by these two rules, and a set LONG
    // marker stays.
    ensures ctx.Some? && Continues(t, ctx.value) ==>
              && (FollowUp !in Kinds(s.events) && !(Elapsed(t, now) >= t.config.longThresholdSec
                                                   && t.config.followUpIntervalSec > 0.0 && t.lastFollowUpAt == 0.0) ==>
                    s.tracker.lastFollowUpAt == t.lastFollowUpAt)
              && (t.lastLongAt != 0.0 ==> s.tracker.lastLongAt == t.lastLongAt)
    // Below the long threshold a tick of the session changes nothing.
    ensures ctx.Some? && Continues(t, ctx.value) && Elapsed(t, now) < t.config.longThresholdSec ==>
              s.tracker == t
  {
    if ctx.None? then Step(t, [])
    else if !Continues(t, ctx.value) then
      Step(t.(current := Some(TrackedSession(ctx.value.contextId, ctx.value, now)),
              lastLongAt := 0.0, lastFollowUpAt := 0.0), [])
    else Continue(t, ctx.value, now)
  }

  /** What `get_current_session` reports after one `update`: nothing changes without an
      observation; otherwise the session is the observed context's, started at this tick
      when the context is new and kept as it was when it continues. */
  lemma CurrentSessionAfterUpdate(t: Tracker, ctx: Option<ActivityContext>, now: real)
    ensures ctx.None? ==> GetCurrentSession(Update(t, ctx, now).tracker) == GetCurrentSession(t)
    ensures ctx.Some? ==>
              && GetCurrentSession(Update(t, ctx, now).tracker).Some?
              && GetCurrentSession(Update(t, ctx, now).tracker).value.contextId == ctx.value.contextId
    ensures ctx.Some? && !Continues(t, ctx.value) ==>
              GetCurrentSession(Update(t, ctx, now).tracker) == Some(TrackedSession(ctx.value.contextId, ctx.value, now))
    ensures ctx.Some? && Continues(t, ctx.value) ==>
              GetCurrentSession(Update(t, ctx, now).tracker) == GetCurrentSession(t)
  {
  }

  /** `update` followed by `_emit` of each event: every event reaches every listener. */
  function UpdateAndEmit(t: Tracker, ctx: Option<ActivityContext>, now: real): (r: (Tracker, seq<seq<Delivery<SessionEvent>>>))
    ensures r.0 == Update(t, ctx, now).tracker
    ensures |r.1| == |Update(t, ctx, now).events|
    ensures forall k :: 0 <= k < |r.1| ==> |r.1[k]| == t.listeners
    ensures forall k, i :: 0 <= k < |r.1| && 0 <= i < t.listeners ==>
              r.1[k][i] == Delivery(i, Update(t, ctx, now).events[k])
  {
    var s := Update(t, ctx, now);
    (s.tracker, Broadcast(t.listeners, s.events))
  }
}
