/** `activity/__init__.py`: the activity context record and the identity tracker that
    detects when the focused activity changes. The OS probes are inputs: the window the
    platform probe found (if any) and, on macOS, the reading section it found. */
module Activity {

  import opened Wrappers
  import opened JsonValue
  import opened Text
  import opened Dispatch
  import opened LinuxActivity

  /** The user's activity as seen at one poll. `contextId` is the equality key. */
  datatype ActivityContext = ActivityContext(
    appName: string,
    windowTitle: string,
    contextType: string,
    contextId: string,
    detectedAt: real,
    readingSection: Option<string>)

  /** Longest part of the window title shown in a display name. */
  const TitleShown: nat := 60

  /** `ActivityContext.display_name`: the app name, then the title cut to 60 characters,
      joined by ": " with a trailing "..." for websites and by " - " otherwise. */
  function DisplayName(c: ActivityContext): (r: string)
    ensures IsPrefix(c.appName, r)
    ensures r == c.appName <==> c.windowTitle == ""
    ensures |r| <= |c.appName| + 3 + TitleShown + 3
    ensures c.windowTitle != "" && c.contextType == "website" ==>
              r == c.appName + ": " + Take(c.windowTitle, TitleShown) + "..."
    ensures c.windowTitle != "" && c.contextType != "website" ==>
              r == c.appName + " - " + Take(c.windowTitle, TitleShown)
  {
    if c.contextType == "website" && c.windowTitle != "" then
      c.appName + ": " + Take(c.windowTitle, TitleShown) + "..."
    else if c.windowTitle != "" then
      c.appName + " - " + Take(c.windowTitle, TitleShown)
    else c.appName
  }

  /** Where the title sits in a display name: after the app name and its separator (2
      characters for a website, 3 otherwise) come the title's first `min(|title|, 60)`
      characters, then "..." for a website and nothing else. */
  lemma DisplayNameShowsTitle(c: ActivityContext)
    ensures var r := DisplayName(c);
            var web := c.contextType == "website";
            var sep := if web then 2 else 3;
            var k := if |c.windowTitle| <= TitleShown then |c.windowTitle| else TitleShown;
            c.windowTitle != "" ==>
              && |r| == |c.appName| + sep + k + (if web then 3 else 0)
              && r[..|c.appName|] == c.appName
              && r[|c.appName| + sep .. |c.appName| + sep + k] == c.windowTitle[..k]
  {
  }

  /** Two contexts of the same app and type get the same display name exactly when their
      titles agree on the first 60 characters: the rest of a long title is not shown. */
  lemma DisplayNameSeesShownTitle(c1: ActivityContext, c2: ActivityContext)
    requires c1.appName == c2.appName && c1.contextType == c2.contextType
    ensures DisplayName(c1) == DisplayName(c2) <==>
              Take(c1.windowTitle, TitleShown) == Take(c2.windowTitle, TitleShown)
  {
    if DisplayName(c1) == DisplayName(c2) && c1.windowTitle != "" && c2.windowTitle != "" {
      var a, sep := |c1.appName|, if c1.contextType == "website" then 2 else 3;
      var t1, t2 := Take(c1.windowTitle, TitleShown), Take(c2.windowTitle, TitleShown);
      DisplayNameShowsTitle(c1);
      DisplayNameShowsTitle(c2);
      assert |t1| == |t2|;
      assert t1 == DisplayName(c1)[a + sep .. a + sep + |t1|];
    }
  }

  const ContextKeys: set<string> := {"app_name", "window_title", "context_type", "context_id", "display_name"}

  /** `ActivityContext.to_dict`: five fixed keys, plus `reading_section` only when there is one.
      The detection time is not serialised. */
  function ContextToDict(c: ActivityContext): (d: Object)
    ensures d.Keys == ContextKeys + (if c.readingSection.Some? then {"reading_section"} else {})
    ensures d["app_name"] == Str(c.appName) && d["window_title"] == Str(c.windowTitle)
    ensures d["context_type"] == Str(c.contextType) && d["context_id"] == Str(c.contextId)
    ensures d["display_name"] == Str(DisplayName(c))
    ensures c.readingSection.Some? ==> d["reading_section"] == Str(c.readingSection.value)
  {
    var d := map["app_name" := Str(c.appName), "window_title" := Str(c.windowTitle),
                 "context_type" := Str(c.contextType), "context_id" := Str(c.contextId),
                 "display_name" := Str(DisplayName(c))];
    if c.readingSection.Some? then d["reading_section" := Str(c.readingSection.value)] else d
  }

  /** Reads a serialised context back, with the given detection time (which the
      serialisation drops). */
  function ContextFromDict(d: Object, detectedAt: real): Option<ActivityContext>
  {
    if && "app_name" in d && d["app_name"].Str?
       && "window_title" in d && d["window_title"].Str?
       && "context_type" in d && d["context_type"].Str?
       && "context_id" in d && d["context_id"].Str?
       && (("reading_section" in d) ==> d["reading_section"].Str?)
    then
      Some(ActivityContext(d["app_name"].s, d["window_title"].s, d["context_type"].s, d["context_id"].s,
                           detectedAt,
                           if "reading_section" in d then Some(d["reading_section"].s) else None))
    else None
  }

  /** Serialisation loses nothing but the detection time. */
  lemma ContextDictRoundTrip(c: ActivityContext)
    ensures ContextFromDict(ContextToDict(c), c.detectedAt) == Some(c)
  {
    var d := ContextToDict(c);
    assert "app_name" in d && "window_title" in d && "context_type" in d && "context_id" in d;
  }

  /** Which probe `platform.system()` selects. */
  datatype Platform = Linux | Darwin | Unsupported

  /** The identity tracker: the stored context and how many change listeners are registered. */
  datatype Monitor = Monitor(lastContext: Option<ActivityContext>, listeners: nat)

  const NewMonitor: Monitor := Monitor(None, 0)

  /** What a change listener is called with: the new context and the one it replaced. */
  datatype ChangeNotice = ChangeNotice(current: ActivityContext, previous: Option<ActivityContext>)

  /** Result of one poll: the tracker afterwards, the returned context, and the listener calls. */
  datatype Poll = Poll(monitor: Monitor, result: Option<ActivityContext>, deliveries: seq<Delivery<ChangeNotice>>)

  /** `on_context_change`: one more listener, called after all earlier ones. */
  function OnContextChange(m: Monitor): (m': Monitor)
    ensures m'.listeners == m.listeners + 1
    ensures m'.lastContext == m.lastContext
  {
    m.(listeners := m.listeners + 1)
  }

  /** `get_last_context`: the context stored at the last transition, if any. */
  function GetLastContext(m: Monitor): (r: Option<ActivityContext>)
    ensures r == m.lastContext
  {
    m.lastContext
  }

  /** The context built from a probed window: classified by the rule table, keyed by the
      window's id, stamped with the poll time. */
  function BuildContext(w: WindowInfo, readingSection: Option<string>, now: real): (c: ActivityContext)
    ensures c.appName == w.appName && c.windowTitle == w.windowTitle
    ensures c.contextType == InferContextType(w.appName, w.windowTitle)
    ensures c.contextId == ContextId(w)
    ensures c.detectedAt == now && c.readingSection == readingSection
  {
    ActivityContext(w.appName, w.windowTitle, InferContextType(w.appName, w.windowTitle),
                    ContextId(w), now, readingSection)
  }

  /** Whether `c` starts a new activity relative to the stored context. */
  predicate IsTransition(last: Option<ActivityContext>, c: ActivityContext) {
    last.None? || last.value.contextId != c.contextId
  }

  /** `get_current_activity`. `window` is what the platform probe returned and `section` what
      the macOS reading-section probe returned; the latter is used on macOS only. */
  function GetCurrentActivity(m: Monitor, platform: Platform, window: Option<WindowInfo>,
                              section: Option<string>, now: real): (p: Poll)
    ensures platform == Unsupported || window.None? ==> p == Poll(m, m.lastContext, [])
    ensures platform != Unsupported && window.Some? ==>
              && p.result == Some(BuildContext(window.value, if platform == Darwin then section else None, now))
              && p.monitor.listeners == m.listeners
              && (IsTransition(m.lastContext, p.result.value) ==>
                    && p.monitor.lastContext == p.result
                    && p.deliveries == Fanout(m.listeners, ChangeNotice(p.result.value, m.lastContext)))
              && (!IsTransition(m.lastContext, p.result.value) ==>
                    p.monitor == m && p.deliveries == [])
  {
    if platform == Unsupported || window.None? then Poll(m, m.lastContext, [])
    else
      var c := BuildContext(window.value, if platform == Darwin then section else None, now);
      if IsTransition(m.lastContext, c) then
        Poll(m.(lastContext := Some(c)), Some(c), Fanout(m.listeners, ChangeNotice(c, m.lastContext)))
      else Poll(m, Some(c), [])
  }

  /** What `get_last_context` reports after one poll. Without a window (or on an unsupported
      platform) the poll returns the stored context and keeps it. With one, the stored
      context has the returned context's id; it is replaced only on a transition, by the
      returned context, and exactly then every listener is told. */
  lemma LastContextAfterPoll(m: Monitor, platform: Platform, window: Option<WindowInfo>,
                             section: Option<string>, now: real)
    ensures var p := GetCurrentActivity(m, platform, window, section, now);
            platform == Unsupported || window.None? ==>
              GetLastContext(p.monitor) == GetLastContext(m) && p.result == GetLastContext(m)
    ensures var p := GetCurrentActivity(m, platform, window, section, now);
            platform != Unsupported && window.Some? ==>
              && GetLastContext(p.monitor).Some?
              && GetLastContext(p.monitor).value.contextId == p.result.value.contextId
    ensures var p := GetCurrentActivity(m, platform, window, section, now);
            GetLastContext(p.monitor) != GetLastContext(m) ==>
              && GetLastContext(p.monitor) == p.result
              && p.deliveries == Fanout(m.listeners, ChangeNotice(p.result.value, GetLastContext(m)))
    ensures var p := GetCurrentActivity(m, platform, window, section, now);
            GetLastContext(p.monitor) == GetLastContext(m) ==> p.deliveries == []
  {
  }

  /** Polling the same window twice: the second poll fires nothing and returns a fresh
      context stamped with its own time, while the stored context stays the one from the
      transition. */
  lemma RepeatedPollKeepsStoredContext(m: Monitor, platform: Platform, w: WindowInfo,
                                       s1: Option<string>, s2: Option<string>, t1: real, t2: real)
    requires platform != Unsupported
    ensures var p1 := GetCurrentActivity(m, platform, Some(w), s1, t1);
            var p2 := GetCurrentActivity(p1.monitor, platform, Some(w), s2, t2);
            && p2.deliveries == []
            && p2.monitor == p1.monitor
            && p2.result.Some? && p2.result.value.detectedAt == t2
            && GetLastContext(p2.monitor).Some?
            && GetLastContext(p2.monitor).value.contextId == ContextId(w)
            && (IsTransition(m.lastContext, p1.result.value) ==> GetLastContext(p2.monitor).value.detectedAt == t1)
  {
  }

  /** Switching between two windows with different ids notifies every listener on each
      switch, and each notice names the context it replaces. */
  lemma SwitchNotifiesWithPrevious(m: Monitor, platform: Platform, w1: WindowInfo, w2: WindowInfo,
                                   s: Option<string>, t1: real, t2: real, t3: real)
    requires platform != Unsupported
    requires ContextId(w1) != ContextId(w2)
    ensures var p1 := GetCurrentActivity(m, platform, Some(w1), s, t1);
            var p2 := GetCurrentActivity(p1.monitor, platform, Some(w2), s, t2);
            var p3 := GetCurrentActivity(p2.monitor, platform, Some(w1), s, t3);
            && p2.deliveries == Fanout(m.listeners, ChangeNotice(p2.result.value, p1.monitor.lastContext))
            && p3.deliveries == Fanout(m.listeners, ChangeNotice(p3.result.value, p2.result))
            && p1.monitor.lastContext.value.contextId == ContextId(w1)
            && p3.monitor.lastContext == p3.result
  {
  }
}
