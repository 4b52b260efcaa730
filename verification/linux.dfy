/** The platform-independent part of `activity/linux.py`: the window record, its context id,
    and the ordered rule table that classifies an (app name, window title) pair. */
module LinuxActivity {

  import opened Wrappers
  import opened Text

  /** What the X11 probe reports about the focused window. */
  datatype WindowInfo = WindowInfo(appName: string, windowTitle: string, windowId: Option<string>)

  const Separator: string := "::"

  /** The identity key of a window: app name and title joined by `::`. */
  function ContextId(w: WindowInfo): (id: string)
    ensures |id| == |w.appName| + 2 + |w.windowTitle|
    ensures IsPrefix(w.appName, id)
    ensures id[|w.appName|..|w.appName| + 2] == Separator
    ensures id[|w.appName| + 2..] == w.windowTitle
  {
    w.appName + Separator + w.windowTitle
  }

  /** Position of the first `c` in `s`, or `|s|` when there is none. */
  function FirstIndex(s: string, c: char): (r: nat)
    ensures r <= |s|
    ensures r < |s| ==> s[r] == c
    ensures forall i :: 0 <= i < r ==> s[i] != c
  {
    if |s| == 0 then 0
    else if s[0] == c then 0
    else 1 + FirstIndex(s[1..], c)
  }

  /** Reads an id back into (app name, title) by splitting at the first `::`, provided the
      first colon of the id starts one. */
  function SplitContextId(id: string): (r: Option<(string, string)>)
    ensures r.Some? ==> r.value.0 + Separator + r.value.1 == id
  {
    var k := FirstIndex(id, ':');
    if k + 2 <= |id| && id[k..k + 2] == Separator then
      assert id == id[..k] + Separator + id[k + 2..];
      Some((id[..k], id[k + 2..]))
    else None
  }

  /** For an app name without a colon, the context id determines the app name and the title. */
  lemma {:induction false} ContextIdRoundTrip(w: WindowInfo)
    requires forall i :: 0 <= i < |w.appName| ==> w.appName[i] != ':'
    ensures SplitContextId(ContextId(w)) == Some((w.appName, w.windowTitle))
  {
    var id := ContextId(w);
    var n := |w.appName|;
    assert id[n] == ':';
    assert forall i :: 0 <= i < n ==> id[i] == w.appName[i];
    var k := FirstIndex(id, ':');
    assert k == n;
    assert id[..k] == w.appName;
  }

  /** Two windows whose app names contain no colon share an id only if they share both names. */
  lemma ContextIdInjective(w1: WindowInfo, w2: WindowInfo)
    requires forall i :: 0 <= i < |w1.appName| ==> w1.appName[i] != ':'
    requires forall i :: 0 <= i < |w2.appName| ==> w2.appName[i] != ':'
    requires ContextId(w1) == ContextId(w2)
    ensures w1.appName == w2.appName && w1.windowTitle == w2.windowTitle
  {
    ContextIdRoundTrip(w1);
    ContextIdRoundTrip(w2);
  }

  /** Without that restriction the id is not injective: app "a:" with title "b" and app
      "a" with title ":b" are the same activity as far as the id can tell. */
  lemma ContextIdCollision()
    ensures ContextId(WindowInfo("a:", "b", None)) == ContextId(WindowInfo("a", ":b", None))
  {
  }

  const Browsers: seq<string> := ["safari", "chrome", "firefox", "brave", "edge", "opera"]
  const Editors: seq<string> := ["cursor", "visual studio code", "code", "vim", "sublime"]
  const Terminals: seq<string> := ["terminal", "iterm"]
  const WebMarkers: seq<string> := ["http", "www.", ".com"]

  /** The five context types the classifier can produce. */
  const ContextTypes: set<string> := {"website", "browser", "file", "terminal", "app"}

  /** `infer_context_type`: first matching rule wins, matching is on lower-cased text.
      The `or` chains of the source over the web markers and the terminal names are written
      as `AnyIn` over the same lists. */
  function InferContextType(appName: string, windowTitle: string): (r: string)
    ensures r in ContextTypes
    ensures AnyIn(Browsers, Lower(appName)) ==> r == "website" || r == "browser"
    ensures r == "website" <==> AnyIn(Browsers, Lower(appName)) && AnyIn(WebMarkers, Lower(windowTitle))
    ensures r == "browser" <==> AnyIn(Browsers, Lower(appName)) && !AnyIn(WebMarkers, Lower(windowTitle))
    ensures r == "file" <==> !AnyIn(Browsers, Lower(appName)) && AnyIn(Editors, Lower(appName))
    ensures r == "terminal" <==>
              !AnyIn(Browsers, Lower(appName)) && !AnyIn(Editors, Lower(appName))
              && AnyIn(Terminals, Lower(appName))
    ensures r == "app" <==>
              !AnyIn(Browsers, Lower(appName)) && !AnyIn(Editors, Lower(appName))
              && !AnyIn(Terminals, Lower(appName))
  {
    var app := Lower(appName);
    var title := Lower(windowTitle);
    if AnyIn(Browsers, app) then
      if AnyIn(WebMarkers, title) then "website" else "browser"
    else if AnyIn(Editors, app) then "file"
    else if AnyIn(Terminals, app) then "terminal"
    else "app"
  }

  /** The classification depends only on the lower-cased names. */
  lemma CaseInsensitive(appName: string, windowTitle: string)
    ensures InferContextType(appName, windowTitle) == InferContextType(Lower(appName), Lower(windowTitle))
  {
    LowerIdempotent(appName);
    LowerIdempotent(windowTitle);
  }

  /** The editor entry "visual studio code" adds nothing: every name containing it also
      contains "code", so the editor rule is the shorter list below. */
  const EssentialEditors: seq<string> := ["cursor", "code", "vim", "sublime"]

  lemma {:induction false} EditorListReduces(app: string)
    ensures AnyIn(Editors, app) <==> AnyIn(EssentialEditors, app)
  {
    if AnyIn(Editors, app) {
      var k :| 0 <= k < |Editors| && Contains(app, Editors[k]);
      if k == 1 {
        ContainsAt("visual studio code", "code", 14);
        ContainsTransitive(app, "visual studio code", "code");
        assert Contains(app, EssentialEditors[1]);
      } else if k == 0 {
        assert Contains(app, EssentialEditors[0]);
      } else {
        assert Contains(app, EssentialEditors[k - 1]);
      }
    }
    if AnyIn(EssentialEditors, app) {
      var k :| 0 <= k < |EssentialEditors| && Contains(app, EssentialEditors[k]);
      if k == 0 {
        assert Contains(app, Editors[0]);
      } else {
        assert Contains(app, Editors[k + 1]);
      }
    }
  }

  /** A non-browser app is a file context exactly when its lower-cased name contains
      "cursor", "code", "vim" or "sublime"; a browser never is. */
  lemma FileRule(appName: string, windowTitle: string)
    ensures InferContextType(appName, windowTitle) == "file" <==>
              !AnyIn(Browsers, Lower(appName)) && AnyIn(EssentialEditors, Lower(appName))
  {
    EditorListReduces(Lower(appName));
  }

  /** Any browser paired with a title mentioning "http" is a website, whatever the case. */
  lemma BrowserWithHttpIsWebsite(appName: string, windowTitle: string, k: nat)
    requires k < |Browsers| && Contains(Lower(appName), Browsers[k])
    requires Contains(Lower(windowTitle), "http")
    ensures InferContextType(appName, windowTitle) == "website"
  {
    assert Contains(Lower(windowTitle), WebMarkers[0]);
  }

  /** An empty app name matches no rule, so it is a plain application. */
  lemma EmptyAppIsApp(windowTitle: string)
    ensures InferContextType("", windowTitle) == "app"
  {
    assert Lower("") == "";
    forall k | 0 <= k < |Browsers| ensures !Contains("", Browsers[k]) { }
    forall k | 0 <= k < |Editors| ensures !Contains("", Editors[k]) { }
    forall k | 0 <= k < |Terminals| ensures !Contains("", Terminals[k]) { }
  }

  /** Concrete classifications. */
  lemma WebsiteExample()
    ensures InferContextType("chrome", "https://x.org") == "website"
  {
    LowerOfLowercase("chrome");
    ContainsAt("chrome", "chrome", 0);
    LowerOfLowercase("https://x.org");
    ContainsAt("https://x.org", "http", 0);
    BrowserWithHttpIsWebsite("chrome", "https://x.org", 1);
  }

  lemma BrowserExample()
    ensures InferContextType("firefox", "new tab") == "browser"
  {
    LowerOfLowercase("firefox");
    ContainsAt("firefox", "firefox", 0);
    assert Contains(Lower("firefox"), Browsers[2]);
    LowerOfLowercase("new tab");
    NewTabHasNoMarker();
  }

  lemma NewTabHasNoMarker()
    ensures forall k :: 0 <= k < |WebMarkers| ==> !Contains("new tab", WebMarkers[k])
  {
    var t := "new tab";
    MissingCharExcludes(t, "http", 0);
    MissingCharExcludes(t, "www.", 3);
    MissingCharExcludes(t, ".com", 0);
  }

  lemma FileExample()
    ensures InferContextType("code", "main.py") == "file"
  {
    var a := "code";
    LowerOfLowercase(a);
    ContainsAt(a, "code", 0);
    MissingCharExcludes(a, Browsers[0], 0);
    MissingCharExcludes(a, Browsers[1], 1);
    MissingCharExcludes(a, Browsers[2], 0);
    MissingCharExcludes(a, Browsers[3], 0);
    MissingCharExcludes(a, Browsers[4], 2);
    MissingCharExcludes(a, Browsers[5], 1);
    assert Contains(a, Editors[2]);
  }

  lemma TerminalExample()
    ensures InferContextType("iterm2", "zsh") == "terminal"
  {
    var a := "iterm2";
    LowerOfLowercase(a);
    ItermIsNeitherBrowserNorEditor();
    ContainsAt(a, "iterm", 0);
    assert Contains(a, Terminals[1]);
  }

  lemma ItermIsNeitherBrowserNorEditor()
    ensures !AnyIn(Browsers, "iterm2") && !AnyIn(Editors, "iterm2")
  {
    ItermIsNoBrowser();
    ItermIsNoEditor();
  }

  lemma ItermIsNoBrowser()
    ensures forall k :: 0 <= k < |Browsers| ==> !Contains("iterm2", Browsers[k])
  {
    var a := "iterm2";
    MissingCharExcludes(a, "safari", 0);
    MissingCharExcludes(a, "chrome", 0);
    MissingCharExcludes(a, "firefox", 0);
    MissingCharExcludes(a, "brave", 0);
    MissingCharExcludes(a, "edge", 1);
    MissingCharExcludes(a, "opera", 0);
  }

  lemma ItermIsNoEditor()
    ensures forall k :: 0 <= k < |Editors| ==> !Contains("iterm2", Editors[k])
  {
    var a := "iterm2";
    MissingCharExcludes(a, "cursor", 0);
    MissingCharExcludes(a, "visual studio code", 0);
    MissingCharExcludes(a, "code", 0);
    MissingCharExcludes(a, "vim", 0);
    MissingCharExcludes(a, "sublime", 0);
  }
}
