/** `agent_request.py`: the request sent to the focus agent when help is triggered, and its
    two wrappings (the WebSocket `reading_help` message and the HTTP `/eeg` body). */
module AgentRequest {

  import opened Wrappers
  import opened JsonValue
  import opened DataSchema

  const RequestKeys: set<string> := {"timestamp", "activity", "mental_state", "user_feedback"}

  const ContextKeys: set<string> := ActivityKeys + {"mental_state", "user_feedback"}

  /** `build_agent_request(...)`. `clock` is `time.time()`, read only when no timestamp is given;
      a snapshot object is always truthy, so a present mental state is always written out. */
  function BuildAgentRequest(activity: ActivitySnapshot, mentalState: Option<MentalStateSnapshot>,
                             userFeedback: Option<string>, timestamp: Option<real>, clock: real): (r: Object)
    ensures r.Keys == RequestKeys
    ensures r["timestamp"] == Num(if timestamp.Some? then timestamp.value else clock)
    ensures r["activity"] == Obj(ActivityToJson(activity))
    ensures mentalState.None? <==> r["mental_state"] == Null
    ensures mentalState.Some? ==> r["mental_state"] == Obj(MentalStateToJson(mentalState.value))
    ensures r["user_feedback"] == OptStr(userFeedback)
  {
    var t := timestamp.GetOr(clock);
    var ms := match mentalState
      case Some(m) => Obj(MentalStateToJson(m))
      case None => Null;
    map["timestamp" := Num(t), "activity" := Obj(ActivityToJson(activity)),
        "mental_state" := ms, "user_feedback" := OptStr(userFeedback)]
  }

  /** `build_reading_help_ws_message(request)`: the request's own keys win over the tag. */
  function BuildReadingHelpWsMessage(request: Object): (r: Object)
    ensures r.Keys == request.Keys + {"type"}
    ensures forall k :: k in request ==> r[k] == request[k]
    ensures "type" !in request ==> r["type"] == Str("reading_help")
  {
    map["type" := Str("reading_help")] + request
  }

  /** Removing the tag from a message whose request has no `type` key of its own gives the
      request back. */
  lemma UntaggedUnwraps(request: Object)
    requires "type" !in request
    ensures BuildReadingHelpWsMessage(request)["type"] == Str("reading_help")
    ensures BuildReadingHelpWsMessage(request) - {"type"} == request
  {
    var message := BuildReadingHelpWsMessage(request);
    assert (message - {"type"}).Keys == request.Keys;
  }

  /** Removing the tag from a message built from an agent request gives the request back. */
  lemma WsMessageUnwraps(activity: ActivitySnapshot, mentalState: Option<MentalStateSnapshot>,
                         userFeedback: Option<string>, timestamp: Option<real>, clock: real)
    ensures var request := BuildAgentRequest(activity, mentalState, userFeedback, timestamp, clock);
            var message := BuildReadingHelpWsMessage(request);
            && message["type"] == Str("reading_help")
            && message - {"type"} == request
  {
    var request := BuildAgentRequest(activity, mentalState, userFeedback, timestamp, clock);
    assert "type" !in RequestKeys;
    UntaggedUnwraps(request);
  }

  /** The exception `build_post_eeg_body` raises on a request of the wrong shape: a missing key
      (KeyError) or a non-object `activity` (TypeError); `key` is the first one read that fails. */
  datatype BodyError = MissingKey(key: string) | NotAnObject(key: string)

  function Index(d: Object, key: string): (r: Result<Json, BodyError>)
    ensures key in d <==> r.Ok?
    ensures r.Ok? ==> r.value == d[key]
    ensures r.Err? ==> r.error == MissingKey(key)
  {
    if key in d then Ok(d[key]) else Err(MissingKey(key))
  }

  /** The `context` object of `build_post_eeg_body`: the activity's fields, then the request's
      mental state and feedback, each read in the order the source's dict display reads it. */
  function ReadContext(request: Object, activity: Object): (r: Result<Object, BodyError>)
    ensures r.Ok? ==> r.value.Keys == ContextKeys
    ensures r.Ok? <==> && (forall k :: k in ActivityKeys && k != "reading_section" ==> k in activity)
                       && "mental_state" in request && "user_feedback" in request
    ensures r.Ok? ==> && r.value["mental_state"] == request["mental_state"]
                      && r.value["user_feedback"] == request["user_feedback"]
                      && r.value["reading_section"] == Get(activity, "reading_section")
    ensures r.Ok? ==> forall k :: k in ActivityKeys && k != "reading_section" ==> r.value[k] == activity[k]
  {
    var appName :- Index(activity, "app_name");
    var windowTitle :- Index(activity, "window_title");
    var contextType :- Index(activity, "context_type");
    var contextId :- Index(activity, "context_id");
    var readingSection := Get(activity, "reading_section");
    var duration :- Index(activity, "duration_seconds");
    var mentalState :- Index(request, "mental_state");
    var userFeedback :- Index(request, "user_feedback");
    Ok(map["app_name" := appName, "window_title" := windowTitle, "context_type" := contextType,
           "context_id" := contextId, "reading_section" := readingSection,
           "duration_seconds" := duration, "mental_state" := mentalState,
           "user_feedback" := userFeedback])
  }

  /** `build_post_eeg_body(request, streams_met)`. `streams_met or {}` turns a missing or
      empty argument into `{}`. */
  function BuildPostEegBody(request: Object, streamsMet: Option<Object>): (r: Result<Object, BodyError>)
    ensures "timestamp" !in request ==> r == Err(MissingKey("timestamp"))
    ensures "timestamp" in request && "activity" !in request ==> r == Err(MissingKey("activity"))
    ensures "timestamp" in request && "activity" in request && !request["activity"].Obj? ==>
              r == Err(NotAnObject("activity"))
    ensures "timestamp" in request && "activity" in request && request["activity"].Obj? ==>
              (r.Ok? <==> ReadContext(request, request["activity"].fields).Ok?)
    ensures r.Ok? ==> && r.value.Keys == {"timestamp", "streams", "context"}
                      && r.value["timestamp"] == request["timestamp"]
                      && r.value["streams"] == Obj(map["met" := Obj(streamsMet.GetOr(map[]))])
                      && request["activity"].Obj?
                      && r.value["context"] == Obj(ReadContext(request, request["activity"].fields).value)
  {
    var timestamp :- Index(request, "timestamp");
    var activityJson :- Index(request, "activity");
    if !activityJson.Obj? then Err(NotAnObject("activity"))
    else
      var context :- ReadContext(request, activityJson.fields);
      Ok(map["timestamp" := timestamp,
             "streams" := Obj(map["met" := Obj(streamsMet.GetOr(map[]))]),
             "context" := Obj(context)])
  }

  /** The context read from an activity snapshot's object is that object plus the request's
      mental state and feedback. */
  lemma ContextOfActivity(request: Object, activity: ActivitySnapshot)
    requires "mental_state" in request && "user_feedback" in request
    ensures ReadContext(request, ActivityToJson(activity)) ==
              Ok(ActivityToJson(activity) +
                 map["mental_state" := request["mental_state"], "user_feedback" := request["user_feedback"]])
  {
    var a := ActivityToJson(activity);
    var expected := a + map["mental_state" := request["mental_state"], "user_feedback" := request["user_feedback"]];
    var context := ReadContext(request, a);
    assert context.Ok?;
    assert context.value.Keys == expected.Keys;
    forall k | k in context.value
      ensures context.value[k] == expected[k]
    {
      if k == "reading_section" {
        assert Get(a, "reading_section") == a["reading_section"];
      }
    }
    assert context.value == expected;
  }

  /** A request built by `build_agent_request` always wraps into a body, whose context is the
      activity's own six fields plus the mental state and feedback of the request. */
  lemma PostBodyOfBuiltRequest(activity: ActivitySnapshot, mentalState: Option<MentalStateSnapshot>,
                               userFeedback: Option<string>, timestamp: Option<real>, clock: real,
                               streamsMet: Option<Object>)
    ensures var request := BuildAgentRequest(activity, mentalState, userFeedback, timestamp, clock);
            var body := BuildPostEegBody(request, streamsMet);
            && body.Ok?
            && body.value["timestamp"] == request["timestamp"]
            && body.value["context"] == Obj(ActivityToJson(activity) +
                 map["mental_state" := request["mental_state"], "user_feedback" := OptStr(userFeedback)])
  {
    var request := BuildAgentRequest(activity, mentalState, userFeedback, timestamp, clock);
    ContextOfActivity(request, activity);
  }

  /** The body's context decodes back into the activity the request was built from: the
      extra keys are ignored by the activity decoder. */
  lemma PostBodyRecoversActivity(activity: ActivitySnapshot, mentalState: Option<MentalStateSnapshot>,
                                 userFeedback: Option<string>, timestamp: Option<real>, clock: real,
                                 streamsMet: Option<Object>)
    ensures var request := BuildAgentRequest(activity, mentalState, userFeedback, timestamp, clock);
            var body := BuildPostEegBody(request, streamsMet);
            && body.Ok?
            && ReadActivity(body.value["context"].fields) == Ok(activity)
  {
    PostBodyOfBuiltRequest(activity, mentalState, userFeedback, timestamp, clock, streamsMet);
    ActivityRoundTrip(activity);
  }
}
