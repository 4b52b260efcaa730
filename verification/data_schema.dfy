/** `data_schema.py`: the snapshot records and the collector payload with its JSON
    serialisation (`to_dict`) and parsing (`from_dict`). */
module DataSchema {

  import opened Wrappers
  import opened JsonValue

  /** Raw performance metrics. The source annotates `metrics` as a dict but stores whatever
      `from_dict` finds there, so it is any JSON value. */
  datatype EEGMetricsSnapshot = EEGMetricsSnapshot(metrics: Json)

  /** Metrics derived from the biosignal stream; each may be absent. */
  datatype MentalStateSnapshot = MentalStateSnapshot(
    engagement: Option<real>,
    stress: Option<real>,
    relaxation: Option<real>,
    focus: Option<real>,
    excitement: Option<real>,
    interest: Option<real>,
    metrics: Json)

  /** A snapshot with no derived metric, keeping `metrics` for audit. */
  function BlankMentalState(metrics: Json): (ms: MentalStateSnapshot)
    ensures ms.engagement == ms.stress == ms.relaxation == None
    ensures ms.focus == ms.excitement == ms.interest == None
    ensures ms.metrics == metrics
  {
    MentalStateSnapshot(None, None, None, None, None, None, metrics)
  }

  datatype MentalCommandSnapshot = MentalCommandSnapshot(action: string, power: real)

  const DefaultAction: string := "neutral"

  datatype ActivitySnapshot = ActivitySnapshot(
    appName: string,
    windowTitle: string,
    contextType: string,
    contextId: string,
    readingSection: Option<string>,
    durationSeconds: Option<real>)

  /** The payload sent from the collector; `kind` is the source's `type` field. */
  datatype CollectorPayload = CollectorPayload(
    kind: string,
    timestamp: real,
    eeg: Option<EEGMetricsSnapshot>,
    mentalState: Option<MentalStateSnapshot>,
    mentalCommand: Option<MentalCommandSnapshot>,
    activity: Option<ActivitySnapshot>)

  const MentalStateKeys: set<string> :=
    {"engagement", "stress", "relaxation", "focus", "excitement", "interest", "metrics"}

  const ActivityKeys: set<string> :=
    {"app_name", "window_title", "context_type", "context_id", "reading_section", "duration_seconds"}

  /** The six numeric metrics of a mental-state object. */
  const MetricKeys: set<string> := MentalStateKeys - {"metrics"}

  /** The four string fields of an activity object. */
  const NameKeys: set<string> := {"app_name", "window_title", "context_type", "context_id"}

  /** The seven-key object a mental-state snapshot is written as, absent metrics as `null`. */
  function MentalStateToJson(ms: MentalStateSnapshot): (o: Object)
    ensures o.Keys == MentalStateKeys
    ensures o["engagement"] == OptNum(ms.engagement) && o["stress"] == OptNum(ms.stress)
    ensures o["relaxation"] == OptNum(ms.relaxation) && o["focus"] == OptNum(ms.focus)
    ensures o["excitement"] == OptNum(ms.excitement) && o["interest"] == OptNum(ms.interest)
    ensures o["metrics"] == ms.metrics
  {
    map["engagement" := OptNum(ms.engagement), "stress" := OptNum(ms.stress),
        "relaxation" := OptNum(ms.relaxation), "focus" := OptNum(ms.focus),
        "excitement" := OptNum(ms.excitement), "interest" := OptNum(ms.interest),
        "metrics" := ms.metrics]
  }

  /** The six-key object an activity snapshot is written as, absent fields as `null`. */
  function ActivityToJson(a: ActivitySnapshot): (o: Object)
    ensures o.Keys == ActivityKeys
    ensures o["app_name"] == Str(a.appName) && o["window_title"] == Str(a.windowTitle)
    ensures o["context_type"] == Str(a.contextType) && o["context_id"] == Str(a.contextId)
    ensures o["reading_section"] == OptStr(a.readingSection)
    ensures o["duration_seconds"] == OptNum(a.durationSeconds)
  {
    map["app_name" := Str(a.appName), "window_title" := Str(a.windowTitle),
        "context_type" := Str(a.contextType), "context_id" := Str(a.contextId),
        "reading_section" := OptStr(a.readingSection),
        "duration_seconds" := OptNum(a.durationSeconds)]
  }

  /** The one-key object an EEG snapshot is written as. */
  function EEGToJson(e: EEGMetricsSnapshot): (o: Object)
    ensures o.Keys == {"metrics"} && o["metrics"] == e.metrics
  {
    map["metrics" := e.metrics]
  }

  /** The two-key object a mental-command snapshot is written as. */
  function MentalCommandToJson(mc: MentalCommandSnapshot): (o: Object)
    ensures o.Keys == {"action", "power"}
    ensures o["action"] == Str(mc.action) && o["power"] == Num(mc.power)
  {
    map["action" := Str(mc.action), "power" := Num(mc.power)]
  }

  /** The keys a payload can be written with. */
  const PayloadKeys: set<string> := {"type", "timestamp", "eeg", "mental_state", "mental_command", "activity"}

  /** `CollectorPayload.to_dict`. Dataclass instances are always truthy, so each snapshot key
      is present exactly when the snapshot is, holding that snapshot's object. */
  function ToDict(p: CollectorPayload): (d: Object)
    ensures d.Keys <= PayloadKeys
    ensures "type" in d && d["type"] == Str(p.kind)
    ensures "timestamp" in d && d["timestamp"] == Num(p.timestamp)
    ensures ("eeg" in d <==> p.eeg.Some?) && (p.eeg.Some? ==> d["eeg"] == Obj(EEGToJson(p.eeg.value)))
    ensures ("mental_state" in d <==> p.mentalState.Some?)
            && (p.mentalState.Some? ==> d["mental_state"] == Obj(MentalStateToJson(p.mentalState.value)))
    ensures ("mental_command" in d <==> p.mentalCommand.Some?)
            && (p.mentalCommand.Some? ==> d["mental_command"] == Obj(MentalCommandToJson(p.mentalCommand.value)))
    ensures ("activity" in d <==> p.activity.Some?)
            && (p.activity.Some? ==> d["activity"] == Obj(ActivityToJson(p.activity.value)))
  {
    PayloadFields(p)
  }

  /** The dict `to_dict` builds: type and timestamp, then each present snapshot in turn. */
  function PayloadFields(p: CollectorPayload): Object
  {
    var d := map["type" := Str(p.kind), "timestamp" := Num(p.timestamp)];
    var d := if p.eeg.Some? then d["eeg" := Obj(EEGToJson(p.eeg.value))] else d;
    var d := if p.mentalState.Some? then d["mental_state" := Obj(MentalStateToJson(p.mentalState.value))] else d;
    var d := if p.mentalCommand.Some? then d["mental_command" := Obj(MentalCommandToJson(p.mentalCommand.value))] else d;
    if p.activity.Some? then d["activity" := Obj(ActivityToJson(p.activity.value))] else d
  }

  /** Why parsing failed. `NotANumber` is the `TypeError` Python's `float()` raises on
      `None`, a list or a dict. `NumericString` marks a string handed to `float()`, whose
      parsing this model does not reproduce. `WrongType` marks a field whose JSON type
      differs from the dataclass annotation (Python would store it unchecked). */
  datatype DecodeError = NotANumber(field: string) | NumericString(field: string) | WrongType(field: string)

  /** Python's `float(v)` on a decoded JSON value. */
  function PyFloat(v: Json, field: string): (r: Result<real, DecodeError>)
    ensures v.Num? ==> r == Ok(v.n)
    ensures v.Bool? ==> r == Ok(if v.b then 1.0 else 0.0)
    ensures (v.Null? || v.Arr? || v.Obj?) ==> r == Err(NotANumber(field))
  {
    match v
    case Num(n) => Ok(n)
    case Bool(b) => Ok(if b then 1.0 else 0.0)
    case Str(_) => Err(NumericString(field))
    case _ => Err(NotANumber(field))
  }

  /** `d.get(key, default)` for a string field. */
  function GetString(d: Object, key: string, default: string): (r: Result<string, DecodeError>)
    ensures key !in d ==> r == Ok(default)
    ensures key in d && d[key].Str? ==> r == Ok(d[key].s)
  {
    match GetOr(d, key, Str(default))
    case Str(s) => Ok(s)
    case _ => Err(WrongType(key))
  }

  /** `d.get(key)` for an optional string field. */
  function GetOptString(d: Object, key: string): (r: Result<Option<string>, DecodeError>)
    ensures Get(d, key) == Null ==> r == Ok(None)
    ensures Get(d, key).Str? ==> r == Ok(Some(Get(d, key).s))
  {
    match Get(d, key)
    case Null => Ok(None)
    case Str(s) => Ok(Some(s))
    case _ => Err(WrongType(key))
  }

  /** `d.get(key)` for an optional number stored without conversion. */
  function GetOptNumber(d: Object, key: string): (r: Result<Option<real>, DecodeError>)
    ensures Get(d, key) == Null ==> r == Ok(None)
    ensures Get(d, key).Num? ==> r == Ok(Some(Get(d, key).n))
  {
    match Get(d, key)
    case Null => Ok(None)
    case Num(n) => Ok(Some(n))
    case _ => Err(WrongType(key))
  }

  /** `d[k] if isinstance(d[k], dict) else {}`. */
  function AsObject(v: Json): (o: Object)
    ensures v.Obj? ==> o == v.fields
    ensures !v.Obj? ==> o == map[]
  {
    if v.Obj? then v.fields else map[]
  }

  /** The `eeg` branch of `from_dict`: a falsy value gives no snapshot, an object without
      `metrics` is its own metrics, and any other truthy value gives empty metrics. */
  function DecodeEEG(v: Json): (r: Option<EEGMetricsSnapshot>)
    ensures !Truthy(v) <==> r.None?
    ensures Truthy(v) && v.Obj? && "metrics" in v.fields ==> r == Some(EEGMetricsSnapshot(v.fields["metrics"]))
    ensures Truthy(v) && v.Obj? && "metrics" !in v.fields ==> r == Some(EEGMetricsSnapshot(v))
    ensures Truthy(v) && !v.Obj? ==> r == Some(EEGMetricsSnapshot(Obj(map[])))
  {
    if !Truthy(v) then None
    else Some(EEGMetricsSnapshot(if v.Obj? then GetOr(v.fields, "metrics", v) else Obj(map[])))
  }

  /** The `mental_state` branch of `from_dict`: absent metrics are `None`, absent raw
      metrics are `{}`. */
  function DecodeMentalState(v: Json): (r: Result<Option<MentalStateSnapshot>, DecodeError>)
    ensures !Truthy(v) ==> r == Ok(None)
    ensures Truthy(v) && r.Ok? ==> r.value.Some?
    ensures Truthy(v) && !v.Obj? ==> r == Ok(Some(BlankMentalState(Obj(map[]))))
    ensures r.Ok? && r.value.Some? && "metrics" !in AsObject(v) ==> r.value.value.metrics == Obj(map[])
    // Each metric must be absent, null or a number, and is read as it stands.
    ensures Truthy(v) ==>
              (r.Ok? <==> forall k :: k in MetricKeys ==> Get(AsObject(v), k).Null? || Get(AsObject(v), k).Num?)
    ensures r.Ok? && r.value.Some? ==>
              && OptNum(r.value.value.engagement) == Get(AsObject(v), "engagement")
              && OptNum(r.value.value.stress) == Get(AsObject(v), "stress")
              && OptNum(r.value.value.relaxation) == Get(AsObject(v), "relaxation")
              && OptNum(r.value.value.focus) == Get(AsObject(v), "focus")
              && OptNum(r.value.value.excitement) == Get(AsObject(v), "excitement")
              && OptNum(r.value.value.interest) == Get(AsObject(v), "interest")
              && r.value.value.metrics == GetOr(AsObject(v), "metrics", Obj(map[]))
  {
    if !Truthy(v) then Ok(None)
    else
      var m := AsObject(v);
      var engagement :- GetOptNumber(m, "engagement");
      var stress :- GetOptNumber(m, "stress");
      var relaxation :- GetOptNumber(m, "relaxation");
      var focus :- GetOptNumber(m, "focus");
      var excitement :- GetOptNumber(m, "excitement");
      var interest :- GetOptNumber(m, "interest");
      Ok(Some(MentalStateSnapshot(engagement, stress, relaxation, focus, excitement, interest,
                                  GetOr(m, "metrics", Obj(map[])))))
  }

  /** The `mental_command` branch of `from_dict`: action defaults to "neutral" and power,
      passed through `float()`, to 0. */
  function DecodeMentalCommand(v: Json): (r: Result<Option<MentalCommandSnapshot>, DecodeError>)
    ensures !Truthy(v) ==> r == Ok(None)
    ensures Truthy(v) && r.Ok? ==> r.value.Some?
    ensures Truthy(v) && !v.Obj? ==> r == Ok(Some(MentalCommandSnapshot(DefaultAction, 0.0)))
    ensures Truthy(v) && v.Obj? && "power" in v.fields && v.fields["power"] == Null ==>
              r.Err?
    // A present action must be a string and a present power a number or a bool.
    ensures Truthy(v) ==>
              (r.Ok? <==> && ("action" in AsObject(v) ==> AsObject(v)["action"].Str?)
                          && ("power" in AsObject(v) ==> AsObject(v)["power"].Num? || AsObject(v)["power"].Bool?))
    ensures Truthy(v) && r.Ok? && "action" !in AsObject(v) ==> r.value.value.action == DefaultAction
    ensures Truthy(v) && r.Ok? && "action" in AsObject(v) ==> AsObject(v)["action"] == Str(r.value.value.action)
    ensures Truthy(v) && r.Ok? && "power" !in AsObject(v) ==> r.value.value.power == 0.0
    ensures Truthy(v) && r.Ok? && "power" in AsObject(v) && AsObject(v)["power"].Num? ==>
              r.value.value.power == AsObject(v)["power"].n
    // `float(True)` is 1.0 and `float(False)` is 0.0.
    ensures Truthy(v) && r.Ok? && "power" in AsObject(v) && AsObject(v)["power"].Bool? ==>
              r.value.value.power == (if AsObject(v)["power"].b then 1.0 else 0.0)
  {
    if !Truthy(v) then Ok(None)
    else
      var m := AsObject(v);
      var action :- GetString(m, "action", DefaultAction);
      var power :- PyFloat(GetOr(m, "power", Num(0.0)), "power");
      Ok(Some(MentalCommandSnapshot(action, power)))
  }

  /** `float(dur) if dur is not None else None`. */
  function OptFloat(v: Json, field: string): (r: Result<Option<real>, DecodeError>)
    ensures v == Null ==> r == Ok(None)
    ensures v.Num? ==> r == Ok(Some(v.n))
    ensures v.Bool? ==> r == Ok(Some(if v.b then 1.0 else 0.0))
  {
    if v == Null then Ok(None)
    else
      var x :- PyFloat(v, field);
      Ok(Some(x))
  }

  /** The fields of an activity object: names default to "", the reading section and the
      duration to `None`; a present duration goes through `float()`. */
  function ReadActivity(a: Object): (r: Result<ActivitySnapshot, DecodeError>)
    ensures a == map[] ==> r == Ok(ActivitySnapshot("", "", "", "", None, None))
    // A present name must be a string, the section null or a string, the duration null or a
    // number or a bool.
    ensures r.Ok? <==>
              && (forall k :: k in NameKeys && k in a ==> a[k].Str?)
              && (Get(a, "reading_section").Null? || Get(a, "reading_section").Str?)
              && (Get(a, "duration_seconds").Null? || Get(a, "duration_seconds").Num? || Get(a, "duration_seconds").Bool?)
    // Absent names read as "", an absent section or duration as None.
    ensures r.Ok? ==>
              && GetOr(a, "app_name", Str("")) == Str(r.value.appName)
              && GetOr(a, "window_title", Str("")) == Str(r.value.windowTitle)
              && GetOr(a, "context_type", Str("")) == Str(r.value.contextType)
              && GetOr(a, "context_id", Str("")) == Str(r.value.contextId)
              && Get(a, "reading_section") == OptStr(r.value.readingSection)
              && (r.value.durationSeconds.None? <==> Get(a, "duration_seconds").Null?)
              && (Get(a, "duration_seconds").Num? ==> r.value.durationSeconds == Some(Get(a, "duration_seconds").n))
              && (Get(a, "duration_seconds").Bool? ==>
                    r.value.durationSeconds == Some(if Get(a, "duration_seconds").b then 1.0 else 0.0))
  {
    var appName :- GetString(a, "app_name", "");
    var windowTitle :- GetString(a, "window_title", "");
    var contextType :- GetString(a, "context_type", "");
    var contextId :- GetString(a, "context_id", "");
    var readingSection :- GetOptString(a, "reading_section");
    var duration :- OptFloat(Get(a, "duration_seconds"), "duration_seconds");
    Ok(ActivitySnapshot(appName, windowTitle, contextType, contextId, readingSection, duration))
  }

  /** The `activity` branch of `from_dict`: a falsy value gives no snapshot, a truthy
      non-object gives the all-default snapshot. */
  function DecodeActivity(v: Json): (r: Result<Option<ActivitySnapshot>, DecodeError>)
    ensures !Truthy(v) ==> r == Ok(None)
    ensures Truthy(v) && r.Ok? ==> r.value.Some?
    ensures Truthy(v) && !v.Obj? ==> r == Ok(Some(ActivitySnapshot("", "", "", "", None, None)))
    ensures Truthy(v) ==> (r.Ok? <==> ReadActivity(AsObject(v)).Ok?)
    ensures Truthy(v) && r.Ok? ==> r.value == Some(ReadActivity(AsObject(v)).value)
  {
    if !Truthy(v) then Ok(None)
    else
      var a :- ReadActivity(AsObject(v));
      Ok(Some(a))
  }

  /** `CollectorPayload.from_dict`. */
  function FromDict(d: Object): (r: Result<CollectorPayload, DecodeError>)
    ensures r.Ok? && "type" !in d ==> r.value.kind == ""
    ensures r.Ok? && "timestamp" !in d ==> r.value.timestamp == 0.0
    ensures r.Ok? ==> (r.value.eeg.None? <==> !Truthy(Get(d, "eeg")))
    ensures r.Ok? ==> (r.value.mentalState.None? <==> !Truthy(Get(d, "mental_state")))
    ensures r.Ok? ==> (r.value.mentalCommand.None? <==> !Truthy(Get(d, "mental_command")))
    ensures r.Ok? ==> (r.value.activity.None? <==> !Truthy(Get(d, "activity")))
    // The whole payload decodes iff every part does, and each part is its decoder's result.
    ensures r.Ok? <==>
              && DecodeMentalState(Get(d, "mental_state")).Ok?
              && DecodeMentalCommand(Get(d, "mental_command")).Ok?
              && DecodeActivity(Get(d, "activity")).Ok?
              && ("type" in d ==> d["type"].Str?)
              && ("timestamp" in d ==> d["timestamp"].Num? || d["timestamp"].Bool?)
    ensures r.Ok? ==>
              && r.value.eeg == DecodeEEG(Get(d, "eeg"))
              && r.value.mentalState == DecodeMentalState(Get(d, "mental_state")).value
              && r.value.mentalCommand == DecodeMentalCommand(Get(d, "mental_command")).value
              && r.value.activity == DecodeActivity(Get(d, "activity")).value
    ensures r.Ok? && "type" in d ==> d["type"] == Str(r.value.kind)
    ensures r.Ok? && "timestamp" in d && d["timestamp"].Num? ==> r.value.timestamp == d["timestamp"].n
    ensures r.Ok? && "timestamp" in d && d["timestamp"].Bool? ==>
              r.value.timestamp == (if d["timestamp"].b then 1.0 else 0.0)
  {
    var eeg := DecodeEEG(Get(d, "eeg"));
    var ms :- DecodeMentalState(Get(d, "mental_state"));
    var mc :- DecodeMentalCommand(Get(d, "mental_command"));
    var act :- DecodeActivity(Get(d, "activity"));
    var kind :- GetString(d, "type", "");
    var timestamp :- PyFloat(GetOr(d, "timestamp", Num(0.0)), "timestamp");
    Ok(CollectorPayload(kind, timestamp, eeg, ms, mc, act))
  }

  lemma OptNumRoundTrip(m: Object, key: string, x: Option<real>)
    requires key in m && m[key] == OptNum(x)
    ensures GetOptNumber(m, key) == Ok(x)
  {
  }

  /** Each snapshot, written and read back, is itself. */
  lemma MentalStateRoundTrip(ms: MentalStateSnapshot)
    ensures DecodeMentalState(Obj(MentalStateToJson(ms))) == Ok(Some(ms))
  {
    var m := MentalStateToJson(ms);
    assert "metrics" in m;
    assert Truthy(Obj(m));
    OptNumRoundTrip(m, "engagement", ms.engagement);
    OptNumRoundTrip(m, "stress", ms.stress);
    OptNumRoundTrip(m, "relaxation", ms.relaxation);
    OptNumRoundTrip(m, "focus", ms.focus);
    OptNumRoundTrip(m, "excitement", ms.excitement);
    OptNumRoundTrip(m, "interest", ms.interest);
  }

  lemma MentalCommandRoundTrip(mc: MentalCommandSnapshot)
    ensures DecodeMentalCommand(Obj(MentalCommandToJson(mc))) == Ok(Some(mc))
  {
    var m := MentalCommandToJson(mc);
    assert "action" in m;
    assert Truthy(Obj(m));
  }

  /** `ReadActivity` succeeds with the snapshot of the fields it reads when each read does. */
  lemma ReadActivityFields(m: Object, a: ActivitySnapshot)
    requires GetString(m, "app_name", "") == Ok(a.appName)
    requires GetString(m, "window_title", "") == Ok(a.windowTitle)
    requires GetString(m, "context_type", "") == Ok(a.contextType)
    requires GetString(m, "context_id", "") == Ok(a.contextId)
    requires GetOptString(m, "reading_section") == Ok(a.readingSection)
    requires OptFloat(Get(m, "duration_seconds"), "duration_seconds") == Ok(a.durationSeconds)
    ensures ReadActivity(m) == Ok(a)
  {
  }

  lemma ActivityRoundTrip(a: ActivitySnapshot)
    ensures DecodeActivity(Obj(ActivityToJson(a))) == Ok(Some(a))
  {
    var m := ActivityToJson(a);
    assert "app_name" in m;
    ReadActivityFields(m, a);
  }

  /** Parsing what `to_dict` wrote gives back the payload. */
  lemma RoundTrip(p: CollectorPayload)
    ensures FromDict(ToDict(p)) == Ok(p)
  {
    var d := ToDict(p);
    if p.eeg.Some? {
      assert "metrics" in EEGToJson(p.eeg.value);
    }
    assert DecodeEEG(Get(d, "eeg")) == p.eeg;
    assert DecodeMentalState(Get(d, "mental_state")) == Ok(p.mentalState) by {
      if p.mentalState.Some? {
        MentalStateRoundTrip(p.mentalState.value);
      }
    }
    assert DecodeMentalCommand(Get(d, "mental_command")) == Ok(p.mentalCommand) by {
      if p.mentalCommand.Some? {
        MentalCommandRoundTrip(p.mentalCommand.value);
      }
    }
    assert DecodeActivity(Get(d, "activity")) == Ok(p.activity) by {
      if p.activity.Some? {
        ActivityRoundTrip(p.activity.value);
      }
    }
    var r := FromDict(d);
    assert r.Ok?;
    assert r.value.kind == p.kind && r.value.timestamp == p.timestamp;
  }
}
