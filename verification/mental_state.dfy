/** `mental_state_parser.py`: reading the Cortex `met` stream into a `MentalStateSnapshot`
    and mapping a snapshot to the coarse label the agent is told. */
module MentalState {

  import opened Wrappers
  import opened JsonValue
  import opened DataSchema

  /** The numeric metric columns `_indices_from_cols` keeps; the `.isActive` flags are ignored. */
  const MetricLabels: set<string> :=
    {"eng", "exc", "lex", "str", "rel", "int", "attention", "foc", "cognitiveStress"}

  /** Column positions of the default headset layout, used when no `cols` are given. */
  const FallbackIndices: map<string, nat> :=
    map["eng" := 1, "exc" := 3, "lex" := 4, "str" := 6, "rel" := 8, "int" := 10,
        "attention" := 12, "foc" := 12]

  /** `_indices_from_cols(cols)`: each recognised label mapped to the LAST position it occurs at. */
  function IndicesFromCols(cols: seq<Json>): (m: map<string, nat>)
    ensures forall k :: k in m <==> k in MetricLabels && Str(k) in cols
    ensures forall k :: k in m ==> m[k] < |cols| && cols[m[k]] == Str(k)
    ensures forall k, j :: k in m && m[k] < j < |cols| ==> cols[j] != Str(k)
    decreases |cols|
  {
    if |cols| == 0 then map[]
    else
      var front := cols[..|cols| - 1];
      var last := cols[|cols| - 1];
      assert cols == front + [last];
      var m := IndicesFromCols(front);
      if last.Str? && last.s in MetricLabels then m[last.s := |cols| - 1] else m
  }

  /** Why the source's parse raises instead of returning a snapshot. */
  datatype ParseError =
    | ColsNotIterable   // `cols` is a non-zero number or `true`: `enumerate` raises TypeError
    | UnorderedCols     // `cols` is an object: it enumerates its keys in insertion order,
                        // which a decoded map does not keep

  /** The label table the parse reads with, from `metrics.get("cols")`. A string is iterated
      character by character. */
  function SelectIndices(cols: Json): (r: Result<map<string, nat>, ParseError>)
    ensures !Truthy(cols) ==> r == Ok(FallbackIndices)
    ensures cols.Arr? && Truthy(cols) ==> r == Ok(IndicesFromCols(cols.items))
    ensures cols.Obj? && Truthy(cols) ==> r == Err(UnorderedCols)
    ensures (cols.Num? || cols.Bool?) && Truthy(cols) ==> r == Err(ColsNotIterable)
  {
    if !Truthy(cols) then Ok(FallbackIndices)
    else match cols
      case Arr(items) => Ok(IndicesFromCols(items))
      case Str(s) => Ok(IndicesFromCols(Chars(s)))
      case Obj(_) => Err(UnorderedCols)
      case _ => Err(ColsNotIterable)
  }

  /** A string as Python iterates it: one single-character string per character. */
  function Chars(s: string): (r: seq<Json>)
    ensures |r| == |s|
    ensures forall i :: 0 <= i < |s| ==> r[i] == Str([s[i]])
  {
    if |s| == 0 then [] else [Str([s[0]])] + Chars(s[1..])
  }

  lemma LabelsAreLong(k: string)
    requires k in MetricLabels
    ensures |k| >= 3
  {
  }

  /** A string `cols` selects nothing: every metric label is longer than one character. */
  lemma StringColsSelectNothing(s: string)
    requires |s| > 0
    ensures SelectIndices(Str(s)) == Ok(map[])
  {
    var cols := Chars(s);
    var m := IndicesFromCols(cols);
    forall k | k in m
      ensures false
    {
      var i := m[k];
      assert cols[i] == Str([s[i]]);
      assert |k| == 1;
      LabelsAreLong(k);
    }
    assert m == map[];
  }

  /** `float(v)` on a reading that is neither null nor a bool, with a caught error as `None`;
      `strToFloat` stands for Python's parse of a numeric string. */
  function AsFloat(v: Json, strToFloat: string -> Option<real>): (r: Option<real>)
    ensures v.Num? ==> r == Some(v.n)
    ensures (v.Null? || v.Bool? || v.Arr? || v.Obj?) ==> r == None
    ensures v.Str? ==> r == strToFloat(v.s)
  {
    match v
    case Num(n) => Some(n)
    case Str(s) => strToFloat(s)
    case _ => None
  }

  /** The reading at position `i`, or `None` past the end of the array. */
  function At(arr: seq<Json>, i: nat, strToFloat: string -> Option<real>): (r: Option<real>)
    ensures i >= |arr| ==> r == None
    ensures i < |arr| ==> r == AsFloat(arr[i], strToFloat)
  {
    if i < |arr| then AsFloat(arr[i], strToFloat) else None
  }

  /** `_val(metric)`: the reading at the metric's position, `None` for an unknown label. */
  function Reading(arr: seq<Json>, indices: map<string, nat>, metric: string,
                   strToFloat: string -> Option<real>): (r: Option<real>)
    ensures metric !in indices ==> r == None
    ensures metric in indices ==> r == At(arr, indices[metric], strToFloat)
  {
    if metric in indices then At(arr, indices[metric], strToFloat) else None
  }

  /** How a reading falls back on its alternative column (`str` on `cognitiveStress`,
      `attention` on `foc`). */
  datatype Fallback =
    | PythonOr   // `a or b`: a `None` and a `0.0` both fall through
    | IsNone     // only a missing reading falls through

  function Either(a: Option<real>, b: Option<real>, how: Fallback): (r: Option<real>)
    ensures a.Some? && a.value != 0.0 ==> r == a
    ensures a.None? ==> r == b
    ensures a == Some(0.0) ==> r == (if how == PythonOr then b else a)
  {
    match how
    case PythonOr => if a.Some? && a.value != 0.0 then a else b
    case IsNone => if a.Some? then a else b
  }

  /** `parse_met_to_mental_state(metrics)` with the given fallback rule. */
  function ParseMetWith(metrics: Object, strToFloat: string -> Option<real>, how: Fallback)
    : (r: Result<MentalStateSnapshot, ParseError>)
    // No usable `met` array: a blank snapshot that keeps the raw input.
    ensures !(Get(metrics, "met").Arr? && Truthy(Get(metrics, "met"))) ==>
              r == Ok(BlankMentalState(Obj(metrics)))
    // Otherwise the parse fails exactly when the column list cannot be read.
    ensures Get(metrics, "met").Arr? && Truthy(Get(metrics, "met")) ==>
              (r.Err? <==> SelectIndices(Get(metrics, "cols")).Err?)
    ensures r.Ok? ==> r.value.metrics == Obj(metrics)
  {
    var met := Get(metrics, "met");
    if !(met.Arr? && Truthy(met)) then Ok(BlankMentalState(Obj(metrics)))
    else
      var indices :- SelectIndices(Get(metrics, "cols"));
      Ok(ReadSnapshot(met.items, indices, strToFloat, how, metrics))
  }

  /** The snapshot read from a `met` array under a column table: stress and focus fall back
      from `str` to `cognitiveStress` and from `attention` to `foc`. */
  function ReadSnapshot(arr: seq<Json>, indices: map<string, nat>, strToFloat: string -> Option<real>,
                        how: Fallback, metrics: Object): MentalStateSnapshot
  {
    MentalStateSnapshot(
      engagement := Reading(arr, indices, "eng", strToFloat),
      stress := Either(Reading(arr, indices, "str", strToFloat),
                       Reading(arr, indices, "cognitiveStress", strToFloat), how),
      relaxation := Reading(arr, indices, "rel", strToFloat),
      focus := Either(Reading(arr, indices, "attention", strToFloat),
                      Reading(arr, indices, "foc", strToFloat), how),
      excitement := Reading(arr, indices, "exc", strToFloat),
      interest := Reading(arr, indices, "int", strToFloat),
      metrics := Obj(metrics))
  }

  /** The parse as the source writes it. */
  function ParseMet(metrics: Object, strToFloat: string -> Option<real>): Result<MentalStateSnapshot, ParseError>
  {
    ParseMetWith(metrics, strToFloat, PythonOr)
  }

  /** The parse with a `0.0` reading kept as a reading rather than taken for a missing one. */
  function ParseMetKeepingZero(metrics: Object, strToFloat: string -> Option<real>): Result<MentalStateSnapshot, ParseError>
  {
    ParseMetWith(metrics, strToFloat, IsNone)
  }

  /** Without `cols`, every metric is read from the default headset layout. The two focus
      columns share position 12, so focus is that reading whatever the fallback rule; stress
      has no alternative there, so under `or` a zero stress reads as missing. */
  lemma FallbackLayout(metrics: Object, strToFloat: string -> Option<real>, how: Fallback)
    requires Get(metrics, "met").Arr? && Truthy(Get(metrics, "met"))
    requires !Truthy(Get(metrics, "cols"))
    ensures var arr := Get(metrics, "met").items;
            var r := ParseMetWith(metrics, strToFloat, how);
            && r.Ok?
            && r.value.engagement == At(arr, 1, strToFloat)
            && r.value.excitement == At(arr, 3, strToFloat)
            && r.value.relaxation == At(arr, 8, strToFloat)
            && r.value.interest == At(arr, 10, strToFloat)
            && r.value.focus == At(arr, 12, strToFloat)
            && r.value.stress == (if how == PythonOr && At(arr, 6, strToFloat) == Some(0.0)
                                  then None else At(arr, 6, strToFloat))
  {
    assert "cognitiveStress" !in FallbackIndices;
  }

  /** The table built from a column list holds a label's last position. */
  lemma LastOccurrence(cols: seq<Json>, metric: string, j: nat)
    requires metric in MetricLabels
    requires j < |cols| && cols[j] == Str(metric)
    requires forall i :: j < i < |cols| ==> cols[i] != Str(metric)
    ensures metric in IndicesFromCols(cols) && IndicesFromCols(cols)[metric] == j
  {
  }

  /** With a column list, engagement is read at the last position `eng` occurs at, and is
      missing when `eng` does not occur. */
  lemma ColsLayout(metrics: Object, strToFloat: string -> Option<real>, how: Fallback, j: nat)
    requires Get(metrics, "met").Arr? && Truthy(Get(metrics, "met"))
    requires Get(metrics, "cols").Arr? && Truthy(Get(metrics, "cols"))
    ensures var cols := Get(metrics, "cols").items;
            var r := ParseMetWith(metrics, strToFloat, how);
            && r.Ok?
            && (Str("eng") !in cols ==> r.value.engagement == None)
            && (j < |cols| && cols[j] == Str("eng") && (forall i :: j < i < |cols| ==> cols[i] != Str("eng")) ==>
                  r.value.engagement == At(Get(metrics, "met").items, j, strToFloat))
  {
    var cols := Get(metrics, "cols").items;
    if j < |cols| && cols[j] == Str("eng") && (forall i :: j < i < |cols| ==> cols[i] != Str("eng")) {
      LastOccurrence(cols, "eng", j);
    }
  }

  /** The table of the two-column example below. */
  lemma TwoColumnTable()
    ensures IndicesFromCols([Str("eng"), Str("attention")]) == map["eng" := 0, "attention" := 1]
  {
    var cols := [Str("eng"), Str("attention")];
    assert cols[..1] == [Str("eng")];
    assert [Str("eng")][..0] == [];
    assert IndicesFromCols([Str("eng")]) == map["eng" := 0];
  }

  /** Engagement 0.2 and attention 0.0 under the columns `eng`, `attention`. */
  const ZeroAttention: Object :=
    map["met" := Arr([Num(0.2), Num(0.0)]), "cols" := Arr([Str("eng"), Str("attention")])]

  /** `ParseMetWith` once the `met` array and the column table are known. */
  lemma ParsedFrom(metrics: Object, strToFloat: string -> Option<real>, how: Fallback,
                   arr: seq<Json>, indices: map<string, nat>)
    requires Get(metrics, "met") == Arr(arr) && |arr| > 0
    requires SelectIndices(Get(metrics, "cols")) == Ok(indices)
    ensures ParseMetWith(metrics, strToFloat, how) == Ok(ReadSnapshot(arr, indices, strToFloat, how, metrics))
  {
  }

  /** The example's `met` array and column table. */
  lemma ZeroAttentionInput()
    ensures Get(ZeroAttention, "met") == Arr([Num(0.2), Num(0.0)])
    ensures SelectIndices(Get(ZeroAttention, "cols")) == Ok(map["eng" := 0, "attention" := 1])
  {
    TwoColumnTable();
    assert Get(ZeroAttention, "cols") == Arr([Str("eng"), Str("attention")]);
  }

  /** The example's readings: engagement 0.2 and attention 0.0, and nothing for stress or `foc`. */
  lemma ZeroAttentionColumns(strToFloat: string -> Option<real>)
    ensures var arr := [Num(0.2), Num(0.0)];
            var indices := map["eng" := 0, "attention" := 1];
            && Reading(arr, indices, "eng", strToFloat) == Some(0.2)
            && Reading(arr, indices, "attention", strToFloat) == Some(0.0)
            && Reading(arr, indices, "foc", strToFloat) == None
            && Reading(arr, indices, "str", strToFloat) == None
            && Reading(arr, indices, "cognitiveStress", strToFloat) == None
  {
    var indices := map["eng" := 0, "attention" := 1];
    assert indices["eng"] == 0 && indices["attention"] == 1;
  }

  lemma ZeroAttentionReadings(strToFloat: string -> Option<real>, how: Fallback)
    ensures var r := ParseMetWith(ZeroAttention, strToFloat, how);
            && r.Ok?
            && r.value.engagement == Some(0.2) && r.value.stress == None
            && r.value.focus == (if how == PythonOr then None else Some(0.0))
  {
    var indices := map["eng" := 0, "attention" := 1];
    var arr := [Num(0.2), Num(0.0)];
    ZeroAttentionInput();
    ParsedFrom(ZeroAttention, strToFloat, how, arr, indices);
    ZeroAttentionColumns(strToFloat);
  }

  /** A zero attention reading with no `foc` column is reported as missing focus, and a
      reader with low engagement and no attention is then told "focused". */
  lemma ZeroAttentionReadsAsMissing(strToFloat: string -> Option<real>)
    ensures ParseMet(ZeroAttention, strToFloat).Ok?
    ensures ParseMet(ZeroAttention, strToFloat).value.focus == None
    ensures DeriveLabel(Some(ParseMet(ZeroAttention, strToFloat).value)) == Focused
  {
    ZeroAttentionReadings(strToFloat, PythonOr);
    var ms := ParseMet(ZeroAttention, strToFloat).value;
    assert Engagement(ms) == 0.2 && Stress(ms) == 0.4 && Focus(ms) == 0.5;
  }

  /** Kept as a reading, the same zero attention makes the reader read as distracted. */
  lemma ZeroAttentionKept(strToFloat: string -> Option<real>)
    ensures ParseMetKeepingZero(ZeroAttention, strToFloat).Ok?
    ensures ParseMetKeepingZero(ZeroAttention, strToFloat).value.focus == Some(0.0)
    ensures DeriveLabel(Some(ParseMetKeepingZero(ZeroAttention, strToFloat).value)) == Distracted
  {
    ZeroAttentionReadings(strToFloat, IsNone);
    var ms := ParseMetKeepingZero(ZeroAttention, strToFloat).value;
    assert Engagement(ms) == 0.2 && Stress(ms) == 0.4 && Focus(ms) == 0.0;
  }

  /** Under the corrected rule a present reading is never replaced by its alternative. */
  lemma KeepingZeroKeepsReadings(metrics: Object, strToFloat: string -> Option<real>)
    requires Get(metrics, "met").Arr? && Truthy(Get(metrics, "met"))
    requires SelectIndices(Get(metrics, "cols")).Ok?
    ensures ParseMetKeepingZero(metrics, strToFloat).Ok?
    ensures var arr := Get(metrics, "met").items;
            var indices := SelectIndices(Get(metrics, "cols")).value;
            var ms := ParseMetKeepingZero(metrics, strToFloat).value;
            && (Reading(arr, indices, "attention", strToFloat).Some? ==>
                  ms.focus == Reading(arr, indices, "attention", strToFloat))
            && (Reading(arr, indices, "str", strToFloat).Some? ==>
                  ms.stress == Reading(arr, indices, "str", strToFloat))
  {
    var arr := Get(metrics, "met").items;
    ParsedFrom(metrics, strToFloat, IsNone, arr, SelectIndices(Get(metrics, "cols")).value);
  }

  /** The label told to the agent. */
  datatype Label = Confused | Stuck | Distracted | Focused {
    /** The label's string on the wire. */
    function Value(): (s: string)
      ensures s == "confused" <==> this == Confused
      ensures s == "stuck" <==> this == Stuck
      ensures s == "distracted" <==> this == Distracted
      ensures s == "focused" <==> this == Focused
    {
      match this
      case Confused => "confused"
      case Stuck => "stuck"
      case Distracted => "distracted"
      case Focused => "focused"
    }
  }

  /** The readings the label table reads, with the source's defaults for a missing one. */
  function Engagement(ms: MentalStateSnapshot): real { ms.engagement.GetOr(0.5) }
  function Stress(ms: MentalStateSnapshot): real { ms.stress.GetOr(0.4) }
  function Focus(ms: MentalStateSnapshot): real { ms.focus.GetOr(0.5) }

  /** The decision table on (engagement, stress, focus) as the source orders it. */
  function LabelOf(eng: real, stress: real, focus: real): (r: Label)
    // The "stuck" rule comes after a weaker "confused" rule, so it never decides.
    ensures r != Stuck
    // Rule 1: low engagement under stress.
    ensures eng < 0.4 && stress > 0.5 ==> r == Confused
    // Distracted exactly when rule 1 fails and focus and engagement are both low.
    ensures r == Distracted <==> !(eng < 0.4 && stress > 0.5) && focus < 0.35 && eng < 0.45
    // Otherwise engaged, attentive and calm is focused, and remaining stress above 0.55 is confused.
    ensures r == Confused <==>
              || (eng < 0.4 && stress > 0.5)
              || (&& !(focus < 0.35 && eng < 0.45)
                  && !(eng >= 0.5 && focus >= 0.4 && stress < 0.6)
                  && stress > 0.55)
    ensures r == Confused ==> stress > 0.5
    ensures r == Distracted ==> focus < 0.35 && eng < 0.45
    ensures eng >= 0.5 && focus >= 0.4 && stress < 0.6 ==> r == Focused
    ensures stress >= 0.6 ==> r == Confused || r == Distracted
    ensures stress <= 0.5 && focus >= 0.35 ==> r == Focused
  {
    if eng < 0.4 && stress > 0.5 then Confused
    else if eng < 0.35 && stress > 0.55 && focus < 0.4 then Stuck
    else if focus < 0.35 && eng < 0.45 then Distracted
    else if eng >= 0.5 && focus >= 0.4 && stress < 0.6 then Focused
    else if stress > 0.55 then Confused
    else Focused
  }

  /** `derive_mental_state_label(ms)`. */
  function DeriveLabel(ms: Option<MentalStateSnapshot>): (r: Label)
    ensures r == Stuck <==> ms.None?
    ensures ms.Some? ==> r == LabelOf(Engagement(ms.value), Stress(ms.value), Focus(ms.value))
  {
    if ms.None? then Stuck
    else LabelOf(Engagement(ms.value), Stress(ms.value), Focus(ms.value))
  }

  /** A snapshot with every metric missing takes the defaults and reads as focused; only a
      missing snapshot reads as stuck. */
  lemma AllMissingIsFocused(metrics: Json)
    ensures DeriveLabel(Some(BlankMentalState(metrics))) == Focused
    ensures DeriveLabel(None) == Stuck
  {
    var ms := BlankMentalState(metrics);
    assert Engagement(ms) == 0.5 && Stress(ms) == 0.4 && Focus(ms) == 0.5;
  }

  /** The documented examples. */
  lemma LabelExamples(metrics: Json)
    ensures DeriveLabel(Some(BlankMentalState(metrics).(engagement := Some(0.2), stress := Some(0.6)))) == Confused
    ensures DeriveLabel(Some(BlankMentalState(metrics).(engagement := Some(0.8), focus := Some(0.9), stress := Some(0.1)))) == Focused
  {
    var a := BlankMentalState(metrics).(engagement := Some(0.2), stress := Some(0.6));
    assert Engagement(a) == 0.2 && Stress(a) == 0.6;
    var b := BlankMentalState(metrics).(engagement := Some(0.8), focus := Some(0.9), stress := Some(0.1));
    assert Engagement(b) == 0.8 && Stress(b) == 0.1 && Focus(b) == 0.9;
  }

  /** The decision table with the stronger "stuck" rule checked before "confused". */
  function LabelOfStuckFirst(eng: real, stress: real, focus: real): (r: Label)
    ensures r == Stuck <==> eng < 0.35 && stress > 0.55 && focus < 0.4
    ensures r != Stuck ==> r == LabelOf(eng, stress, focus)
  {
    if eng < 0.35 && stress > 0.55 && focus < 0.4 then Stuck
    else LabelOf(eng, stress, focus)
  }

  /** A struggling reader (low engagement, high stress, low focus) is told "confused" by the
      source's order and "stuck" once the stronger rule comes first. */
  lemma StruggleExample()
    ensures LabelOf(0.2, 0.8, 0.1) == Confused
    ensures LabelOfStuckFirst(0.2, 0.8, 0.1) == Stuck
  {
  }
}
