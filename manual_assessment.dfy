/** The manual risk assessment page: a form of 23 text fields, demo presets,
    a request to the prediction service and the banner that shows its answer. */
module ManualAssessment {

  import opened Wrappers
  import opened Text

  /** The form's fields, in the order they are declared (and so the order of
      `Object.keys(form)`). */
  const FieldNames: seq<string> := [
    "limit_bal", "age", "sex", "education", "marriage",
    "pay_0", "pay_2", "pay_3", "pay_4", "pay_5", "pay_6",
    "bill_amt1", "bill_amt2", "bill_amt3", "bill_amt4", "bill_amt5", "bill_amt6",
    "pay_amt1", "pay_amt2", "pay_amt3", "pay_amt4", "pay_amt5", "pay_amt6"]

  const Fields: set<string> := set k | k in FieldNames

  /** The five fields shown even on a narrow screen with the form collapsed. */
  const BasicFields: seq<string> := FieldNames[..5]

  lemma FieldNamesDistinct()
    ensures forall i, j :: 0 <= i < j < |FieldNames| ==> FieldNames[i] != FieldNames[j]
  {
  }

  /** A sequence without repeats has as many distinct elements as entries. */
  lemma {:induction false} DistinctCardinality(s: seq<string>)
    requires forall i, j :: 0 <= i < j < |s| ==> s[i] != s[j]
    ensures |set x | x in s| == |s|
  {
    if s != [] {
      DistinctCardinality(s[1..]);
      assert (set x | x in s) == {s[0]} + (set x | x in s[1..]);
      assert s[0] !in (set x | x in s[1..]);
    }
  }

  /** The form has exactly 23 fields. */
  lemma FieldCount()
    ensures |Fields| == |FieldNames| == 23
  {
    FieldNamesDistinct();
    DistinctCardinality(FieldNames);
  }

  /** `PredictionResult`: the body of a successful answer from the service. */
  datatype PredictionResult = PredictionResult(
    riskScore: real,
    riskLevel: string,
    recommendedAction: string,
    reason: string)

  /** A form with every field empty. */
  function Blank(keys: set<string>): (form: map<string, string>)
    ensures form.Keys == keys
    ensures forall k :: k in form ==> form[k] == ""
  {
    map k | k in keys :: ""
  }

  datatype DemoKind = Low | Medium | High

  /** The three presets of the demo buttons. */
  function Demo(kind: DemoKind): map<string, string>
  {
    match kind
    case Low => map[
      "limit_bal" := "200000", "age" := "35", "sex" := "2", "education" := "2", "marriage" := "1",
      "pay_0" := "-1", "pay_2" := "-1", "pay_3" := "0", "pay_4" := "0", "pay_5" := "-1", "pay_6" := "0",
      "bill_amt1" := "50000", "bill_amt2" := "48000", "bill_amt3" := "47000",
      "bill_amt4" := "46000", "bill_amt5" := "45000", "bill_amt6" := "44000",
      "pay_amt1" := "15000", "pay_amt2" := "14000", "pay_amt3" := "13000",
      "pay_amt4" := "12000", "pay_amt5" := "11000", "pay_amt6" := "10000"]
    case Medium => map[
      "limit_bal" := "100000", "age" := "30", "sex" := "1", "education" := "2", "marriage" := "2",
      "pay_0" := "1", "pay_2" := "1", "pay_3" := "0", "pay_4" := "1", "pay_5" := "0", "pay_6" := "1",
      "bill_amt1" := "35000", "bill_amt2" := "36000", "bill_amt3" := "37000",
      "bill_amt4" := "38000", "bill_amt5" := "39000", "bill_amt6" := "40000",
      "pay_amt1" := "5000", "pay_amt2" := "4500", "pay_amt3" := "4000",
      "pay_amt4" := "3500", "pay_amt5" := "3000", "pay_amt6" := "2500"]
    case High => map[
      "limit_bal" := "30000", "age" := "28", "sex" := "1", "education" := "1", "marriage" := "2",
      "pay_0" := "3", "pay_2" := "3", "pay_3" := "2", "pay_4" := "2", "pay_5" := "3", "pay_6" := "3",
      "bill_amt1" := "28000", "bill_amt2" := "29000", "bill_amt3" := "30000",
      "bill_amt4" := "30000", "bill_amt5" := "30000", "bill_amt6" := "30000",
      "pay_amt1" := "500", "pay_amt2" := "400", "pay_amt3" := "300",
      "pay_amt4" := "200", "pay_amt5" := "100", "pay_amt6" := "50"]
  }

  /** Every preset fills every field, so loading one replaces the whole form. */
  lemma DemoCoversAllFields(kind: DemoKind)
    ensures Demo(kind).Keys == Fields
  {
  }

  /** `parseFloat(v) || 0`: the number the text starts with, or 0 when it does
      not start with one. `parse` stands for `parseFloat`, with `None` for NaN. */
  function NumberOrZero(parse: string -> Option<real>, v: string): real
  {
    match parse(v)
    case Some(x) => x
    case None => 0.0
  }

  /** The request body for a form: every field, as a number. */
  function Payload(form: map<string, string>, parse: string -> Option<real>): (payload: map<string, real>)
    ensures payload.Keys == form.Keys
  {
    map k | k in form :: NumberOrZero(parse, form[k])
  }

  /** A cleared form is sent as all zeros, since `parseFloat("")` is NaN. */
  lemma BlankPayloadIsZero(keys: set<string>, parse: string -> Option<real>)
    requires parse("") == None
    ensures forall k :: k in keys ==> k in Payload(Blank(keys), parse) && Payload(Blank(keys), parse)[k] == 0.0
  {
  }

  /** What `res.json()` yields: not JSON at all (it throws), or an object with an
      `error` field (empty when absent or falsy) and the prediction fields. */
  datatype Body = NotJson(message: string) | Json(errorField: string, prediction: PredictionResult)

  /** How the request ends: `fetch` throws, or the server answers with a status and a body. */
  datatype Outcome = Rejected(message: string) | Responded(status: nat, body: Body)

  const Fallback: string := "Failed to connect to prediction service"

  /** `err.message || "Failed to connect to prediction service"`. */
  function Message(thrown: string): (shown: string)
    ensures shown != []
    ensures thrown != [] ==> shown == thrown
    ensures thrown == [] ==> shown == Fallback
  {
    if thrown == [] then Fallback else thrown
  }

  /** `res.ok`: a status in the range 200-299. */
  predicate Ok(status: nat)
  {
    200 <= status <= 299
  }

  datatype Settled = Succeeded(prediction: PredictionResult) | Failed(message: string)

  /** How `predict` settles an outcome: a prediction only for a 2xx answer whose
      JSON carries no error, and otherwise a message that is never empty. */
  function Settle(outcome: Outcome): (settled: Settled)
    ensures settled.Failed? ==> settled.message != []
    ensures settled.Succeeded? <==>
      outcome.Responded? && Ok(outcome.status) && outcome.body.Json? && outcome.body.errorField == []
    ensures settled.Succeeded? ==> settled.prediction == outcome.body.prediction
    ensures outcome.Responded? && !Ok(outcome.status) ==>
      settled == Failed("Server responded with " + NatToString(outcome.status))
    ensures outcome.Responded? && Ok(outcome.status) && outcome.body.Json? && outcome.body.errorField != [] ==>
      settled == Failed(outcome.body.errorField)
  {
    match outcome
    case Rejected(m) => Failed(Message(m))
    case Responded(status, body) =>
      if !Ok(status) then Failed(Message("Server responded with " + NatToString(status)))
      else match body
        case NotJson(m) => Failed(Message(m))
        case Json(e, p) => if e != [] then Failed(Message(e)) else Succeeded(p)
  }

  /** The status of a failed answer can be read back from its message. */
  lemma StatusRecoverable(status: nat, body: Body)
    requires !Ok(status)
    ensures var m := Settle(Responded(status, body)).message;
      var prefix := "Server responded with ";
      && |prefix| < |m| && m[..|prefix|] == prefix
      && IsDigits(m[|prefix|..]) && DigitsValue(m[|prefix|..]) == status
  {
    var prefix := "Server responded with ";
    var m := Settle(Responded(status, body)).message;
    assert m[|prefix|..] == NatToString(status);
    assert m[..|prefix|] == prefix;
    NatToStringRoundTrip(status);
  }

  /** The fields rendered: the five basic ones always, all 23 once expanded or
      on a screen at least 640 pixels wide. */
  function VisibleFields(showAllFields: bool, innerWidth: int): (shown: seq<string>)
    ensures BasicFields <= shown
    ensures showAllFields || innerWidth >= 640 ==> shown == FieldNames
    ensures forall k :: k in shown ==> k in Fields
  {
    if showAllFields || innerWidth >= 640 then FieldNames else BasicFields
  }

  const EmeraldStyle: string := "bg-emerald-50 border-emerald-200 text-emerald-800"
  const AmberStyle: string := "bg-amber-50 border-amber-200 text-amber-800"
  const RoseStyle: string := "bg-rose-50 border-rose-200 text-rose-800"

  /** `getRiskStyle`: no style without a result; otherwise green when the level
      mentions LOW, amber when it mentions MEDIUM but not LOW, red otherwise. */
  function RiskStyle(result: Option<PredictionResult>): (style: string)
    ensures style == "" <==> result.None?
    ensures style == EmeraldStyle <==> result.Some? && Contains(result.value.riskLevel, "LOW")
    ensures style == AmberStyle <==>
      result.Some? && !Contains(result.value.riskLevel, "LOW") && Contains(result.value.riskLevel, "MEDIUM")
    ensures style == RoseStyle <==>
      result.Some? && !Contains(result.value.riskLevel, "LOW") && !Contains(result.value.riskLevel, "MEDIUM")
  {
    match result
    case None => ""
    case Some(r) =>
      if Contains(r.riskLevel, "LOW") then EmeraldStyle
      else if Contains(r.riskLevel, "MEDIUM") then AmberStyle
      else RoseStyle
  }

  datatype Glyph = CheckCircle | AlertTriangle

  /** An icon in the result banner's heading. */
  datatype LevelIcon = LevelIcon(glyph: Glyph, color: string)

  /** The heading's icons: one for each of LOW, MEDIUM and HIGH the level mentions. */
  function LevelIcons(level: string): (icons: seq<LevelIcon>)
    ensures |icons| <= 3
    ensures LevelIcon(CheckCircle, "text-emerald-600") in icons <==> Contains(level, "LOW")
    ensures LevelIcon(AlertTriangle, "text-amber-600") in icons <==> Contains(level, "MEDIUM")
    ensures LevelIcon(AlertTriangle, "text-rose-600") in icons <==> Contains(level, "HIGH")
  {
    (if Contains(level, "LOW") then [LevelIcon(CheckCircle, "text-emerald-600")] else [])
    + (if Contains(level, "MEDIUM") then [LevelIcon(AlertTriangle, "text-amber-600")] else [])
    + (if Contains(level, "HIGH") then [LevelIcon(AlertTriangle, "text-rose-600")] else [])
  }

  /** The page's state: the form's text fields, the last result or error, the
      request in flight and whether the collapsed fields are expanded. */
  class Assessment {
    var form: map<string, string>
    var result: Option<PredictionResult>
    var loading: bool
    var error: Option<string>
    var showAllFields: bool

    /** The form always holds exactly the 23 fields. */
    ghost predicate Valid()
      reads this
    {
      form.Keys == Fields
    }

    constructor ()
      ensures Valid() && form == Blank(Fields)
      ensures result == None && !loading && error == None && !showAllFields
    {
      form := Blank(Fields);
      result := None;
      loading := false;
      error := None;
      showAllFields := false;
    }

    /** `handleChange`: the edited field takes the typed text and the error is
        dismissed. Inputs exist only for the form's own fields. */
    method HandleChange(name: string, value: string)
      requires Valid() && name in Fields
      modifies this
      ensures Valid()
      ensures form == old(form)[name := value] && error == None
      ensures result == old(result) && loading == old(loading) && showAllFields == old(showAllFields)
    {
      form := form[name := value];
      error := None;
    }

    /** `loadDemo`: the preset is merged over the form, which replaces every field. */
    method LoadDemo(kind: DemoKind)
      requires Valid()
      modifies this
      ensures Valid()
      ensures form == old(form) + Demo(kind) && form == Demo(kind)
      ensures result == old(result) && error == old(error)
      ensures loading == old(loading) && showAllFields == old(showAllFields)
    {
      DemoCoversAllFields(kind);
      form := form + Demo(kind);
    }

    /** "Clear Form": every field emptied, result and error dropped. */
    method Clear()
      requires Valid()
      modifies this
      ensures Valid()
      ensures form == Blank(old(form).Keys) && result == None && error == None
      ensures loading == old(loading) && showAllFields == old(showAllFields)
    {
      form := Blank(form.Keys);
      result := None;
      error := None;
    }

    /** "Show all fields" / "Show fewer fields". */
    method ToggleFields()
      modifies this
      ensures showAllFields == !old(showAllFields)
      ensures form == old(form) && result == old(result) && error == old(error) && loading == old(loading)
    {
      showAllFields := !showAllFields;
    }

    /** `buildPayload`: one number per key of the form, in key order. */
    method BuildPayload(parse: string -> Option<real>) returns (payload: map<string, real>)
      requires Valid()
      ensures payload == Payload(form, parse)
    {
      payload := map[];
      for i := 0 to |FieldNames|
        invariant payload.Keys == set k | k in FieldNames[..i]
        invariant forall k :: k in payload ==> k in form && payload[k] == NumberOrZero(parse, form[k])
      {
        var key := FieldNames[i];
        assert FieldNames[..i + 1] == FieldNames[..i] + [key];
        payload := payload[key := NumberOrZero(parse, form[key])];
      }
      assert FieldNames[..|FieldNames|] == FieldNames;
    }

    /** The start of `predict`: the button is disabled while a request is in
        flight; the previous result and error are cleared. */
    method StartPredict()
      requires !loading
      modifies this
      ensures loading && result == None && error == None
      ensures form == old(form) && showAllFields == old(showAllFields)
    {
      loading := true;
      error := None;
      result := None;
    }

    /** The end of `predict`: exactly one of a result and a non-empty error is
        set, and the request is no longer in flight. */
    method Finish(outcome: Outcome)
      modifies this
      ensures !loading && form == old(form) && showAllFields == old(showAllFields)
      ensures result.Some? != error.Some?
      ensures error.Some? ==> error.value != []
      ensures Settle(outcome).Succeeded? ==> result == Some(Settle(outcome).prediction)
      ensures Settle(outcome).Failed? ==> error == Some(Settle(outcome).message)
    {
      match Settle(outcome) {
        case Succeeded(p) =>
          result := Some(p);
          error := None;
        case Failed(m) =>
          result := None;
          error := Some(m);
      }
      loading := false;
    }

    /** `predict` when nothing else happens while the request is in flight: the
        answer `server` gives to the payload of the current form is settled. */
    method Predict(parse: string -> Option<real>, server: map<string, real> -> Outcome)
      requires Valid() && !loading
      modifies this
      ensures Valid() && !loading && form == old(form)
      ensures var settled := Settle(server(Payload(old(form), parse)));
        && (settled.Succeeded? ==> result == Some(settled.prediction) && error == None)
        && (settled.Failed? ==> error == Some(settled.message) && result == None)
    {
      StartPredict();
      var payload := BuildPayload(parse);
      Finish(server(payload));
    }
  }
}
