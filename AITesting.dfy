/** The stand-alone diagnosis test page (src/components/AITesting.tsx): the
    form held as an object of named values, the generic input handler, the
    request with its `||` defaults and 0/1 flags, the confidence level of a
    prediction, the disease colours and the reset. */
module AITesting {
  import opened Js
  import AdvancedAI

  /** A value of the form object: a text input's string, a checkbox's
      boolean, or `undefined` for a name the object does not hold. */
  datatype FormValue = Undefined | Bool(b: bool) | Text(s: string)

  type Form = map<string, FormValue>

  const TextFields: seq<string> := ["temperature", "fever_days", "platelet_count"]
  const CheckboxFields: seq<string> :=
    ["headache", "body_pain", "eye_pain", "nausea_vomiting", "abdominal_pain",
     "rash", "bleeding", "mosquito_exposure", "travel"]

  /** The form the page starts with and `resetForm` restores. */
  const InitialForm: Form :=
    map["temperature" := Text(""), "fever_days" := Text(""),
        "headache" := Bool(false), "body_pain" := Bool(false), "eye_pain" := Bool(false),
        "nausea_vomiting" := Bool(false), "abdominal_pain" := Bool(false),
        "rash" := Bool(false), "bleeding" := Bool(false), "platelet_count" := Text(""),
        "mosquito_exposure" := Bool(false), "travel" := Bool(false)]

  function Get(f: Form, name: string): FormValue
  {
    if name in f then f[name] else Undefined
  }

  /** JavaScript truthiness of a form value. */
  predicate Truthy(v: FormValue)
  {
    match v
    case Undefined => false
    case Bool(b) => b
    case Text(s) => s != ""
  }

  /** The string that `parseFloat`/`parseInt` see after coercion. */
  function AsText(v: FormValue): string
  {
    match v
    case Undefined => "undefined"
    case Bool(b) => if b then "true" else "false"
    case Text(s) => s
  }

  /** The `e.target` fields the handler reads. */
  datatype InputEvent = InputEvent(name: string, value: string, inputType: string, checked: bool)

  /** `handleInputChange`: the named entry becomes `checked` for a checkbox
      and `value` otherwise; every other entry is unchanged. */
  function HandleInput(f: Form, e: InputEvent): (r: Form)
    ensures Get(r, e.name) == (if e.inputType == "checkbox" then Bool(e.checked) else Text(e.value))
    ensures forall k :: k != e.name ==> Get(r, k) == Get(f, k)
    ensures r.Keys == f.Keys + {e.name}
  {
    f[e.name := if e.inputType == "checkbox" then Bool(e.checked) else Text(e.value)]
  }

  /** Checking a box of the initial form sets that flag and nothing else. */
  lemma CheckboxTouchesOneFlag(name: string, checked: bool, value: string)
    requires name in CheckboxFields
    ensures var r := HandleInput(InitialForm, InputEvent(name, value, "checkbox", checked));
      && Truthy(Get(r, name)) == checked
      && forall k :: k in TextFields ==> Get(r, k) == Text("")
  {
  }

  /** The body of `POST /predict`. */
  datatype ApiData = ApiData(
    temperature: real,
    feverDays: real,
    headache: int,
    bodyPain: int,
    eyePain: int,
    nauseaVomiting: int,
    abdominalPain: int,
    rash: int,
    bleeding: int,
    plateletCount: real,
    mosquitoExposure: int,
    travel: int)

  function FlagOf(f: Form, name: string): (r: int)
    ensures r == 1 <==> Truthy(Get(f, name))
    ensures r == 0 || r == 1
  {
    Bit(Truthy(Get(f, name)))
  }

  /** `apiData`: `parseFloat(x) || d` replaces NaN and 0 alike by the
      default, so the defaults are 100, 3 and 200. */
  function ApiDataOf(f: Form, parseFloat: string -> Num, parseInt: string -> Num): (r: ApiData)
    ensures var t := parseFloat(AsText(Get(f, "temperature")));
      r.temperature == (if t.Finite? && t.value != 0.0 then t.value else 100.0)
    ensures var d := parseInt(AsText(Get(f, "fever_days")));
      r.feverDays == (if d.Finite? && d.value != 0.0 then d.value else 3.0)
    ensures var p := parseFloat(AsText(Get(f, "platelet_count")));
      r.plateletCount == (if p.Finite? && p.value != 0.0 then p.value else 200.0)
    ensures r.temperature != 0.0 && r.feverDays != 0.0 && r.plateletCount != 0.0
    ensures r.headache == 1 <==> Truthy(Get(f, "headache"))
    ensures r.bodyPain == 1 <==> Truthy(Get(f, "body_pain"))
    ensures r.eyePain == 1 <==> Truthy(Get(f, "eye_pain"))
    ensures r.nauseaVomiting == 1 <==> Truthy(Get(f, "nausea_vomiting"))
    ensures r.abdominalPain == 1 <==> Truthy(Get(f, "abdominal_pain"))
    ensures r.rash == 1 <==> Truthy(Get(f, "rash"))
    ensures r.bleeding == 1 <==> Truthy(Get(f, "bleeding"))
    ensures r.mosquitoExposure == 1 <==> Truthy(Get(f, "mosquito_exposure"))
    ensures r.travel == 1 <==> Truthy(Get(f, "travel"))
    ensures IsFlagData(r)
  {
    ApiData(
      NumOr(parseFloat(AsText(Get(f, "temperature"))), 100.0),
      NumOr(parseInt(AsText(Get(f, "fever_days"))), 3.0),
      FlagOf(f, "headache"), FlagOf(f, "body_pain"), FlagOf(f, "eye_pain"),
      FlagOf(f, "nausea_vomiting"), FlagOf(f, "abdominal_pain"), FlagOf(f, "rash"),
      FlagOf(f, "bleeding"),
      NumOr(parseFloat(AsText(Get(f, "platelet_count"))), 200.0),
      FlagOf(f, "mosquito_exposure"), FlagOf(f, "travel"))
  }

  predicate IsFlagData(r: ApiData)
  {
    && r.headache in {0, 1} && r.bodyPain in {0, 1} && r.eyePain in {0, 1}
    && r.nauseaVomiting in {0, 1} && r.abdominalPain in {0, 1} && r.rash in {0, 1}
    && r.bleeding in {0, 1} && r.mosquitoExposure in {0, 1} && r.travel in {0, 1}
  }

  /** The untouched form sends the three defaults and no symptom, given that
      both parsers read the empty string as NaN. */
  lemma InitialFormDefaults(parseFloat: string -> Num, parseInt: string -> Num)
    requires parseFloat("") == NaN && parseInt("") == NaN
    ensures ApiDataOf(InitialForm, parseFloat, parseInt)
         == ApiData(100.0, 3.0, 0, 0, 0, 0, 0, 0, 0, 200.0, 0, 0)
  {
  }

  /** A typed zero is treated as missing. */
  lemma ZeroTemperatureDefaults(f: Form, parseFloat: string -> Num, parseInt: string -> Num)
    requires parseFloat(AsText(Get(f, "temperature"))) == Finite(0.0)
    ensures ApiDataOf(f, parseFloat, parseInt).temperature == 100.0
  {
  }

  /** The level shown for a prediction's confidence. */
  datatype Level = Level(level: string, color: string)

  const HighLevel: Level := Level("High Confidence", "#27ae60")
  const ModerateLevel: Level := Level("Moderate Confidence", "#f39c12")
  const LowLevel: Level := Level("Low Confidence", "#e74c3c")

  /** `getSeverityLevel`. */
  function SeverityLevel(confidence: real): (l: Level)
    ensures l == HighLevel <==> confidence >= 90.0
    ensures l == ModerateLevel <==> 70.0 <= confidence < 90.0
    ensures l == LowLevel <==> confidence < 70.0
  {
    if confidence >= 90.0 then HighLevel
    else if confidence >= 70.0 then ModerateLevel
    else LowLevel
  }

  /** A higher confidence never shows a lower level. */
  lemma SeverityLevelMonotone(a: real, b: real)
    requires a <= b
    ensures SeverityLevel(a) == HighLevel ==> SeverityLevel(b) == HighLevel
    ensures SeverityLevel(a) == ModerateLevel ==> SeverityLevel(b) != LowLevel
  {
  }

  const DiseaseColors: map<string, string> :=
    map["Dengue" := "#ff6b6b", "Malaria" := "#4ecdc4", "Typhoid" := "#45b7d1",
        "Viral" := "#96ceb4", "Other" := "#ffeaa7"]

  /** `getDiseaseColor`: `colors[disease] || '#dfe6e9'`. */
  function DiseaseColor(disease: string): (c: string)
    ensures disease in DiseaseColors ==> c == DiseaseColors[disease]
    ensures c == "#dfe6e9" <==> disease !in DiseaseColors
  {
    if disease in DiseaseColors then DiseaseColors[disease] else "#dfe6e9"
  }

  /** This page and the diagnosis page colour every disease the same way. */
  lemma DiseaseColorsAgree(disease: string)
    ensures DiseaseColor(disease) == AdvancedAI.DiseaseColor(disease)
  {
  }

  /** What the service returned, as far as the page uses it. */
  datatype Prediction = Prediction(prediction: string, confidence: real)

  /** The outcome of the `POST /predict` call. */
  datatype ServiceOutcome = Predicted(result: Prediction) | Failed(serverError: Option<string>)

  const DefaultError: string := "Failed to get prediction. Please try again."

  /** The page and its state. */
  class TestPage {
    var formData: Form
    var result: Option<Prediction>
    var error: Option<string>
    var loading: bool

    constructor ()
      ensures formData == InitialForm && result.None? && error.None? && !loading
    {
      formData := InitialForm;
      result := None;
      error := None;
      loading := false;
    }

    method HandleInputChange(e: InputEvent)
      modifies this`formData
      ensures formData == HandleInput(old(formData), e)
    {
      formData := formData[e.name := if e.inputType == "checkbox" then Bool(e.checked) else Text(e.value)];
    }

    /** `handleSubmit`: the request sent, then either the result or an error
        (the server's message, or the fixed one when it sent none). */
    method HandleSubmit(parseFloat: string -> Num, parseInt: string -> Num, outcome: ServiceOutcome)
      returns (sent: ApiData)
      modifies this`result, this`error, this`loading
      ensures sent == ApiDataOf(formData, parseFloat, parseInt)
      ensures !loading
      ensures outcome.Predicted? ==> result == Some(outcome.result) && error.None?
      ensures outcome.Failed? ==>
        result.None? && error == Some(OptStrOr(outcome.serverError, DefaultError))
    {
      loading := true;
      error := None;
      result := None;
      sent := ApiDataOf(formData, parseFloat, parseInt);
      match outcome {
        case Predicted(r) => result := Some(r);
        case Failed(e) => error := Some(OptStrOr(e, DefaultError));
      }
      loading := false;
    }

    /** `resetForm`: the initial form, and neither result nor error. */
    method ResetForm()
      modifies this`formData, this`result, this`error
      ensures formData == InitialForm && result.None? && error.None?
    {
      formData := InitialForm;
      result := None;
      error := None;
    }
  }
}
