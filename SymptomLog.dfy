/** The quick symptom log page (src/pages/SymptomLog.tsx): the selection of
    symptoms with their severities, the validation schema of a quick log, the
    array of symptoms built from the selection and the reset after a
    successful submit.

    The selection is a JavaScript object used as a dictionary, so it is
    modelled as a list of entries in insertion order, with no key twice.
    That is the order in which `Object.entries` lists string keys; integer-like
    keys would come first in ascending order, but the keys here are the
    page's symptom names, none of which looks like an integer. */
module SymptomLog {
  import opened Js

  /** The symptoms the page offers. */
  const SymptomTypes: seq<string> :=
    ["Headache", "Body Ache", "Chills", "Fatigue", "Nausea", "Cough", "Sore Throat", "Loss of Appetite"]

  /** One key of the selection object and its severity. */
  datatype Entry = Entry(key: string, severity: int)

  /** The keys of the selection, as a set. */
  function Keys(es: seq<Entry>): set<string>
  {
    if es == [] then {} else {es[0].key} + Keys(es[1..])
  }

  /** An object holds each key at most once. */
  ghost predicate UniqueKeys(es: seq<Entry>)
  {
    es == [] || (es[0].key !in Keys(es[1..]) && UniqueKeys(es[1..]))
  }

  /** Uniqueness stated pointwise: no two positions hold the same key. */
  lemma {:induction false} UniqueKeysPointwise(es: seq<Entry>, i: int, j: int)
    requires UniqueKeys(es)
    requires 0 <= i < j < |es|
    ensures es[i].key != es[j].key
  {
    if i == 0 {
      KeyAtIndexInKeys(es[1..], j - 1);
    } else {
      UniqueKeysPointwise(es[1..], i - 1, j - 1);
    }
  }

  lemma {:induction false} KeyAtIndexInKeys(es: seq<Entry>, i: int)
    requires 0 <= i < |es|
    ensures es[i].key in Keys(es)
  {
    if i > 0 {
      KeyAtIndexInKeys(es[1..], i - 1);
    }
  }

  /** `selected[key]`, `undefined` when the key is absent. */
  function Lookup(es: seq<Entry>, k: string): (r: Option<int>)
    ensures r.Some? <==> k in Keys(es)
  {
    if es == [] then None
    else if es[0].key == k then Some(es[0].severity)
    else Lookup(es[1..], k)
  }

  /** `delete selected[key]`. */
  function RemoveKey(es: seq<Entry>, k: string): (r: seq<Entry>)
    ensures Lookup(r, k).None?
    ensures forall j :: j != k ==> Lookup(r, j) == Lookup(es, j)
    ensures Keys(r) == Keys(es) - {k}
    ensures UniqueKeys(es) ==> UniqueKeys(r)
  {
    if es == [] then []
    else if es[0].key == k then RemoveKey(es[1..], k)
    else [es[0]] + RemoveKey(es[1..], k)
  }

  /** `selected[key] = value`: an existing key keeps its place, a new key
      goes last. */
  function Assign(es: seq<Entry>, k: string, v: int): (r: seq<Entry>)
    ensures Lookup(r, k) == Some(v)
    ensures forall j :: j != k ==> Lookup(r, j) == Lookup(es, j)
    ensures Keys(r) == Keys(es) + {k}
    ensures UniqueKeys(es) ==> UniqueKeys(r)
    ensures k !in Keys(es) ==> r == es + [Entry(k, v)]
  {
    if es == [] then [Entry(k, v)]
    else if es[0].key == k then [Entry(k, v)] + es[1..]
    else [es[0]] + Assign(es[1..], k, v)
  }

  /** `handleSymptomToggle`: a selected key (truthy severity) is removed,
      otherwise the key is set to severity 3. */
  function Toggle(es: seq<Entry>, k: string): (r: seq<Entry>)
    ensures Lookup(es, k).None? ==> Lookup(r, k) == Some(3)
    ensures Lookup(es, k).Some? && Lookup(es, k).value != 0 ==> Lookup(r, k).None?
    ensures forall j :: j != k ==> Lookup(r, j) == Lookup(es, j)
    ensures UniqueKeys(es) ==> UniqueKeys(r)
  {
    var current := Lookup(es, k);
    if current.Some? && current.value != 0 then RemoveKey(es, k) else Assign(es, k, 3)
  }

  /** Removing a key that was just appended restores the list. */
  lemma {:induction false} RemoveAppended(es: seq<Entry>, k: string, v: int)
    requires k !in Keys(es)
    ensures RemoveKey(es + [Entry(k, v)], k) == es
  {
    if es == [] {
      assert es + [Entry(k, v)] == [Entry(k, v)];
    } else {
      assert (es + [Entry(k, v)])[0] == es[0];
      assert (es + [Entry(k, v)])[1..] == es[1..] + [Entry(k, v)];
      RemoveAppended(es[1..], k, v);
    }
  }

  /** Toggling an unselected symptom twice gives back the original selection. */
  lemma ToggleTwice(es: seq<Entry>, k: string)
    requires Lookup(es, k).None?
    ensures Toggle(Toggle(es, k), k) == es
  {
    RemoveAppended(es, k, 3);
  }

  /** `handleSeverityChange(symptom, value)`: `value` is the slider's single
      thumb, `value[0]`. */
  function SetSeverity(es: seq<Entry>, k: string, v: int): (r: seq<Entry>)
    ensures Lookup(r, k) == Some(v)
    ensures forall j :: j != k ==> Lookup(r, j) == Lookup(es, j)
    ensures UniqueKeys(es) ==> UniqueKeys(r)
  {
    Assign(es, k, v)
  }

  /** One element of `symptomsArray`. */
  datatype SymptomEntry = SymptomEntry(symptomType: string, severity: int)

  /** `Object.entries(selected).map(([symptom_type, severity]) => ...)`. */
  function SymptomsArray(es: seq<Entry>): (arr: seq<SymptomEntry>)
    ensures |arr| == |es|
    ensures forall i :: 0 <= i < |es| ==> arr[i] == SymptomEntry(es[i].key, es[i].severity)
  {
    if es == [] then [] else [SymptomEntry(es[0].key, es[0].severity)] + SymptomsArray(es[1..])
  }

  /** Each selected key appears in the array exactly once, with its severity. */
  lemma SymptomsArrayOnePerKey(es: seq<Entry>, i: int, j: int)
    requires UniqueKeys(es)
    requires 0 <= i < |es| && 0 <= j < |es| && i != j
    ensures SymptomsArray(es)[i].symptomType != SymptomsArray(es)[j].symptomType
  {
    if i < j {
      UniqueKeysPointwise(es, i, j);
    } else {
      UniqueKeysPointwise(es, j, i);
    }
  }

  /** The first schema issue, in the order temperature, notes, symptoms. */
  datatype Issue =
    | TemperatureNotANumber
    | TemperatureBelowMin
    | TemperatureAboveMax
    | NotesTooLong
    | NoSymptoms
    | SeverityOutOfRange

  /** The custom messages of the schema. */
  function Message(i: Issue): (m: Option<string>)
    ensures i == NoSymptoms ==> m == Some("Please select at least one symptom")
    ensures i == NotesTooLong ==> m == Some("Notes must be less than 1000 characters")
    ensures i == TemperatureNotANumber || i == SeverityOutOfRange ==> m.None?
  {
    match i
    case TemperatureBelowMin => Some("Temperature must be at least 95°F")
    case TemperatureAboveMax => Some("Temperature must be at most 108°F")
    case NotesTooLong => Some("Notes must be less than 1000 characters")
    case NoSymptoms => Some("Please select at least one symptom")
    case _ => None
  }

  /** A validated quick log. */
  datatype QuickLog = QuickLog(temperature: Option<real>, notes: Option<string>, symptoms: seq<SymptomEntry>)

  predicate SeveritiesInRange(symptoms: seq<SymptomEntry>)
  {
    forall i :: 0 <= i < |symptoms| ==> 1 <= symptoms[i].severity <= 5
  }

  /** `symptomSchema.safeParse(...)`. */
  function Validate(temperature: Option<Num>, notes: Option<string>, symptoms: seq<SymptomEntry>): (r: Result<QuickLog, Issue>)
    ensures r.Ok? <==>
      && (temperature.None? || (temperature.value.Finite? && 95.0 <= temperature.value.value <= 108.0))
      && (notes.None? || Utf16Length(notes.value) <= 1000)
      && |symptoms| >= 1
      && SeveritiesInRange(symptoms)
    ensures r.Ok? ==> r.value.symptoms == symptoms && r.value.notes == notes
    ensures r.Ok? ==> (r.value.temperature.None? <==> temperature.None?)
    ensures r.Ok? && temperature.Some? ==> r.value.temperature == Some(temperature.value.value)
    ensures |symptoms| == 0 && r.Err? && temperature.None? && notes.None? ==> r.error == NoSymptoms
  {
    var t: Result<Option<real>, Issue> :=
      match temperature
      case None => Ok(None)
      case Some(NaN) => Err(TemperatureNotANumber)
      case Some(Finite(x)) =>
        if x < 95.0 then Err(TemperatureBelowMin)
        else if x > 108.0 then Err(TemperatureAboveMax)
        else Ok(Some(x));
    if t.Err? then Err(t.error)
    else if notes.Some? && Utf16Length(notes.value) > 1000 then Err(NotesTooLong)
    else if |symptoms| < 1 then Err(NoSymptoms)
    else if !SeveritiesInRange(symptoms) then Err(SeverityOutOfRange)
    else Ok(QuickLog(t.value, notes, symptoms))
  }

  /** The quick submission that a successful submit produces; `recordedAt`
      stands for the clock reading at submit time. */
  datatype Submission = Submission(
    patientId: string,
    symptoms: seq<SymptomEntry>,
    temperature: Option<real>,
    notes: Option<string>,
    recordedAt: int)

  /** The page and its state. */
  class SymptomLogPage {
    var patientId: string
    var selected: seq<Entry>
    var notes: string
    var temperature: string
    var loading: bool

    ghost predicate Valid()
      reads this
    {
      UniqueKeys(selected)
    }

    /** The mock patient id is set before the user can interact. */
    constructor ()
      ensures Valid()
      ensures patientId == "demo_patient_123"
      ensures selected == [] && notes == "" && temperature == "" && !loading
    {
      patientId := "demo_patient_123";
      selected := [];
      notes := "";
      temperature := "";
      loading := false;
    }

    method HandleSymptomToggle(symptom: string)
      requires Valid()
      modifies this`selected
      ensures Valid()
      ensures selected == Toggle(old(selected), symptom)
    {
      var current := Lookup(selected, symptom);
      if current.Some? && current.value != 0 {
        selected := RemoveKey(selected, symptom);
      } else {
        selected := Assign(selected, symptom, 3);
      }
    }

    method HandleSeverityChange(symptom: string, value: int)
      requires Valid()
      modifies this`selected
      ensures Valid()
      ensures selected == SetSeverity(old(selected), symptom, value)
    {
      selected := Assign(selected, symptom, value);
    }

    /** `handleSubmit`.  A rejected log changes nothing; an accepted one is
        submitted and the selection, notes and temperature are cleared. */
    method HandleSubmit(parseFloat: string -> Num, now: int) returns (submitted: Option<Submission>)
      requires Valid()
      modifies this`selected, this`notes, this`temperature, this`loading
      ensures Valid()
      ensures loading == (patientId == "" && old(loading))
      ensures
        var r := Validate(ParsedIfPresent(old(temperature), parseFloat), NonEmpty(old(notes)),
                          SymptomsArray(old(selected)));
        && (submitted.Some? <==> patientId != "" && r.Ok?)
        && (submitted.Some? ==>
              submitted.value == Submission(patientId, r.value.symptoms, r.value.temperature, r.value.notes, now))
      ensures submitted.Some? ==> selected == [] && notes == "" && temperature == ""
      ensures submitted.None? ==>
        selected == old(selected) && notes == old(notes) && temperature == old(temperature)
    {
      if patientId == "" {
        return None;
      }
      loading := true;
      var symptomsArray := SymptomsArray(selected);
      var tempValue := ParsedIfPresent(temperature, parseFloat);
      var result := Validate(tempValue, NonEmpty(notes), symptomsArray);
      if result.Err? {
        loading := false;
        return None;
      }
      submitted := Some(Submission(patientId, result.value.symptoms, result.value.temperature,
                                   result.value.notes, now));
      selected := [];
      notes := "";
      temperature := "";
      loading := false;
    }
  }
}
