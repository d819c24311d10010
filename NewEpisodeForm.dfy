/** The new fever episode form (src/components/ui/NewEpisodeForm.tsx): the
    medical and exposure history form, its validation schema, the episode
    record a successful submit produces and the reset to the defaults. */
module NewEpisodeForm {
  import opened Js

  datatype WaterSource = Filtered | Tap | Well | Outside

  function WaterSourceName(w: WaterSource): string
  {
    match w
    case Filtered => "filtered"
    case Tap => "tap"
    case Well => "well"
    case Outside => "outside"
  }

  /** `z.enum(["filtered", "tap", "well", "outside"])`. */
  function ParseWaterSource(s: string): (r: Option<WaterSource>)
    ensures r.Some? <==> s in {"filtered", "tap", "well", "outside"}
    ensures r.Some? ==> WaterSourceName(r.value) == s
  {
    if s == "filtered" then Some(Filtered)
    else if s == "tap" then Some(Tap)
    else if s == "well" then Some(Well)
    else if s == "outside" then Some(Outside)
    else None
  }

  lemma WaterSourceRoundTrip(w: WaterSource)
    ensures ParseWaterSource(WaterSourceName(w)) == Some(w)
  {
  }

  /** The form state; the water source is whatever string the select sent. */
  datatype FormData = FormData(
    priorAntibiotics: bool,
    antibioticName: string,
    hasDiabetes: bool,
    immunocompromised: bool,
    isPregnant: bool,
    recentTravel: bool,
    travelLocation: string,
    mosquitoExposure: bool,
    sickContacts: bool,
    waterSource: string)

  /** The defaults the form starts from and is reset to. */
  const InitialForm: FormData :=
    FormData(false, "", false, false, false, false, "", false, false, "filtered")

  /** The validated input. */
  datatype EpisodeInput = EpisodeInput(
    priorAntibiotics: bool,
    antibioticName: string,
    hasDiabetes: bool,
    immunocompromised: bool,
    isPregnant: bool,
    recentTravel: bool,
    travelLocation: string,
    mosquitoExposure: bool,
    sickContacts: bool,
    waterSource: WaterSource)

  /** The only field the schema can reject is the water source. */
  datatype Issue = InvalidWaterSource

  /** `episodeSchema.safeParse(formData)`. */
  function Validate(f: FormData): (r: Result<EpisodeInput, Issue>)
    ensures r.Ok? <==> f.waterSource in {"filtered", "tap", "well", "outside"}
    ensures r.Ok? ==> FormOf(r.value) == f
  {
    match ParseWaterSource(f.waterSource)
    case None => Err(InvalidWaterSource)
    case Some(w) =>
      Ok(EpisodeInput(f.priorAntibiotics, f.antibioticName, f.hasDiabetes, f.immunocompromised,
                      f.isPregnant, f.recentTravel, f.travelLocation, f.mosquitoExposure,
                      f.sickContacts, w))
  }

  /** The form a validated input came from. */
  function FormOf(v: EpisodeInput): FormData
  {
    FormData(v.priorAntibiotics, v.antibioticName, v.hasDiabetes, v.immunocompromised,
             v.isPregnant, v.recentTravel, v.travelLocation, v.mosquitoExposure,
             v.sickContacts, WaterSourceName(v.waterSource))
  }

  /** The default form is accepted. */
  lemma InitialFormValid()
    ensures Validate(InitialForm).Ok?
    ensures Validate(InitialForm).value.waterSource == Filtered
  {
  }

  datatype MedicalHistory = MedicalHistory(
    priorAntibiotics: bool,
    antibioticName: string,
    hasDiabetes: bool,
    immunocompromised: bool,
    isPregnant: bool)

  datatype ExposureHistory = ExposureHistory(
    recentTravel: bool,
    travelLocation: string,
    mosquitoExposure: bool,
    sickContacts: bool,
    waterSource: WaterSource)

  /** The episode handed to `onSuccess`.  Its id is `episode_` followed by
      the clock reading `stamp`, which is also the start time. */
  datatype Episode = Episode(
    stamp: int,
    patientId: string,
    status: string,
    startedAt: int,
    medicalHistory: MedicalHistory,
    exposureHistory: ExposureHistory)

  /** `mockEpisode`. */
  function EpisodeOf(v: EpisodeInput, patientId: Option<string>, now: int): (e: Episode)
    ensures e.status == "active"
    ensures e.patientId == OptStrOr(patientId, "mock_patient_123")
    ensures e.stamp == now && e.startedAt == now
  {
    Episode(now, OptStrOr(patientId, "mock_patient_123"), "active", now,
            MedicalHistory(v.priorAntibiotics, v.antibioticName, v.hasDiabetes,
                           v.immunocompromised, v.isPregnant),
            ExposureHistory(v.recentTravel, v.travelLocation, v.mosquitoExposure,
                            v.sickContacts, v.waterSource))
  }

  /** The two histories of an episode together hold the validated input:
      the ten fields can be read back without loss. */
  function InputOf(e: Episode): EpisodeInput
  {
    var m := e.medicalHistory;
    var x := e.exposureHistory;
    EpisodeInput(m.priorAntibiotics, m.antibioticName, m.hasDiabetes, m.immunocompromised,
                 m.isPregnant, x.recentTravel, x.travelLocation, x.mosquitoExposure,
                 x.sickContacts, x.waterSource)
  }

  lemma EpisodeKeepsHistory(v: EpisodeInput, patientId: Option<string>, now: int)
    ensures InputOf(EpisodeOf(v, patientId, now)) == v
  {
  }

  /** From a form to an episode and back: an accepted form is recovered
      exactly from the episode it produced. */
  lemma EpisodeKeepsForm(f: FormData, patientId: Option<string>, now: int)
    requires Validate(f).Ok?
    ensures FormOf(InputOf(EpisodeOf(Validate(f).value, patientId, now))) == f
  {
    EpisodeKeepsHistory(Validate(f).value, patientId, now);
  }

  /** The checkboxes and text inputs of the form. */
  datatype FlagKey =
    | PriorAntibiotics | HasDiabetes | Immunocompromised | IsPregnant
    | RecentTravel | MosquitoExposure | SickContacts
  datatype TextKey = AntibioticName | TravelLocation | WaterSourceField

  function Flag(f: FormData, k: FlagKey): bool
  {
    match k
    case PriorAntibiotics => f.priorAntibiotics
    case HasDiabetes => f.hasDiabetes
    case Immunocompromised => f.immunocompromised
    case IsPregnant => f.isPregnant
    case RecentTravel => f.recentTravel
    case MosquitoExposure => f.mosquitoExposure
    case SickContacts => f.sickContacts
  }

  function Text(f: FormData, k: TextKey): string
  {
    match k
    case AntibioticName => f.antibioticName
    case TravelLocation => f.travelLocation
    case WaterSourceField => f.waterSource
  }

  /** One `setFormData({ ...formData, field: value })` of an input handler. */
  datatype FieldUpdate = SetFlag(flag: FlagKey, on: bool) | SetText(field: TextKey, text: string)

  function ApplyUpdate(f: FormData, u: FieldUpdate): (r: FormData)
    ensures u.SetFlag? ==> Flag(r, u.flag) == u.on
    ensures u.SetText? ==> Text(r, u.field) == u.text
    ensures forall k: FlagKey :: !(u.SetFlag? && u.flag == k) ==> Flag(r, k) == Flag(f, k)
    ensures forall k: TextKey :: !(u.SetText? && u.field == k) ==> Text(r, k) == Text(f, k)
  {
    match u
    case SetFlag(k, v) =>
      (match k
       case PriorAntibiotics => f.(priorAntibiotics := v)
       case HasDiabetes => f.(hasDiabetes := v)
       case Immunocompromised => f.(immunocompromised := v)
       case IsPregnant => f.(isPregnant := v)
       case RecentTravel => f.(recentTravel := v)
       case MosquitoExposure => f.(mosquitoExposure := v)
       case SickContacts => f.(sickContacts := v))
    case SetText(k, v) =>
      (match k
       case AntibioticName => f.(antibioticName := v)
       case TravelLocation => f.(travelLocation := v)
       case WaterSourceField => f.(waterSource := v))
  }

  /** The form component and its state. */
  class EpisodeForm {
    const patientId: Option<string>
    var formData: FormData
    var loading: bool
    var success: bool

    constructor (patientId: Option<string>)
      ensures this.patientId == patientId
      ensures formData == InitialForm && !loading && !success
    {
      this.patientId := patientId;
      formData := InitialForm;
      loading := false;
      success := false;
    }

    method Update(u: FieldUpdate)
      modifies this`formData
      ensures formData == ApplyUpdate(old(formData), u)
    {
      formData := ApplyUpdate(formData, u);
    }

    /** `handleSubmit`: a rejected form produces no episode and leaves
        `success` as it was; an accepted one produces the episode that
        `onSuccess` receives. */
    method HandleSubmit(now: int) returns (episode: Option<Episode>)
      modifies this`loading, this`success
      ensures !loading
      ensures episode.Some? <==> Validate(formData).Ok?
      ensures episode.Some? ==> episode.value == EpisodeOf(Validate(formData).value, patientId, now)
      ensures episode.Some? ==> success
      ensures episode.None? ==> success == old(success)
    {
      loading := true;
      var result := Validate(formData);
      if result.Err? {
        loading := false;
        return None;
      }
      success := true;
      episode := Some(EpisodeOf(result.value, patientId, now));
      loading := false;
    }

    /** The two-second timer after a successful submit: the form goes back
        to exactly its defaults. */
    method ResetTimerElapsed()
      modifies this`formData, this`success
      ensures formData == InitialForm && !success
    {
      formData := FormData(false, "", false, false, false, false, "", false, false, "filtered");
      success := false;
    }
  }
}
