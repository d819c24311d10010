/** The daily symptom log form (src/components/ui/DailyLogForm.tsx): the
    validation schema of a day's reading, the danger-sign flag, the update of
    one symptom field and the log that a successful submit produces. */
module DailyLogForm {
  import opened Js

  datatype TempTime = Morning | Afternoon | Evening | Night
  datatype FoodIntake = FoodNormal | FoodReduced | FoodPoor
  datatype UrineOutput = UrineNormal | UrineReduced | UrineDark

  function TempTimeName(t: TempTime): string
  {
    match t
    case Morning => "morning"
    case Afternoon => "afternoon"
    case Evening => "evening"
    case Night => "night"
  }

  function FoodIntakeName(f: FoodIntake): string
  {
    match f
    case FoodNormal => "normal"
    case FoodReduced => "reduced"
    case FoodPoor => "poor"
  }

  function UrineOutputName(u: UrineOutput): string
  {
    match u
    case UrineNormal => "normal"
    case UrineReduced => "reduced"
    case UrineDark => "dark"
  }

  /** `z.enum(['morning', 'afternoon', 'evening', 'night'])`. */
  function ParseTempTime(s: string): (r: Option<TempTime>)
    ensures r.Some? <==> s in {"morning", "afternoon", "evening", "night"}
    ensures r.Some? ==> TempTimeName(r.value) == s
  {
    if s == "morning" then Some(Morning)
    else if s == "afternoon" then Some(Afternoon)
    else if s == "evening" then Some(Evening)
    else if s == "night" then Some(Night)
    else None
  }

  /** `z.enum(['normal', 'reduced', 'poor'])`. */
  function ParseFoodIntake(s: string): (r: Option<FoodIntake>)
    ensures r.Some? <==> s in {"normal", "reduced", "poor"}
    ensures r.Some? ==> FoodIntakeName(r.value) == s
  {
    if s == "normal" then Some(FoodNormal)
    else if s == "reduced" then Some(FoodReduced)
    else if s == "poor" then Some(FoodPoor)
    else None
  }

  /** `z.enum(['normal', 'reduced', 'dark'])`. */
  function ParseUrineOutput(s: string): (r: Option<UrineOutput>)
    ensures r.Some? <==> s in {"normal", "reduced", "dark"}
    ensures r.Some? ==> UrineOutputName(r.value) == s
  {
    if s == "normal" then Some(UrineNormal)
    else if s == "reduced" then Some(UrineReduced)
    else if s == "dark" then Some(UrineDark)
    else None
  }

  /** Every named value is accepted back by its parser. */
  lemma EnumsRoundTrip(t: TempTime, f: FoodIntake, u: UrineOutput)
    ensures ParseTempTime(TempTimeName(t)) == Some(t)
    ensures ParseFoodIntake(FoodIntakeName(f)) == Some(f)
    ensures ParseUrineOutput(UrineOutputName(u)) == Some(u)
  {
  }

  /** The symptom checklist as held in the form state. */
  datatype SymptomsForm = SymptomsForm(
    headache: bool,
    bodyPain: bool,
    rash: bool,
    rashLocation: string,
    bleeding: bool,
    bleedingSite: string,
    abdominalPain: bool,
    vomiting: bool,
    vomitingCount: string,
    breathlessness: bool,
    confusion: bool)

  /** The whole form state; the numeric fields are the raw input strings. */
  datatype FormData = FormData(
    temperature: string,
    tempTime: string,
    pulseRate: string,
    symptoms: SymptomsForm,
    foodIntake: string,
    urineOutput: string)

  const InitialForm: FormData :=
    FormData("", "afternoon", "",
             SymptomsForm(false, false, false, "", false, "", false, false, "", false, false),
             "normal", "normal")

  /** The symptoms of a validated log (the vomiting count is now a number). */
  datatype Symptoms = Symptoms(
    headache: bool,
    bodyPain: bool,
    rash: bool,
    rashLocation: string,
    bleeding: bool,
    bleedingSite: string,
    abdominalPain: bool,
    vomiting: bool,
    vomitingCount: Option<real>,
    breathlessness: bool,
    confusion: bool)

  /** The data of a validated daily log. */
  datatype DailyLog = DailyLog(
    temperature: real,
    tempTime: TempTime,
    pulseRate: Option<real>,
    symptoms: Symptoms,
    foodIntake: FoodIntake,
    urineOutput: UrineOutput)

  /** The first schema issue, in the order of the schema's keys. */
  datatype Issue =
    | TemperatureNotANumber
    | TemperatureBelowMin
    | TemperatureAboveMax
    | InvalidTempTime
    | PulseNotANumber
    | PulseBelowMin
    | PulseAboveMax
    | VomitingCountNotANumber
    | InvalidFoodIntake
    | InvalidUrineOutput

  /** The custom messages of the temperature bounds. */
  function TemperatureMessage(i: Issue): (m: Option<string>)
    ensures i == TemperatureBelowMin ==> m == Some("Temperature must be at least 95°F")
    ensures i == TemperatureAboveMax ==> m == Some("Temperature must be at most 108°F")
    ensures i != TemperatureBelowMin && i != TemperatureAboveMax ==> m.None?
  {
    match i
    case TemperatureBelowMin => Some("Temperature must be at least 95°F")
    case TemperatureAboveMax => Some("Temperature must be at most 108°F")
    case _ => None
  }

  /** `z.number().min(95).max(108)`, both bounds inclusive. */
  function CheckTemperature(n: Num): (r: Result<real, Issue>)
    ensures r.Ok? <==> n.Finite? && 95.0 <= n.value <= 108.0
    ensures r.Ok? ==> r.value == n.value
    ensures n.NaN? ==> r == Err(TemperatureNotANumber)
  {
    match n
    case NaN => Err(TemperatureNotANumber)
    case Finite(t) =>
      if t < 95.0 then Err(TemperatureBelowMin)
      else if t > 108.0 then Err(TemperatureAboveMax)
      else Ok(t)
  }

  /** `z.number().min(40).max(180).optional()`. */
  function CheckPulse(o: Option<Num>): (r: Result<Option<real>, Issue>)
    ensures r.Ok? <==> o.None? || (o.value.Finite? && 40.0 <= o.value.value <= 180.0)
    ensures r.Ok? && o.None? ==> r.value.None?
    ensures r.Ok? && o.Some? ==> r.value == Some(o.value.value)
  {
    match o
    case None => Ok(None)
    case Some(NaN) => Err(PulseNotANumber)
    case Some(Finite(p)) =>
      if p < 40.0 then Err(PulseBelowMin)
      else if p > 180.0 then Err(PulseAboveMax)
      else Ok(Some(p))
  }

  /** `z.number().optional()`. */
  function CheckCount(o: Option<Num>): (r: Result<Option<real>, Issue>)
    ensures r.Ok? <==> o.None? || o.value.Finite?
    ensures r.Ok? && o.None? ==> r.value.None?
    ensures r.Ok? && o.Some? ==> r.value == Some(o.value.value)
  {
    match o
    case None => Ok(None)
    case Some(NaN) => Err(VomitingCountNotANumber)
    case Some(Finite(c)) => Ok(Some(c))
  }

  /** The checklist and its free-text parts carry over unchanged. */
  predicate SameFlags(f: SymptomsForm, s: Symptoms)
  {
    && f.headache == s.headache && f.bodyPain == s.bodyPain && f.rash == s.rash
    && f.rashLocation == s.rashLocation && f.bleeding == s.bleeding
    && f.bleedingSite == s.bleedingSite && f.abdominalPain == s.abdominalPain
    && f.vomiting == s.vomiting && f.breathlessness == s.breathlessness
    && f.confusion == s.confusion
  }

  /** `dailyLogSchema.safeParse(...)` applied to the parsed form. */
  function Validate(form: FormData, parseFloat: string -> Num, parseInt: string -> Num): (r: Result<DailyLog, Issue>)
    ensures r.Ok? <==>
      && CheckTemperature(parseFloat(form.temperature)).Ok?
      && ParseTempTime(form.tempTime).Some?
      && CheckPulse(ParsedIfPresent(form.pulseRate, parseInt)).Ok?
      && CheckCount(ParsedIfPresent(form.symptoms.vomitingCount, parseInt)).Ok?
      && ParseFoodIntake(form.foodIntake).Some?
      && ParseUrineOutput(form.urineOutput).Some?
    ensures r.Ok? ==> 95.0 <= r.value.temperature <= 108.0
    ensures r.Ok? ==> (r.value.pulseRate.None? <==> form.pulseRate == "")
    ensures r.Ok? && r.value.pulseRate.Some? ==> 40.0 <= r.value.pulseRate.value <= 180.0
    ensures r.Ok? ==> TempTimeName(r.value.tempTime) == form.tempTime
    ensures r.Ok? ==> FoodIntakeName(r.value.foodIntake) == form.foodIntake
    ensures r.Ok? ==> UrineOutputName(r.value.urineOutput) == form.urineOutput
    ensures r.Ok? ==> SameFlags(form.symptoms, r.value.symptoms)
    ensures CheckTemperature(parseFloat(form.temperature)).Err? ==>
      r == Err(CheckTemperature(parseFloat(form.temperature)).error)
    ensures r.Ok? ==> parseFloat(form.temperature) == Finite(r.value.temperature)
    ensures r.Ok? && r.value.pulseRate.Some? ==> parseInt(form.pulseRate) == Finite(r.value.pulseRate.value)
    ensures r.Ok? ==> (r.value.symptoms.vomitingCount.None? <==> form.symptoms.vomitingCount == "")
    ensures r.Ok? && r.value.symptoms.vomitingCount.Some? ==>
      parseInt(form.symptoms.vomitingCount) == Finite(r.value.symptoms.vomitingCount.value)
  {
    var s := form.symptoms;
    match CheckTemperature(parseFloat(form.temperature))
    case Err(e) => Err(e)
    case Ok(t) =>
      match ParseTempTime(form.tempTime)
      case None => Err(InvalidTempTime)
      case Some(tt) =>
        match CheckPulse(ParsedIfPresent(form.pulseRate, parseInt))
        case Err(e) => Err(e)
        case Ok(pulse) =>
          match CheckCount(ParsedIfPresent(s.vomitingCount, parseInt))
          case Err(e) => Err(e)
          case Ok(count) =>
            match ParseFoodIntake(form.foodIntake)
            case None => Err(InvalidFoodIntake)
            case Some(food) =>
              match ParseUrineOutput(form.urineOutput)
              case None => Err(InvalidUrineOutput)
              case Some(urine) =>
                Ok(DailyLog(t, tt, pulse,
                            Symptoms(s.headache, s.bodyPain, s.rash, s.rashLocation, s.bleeding,
                                     s.bleedingSite, s.abdominalPain, s.vomiting, count,
                                     s.breathlessness, s.confusion),
                            food, urine))
  }

  /** `hasDangerSigns`. */
  function HasDangerSigns(s: SymptomsForm): (danger: bool)
    ensures danger <==> s.bleeding || s.breathlessness || s.confusion || s.abdominalPain
  {
    s.bleeding || s.breathlessness || s.confusion || s.abdominalPain
  }

  /** Vomiting, rash, headache and body pain never raise the danger flag on
      their own: changing them leaves the flag as it was. */
  lemma DangerIgnoresMildSymptoms(s: SymptomsForm, vomiting: bool, rash: bool, headache: bool, bodyPain: bool)
    ensures HasDangerSigns(s.(vomiting := vomiting, rash := rash, headache := headache, bodyPain := bodyPain))
         == HasDangerSigns(s)
  {
  }

  /** The boolean fields of the checklist and the text fields beside them. */
  datatype FlagKey = Headache | BodyPain | Rash | Bleeding | AbdominalPain | Vomiting | Breathlessness | Confusion
  datatype TextKey = RashLocation | BleedingSite | VomitingCount

  function Flag(s: SymptomsForm, k: FlagKey): bool
  {
    match k
    case Headache => s.headache
    case BodyPain => s.bodyPain
    case Rash => s.rash
    case Bleeding => s.bleeding
    case AbdominalPain => s.abdominalPain
    case Vomiting => s.vomiting
    case Breathlessness => s.breathlessness
    case Confusion => s.confusion
  }

  function Text(s: SymptomsForm, k: TextKey): string
  {
    match k
    case RashLocation => s.rashLocation
    case BleedingSite => s.bleedingSite
    case VomitingCount => s.vomitingCount
  }

  /** One call of `updateSymptom(key, value)`: a checkbox sets a flag, a
      text input sets a text field. */
  datatype SymptomUpdate = SetFlag(flag: FlagKey, on: bool) | SetText(field: TextKey, text: string)

  /** `{ ...symptoms, [key]: value }`: only the named field changes. */
  function ApplyUpdate(s: SymptomsForm, u: SymptomUpdate): (r: SymptomsForm)
    ensures u.SetFlag? ==> Flag(r, u.flag) == u.on
    ensures u.SetText? ==> Text(r, u.field) == u.text
    ensures forall k: FlagKey :: !(u.SetFlag? && u.flag == k) ==> Flag(r, k) == Flag(s, k)
    ensures forall k: TextKey :: !(u.SetText? && u.field == k) ==> Text(r, k) == Text(s, k)
  {
    match u
    case SetFlag(k, v) =>
      (match k
       case Headache => s.(headache := v)
       case BodyPain => s.(bodyPain := v)
       case Rash => s.(rash := v)
       case Bleeding => s.(bleeding := v)
       case AbdominalPain => s.(abdominalPain := v)
       case Vomiting => s.(vomiting := v)
       case Breathlessness => s.(breathlessness := v)
       case Confusion => s.(confusion := v))
    case SetText(k, v) =>
      (match k
       case RashLocation => s.(rashLocation := v)
       case BleedingSite => s.(bleedingSite := v)
       case VomitingCount => s.(vomitingCount := v))
  }

  /** The inputs and selects outside the checklist. */
  datatype FormField = Temperature | TempTimeField | PulseRate | FoodIntakeField | UrineOutputField

  function Field(f: FormData, k: FormField): string
  {
    match k
    case Temperature => f.temperature
    case TempTimeField => f.tempTime
    case PulseRate => f.pulseRate
    case FoodIntakeField => f.foodIntake
    case UrineOutputField => f.urineOutput
  }

  /** `setFormData({ ...formData, field: value })` of one of those inputs:
      the named field takes the value, the rest and the checklist stay. */
  function SetField(f: FormData, k: FormField, v: string): (r: FormData)
    ensures Field(r, k) == v
    ensures forall j: FormField :: j != k ==> Field(r, j) == Field(f, j)
    ensures r.symptoms == f.symptoms
  {
    match k
    case Temperature => f.(temperature := v)
    case TempTimeField => f.(tempTime := v)
    case PulseRate => f.(pulseRate := v)
    case FoodIntakeField => f.(foodIntake := v)
    case UrineOutputField => f.(urineOutput := v)
  }

  /** The record handed to `onSuccess`; `id` and `recordedAt` stand for the
      clock reading `Date.now()` at submit time. */
  datatype MockLog = MockLog(
    id: int,
    episodeId: string,
    patientId: string,
    dayOfIllness: int,
    data: DailyLog,
    recordedAt: int)

  /** `mockLog` with its `|| 'mock_…'` defaults. */
  function MockLogOf(data: DailyLog, episodeId: Option<string>, patientId: Option<string>,
                     dayNumber: int, now: int): (m: MockLog)
    ensures m.dayOfIllness == dayNumber && m.data == data
    ensures m.episodeId == OptStrOr(episodeId, "mock_episode_123")
    ensures m.patientId == OptStrOr(patientId, "mock_patient_123")
    ensures m.id == now && m.recordedAt == now
  {
    MockLog(now, OptStrOr(episodeId, "mock_episode_123"), OptStrOr(patientId, "mock_patient_123"),
            dayNumber, data, now)
  }

  /** The form component and its state. */
  class LogForm {
    const patientId: Option<string>
    const episodeId: Option<string>
    const dayNumber: int
    var formData: FormData
    var loading: bool
    var success: bool

    /** The `dayNumber` prop defaults to 1. */
    constructor (patientId: Option<string>, episodeId: Option<string>, dayNumber: Option<int>)
      ensures this.patientId == patientId && this.episodeId == episodeId
      ensures this.dayNumber == (if dayNumber.Some? then dayNumber.value else 1)
      ensures formData == InitialForm && !loading && !success
    {
      this.patientId := patientId;
      this.episodeId := episodeId;
      this.dayNumber := if dayNumber.Some? then dayNumber.value else 1;
      formData := InitialForm;
      loading := false;
      success := false;
    }

    /** `updateSymptom`: every other form field is left alone. */
    method UpdateSymptom(u: SymptomUpdate)
      modifies this`formData
      ensures formData == old(formData).(symptoms := ApplyUpdate(old(formData).symptoms, u))
    {
      formData := formData.(symptoms := ApplyUpdate(formData.symptoms, u));
    }

    /** The change handler of a temperature, pulse, time or intake input. */
    method UpdateField(k: FormField, v: string)
      modifies this`formData
      ensures formData == SetField(old(formData), k, v)
    {
      formData := SetField(formData, k, v);
    }

    /** The danger banner of the current checklist. */
    function DangerShown(): (danger: bool)
      reads this
      ensures danger == HasDangerSigns(formData.symptoms)
    {
      HasDangerSigns(formData.symptoms)
    }

    /** `handleSubmit`.  A rejected form emits nothing and keeps `success`;
        an accepted one emits the mock log for day `dayNumber`. */
    method HandleSubmit(parseFloat: string -> Num, parseInt: string -> Num, now: int)
      returns (emitted: Option<MockLog>)
      modifies this`loading, this`success
      ensures !loading
      ensures emitted.Some? <==> Validate(formData, parseFloat, parseInt).Ok?
      ensures emitted.Some? ==>
        emitted.value == MockLogOf(Validate(formData, parseFloat, parseInt).value,
                                   episodeId, patientId, dayNumber, now)
      ensures emitted.Some? ==> emitted.value.dayOfIllness == dayNumber && success
      ensures emitted.None? ==> success == old(success)
    {
      loading := true;
      var result := Validate(formData, parseFloat, parseInt);
      if result.Err? {
        loading := false;
        return None;
      }
      var log := MockLogOf(result.value, episodeId, patientId, dayNumber, now);
      success := true;
      emitted := Some(log);
      loading := false;
    }

    /** The two-second timer after a successful submit. */
    method SuccessTimerElapsed()
      modifies this`success
      ensures !success
    {
      success := false;
    }
  }
}
