/** The AI diagnosis page (src/components/AdvancedAI.tsx): the request sent to
    the external predictor, the colour tables of urgency and disease, the
    urgency banner and the Dengue phase guidance chosen by day of illness.
    The prediction itself comes from the external service. */
module AdvancedAI {
  import opened Js

  /** The symptom record of the latest log, as the backend returns it. */
  datatype SymptomRecord = SymptomRecord(
    temperature: real,
    dayOfIllness: int,
    headache: bool,
    bodyPain: bool,
    eyePain: bool,
    vomiting: bool,
    abdominalPain: bool,
    rash: bool,
    bleeding: bool)

  datatype History = History(mosquitoExposure: bool, recentTravel: bool)
  datatype EpisodeInfo = EpisodeInfo(id: string, dayOfIllness: int)

  /** `response.data.data` of `GET /patient/advanced-ai-data`. */
  datatype PatientData = PatientData(
    patientId: string,
    episode: EpisodeInfo,
    symptoms: SymptomRecord,
    history: History)

  /** The body of `POST /ml/predict`. */
  datatype PredictRequest = PredictRequest(
    patientId: string,
    episodeId: string,
    temperature: real,
    feverDays: int,
    headache: int,
    bodyPain: int,
    eyePain: int,
    nauseaVomiting: int,
    abdominalPain: int,
    rash: int,
    bleeding: int,
    plateletCount: int,
    mosquitoExposure: int,
    travel: int)

  /** The platelet count the page always sends. */
  const FixedPlateletCount: int := 95

  /** The request that `getAIPrediction` posts for `data`. */
  function PredictRequestOf(data: PatientData): (r: PredictRequest)
    ensures r.patientId == data.patientId && r.episodeId == data.episode.id
    ensures r.temperature == data.symptoms.temperature
    ensures r.feverDays == data.symptoms.dayOfIllness
    ensures r.plateletCount == FixedPlateletCount
    ensures IsFlagRequest(r)
  {
    var s := data.symptoms;
    PredictRequest(data.patientId, data.episode.id, s.temperature, s.dayOfIllness,
                   Bit(s.headache), Bit(s.bodyPain), Bit(s.eyePain), Bit(s.vomiting),
                   Bit(s.abdominalPain), Bit(s.rash), Bit(s.bleeding), FixedPlateletCount,
                   Bit(data.history.mosquitoExposure), Bit(data.history.recentTravel))
  }

  /** Every symptom and history field of the request is 0 or 1. */
  predicate IsFlagRequest(r: PredictRequest)
  {
    && r.headache in {0, 1} && r.bodyPain in {0, 1} && r.eyePain in {0, 1}
    && r.nauseaVomiting in {0, 1} && r.abdominalPain in {0, 1} && r.rash in {0, 1}
    && r.bleeding in {0, 1} && r.mosquitoExposure in {0, 1} && r.travel in {0, 1}
  }

  /** The flags a request carries, read back as booleans. */
  datatype Flags = Flags(
    headache: bool, bodyPain: bool, eyePain: bool, vomiting: bool, abdominalPain: bool,
    rash: bool, bleeding: bool, mosquitoExposure: bool, recentTravel: bool)

  function FlagsOf(data: PatientData): Flags
  {
    var s := data.symptoms;
    Flags(s.headache, s.bodyPain, s.eyePain, s.vomiting, s.abdominalPain, s.rash, s.bleeding,
          data.history.mosquitoExposure, data.history.recentTravel)
  }

  function DecodeFlags(r: PredictRequest): Flags
  {
    Flags(r.headache == 1, r.bodyPain == 1, r.eyePain == 1, r.nauseaVomiting == 1,
          r.abdominalPain == 1, r.rash == 1, r.bleeding == 1, r.mosquitoExposure == 1, r.travel == 1)
  }

  /** The encoding loses no flag: `nausea_vomiting` carries `vomiting`, and
      every field is 1 exactly when its boolean is true. */
  lemma FlagsRoundTrip(data: PatientData)
    ensures DecodeFlags(PredictRequestOf(data)) == FlagsOf(data)
  {
  }

  /** Two patients with different flags produce different requests. */
  lemma EncodingSeparatesFlags(a: PatientData, b: PatientData)
    requires FlagsOf(a) != FlagsOf(b)
    ensures PredictRequestOf(a) != PredictRequestOf(b)
  {
    FlagsRoundTrip(a);
    FlagsRoundTrip(b);
  }

  const UrgencyColors: map<string, string> :=
    map["LOW" := "#27ae60", "MEDIUM" := "#f39c12", "HIGH" := "#e74c3c",
        "EMERGENCY" := "#c0392b", "CRITICAL" := "#8b0000"]
  const UrgencyFallback: string := "#95a5a6"

  /** `getUrgencyColor`: the table colour of a known label, grey otherwise. */
  function UrgencyColor(urgency: string): (c: string)
    ensures urgency in UrgencyColors ==> c == UrgencyColors[urgency]
    ensures urgency !in UrgencyColors ==> c == UrgencyFallback
    ensures c == UrgencyFallback <==> urgency !in UrgencyColors
  {
    if urgency in UrgencyColors then UrgencyColors[urgency] else UrgencyFallback
  }

  const DiseaseColors: map<string, string> :=
    map["Dengue" := "#ff6b6b", "Malaria" := "#4ecdc4", "Typhoid" := "#45b7d1",
        "Viral" := "#96ceb4", "Other" := "#ffeaa7"]
  const DiseaseFallback: string := "#dfe6e9"

  /** `getDiseaseColor`: the table colour of a known disease, grey otherwise. */
  function DiseaseColor(disease: string): (c: string)
    ensures disease in DiseaseColors ==> c == DiseaseColors[disease]
    ensures disease !in DiseaseColors ==> c == DiseaseFallback
    ensures c == DiseaseFallback <==> disease !in DiseaseColors
  {
    if disease in DiseaseColors then DiseaseColors[disease] else DiseaseFallback
  }

  /** The "Immediate medical attention required" banner. */
  function NeedsImmediateAttention(urgency: string): (shown: bool)
    ensures shown <==> urgency == "HIGH" || urgency == "EMERGENCY"
    ensures shown ==> urgency in UrgencyColors && UrgencyColor(urgency) != UrgencyFallback
  {
    urgency == "HIGH" || urgency == "EMERGENCY"
  }

  /** Of the five urgency labels, exactly HIGH and EMERGENCY raise the banner;
      CRITICAL falls into the standard-care branch. */
  lemma UrgencyBanner()
    ensures NeedsImmediateAttention("HIGH") && NeedsImmediateAttention("EMERGENCY")
    ensures !NeedsImmediateAttention("CRITICAL") && !NeedsImmediateAttention("MEDIUM")
    ensures !NeedsImmediateAttention("LOW")
  {
  }

  datatype Phase = Febrile | Critical | Recovery

  /** A guidance block as displayed: heading and lines. */
  datatype PhaseBlock = PhaseBlock(phase: Phase, heading: string, notes: seq<string>)

  const AdmissionNote: string := "- Platelet <100k or rapid drop = Admission indicated"
  const DischargeNote: string := "- Ensure platelet >100k before discharge"

  const FebrileBlock: PhaseBlock :=
    PhaseBlock(Febrile, "Febrile Phase (Day 1-3)",
               ["- High fever, headache, body pain common",
                "- Hydration is key - Monitor fluid intake/output",
                "- Paracetamol for fever (avoid NSAIDs)"])

  const CriticalBlock: PhaseBlock :=
    PhaseBlock(Critical, "Critical Phase (Day 4-7)",
               ["- HIGH RISK PERIOD - Close monitoring essential",
                "- Watch for warning signs: Abdominal pain, persistent vomiting, bleeding",
                "- CBC monitoring every 6-12 hours",
                AdmissionNote])

  const RecoveryBlock: PhaseBlock :=
    PhaseBlock(Recovery, "Recovery Phase (Day 8+)",
               ["- Fever subsides, appetite returns",
                "- Fluid reabsorption - Watch for fluid overload",
                DischargeNote])

  /** The phase blocks rendered for a prediction and the episode's day of
      illness: three independent conditions, evaluated only for Dengue. */
  function PhaseBlocks(prediction: string, day: int): (blocks: seq<PhaseBlock>)
    ensures prediction != "Dengue" ==> blocks == []
    ensures prediction == "Dengue" ==> |blocks| == 1
    ensures prediction == "Dengue" ==> (blocks[0] == FebrileBlock <==> day <= 3)
    ensures prediction == "Dengue" ==> (blocks[0] == CriticalBlock <==> 3 < day <= 7)
    ensures prediction == "Dengue" ==> (blocks[0] == RecoveryBlock <==> day > 7)
  {
    if prediction != "Dengue" then []
    else
      (if day <= 3 then [FebrileBlock] else [])
      + (if day > 3 && day <= 7 then [CriticalBlock] else [])
      + (if day > 7 then [RecoveryBlock] else [])
  }

  /** The Dengue phase of a day, as a function of the day alone. */
  function DenguePhase(day: int): Phase
  {
    if day <= 3 then Febrile else if day <= 7 then Critical else Recovery
  }

  /** The phase advances with the day and never goes back. */
  lemma DenguePhaseMonotone(a: int, b: int)
    requires a <= b
    ensures DenguePhase(a) == Critical ==> DenguePhase(b) != Febrile
    ensures DenguePhase(a) == Recovery ==> DenguePhase(b) == Recovery
  {
  }

  /** The block shown for Dengue is the block of the day's phase; the
      critical one states the admission threshold and the recovery one the
      discharge threshold. */
  lemma DengueBlockMatchesPhase(day: int)
    ensures PhaseBlocks("Dengue", day)[0].phase == DenguePhase(day)
    ensures DenguePhase(day) == Critical ==> AdmissionNote in PhaseBlocks("Dengue", day)[0].notes
    ensures DenguePhase(day) == Recovery ==> DischargeNote in PhaseBlocks("Dengue", day)[0].notes
  {
    if day <= 3 {
    } else if day <= 7 {
      assert PhaseBlocks("Dengue", day)[0] == CriticalBlock;
      assert CriticalBlock.notes[3] == AdmissionNote;
    } else {
      assert PhaseBlocks("Dengue", day)[0] == RecoveryBlock;
      assert RecoveryBlock.notes[2] == DischargeNote;
    }
  }
}
