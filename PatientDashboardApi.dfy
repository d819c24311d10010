/** The patient dashboard that loads its data from the backend
    (src/pages/PatientDashboardd.tsx): the fever-severity classifier, the
    defaulting of the dashboard response, the temperature trend and the
    dashboard state that is seeded from the latest symptom log. */
module PatientDashboardApi {
  import opened Js

  /** The four fever-severity bands shown on the dashboards. */
  datatype FeverStatus = Normal | Mild | Moderate | High

  /** Position of a band on the severity scale. */
  function Rank(s: FeverStatus): nat
  {
    match s
    case Normal => 0
    case Mild => 1
    case Moderate => 2
    case High => 3
  }

  /** The band of a temperature in degrees Fahrenheit.  Each breakpoint
      belongs to the lower band. */
  function FeverStatusOf(temp: real): (s: FeverStatus)
    ensures s == High <==> temp > 100.4
    ensures s == Moderate <==> 99.5 < temp <= 100.4
    ensures s == Mild <==> 98.6 < temp <= 99.5
    ensures s == Normal <==> temp <= 98.6
  {
    if temp > 100.4 then High
    else if temp > 99.5 then Moderate
    else if temp > 98.6 then Mild
    else Normal
  }

  /** A higher temperature never yields a lower band. */
  lemma FeverStatusMonotone(a: real, b: real)
    requires a <= b
    ensures Rank(FeverStatusOf(a)) <= Rank(FeverStatusOf(b))
  {
  }

  /** The breakpoints themselves and the values just above them. */
  lemma FeverStatusBoundaries()
    ensures FeverStatusOf(98.6) == Normal && FeverStatusOf(98.61) == Mild
    ensures FeverStatusOf(99.5) == Mild && FeverStatusOf(99.51) == Moderate
    ensures FeverStatusOf(100.4) == Moderate && FeverStatusOf(100.41) == High
  {
  }

  /** The text colour class of a band (`getFeverColor`); `normal` is the
      switch's default branch. */
  function FeverTextColor(s: FeverStatus): (c: string)
    ensures c == "text-red-600" <==> s == High
    ensures c == "text-orange-500" <==> s == Moderate
    ensures c == "text-yellow-500" <==> s == Mild
    ensures c == "text-green-500" <==> s == Normal
  {
    match s
    case High => "text-red-600"
    case Moderate => "text-orange-500"
    case Mild => "text-yellow-500"
    case Normal => "text-green-500"
  }

  /** Different bands get different classes. */
  lemma FeverTextColorDistinct(a: FeverStatus, b: FeverStatus)
    requires a != b
    ensures FeverTextColor(a) != FeverTextColor(b)
  {
  }

  datatype User = User(name: string, email: string)
  datatype Episode = Episode(id: string, startedAt: string, status: string)
  datatype SymptomLog = SymptomLog(dayOfIllness: int, temperature: real, tempTime: string, createdAt: string)
  datatype Prediction = Prediction(primaryDiagnosis: string, confidenceScore: real, urgency: string)
  datatype Medication = Medication(id: string, medicationName: string, dosage: string, frequency: string, isActive: bool)
  datatype Alert = Alert(id: string, message: string, severity: string, createdAt: string)

  /** The body of `GET /patient/dashboard`; the three lists may be missing. */
  datatype DashboardResponse = DashboardResponse(
    success: bool,
    user: User,
    hasActiveEpisode: bool,
    episode: Option<Episode>,
    symptomLogs: Option<seq<SymptomLog>>,
    latestPrediction: Option<Prediction>,
    medications: Option<seq<Medication>>,
    alerts: Option<seq<Alert>>)

  /** The dashboard data kept in component state; the lists are always present. */
  datatype DashboardData = DashboardData(
    user: User,
    hasActiveEpisode: bool,
    episode: Option<Episode>,
    symptomLogs: seq<SymptomLog>,
    latestPrediction: Option<Prediction>,
    medications: seq<Medication>,
    alerts: seq<Alert>)

  /** `list || []`: a missing list becomes empty, a present one (even an
      empty one, which is truthy) is kept. */
  function OrEmpty<T>(o: Option<seq<T>>): (r: seq<T>)
    ensures o.None? ==> r == []
    ensures o.Some? ==> r == o.value
  {
    if o.Some? then o.value else []
  }

  /** The `DashboardData` built from a successful response. */
  function ToDashboardData(r: DashboardResponse): (d: DashboardData)
    ensures r.symptomLogs.None? ==> d.symptomLogs == []
    ensures r.medications.None? ==> d.medications == []
    ensures r.alerts.None? ==> d.alerts == []
    ensures r.symptomLogs.Some? ==> d.symptomLogs == r.symptomLogs.value
    ensures r.medications.Some? ==> d.medications == r.medications.value
    ensures r.alerts.Some? ==> d.alerts == r.alerts.value
    ensures d.user == r.user && d.hasActiveEpisode == r.hasActiveEpisode
    ensures d.episode == r.episode && d.latestPrediction == r.latestPrediction
  {
    DashboardData(r.user, r.hasActiveEpisode, r.episode, OrEmpty(r.symptomLogs),
                  r.latestPrediction, OrEmpty(r.medications), OrEmpty(r.alerts))
  }

  /** The label `Day n` of a chart point. */
  datatype ChartLabel = Day(n: int)
  datatype ChartPoint = ChartPoint(time: ChartLabel, temp: real)

  /** `symptomLogs.map(log => ({ time: `Day ${log.dayOfIllness}`, temp: log.temperature }))`. */
  function TrendOf(logs: seq<SymptomLog>): (points: seq<ChartPoint>)
    ensures |points| == |logs|
    ensures forall i :: 0 <= i < |logs| ==>
      points[i] == ChartPoint(Day(logs[i].dayOfIllness), logs[i].temperature)
  {
    if logs == [] then []
    else [ChartPoint(Day(logs[0].dayOfIllness), logs[0].temperature)] + TrendOf(logs[1..])
  }

  /** `temperatureData`: the trend of the loaded logs, or no points before loading. */
  function TemperatureData(data: Option<DashboardData>): (points: seq<ChartPoint>)
    ensures data.None? ==> points == []
    ensures data.Some? ==> points == TrendOf(data.value.symptomLogs)
    ensures data.Some? ==> |points| == |data.value.symptomLogs|
  {
    if data.Some? then TrendOf(data.value.symptomLogs) else []
  }

  /** The trend maps the logs one by one: the trend of two runs of logs is
      the first run's trend followed by the second's, so no reading is
      merged, averaged or reordered. */
  lemma {:induction false} TrendAppend(a: seq<SymptomLog>, b: seq<SymptomLog>)
    ensures TrendOf(a + b) == TrendOf(a) + TrendOf(b)
  {
    if a == [] {
      assert a + b == b;
    } else {
      assert (a + b)[0] == a[0];
      assert (a + b)[1..] == a[1..] + b;
      TrendAppend(a[1..], b);
    }
  }

  /** What the request for the dashboard came back with. */
  datatype FetchOutcome =
    | Received(response: DashboardResponse)
    | RequestFailed(httpStatus: Option<int>)

  /** The state of the dashboard component. */
  class PatientDashboard {
    var data: Option<DashboardData>
    var loading: bool
    var currentTemp: real
    var feverStatus: FeverStatus

    /** The displayed band always belongs to the displayed temperature. */
    ghost predicate Valid()
      reads this
    {
      feverStatus == FeverStatusOf(currentTemp)
    }

    constructor ()
      ensures Valid()
      ensures data.None? && loading
      ensures currentTemp == 98.6 && feverStatus == Normal
    {
      data := None;
      loading := true;
      currentTemp := 98.6;
      feverStatus := Normal;
    }

    /** `calculateFeverStatus`: stores the band of `temp`. */
    method CalculateFeverStatus(temp: real)
      modifies this`feverStatus
      ensures feverStatus == FeverStatusOf(temp)
    {
      if temp > 100.4 {
        feverStatus := High;
      } else if temp > 99.5 {
        feverStatus := Moderate;
      } else if temp > 98.6 {
        feverStatus := Mild;
      } else {
        feverStatus := Normal;
      }
    }

    /** `fetchDashboardData`.  On a successful response the data is stored
        and, when there are logs, the temperature and band come from the last
        one.  `expired` reports the 401 case, where the page sends the user
        back to the login screen. */
    method FetchDashboardData(outcome: FetchOutcome) returns (expired: bool)
      requires Valid()
      modifies this
      ensures Valid() && !loading
      ensures expired <==> outcome == RequestFailed(Some(401))
      ensures outcome.Received? && outcome.response.success ==>
        data == Some(ToDashboardData(outcome.response))
      ensures !(outcome.Received? && outcome.response.success) ==> data == old(data)
      ensures outcome.Received? && outcome.response.success && |data.value.symptomLogs| > 0 ==>
        var logs := data.value.symptomLogs;
        currentTemp == logs[|logs| - 1].temperature
      ensures !(outcome.Received? && outcome.response.success && |OrEmpty(outcome.response.symptomLogs)| > 0) ==>
        currentTemp == old(currentTemp) && feverStatus == old(feverStatus)
    {
      loading := true;
      expired := false;
      match outcome {
        case Received(response) =>
          if response.success {
            var d := ToDashboardData(response);
            data := Some(d);
            if |d.symptomLogs| > 0 {
              var latest := d.symptomLogs[|d.symptomLogs| - 1];
              currentTemp := latest.temperature;
              CalculateFeverStatus(latest.temperature);
            }
          }
        case RequestFailed(status) =>
          expired := status == Some(401);
      }
      loading := false;
    }

    /** `getFeverColor`. */
    function GetFeverColor(): (c: string)
      reads this
      ensures c == FeverTextColor(feverStatus)
    {
      FeverTextColor(feverStatus)
    }
  }
}
