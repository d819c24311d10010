/** The static patient dashboard (src/pages/PatientDashboard.tsx): a fixed
    reading, the band computed by a nested ternary, the colour class of the
    band and the status badge. */
module PatientDashboardStatic {
  import opened PatientDashboardApi

  /** The fixed reading the page displays. */
  const CurrentTemp: real := 98.9

  /** The nested ternary `feverStatus`.  It agrees everywhere with the
      classifier of the backed dashboard. */
  function FeverStatusTernary(t: real): (s: FeverStatus)
    ensures s == FeverStatusOf(t)
  {
    if t > 100.4 then High else if t > 99.5 then Moderate else if t > 98.6 then Mild else Normal
  }

  /** The displayed band of the fixed reading. */
  lemma FixedReadingIsMild()
    ensures FeverStatusTernary(CurrentTemp) == Mild
  {
  }

  /** `getFeverColor`: one class per band, `fever-normal` as the default. */
  function FeverColor(s: FeverStatus): (c: string)
    ensures c == "fever-high" <==> s == High
    ensures c == "fever-moderate" <==> s == Moderate
    ensures c == "fever-mild" <==> s == Mild
    ensures c == "fever-normal" <==> s == Normal
  {
    match s
    case High => "fever-high"
    case Moderate => "fever-moderate"
    case Mild => "fever-mild"
    case Normal => "fever-normal"
  }

  /** Different bands get different classes. */
  lemma FeverColorDistinct(a: FeverStatus, b: FeverStatus)
    requires a != b
    ensures FeverColor(a) != FeverColor(b)
  {
  }

  /** The label of the status badge. */
  function BadgeLabel(s: FeverStatus): (text: string)
    ensures text == "Healthy" <==> s == Normal
    ensures text == "Monitoring" <==> s != Normal
  {
    if s == Normal then "Healthy" else "Monitoring"
  }

  /** The badge variant: `secondary` when healthy, `destructive` otherwise. */
  function BadgeVariant(s: FeverStatus): (v: string)
    ensures v == "secondary" <==> BadgeLabel(s) == "Healthy"
    ensures v == "destructive" <==> BadgeLabel(s) == "Monitoring"
  {
    if s == Normal then "secondary" else "destructive"
  }
}
