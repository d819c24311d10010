/** The clinician dashboard page (src/pages/ClinicianDashboard.tsx): the
    badge variant of a patient's status and the text colour of a risk score. */
module ClinicianDashboard {

  /** `getStatusColor`: the badge variant of a status label. */
  function StatusColor(status: string): (variant: string)
    ensures status == "high" <==> variant == "destructive"
    ensures status == "moderate" <==> variant == "default"
    ensures status == "mild" <==> variant == "secondary"
    ensures status !in {"high", "moderate", "mild"} <==> variant == "outline"
  {
    match status
    case "high" => "destructive"
    case "moderate" => "default"
    case "mild" => "secondary"
    case _ => "outline"
  }

  /** `getRiskColor`: above 70 is destructive, above 50 accent, the rest mild. */
  function RiskColor(score: real): (c: string)
    ensures c == "text-destructive" <==> score > 70.0
    ensures c == "text-accent" <==> 50.0 < score <= 70.0
    ensures c == "text-fever-mild" <==> score <= 50.0
  {
    if score > 70.0 then "text-destructive"
    else if score > 50.0 then "text-accent"
    else "text-fever-mild"
  }

  /** The bands' order, lowest first. */
  function RiskRank(c: string): int
  {
    if c == "text-destructive" then 2 else if c == "text-accent" then 1 else 0
  }

  /** Both thresholds are exclusive: 70 is still accent, 50 still mild. */
  lemma RiskColorBoundaries()
    ensures RiskColor(70.0) == "text-accent"
    ensures RiskColor(50.0) == "text-fever-mild"
    ensures RiskColor(70.5) == "text-destructive" && RiskColor(50.5) == "text-accent"
  {
  }

  /** A higher score never gets a lower band. */
  lemma RiskColorMonotone(a: real, b: real)
    requires a <= b
    ensures RiskRank(RiskColor(a)) <= RiskRank(RiskColor(b))
  {
  }
}
