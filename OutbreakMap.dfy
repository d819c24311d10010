/** The outbreak map (src/components/OutbreakMap.tsx): the marker colour of
    an outbreak's severity and the marker radius of its case count. */
module OutbreakMap {

  /** `getSeverityColor`. */
  function SeverityColor(severity: string): (c: string)
    ensures c == "#ef4444" <==> severity == "high"
    ensures c == "#f59e0b" <==> severity == "medium"
    ensures c == "#3b82f6" <==> severity == "low"
    ensures c == "#6b7280" <==> severity !in {"high", "medium", "low"}
  {
    match severity
    case "high" => "#ef4444"
    case "medium" => "#f59e0b"
    case "low" => "#3b82f6"
    case _ => "#6b7280"
  }

  /** `getRadius`: `Math.max(10, Math.min(40, cases / 5))`. */
  function Radius(cases: real): (r: real)
    ensures 10.0 <= r <= 40.0
    ensures 50.0 <= cases <= 200.0 ==> r == cases / 5.0
    ensures cases <= 50.0 ==> r == 10.0
    ensures cases >= 200.0 ==> r == 40.0
  {
    var scaled := cases / 5.0;
    var capped := if scaled < 40.0 then scaled else 40.0;
    if capped > 10.0 then capped else 10.0
  }

  /** More cases never draw a smaller marker. */
  lemma RadiusMonotone(a: real, b: real)
    requires a <= b
    ensures Radius(a) <= Radius(b)
  {
  }
}
