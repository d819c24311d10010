/** The analytics panel (src/components/AnalyticsDashboard.tsx): the risk
    distribution of the patient list, the counts per status and the trend
    series whose last point comes from the list. */
module AnalyticsDashboard {
  import opened Js
  import Seqs

  /** A `risk_score` as the comparisons see it: `null`, which a relational
      comparison converts to 0, or a number, where `NaN` also stands for a
      missing (`undefined`) score, which compares false with every bound. */
  datatype RiskScore = Null | Number(n: Num)

  /** The number a relational comparison uses for the score. */
  function Compared(score: RiskScore): (n: Num)
    ensures score.Null? ==> n == Finite(0.0)
    ensures score.Number? ==> n == score.n
  {
    match score
    case Null => Finite(0.0)
    case Number(n) => n
  }

  /** The two patient fields the panel reads. */
  datatype Patient = Patient(riskScore: RiskScore, status: string)

  datatype Bucket = HighRisk | MediumRisk | LowRisk

  /** The three filters of `riskDistribution`: `> 70`, `>= 40 && <= 70`
      and `< 40`, each false when the compared value is `NaN`. */
  predicate InBucket(b: Bucket, score: RiskScore)
  {
    var n := Compared(score);
    n.Finite? &&
    match b
    case HighRisk => n.value > 70.0
    case MediumRisk => 40.0 <= n.value <= 70.0
    case LowRisk => n.value < 40.0
  }

  /** A score that compares as a number lies in exactly one bucket, a
      `null` one in Low Risk, and a missing one in none. */
  lemma BucketsPartitionScores(score: RiskScore)
    ensures score.Number? && score.n.Finite? ==> (InBucket(HighRisk, score) <==> score.n.value > 70.0)
    ensures score.Number? && score.n.Finite? ==> (InBucket(LowRisk, score) <==> score.n.value < 40.0)
    ensures Compared(score).Finite? ==>
      (if InBucket(HighRisk, score) then 1 else 0) + (if InBucket(MediumRisk, score) then 1 else 0)
      + (if InBucket(LowRisk, score) then 1 else 0) == 1
    ensures score.Null? ==> InBucket(LowRisk, score) && !InBucket(MediumRisk, score) && !InBucket(HighRisk, score)
    ensures Compared(score).NaN? ==> !InBucket(HighRisk, score) && !InBucket(MediumRisk, score) && !InBucket(LowRisk, score)
  {
  }

  /** A bucket's test as the function `filter` is given. */
  function ScoredIn(b: Bucket): Patient -> bool
  {
    (p: Patient) => InBucket(b, p.riskScore)
  }

  /** `patients.filter(p => <bucket test>).length`. */
  function BucketCount(ps: seq<Patient>, b: Bucket): (n: nat)
    ensures n <= |ps|
    ensures n == 0 <==> forall i :: 0 <= i < |ps| ==> !InBucket(b, ps[i].riskScore)
  {
    Seqs.Count(ps, ScoredIn(b))
  }

  /** The status test of `statusData` as the function `filter` is given. */
  function HasStatus(status: string): Patient -> bool
  {
    (p: Patient) => p.status == status
  }

  /** `patients.filter(p => p.status === status).length`. */
  function StatusCount(ps: seq<Patient>, status: string): (n: nat)
    ensures n <= |ps|
    ensures n == 0 <==> forall i :: 0 <= i < |ps| ==> ps[i].status != status
  {
    Seqs.Count(ps, HasStatus(status))
  }

  /** Every score compares as a number: none is missing or `NaN`. */
  predicate AllComparable(ps: seq<Patient>)
  {
    forall i :: 0 <= i < |ps| ==> Compared(ps[i].riskScore).Finite?
  }

  /** With comparable scores, the three buckets count every patient once. */
  lemma {:induction false} BucketsSumToTotal(ps: seq<Patient>)
    requires AllComparable(ps)
    ensures BucketCount(ps, HighRisk) + BucketCount(ps, MediumRisk) + BucketCount(ps, LowRisk) == |ps|
  {
    if ps != [] {
      assert Compared(ps[0].riskScore).Finite?;
      assert AllComparable(ps[1..]) by {
        forall i | 0 <= i < |ps[1..]| ensures Compared(ps[1..][i].riskScore).Finite? {
          assert ps[1..][i] == ps[i + 1];
        }
      }
      BucketsSumToTotal(ps[1..]);
    }
  }

  /** Without that assumption the buckets may miss patients, never double count. */
  lemma {:induction false} BucketsAtMostTotal(ps: seq<Patient>)
    ensures BucketCount(ps, HighRisk) + BucketCount(ps, MediumRisk) + BucketCount(ps, LowRisk) <= |ps|
  {
    if ps != [] {
      BucketsAtMostTotal(ps[1..]);
    }
  }

  const Statuses: seq<string> := ["critical", "high", "moderate", "mild", "active"]

  /** The five counts of `statusData`, in display order. */
  function StatusData(ps: seq<Patient>): (counts: seq<nat>)
    ensures |counts| == 5
    ensures forall i :: 0 <= i < 5 ==> counts[i] == StatusCount(ps, Statuses[i]) && counts[i] <= |ps|
  {
    seq(5, i requires 0 <= i < 5 => StatusCount(ps, Statuses[i]))
  }

  function Sum5(c: seq<nat>): nat
    requires |c| == 5
  {
    c[0] + c[1] + c[2] + c[3] + c[4]
  }

  /** The five statuses are distinct, so no patient is counted twice. */
  lemma {:induction false} StatusCountsAtMostTotal(ps: seq<Patient>)
    ensures Sum5(StatusData(ps)) <= |ps|
  {
    if ps != [] {
      StatusCountsAtMostTotal(ps[1..]);
      assert StatusData(ps)[0] == StatusCount(ps, "critical");
      assert StatusData(ps)[1] == StatusCount(ps, "high");
      assert StatusData(ps)[2] == StatusCount(ps, "moderate");
      assert StatusData(ps)[3] == StatusCount(ps, "mild");
      assert StatusData(ps)[4] == StatusCount(ps, "active");
      assert StatusData(ps[1..])[0] == StatusCount(ps[1..], "critical");
      assert StatusData(ps[1..])[1] == StatusCount(ps[1..], "high");
      assert StatusData(ps[1..])[2] == StatusCount(ps[1..], "moderate");
      assert StatusData(ps[1..])[3] == StatusCount(ps[1..], "mild");
      assert StatusData(ps[1..])[4] == StatusCount(ps[1..], "active");
    }
  }

  datatype TrendPoint = TrendPoint(date: string, patients: int, highRisk: int)

  /** `trendData`: six fixed points and a last one taken from the list. */
  function TrendData(ps: seq<Patient>): (t: seq<TrendPoint>)
    ensures |t| == 7
    ensures t[6] == TrendPoint("Sun", |ps|, BucketCount(ps, HighRisk))
    ensures t[6].highRisk <= t[6].patients
  {
    [TrendPoint("Mon", 12, 3), TrendPoint("Tue", 15, 4), TrendPoint("Wed", 18, 5),
     TrendPoint("Thu", 16, 4), TrendPoint("Fri", 20, 6), TrendPoint("Sat", 17, 5),
     TrendPoint("Sun", |ps|, BucketCount(ps, HighRisk))]
  }
}
