/** The patient's medication list (src/components/PatientMedications.tsx):
    which dose logs belong to a medication today, the "Taken Today" badge
    and the "Last taken" time. */
module PatientMedications {
  import opened Js
  import Seqs

  /** A row of `medication_logs`; `takenAt` is a clock reading in minutes. */
  datatype MedicationLog = MedicationLog(id: string, medicationId: string, takenAt: int, notes: Option<string>)

  /** The calendar day of a clock reading, the role of `format(d, "yyyy-MM-dd")`. */
  function DayKey(minutes: int): int
  {
    minutes / 1440
  }

  /** The test of `getTodaysLogs`'s filter. */
  predicate IsTodaysDose(log: MedicationLog, medicationId: string, today: int)
  {
    log.medicationId == medicationId && DayKey(log.takenAt) == today
  }

  /** That test as the function `filter` is given. */
  function TodaysDose(medicationId: string, today: int): MedicationLog -> bool
  {
    (log: MedicationLog) => IsTodaysDose(log, medicationId, today)
  }

  /** `getTodaysLogs(medicationId)` for the day key `today`. */
  function TodaysLogs(logs: seq<MedicationLog>, medicationId: string, today: int): (r: seq<MedicationLog>)
    ensures |r| <= |logs|
    ensures forall i :: 0 <= i < |r| ==> IsTodaysDose(r[i], medicationId, today) && r[i] in logs
    ensures forall i :: 0 <= i < |logs| && IsTodaysDose(logs[i], medicationId, today) ==> logs[i] in r
    ensures Seqs.SubsequenceOf(r, logs)
  {
    Seqs.Filter(logs, TodaysDose(medicationId, today))
  }

  /** Each of today's doses is listed as often as it was logged, and no
      other log is listed. */
  lemma TodaysLogsMultiplicity(logs: seq<MedicationLog>, medicationId: string, today: int, log: MedicationLog)
    ensures multiset(TodaysLogs(logs, medicationId, today))[log]
         == if IsTodaysDose(log, medicationId, today) then multiset(logs)[log] else 0
  {
    Seqs.FilterMultiplicity(logs, TodaysDose(medicationId, today), log);
  }

  /** Today's list is non-empty exactly when some log is a dose of this
      medication today. */
  lemma TodaysLogsNonEmptyIff(logs: seq<MedicationLog>, medicationId: string, today: int)
    ensures |TodaysLogs(logs, medicationId, today)| > 0
        <==> exists i :: 0 <= i < |logs| && IsTodaysDose(logs[i], medicationId, today)
  {
    var r := TodaysLogs(logs, medicationId, today);
    if |r| > 0 {
      assert r[0] in logs;
      var i :| 0 <= i < |logs| && logs[i] == r[0];
      assert IsTodaysDose(logs[i], medicationId, today);
    }
  }

  /** `hasTakenToday`: the "Taken Today" badge shows exactly when some log
      is a dose of this medication today. */
  function HasTakenToday(logs: seq<MedicationLog>, medicationId: string, today: int): (taken: bool)
    ensures taken <==> exists i :: 0 <= i < |logs| && IsTodaysDose(logs[i], medicationId, today)
  {
    TodaysLogsNonEmptyIff(logs, medicationId, today);
    |TodaysLogs(logs, medicationId, today)| > 0
  }

  /** The "Last taken" time: the first of today's logs, which is the time
      of one of today's doses. */
  function LastTaken(logs: seq<MedicationLog>, medicationId: string, today: int): (t: Option<int>)
    ensures t.Some? <==> HasTakenToday(logs, medicationId, today)
    ensures t.Some? ==> exists i :: 0 <= i < |logs| && IsTodaysDose(logs[i], medicationId, today)
                                    && logs[i].takenAt == t.value
  {
    var r := TodaysLogs(logs, medicationId, today);
    if |r| > 0 then
      assert r[0] in logs;
      Some(r[0].takenAt)
    else None
  }

  /** The order the query asks for: `taken_at` descending. */
  ghost predicate NewestFirst(logs: seq<MedicationLog>)
  {
    forall i, j :: 0 <= i < j < |logs| ==> logs[i].takenAt >= logs[j].takenAt
  }

  /** With the logs newest first, the "Last taken" time is the latest dose of
      the medication today. */
  lemma {:induction false} LastTakenIsLatest(logs: seq<MedicationLog>, medicationId: string, today: int, j: int)
    requires NewestFirst(logs)
    requires 0 <= j < |logs| && IsTodaysDose(logs[j], medicationId, today)
    ensures LastTaken(logs, medicationId, today).Some?
    ensures LastTaken(logs, medicationId, today).value >= logs[j].takenAt
  {
    if IsTodaysDose(logs[0], medicationId, today) {
      assert TodaysLogs(logs, medicationId, today)[0] == logs[0];
      assert logs[j] in TodaysLogs(logs, medicationId, today);
    } else {
      assert j > 0;
      assert NewestFirst(logs[1..]) by {
        forall a, b | 0 <= a < b < |logs[1..]| ensures logs[1..][a].takenAt >= logs[1..][b].takenAt {
          assert logs[1..][a] == logs[a + 1] && logs[1..][b] == logs[b + 1];
        }
      }
      assert logs[1..][j - 1] == logs[j];
      LastTakenIsLatest(logs[1..], medicationId, today, j - 1);
    }
  }
}
