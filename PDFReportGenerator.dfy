/** The medical report generator (src/components/PDFReportGenerator.tsx): the
    rows of the temperature, symptom and medication tables, the clinical
    summary, the vertical layout with its page breaks, and the page footers.
    Temperatures here are in °C, as the report prints them. */
module PDFReportGenerator {
  import opened Js
  import Seqs

  /** The fields of the fetched rows that the report reads; times are clock
      readings. */
  datatype Reading = Reading(recordedAt: int, temperature: real)
  datatype SymptomRow = SymptomRow(recordedAt: int, symptomType: string, severity: int, notes: Option<string>)
  datatype MedRow = MedRow(medicationName: string, dosage: string, frequency: string, isActive: bool, startDate: int)

  /** The fever threshold of the report. */
  const HighThreshold: real := 37.5

  /** The status column of a reading. */
  function TempStatus(t: real): (s: string)
    ensures s == "High" <==> t > HighThreshold
    ensures s == "Normal" <==> t <= HighThreshold
  {
    if t > HighThreshold then "High" else "Normal"
  }

  datatype TempLine = TempLine(recordedAt: int, temperature: real, status: string)

  function TempLineOf(r: Reading): TempLine
  {
    TempLine(r.recordedAt, r.temperature, TempStatus(r.temperature))
  }

  function Min(a: int, b: int): int
  {
    if a <= b then a else b
  }

  /** The first `limit` elements, or all of them when there are fewer. */
  function Prefix<T>(s: seq<T>, limit: nat): (r: seq<T>)
    ensures |r| == Min(limit, |s|)
    ensures forall i :: 0 <= i < |r| ==> r[i] == s[i]
  {
    s[..Min(limit, |s|)]
  }

  function TempLines(ts: seq<Reading>): (r: seq<TempLine>)
    ensures |r| == |ts|
    ensures forall i :: 0 <= i < |ts| ==> r[i] == TempLineOf(ts[i])
  {
    if ts == [] then [] else [TempLineOf(ts[0])] + TempLines(ts[1..])
  }

  /** `tempData`: the first ten readings, in order, with their status. */
  function TempTable(ts: seq<Reading>): (rows: seq<TempLine>)
    ensures |rows| == Min(10, |ts|)
    ensures forall i :: 0 <= i < |rows| ==>
      rows[i].recordedAt == ts[i].recordedAt && rows[i].temperature == ts[i].temperature
      && (rows[i].status == "High" <==> ts[i].temperature > HighThreshold)
  {
    TempLines(Prefix(ts, 10))
  }

  predicate IsHigh(t: Reading)
  {
    t.temperature > HighThreshold
  }

  /** `highTempCount`. */
  function HighTempCount(ts: seq<Reading>): (n: nat)
    ensures n <= |ts|
    ensures n == 0 <==> forall i :: 0 <= i < |ts| ==> ts[i].temperature <= HighThreshold
  {
    Seqs.Count(ts, IsHigh)
  }

  predicate IsHighLine(row: TempLine)
  {
    row.status == "High"
  }

  function HighLines(rows: seq<TempLine>): nat
  {
    Seqs.Count(rows, IsHighLine)
  }

  /** The table never shows more "High" rows than the summary counts. */
  lemma {:induction false} TableHighAtMostCount(ts: seq<Reading>)
    ensures HighLines(TempTable(ts)) <= HighTempCount(ts)
  {
    PrefixHighAtMostCount(ts, 10);
  }

  lemma {:induction false} PrefixHighAtMostCount(ts: seq<Reading>, k: nat)
    ensures HighLines(TempLines(Prefix(ts, k))) <= HighTempCount(ts)
  {
    if ts != [] && k > 0 {
      assert Prefix(ts, k)[1..] == Prefix(ts[1..], k - 1);
      assert TempLines(Prefix(ts, k))[1..] == TempLines(Prefix(ts[1..], k - 1));
      PrefixHighAtMostCount(ts[1..], k - 1);
    }
  }

  /** The `reduce((sum, t) => sum + t.temperature, 0)` of the readings. */
  function Sum(ts: seq<Reading>): (total: real)
    ensures ts == [] ==> total == 0.0
    ensures |ts| == 1 ==> total == ts[0].temperature
  {
    if ts == [] then 0.0 else ts[0].temperature + Sum(ts[1..])
  }

  /** `avgTemp` before rounding: "N/A" exactly when there are no readings. */
  function AverageTemp(ts: seq<Reading>): (avg: Option<real>)
    ensures avg.None? <==> ts == []
  {
    if ts == [] then None else Some(Sum(ts) / (|ts| as real))
  }

  lemma {:induction false} SumBounds(ts: seq<Reading>, lo: real, hi: real)
    requires forall i :: 0 <= i < |ts| ==> lo <= ts[i].temperature <= hi
    ensures (|ts| as real) * lo <= Sum(ts) <= (|ts| as real) * hi
  {
    if ts != [] {
      assert forall i :: 0 <= i < |ts[1..]| ==> ts[1..][i] == ts[i + 1];
      SumBounds(ts[1..], lo, hi);
      assert (|ts| as real) * lo == (|ts[1..]| as real) * lo + lo;
      assert (|ts| as real) * hi == (|ts[1..]| as real) * hi + hi;
    }
  }

  /** The average lies between the lowest and the highest reading. */
  lemma AverageWithinBounds(ts: seq<Reading>, lo: real, hi: real)
    requires ts != []
    requires forall i :: 0 <= i < |ts| ==> lo <= ts[i].temperature <= hi
    ensures lo <= AverageTemp(ts).value <= hi
  {
    SumBounds(ts, lo, hi);
    var n := |ts| as real;
    var avg := Sum(ts) / n;
    assert avg * n == Sum(ts);
    if avg < lo {
      assert avg * n < lo * n;
    }
    if avg > hi {
      assert avg * n > hi * n;
    }
  }

  datatype SymptomLine = SymptomLine(recordedAt: int, symptomType: string, severity: int, notes: string)

  function SymptomLineOf(s: SymptomRow): (l: SymptomLine)
    ensures l.notes == OptStrOr(s.notes, "-")
  {
    SymptomLine(s.recordedAt, s.symptomType, s.severity, OptStrOr(s.notes, "-"))
  }

  function SymptomLines(ss: seq<SymptomRow>): (r: seq<SymptomLine>)
    ensures |r| == |ss|
    ensures forall i :: 0 <= i < |ss| ==> r[i] == SymptomLineOf(ss[i])
  {
    if ss == [] then [] else [SymptomLineOf(ss[0])] + SymptomLines(ss[1..])
  }

  /** `symptomsData`: the first fifteen symptoms, empty notes shown as "-". */
  function SymptomTable(ss: seq<SymptomRow>): (rows: seq<SymptomLine>)
    ensures |rows| == Min(15, |ss|)
    ensures forall i :: 0 <= i < |rows| ==>
      rows[i].symptomType == ss[i].symptomType && rows[i].severity == ss[i].severity
      && (rows[i].notes == "-" <==> ss[i].notes.None? || ss[i].notes.value in {"", "-"})
  {
    SymptomLines(Prefix(ss, 15))
  }

  /** `parts.join(sep)`. */
  function Join(parts: seq<string>, sep: string): (r: string)
    ensures parts == [] ==> r == ""
    ensures |parts| == 1 ==> r == parts[0]
    ensures parts != [] ==> parts[0] <= r
    ensures |parts| >= 2 ==> parts[0] + sep <= r
  {
    if parts == [] then ""
    else if |parts| == 1 then parts[0]
    else parts[0] + sep + Join(parts[1..], sep)
  }

  function Types(ss: seq<SymptomRow>): (r: seq<string>)
    ensures |r| == |ss|
    ensures forall i :: 0 <= i < |ss| ==> r[i] == ss[i].symptomType
  {
    if ss == [] then [] else [ss[0].symptomType] + Types(ss[1..])
  }

  /** The types that `recentSymptoms` joins: those of the first five. */
  function RecentTypes(ss: seq<SymptomRow>): (r: seq<string>)
    ensures |r| == Min(5, |ss|)
    ensures forall i :: 0 <= i < |r| ==> r[i] == ss[i].symptomType
  {
    Types(Prefix(ss, 5))
  }

  /** The "Recent Symptoms" line: the joined types, or "None recorded". */
  function RecentSymptoms(ss: seq<SymptomRow>): (text: string)
    ensures ss == [] ==> text == "None recorded"
    ensures ss != [] && ss[0].symptomType != "" ==> ss[0].symptomType <= text
    ensures |ss| == 1 && ss[0].symptomType != "" ==> text == ss[0].symptomType
    ensures Join(RecentTypes(ss), ", ") != "" ==> text == Join(RecentTypes(ss), ", ")
    ensures Join(RecentTypes(ss), ", ") == "" ==> text == "None recorded"
  {
    JoinStartsWithFirst(RecentTypes(ss), ", ");
    StrOr(Join(RecentTypes(ss), ", "), "None recorded")
  }

  /** Joining one more part adds the separator and that part at the end:
      the separator stands exactly between neighbouring parts. */
  lemma {:induction false} JoinAppend(parts: seq<string>, p: string, sep: string)
    requires parts != []
    ensures Join(parts + [p], sep) == Join(parts, sep) + sep + p
  {
    if |parts| == 1 {
      assert parts + [p] == [parts[0], p];
      assert [parts[0], p][1..] == [p];
    } else {
      assert (parts + [p])[0] == parts[0];
      assert (parts + [p])[1..] == parts[1..] + [p];
      JoinAppend(parts[1..], p, sep);
    }
  }

  /** A join starts with its first part. */
  lemma JoinStartsWithFirst(parts: seq<string>, sep: string)
    ensures parts != [] ==> parts[0] <= Join(parts, sep)
  {
  }

  /** Only the first five symptoms can appear: the rest do not change the line. */
  lemma RecentSymptomsIgnoresTail(ss: seq<SymptomRow>, more: seq<SymptomRow>)
    requires |ss| >= 5
    ensures RecentSymptoms(ss + more) == RecentSymptoms(ss)
  {
    assert Prefix(ss + more, 5) == Prefix(ss, 5);
  }

  datatype MedLine = MedLine(medicationName: string, dosage: string, frequency: string, status: string, startDate: int)

  function MedLineOf(m: MedRow): (l: MedLine)
    ensures l.status == (if m.isActive then "Active" else "Inactive")
  {
    MedLine(m.medicationName, m.dosage, m.frequency, if m.isActive then "Active" else "Inactive", m.startDate)
  }

  /** `medsData`: one row per medication, in order. */
  function MedTable(ms: seq<MedRow>): (rows: seq<MedLine>)
    ensures |rows| == |ms|
    ensures forall i :: 0 <= i < |ms| ==> rows[i] == MedLineOf(ms[i])
  {
    if ms == [] then [] else [MedLineOf(ms[0])] + MedTable(ms[1..])
  }

  predicate IsActive(m: MedRow)
  {
    m.isActive
  }

  /** The "Active Medications" count. */
  function ActiveCount(ms: seq<MedRow>): (n: nat)
    ensures n <= |ms|
    ensures n == |ms| <==> forall i :: 0 <= i < |ms| ==> ms[i].isActive
  {
    AllActiveCount(ms);
    Seqs.Count(ms, IsActive)
  }

  /** Every medication is counted exactly when every one is active. */
  lemma {:induction false} AllActiveCount(ms: seq<MedRow>)
    ensures Seqs.Count(ms, IsActive) == |ms| <==> forall i :: 0 <= i < |ms| ==> ms[i].isActive
  {
    if ms != [] {
      AllActiveCount(ms[1..]);
      assert forall i :: 1 <= i < |ms| ==> ms[1..][i - 1] == ms[i];
    }
  }

  predicate IsActiveLine(row: MedLine)
  {
    row.status == "Active"
  }

  function ActiveLines(rows: seq<MedLine>): nat
  {
    Seqs.Count(rows, IsActiveLine)
  }

  /** The active count equals the number of "Active" rows of the table. */
  lemma {:induction false} ActiveCountMatchesTable(ms: seq<MedRow>)
    ensures ActiveCount(ms) == ActiveLines(MedTable(ms))
  {
    if ms != [] {
      assert MedTable(ms)[1..] == MedTable(ms[1..]);
      ActiveCountMatchesTable(ms[1..]);
    }
  }

  /** Where an autoTable ended: `lastAutoTable.finalY` and how many pages it
      added while drawing.  Both come from the PDF library. */
  datatype TableEnd = TableEnd(finalY: int, pagesAdded: nat)

  /** The section starts of a laid-out report, and its page count. */
  datatype Layout = Layout(
    symptomsTitleY: Option<int>,
    medicationsTitleY: Option<int>,
    summaryTitleY: int,
    pageCount: nat)

  /** The y position after the header and patient block: 20 + 10 + 15 + 7 + 5 * 5. */
  const HeaderEnd: int := 77

  function Pages(present: bool, t: TableEnd): nat
  {
    if present then t.pagesAdded else 0
  }

  /** Where the next section starts after a section that may be absent:
      `finalY + 10` of its table, or `y` unchanged when it is absent. */
  function After(present: bool, t: TableEnd, y: int): int
  {
    if present then t.finalY + 10 else y
  }

  /** The page-break rule: a title that would start below `limit` starts
      at 20 on a new page. */
  function BreakAt(y: int, limit: int): (top: int)
    ensures y > limit ==> top == 20
    ensures y <= limit ==> top == y
  {
    if y > limit then 20 else y
  }

  /** The `yPos` walk of `generatePDF`: each present section advances it,
      and a section that would start below 250 (the summary: 230) moves to
      a new page at 20. */
  method LayoutReport(hasTemps: bool, tempTable: TableEnd,
                      hasSymptoms: bool, symptomTable: TableEnd,
                      hasMeds: bool, medTable: TableEnd) returns (layout: Layout)
    ensures layout.symptomsTitleY.Some? <==> hasSymptoms
    ensures layout.medicationsTitleY.Some? <==> hasMeds
    ensures hasSymptoms ==> layout.symptomsTitleY.value <= 250
    ensures hasMeds ==> layout.medicationsTitleY.value <= 250
    ensures layout.summaryTitleY <= 230
    ensures var tables := Pages(hasTemps, tempTable) + Pages(hasSymptoms, symptomTable) + Pages(hasMeds, medTable);
      1 + tables <= layout.pageCount <= 4 + tables
    ensures !hasTemps && !hasSymptoms && !hasMeds ==> layout == Layout(None, None, HeaderEnd, 1)
    ensures var y0 := After(hasTemps, tempTable, HeaderEnd);
      var y1 := After(hasSymptoms, symptomTable, y0);
      var y2 := After(hasMeds, medTable, y1);
      && (hasSymptoms ==> layout.symptomsTitleY == Some(BreakAt(y0, 250)))
      && (hasMeds ==> layout.medicationsTitleY == Some(BreakAt(y1, 250)))
      && layout.summaryTitleY == BreakAt(y2, 230)
      && layout.pageCount == 1 + Pages(hasTemps, tempTable) + Pages(hasSymptoms, symptomTable)
                             + Pages(hasMeds, medTable)
                             + Bit(hasSymptoms && y0 > 250) + Bit(hasMeds && y1 > 250) + Bit(y2 > 230)
  {
    var yPos := 20;
    var pages: nat := 1;
    var breaks: nat := 0;
    yPos := yPos + 10;
    yPos := yPos + 15;
    yPos := yPos + 7;
    yPos := yPos + 5 + 5 + 5 + 5 + 5;
    assert yPos == HeaderEnd;
    if hasTemps {
      yPos := yPos + 15;
      yPos := yPos + 5;
      pages := pages + tempTable.pagesAdded;
      yPos := tempTable.finalY + 10;
    }
    var symptomsTitleY: Option<int> := None;
    if hasSymptoms {
      if yPos > 250 {
        pages := pages + 1;
        breaks := breaks + 1;
        yPos := 20;
      }
      symptomsTitleY := Some(yPos);
      yPos := yPos + 5;
      pages := pages + symptomTable.pagesAdded;
      yPos := symptomTable.finalY + 10;
    }
    var medicationsTitleY: Option<int> := None;
    if hasMeds {
      if yPos > 250 {
        pages := pages + 1;
        breaks := breaks + 1;
        yPos := 20;
      }
      medicationsTitleY := Some(yPos);
      yPos := yPos + 5;
      pages := pages + medTable.pagesAdded;
      yPos := medTable.finalY + 10;
    }
    if yPos > 230 {
      pages := pages + 1;
      breaks := breaks + 1;
      yPos := 20;
    }
    assert pages == 1 + Pages(hasTemps, tempTable) + Pages(hasSymptoms, symptomTable)
                    + Pages(hasMeds, medTable) + breaks;
    layout := Layout(symptomsTitleY, medicationsTitleY, yPos, pages);
  }

  /** The two footer lines of a page. */
  datatype Footer = Footer(page: int, caption: string, notice: string)

  const Notice: string := "FieveAI - Confidential Medical Report"

  /** The footer of page `i`: "Page i of n" and the notice. */
  function FooterOf(i: int, pageCount: int): (f: Footer)
    ensures f.page == i && f.notice == Notice
    ensures "Page " <= f.caption
  {
    Footer(i, "Page " + DecimalText(i) + " of " + DecimalText(pageCount), Notice)
  }

  /** Different pages get different captions: equal captions have equal
      lengths, hence the same digits after "Page ", hence the same number. */
  lemma FooterCaptionsDistinct(i: int, j: int, pageCount: int)
    requires 1 <= i && 1 <= j && i != j
    ensures FooterOf(i, pageCount).caption != FooterOf(j, pageCount).caption
  {
    var a, b := DecimalText(i), DecimalText(j);
    var s := FooterOf(i, pageCount).caption;
    var t := FooterOf(j, pageCount).caption;
    if s == t {
      assert |a| == |b|;
      assert a == s[5..5 + |a|] == t[5..5 + |b|] == b;
      DecimalTextInjective(i, j);
    }
  }

  /** The footer loop: pages 1..pageCount, each labelled once, in order. */
  method Footers(pageCount: int) returns (footers: seq<Footer>)
    ensures |footers| == (if pageCount > 0 then pageCount else 0)
    ensures forall k :: 0 <= k < |footers| ==> footers[k] == FooterOf(k + 1, pageCount)
    ensures forall k :: 0 <= k < |footers| ==> footers[k].page == k + 1
    ensures forall j, k :: 0 <= j < k < |footers| ==> footers[j].page != footers[k].page
  {
    footers := [];
    var i := 1;
    while i <= pageCount
      invariant 1 <= i <= (if pageCount > 0 then pageCount + 1 else 1)
      invariant |footers| == i - 1
      invariant forall k :: 0 <= k < |footers| ==> footers[k] == FooterOf(k + 1, pageCount)
    {
      footers := footers + [FooterOf(i, pageCount)];
      i := i + 1;
    }
  }
}
