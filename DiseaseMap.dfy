/** The disease hotspot map (src/components/DiseaseMap.tsx): the filter over
    the reported cases and the marker colour of a disease. */
module DiseaseMap {
  import opened Js
  import Seqs

  /** The fields of a case that the filter and the markers read. */
  datatype Case = Case(id: string, disease: string, urgency: string, dayOfIllness: int)

  datatype Filter = All | Dengue | Malaria | Typhoid | Viral

  /** The value of the filter: the lower-case disease name it selects. */
  function FilterName(f: Filter): string
  {
    match f
    case All => "all"
    case Dengue => "dengue"
    case Malaria => "malaria"
    case Typhoid => "typhoid"
    case Viral => "viral"
  }

  /** `c.disease.toLowerCase() === filter`. */
  predicate Matches(c: Case, f: Filter)
  {
    Lower(c.disease) == FilterName(f)
  }

  /** The test of the filter as the function `filter` is given. */
  function Matching(f: Filter): Case -> bool
  {
    (c: Case) => Matches(c, f)
  }

  /** `filteredCases`. */
  function FilteredCases(cases: seq<Case>, f: Filter): (r: seq<Case>)
    ensures f == All ==> r == cases
    ensures |r| <= |cases|
    ensures f != All ==> forall i :: 0 <= i < |r| ==> Matches(r[i], f) && r[i] in cases
    ensures f != All ==> forall i :: 0 <= i < |cases| && Matches(cases[i], f) ==> cases[i] in r
    ensures Seqs.SubsequenceOf(r, cases)
  {
    if f == All then
      Seqs.SubsequenceOfSelf(cases);
      cases
    else
      Seqs.Filter(cases, Matching(f))
  }

  /** A disease filter lists each matching case as often as it was
      reported, and no other case. */
  lemma FilteredCasesMultiplicity(cases: seq<Case>, f: Filter, c: Case)
    ensures multiset(FilteredCases(cases, f))[c]
         == if f == All || Matches(c, f) then multiset(cases)[c] else 0
  {
    if f != All {
      Seqs.FilterMultiplicity(cases, Matching(f), c);
    }
  }

  /** No case passes two different disease filters. */
  lemma FiltersDisjoint(cases: seq<Case>, f: Filter, g: Filter)
    requires f != All && g != All && f != g
    ensures forall i :: 0 <= i < |FilteredCases(cases, f)| ==> FilteredCases(cases, f)[i] !in FilteredCases(cases, g)
  {
    var rf := FilteredCases(cases, f);
    var rg := FilteredCases(cases, g);
    forall i | 0 <= i < |rf| ensures rf[i] !in rg {
      assert Matches(rf[i], f);
    }
  }

  /** The four disease filters together show at most every case once. */
  lemma {:induction false} FilterCountsAtMostTotal(cases: seq<Case>)
    ensures |FilteredCases(cases, Dengue)| + |FilteredCases(cases, Malaria)|
          + |FilteredCases(cases, Typhoid)| + |FilteredCases(cases, Viral)| <= |cases|
  {
    if cases != [] {
      FilterCountsAtMostTotal(cases[1..]);
    }
  }

  const DiseaseColors: map<string, string> :=
    map["dengue" := "#ff4444", "malaria" := "#44ff44", "typhoid" := "#4444ff", "viral" := "#ffaa00"]

  /** `getDiseaseColor`: looked up by the lower-cased name, grey otherwise. */
  function DiseaseColor(disease: string): (c: string)
    ensures Lower(disease) in DiseaseColors ==> c == DiseaseColors[Lower(disease)]
    ensures c == "#888888" <==> Lower(disease) !in DiseaseColors
  {
    var key := Lower(disease);
    if key in DiseaseColors then DiseaseColors[key] else "#888888"
  }

  /** The colour does not depend on letter case. */
  lemma DiseaseColorIgnoresCase(disease: string)
    ensures DiseaseColor(Lower(disease)) == DiseaseColor(disease)
  {
    LowerIdempotent(disease);
  }

  /** A case shown under a disease filter carries that disease's colour. */
  lemma FilteredCaseColor(cases: seq<Case>, f: Filter, i: int)
    requires f != All && 0 <= i < |FilteredCases(cases, f)|
    ensures DiseaseColor(FilteredCases(cases, f)[i].disease) == DiseaseColors[FilterName(f)]
  {
  }
}
