/**
 * The dashboard's derived figures (components/Dashboard.tsx): the 1-5
 * quality rating, the star row, the chart series, the most active unit and
 * the labels of the recent-report list.
 */
module Dashboard {
  import opened Types
  import StorageService

  // ---------------------------------------------------------------------------
  // Quality rating
  // ---------------------------------------------------------------------------

  /** The four conditions that each add a point (components/Dashboard.tsx:42-52). */
  datatype Criterion = IsSubmitted | ManyImages | LongReflection | LongPlan

  const AllCriteria: seq<Criterion> := [IsSubmitted, ManyImages, LongReflection, LongPlan]

  /** The cap on the rating (components/Dashboard.tsx:54). */
  const MaxRating: int := 5

  /** Whether the report meets the condition. */
  predicate Met(r: Report, c: Criterion)
  {
    match c
    case IsSubmitted => r.status == Submitted
    case ManyImages => |r.gambar| >= 4
    case LongReflection => |r.refleksi| > 50
    case LongPlan => |r.penambahbaikan| > 50
  }

  /** How many of the listed conditions the report meets. */
  function CountMet(r: Report, cs: seq<Criterion>): (n: nat)
    ensures n <= |cs|
  {
    if cs == [] then 0 else (if Met(r, cs[0]) then 1 else 0) + CountMet(r, cs[1..])
  }

  /** The rating: one point plus one per condition met. */
  function Rating(r: Report): (score: int)
    ensures 1 <= score <= MaxRating
  {
    1 + CountMet(r, AllCriteria)
  }

  /** Pointwise form of 0/1 for a condition. */
  function Point(r: Report, c: Criterion): nat
  {
    if Met(r, c) then 1 else 0
  }

  /** The rating spelled out over the four conditions. */
  lemma RatingExpanded(r: Report)
    ensures Rating(r) == 1 + Point(r, IsSubmitted) + Point(r, ManyImages) + Point(r, LongReflection) + Point(r, LongPlan)
  {
    assert CountMet(r, [LongPlan]) == Point(r, LongPlan) by {
      assert [LongPlan][1..] == [];
    }
    assert CountMet(r, [LongReflection, LongPlan]) == Point(r, LongReflection) + Point(r, LongPlan) by {
      assert [LongReflection, LongPlan][1..] == [LongPlan];
    }
    assert CountMet(r, [ManyImages, LongReflection, LongPlan])
      == Point(r, ManyImages) + Point(r, LongReflection) + Point(r, LongPlan) by {
      assert [ManyImages, LongReflection, LongPlan][1..] == [LongReflection, LongPlan];
    }
    assert AllCriteria[1..] == [ManyImages, LongReflection, LongPlan];
  }

  /**
   * `calculateRating` (components/Dashboard.tsx:39-55): the score starts at
   * 1, each condition adds one, and the result is capped at 5.
   */
  method CalculateRating(report: Report) returns (score: int)
    ensures score == Rating(report)
    ensures 1 <= score <= MaxRating
  {
    score := 1;
    if report.status == Submitted { score := score + 1; }
    if |report.gambar| >= 4 { score := score + 1; }
    if |report.refleksi| > 50 { score := score + 1; }
    if |report.penambahbaikan| > 50 { score := score + 1; }
    RatingExpanded(report);
    score := if score < MaxRating then score else MaxRating;
  }

  /** Meeting more conditions never gives fewer points. */
  lemma {:induction false} CountMetMonotone(r1: Report, r2: Report, cs: seq<Criterion>)
    requires forall c :: Met(r1, c) ==> Met(r2, c)
    ensures CountMet(r1, cs) <= CountMet(r2, cs)
  {
    if cs != [] {
      CountMetMonotone(r1, r2, cs[1..]);
    }
  }

  /** The rating is monotone in each condition. */
  lemma RatingMonotone(r1: Report, r2: Report)
    requires forall c :: Met(r1, c) ==> Met(r2, c)
    ensures Rating(r1) <= Rating(r2)
  {
    CountMetMonotone(r1, r2, AllCriteria);
  }

  /** Making exactly one more condition hold raises the rating by exactly one. */
  lemma RatingRaise(r1: Report, r2: Report, c: Criterion)
    requires !Met(r1, c) && Met(r2, c)
    requires forall d :: d != c ==> (Met(r1, d) <==> Met(r2, d))
    ensures Rating(r2) == Rating(r1) + 1
  {
    RatingExpanded(r1);
    RatingExpanded(r2);
    match c
    case IsSubmitted =>
      assert Point(r1, ManyImages) == Point(r2, ManyImages);
      assert Point(r1, LongReflection) == Point(r2, LongReflection);
      assert Point(r1, LongPlan) == Point(r2, LongPlan);
    case ManyImages =>
      assert Point(r1, IsSubmitted) == Point(r2, IsSubmitted);
      assert Point(r1, LongReflection) == Point(r2, LongReflection);
      assert Point(r1, LongPlan) == Point(r2, LongPlan);
    case LongReflection =>
      assert Point(r1, IsSubmitted) == Point(r2, IsSubmitted);
      assert Point(r1, ManyImages) == Point(r2, ManyImages);
      assert Point(r1, LongPlan) == Point(r2, LongPlan);
    case LongPlan =>
      assert Point(r1, IsSubmitted) == Point(r2, IsSubmitted);
      assert Point(r1, ManyImages) == Point(r2, ManyImages);
      assert Point(r1, LongReflection) == Point(r2, LongReflection);
  }

  /** The image threshold is exact: a fourth image scores, a third does not. */
  lemma ImageThreshold(r: Report, img: string)
    requires |r.gambar| == 3
    ensures Rating(r.(gambar := r.gambar + [img])) == Rating(r) + 1
  {
    RatingRaise(r, r.(gambar := r.gambar + [img]), ManyImages);
  }

  /** The reflection threshold is exact: 51 characters score, 50 do not. */
  lemma ReflectionThreshold(r: Report, ch: char)
    requires |r.refleksi| == 50
    ensures Rating(r.(refleksi := r.refleksi + [ch])) == Rating(r) + 1
  {
    RatingRaise(r, r.(refleksi := r.refleksi + [ch]), LongReflection);
  }

  /** The improvement-plan threshold is exact: 51 characters score, 50 do not. */
  lemma PlanThreshold(r: Report, ch: char)
    requires |r.penambahbaikan| == 50
    ensures Rating(r.(penambahbaikan := r.penambahbaikan + [ch])) == Rating(r) + 1
  {
    RatingRaise(r, r.(penambahbaikan := r.penambahbaikan + [ch]), LongPlan);
  }

  /** Submitting a draft raises its rating by exactly one. */
  lemma SubmittingRaisesRating(r: Report)
    requires r.status == Draft
    ensures Rating(r.(status := Submitted)) == Rating(r) + 1
  {
    RatingRaise(r, r.(status := Submitted), IsSubmitted);
  }

  // ---------------------------------------------------------------------------
  // Stars
  // ---------------------------------------------------------------------------

  /** The number of stars drawn (components/Dashboard.tsx:60). */
  const StarCount: nat := 5

  /** `renderStars`: star `i` is filled exactly when `i < score` (components/Dashboard.tsx:57-68). */
  function Stars(score: int): (filled: seq<bool>)
    ensures |filled| == StarCount
    ensures forall i :: 0 <= i < StarCount ==> filled[i] == (i < score)
  {
    seq(StarCount, i => i < score)
  }

  /** The number of `true` entries. */
  function CountTrue(bs: seq<bool>): nat
  {
    if bs == [] then 0 else CountTrue(bs[..|bs| - 1]) + (if bs[|bs| - 1] then 1 else 0)
  }

  /** Among the first `n` stars, `min(n, score)` are filled. */
  lemma {:induction false} FilledPrefix(score: int, n: nat)
    requires 0 <= score && n <= StarCount
    ensures CountTrue(Stars(score)[..n]) == if n < score then n else score
  {
    if n > 0 {
      FilledPrefix(score, n - 1);
      assert Stars(score)[..n][..n - 1] == Stars(score)[..n - 1];
    }
  }

  /** The row shows as many filled stars as the rating says. */
  lemma FilledStarsMatchRating(r: Report)
    ensures CountTrue(Stars(Rating(r))) == Rating(r)
  {
    FilledPrefix(Rating(r), StarCount);
    assert Stars(Rating(r))[..StarCount] == Stars(Rating(r));
  }

  // ---------------------------------------------------------------------------
  // Chart and most active unit
  // ---------------------------------------------------------------------------

  /** One bar of the chart: a unit's name and its count. */
  datatype ChartEntry = ChartEntry(name: string, value: nat)

  /** The entries for the listed units, in that order. */
  function Entries(byUnit: map<UnitType, nat>, us: seq<UnitType>): (data: seq<ChartEntry>)
    requires forall u :: u in us ==> u in byUnit
    ensures |data| == |us|
  {
    if us == [] then [] else [ChartEntry(UnitLabel(us[0]), byUnit[us[0]])] + Entries(byUnit, us[1..])
  }

  /** `chartData`: `Object.entries(stats.byUnit)`, in the key order of the units (components/Dashboard.tsx:15-18). */
  function ChartData(byUnit: map<UnitType, nat>): (data: seq<ChartEntry>)
    requires forall u :: u in AllUnits ==> u in byUnit
    ensures |data| == |AllUnits|
    ensures forall i :: 0 <= i < |AllUnits| ==> data[i] == ChartEntry(UnitLabel(AllUnits[i]), byUnit[AllUnits[i]])
  {
    EntriesAt(byUnit, AllUnits);
    Entries(byUnit, AllUnits)
  }

  /** The sum of the chart values. */
  function ChartTotal(data: seq<ChartEntry>): nat
  {
    if data == [] then 0 else data[0].value + ChartTotal(data[1..])
  }

  /** Entry `i` is unit `i` with its count, so there is one entry per unit. */
  lemma {:induction false} EntriesAt(byUnit: map<UnitType, nat>, us: seq<UnitType>)
    requires forall u :: u in us ==> u in byUnit
    ensures |Entries(byUnit, us)| == |us|
    ensures forall i :: 0 <= i < |us| ==> Entries(byUnit, us)[i] == ChartEntry(UnitLabel(us[i]), byUnit[us[i]])
    ensures ChartTotal(Entries(byUnit, us)) == StorageService.SumByUnit(byUnit, us)
  {
    if us != [] {
      EntriesAt(byUnit, us[1..]);
      var data := Entries(byUnit, us);
      assert data[1..] == Entries(byUnit, us[1..]);
    }
  }

  /**
   * The chart of the dashboard statistics has one bar per unit, in unit
   * order, with that unit's count; the bars add up to `total`.
   */
  lemma ChartMatchesStats(byUnit: map<UnitType, nat>, total: nat)
    requires forall u :: u in AllUnits ==> u in byUnit
    requires StorageService.SumByUnit(byUnit, AllUnits) == total
    ensures |ChartData(byUnit)| == 5
    ensures forall i :: 0 <= i < 5 ==> ChartData(byUnit)[i] == ChartEntry(UnitLabel(AllUnits[i]), byUnit[AllUnits[i]])
    ensures ChartTotal(ChartData(byUnit)) == total
  {
    EntriesAt(byUnit, AllUnits);
  }

  /**
   * The reduce of components/Dashboard.tsx:90: the position of an entry with
   * the largest value. The reducer keeps `prev` only when it is strictly
   * larger, so every later entry is strictly smaller: ties go to the last.
   */
  function MostActiveIndex(data: seq<ChartEntry>): (k: nat)
    requires |data| > 0
    ensures k < |data|
    ensures forall j :: 0 <= j < |data| ==> data[j].value <= data[k].value
    ensures forall j :: k < j < |data| ==> data[j].value < data[k].value
    decreases |data|
  {
    if |data| == 1 then 0
    else
      var init := data[..|data| - 1];
      var prev := MostActiveIndex(init);
      assert init[prev] == data[prev];
      if data[prev].value > data[|data| - 1].value then prev else |data| - 1
  }

  /** The "most active unit" card: the winning entry's name, or '-' for an empty chart. */
  function MostActiveName(data: seq<ChartEntry>): (name: string)
    ensures data == [] ==> name == "-"
    ensures data != [] ==>
      exists k :: 0 <= k < |data| && name == data[k].name && (forall j :: 0 <= j < |data| ==> data[j].value <= data[k].value)
  {
    if |data| > 0 then data[MostActiveIndex(data)].name else "-"
  }

  /** When every count is equal, the last unit is named. */
  lemma TieNamesLast(data: seq<ChartEntry>)
    requires |data| > 0
    requires forall j :: 0 <= j < |data| ==> data[j].value == data[0].value
    ensures MostActiveName(data) == data[|data| - 1].name
  {
  }

  /** The chart built from the statistics always names a unit, never '-'. */
  lemma MostActiveIsAUnit(byUnit: map<UnitType, nat>)
    requires forall u :: u in AllUnits ==> u in byUnit
    ensures exists u :: u in AllUnits && MostActiveName(ChartData(byUnit)) == UnitLabel(u)
  {
    EntriesAt(byUnit, AllUnits);
    var data := ChartData(byUnit);
    var k := MostActiveIndex(data);
    assert data[k].name == UnitLabel(AllUnits[k]);
  }

  // ---------------------------------------------------------------------------
  // Recent-list labels
  // ---------------------------------------------------------------------------

  /** The status badge (components/Dashboard.tsx:176). */
  function StatusLabel(s: Status): (text: string)
    ensures text == "HANTAR" <==> s == Submitted
    ensures text == "DRAFT" <==> s == Draft
  {
    assert "HANTAR"[0] != "DRAFT"[0];
    if s == Submitted then "HANTAR" else assert s == Draft; "DRAFT"
  }

  /** The unit badge, 'UMUM' for a report without a unit (components/Dashboard.tsx:172). */
  function UnitBadge(u: UnitField): (text: string)
    ensures text != ""
    ensures u.Unit? ==> text == UnitLabel(u.unit)
    ensures u.NoUnit? ==> text == "UMUM"
  {
    OrElse(UnitText(u), "UMUM")
  }
}
