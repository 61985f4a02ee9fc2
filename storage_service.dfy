/**
 * The local report store and the client half of the upload protocol
 * (services/storageService.ts): upsert by id, listing, the dashboard
 * statistics, and the outcome of submitting a report to the remote script.
 */
module StorageService {
  import opened Wrappers
  import opened Types

  /**
   * The deployed web-app address of the remote script (services/storageService.ts:23):
   * the script host, the deployment id and the `/exec` suffix. The literal is
   * written in short parts only to keep the proofs about its characters cheap.
   */
  const GoogleScriptUrl: string := UrlHost + UrlDeployment + "/exec"

  const UrlHost: string := "https://script.google" + ".com/macros/s/"
  const UrlDeployment: string := UrlDeploymentHead + UrlDeploymentTail
  const UrlDeploymentHead: string := "AKfycbzR4cHHCUwgmveSHBCs" + "hCnYRc05EbgYusLwqmf"
  const UrlDeploymentTail: string := "frWgsIhlqgawFb_-Ew0" + "K104NuoL8"

  /** How many reports the dashboard lists as recent (services/storageService.ts:101). */
  const RecentCount: nat := 5

  // ---------------------------------------------------------------------------
  // Identity and upsert
  // ---------------------------------------------------------------------------

  /** No two stored reports share an id. */
  ghost predicate UniqueIds(rs: seq<Report>)
  {
    forall i, j :: 0 <= i < j < |rs| ==> rs[i].id != rs[j].id
  }

  /** The set of ids occurring in the collection. */
  ghost function Ids(rs: seq<Report>): set<string>
  {
    set j | 0 <= j < |rs| :: rs[j].id
  }

  /** `Array.prototype.findIndex` on the id: the first position holding `id`, or -1. */
  function FindIndex(rs: seq<Report>, id: string): (k: int)
    ensures -1 <= k < |rs|
    ensures k == -1 <==> forall j :: 0 <= j < |rs| ==> rs[j].id != id
    ensures 0 <= k ==> rs[k].id == id && forall j :: 0 <= j < k ==> rs[j].id != id
    decreases |rs|
  {
    if rs == [] then -1
    else if rs[0].id == id then 0
    else
      var k := FindIndex(rs[1..], id);
      assert forall j :: 1 <= j < |rs| ==> rs[j] == rs[1..][j - 1];
      if k == -1 then -1 else k + 1
  }

  /**
   * The collection after saving `r` (services/storageService.ts:27-38): the
   * first entry with the same id is replaced where it stands, otherwise `r`
   * is put in front of the old entries.
   */
  function Upsert(rs: seq<Report>, r: Report): (out: seq<Report>)
    ensures r in out
    ensures |out| == |rs| || |out| == |rs| + 1
  {
    var index := FindIndex(rs, r.id);
    if index >= 0 then
      assert rs[index := r][index] == r;
      rs[index := r]
    else [r] + rs
  }

  /** A report whose id is already stored replaces the first entry with that id, in place. */
  lemma UpsertReplaces(rs: seq<Report>, r: Report, k: nat)
    requires k < |rs| && rs[k].id == r.id
    requires forall j :: 0 <= j < k ==> rs[j].id != r.id
    ensures |Upsert(rs, r)| == |rs| && Upsert(rs, r)[k] == r
    ensures forall j :: 0 <= j < |rs| && j != k ==> Upsert(rs, r)[j] == rs[j]
  {
  }

  /** A report with a new id goes in front of the old entries, which keep their order. */
  lemma UpsertPrepends(rs: seq<Report>, r: Report)
    requires forall j :: 0 <= j < |rs| ==> rs[j].id != r.id
    ensures |Upsert(rs, r)| == |rs| + 1 && Upsert(rs, r)[0] == r && Upsert(rs, r)[1..] == rs
  {
  }

  /** Saving adds exactly the saved id to the set of ids. */
  lemma UpsertIds(rs: seq<Report>, r: Report)
    ensures Ids(Upsert(rs, r)) == Ids(rs) + {r.id}
  {
    var out := Upsert(rs, r);
    var k := FindIndex(rs, r.id);
    if k >= 0 {
      assert forall j :: 0 <= j < |out| && j != k ==> out[j] == rs[j];
      forall x | x in Ids(out) ensures x in Ids(rs) + {r.id} {
        var j :| 0 <= j < |out| && out[j].id == x;
        if j != k { assert rs[j].id == x; }
      }
      forall x | x in Ids(rs) ensures x in Ids(out) {
        var j :| 0 <= j < |rs| && rs[j].id == x;
        if j != k { assert out[j].id == x; } else { assert out[k].id == x; }
      }
      assert out[k].id == r.id;
    } else {
      forall x | x in Ids(out) ensures x in Ids(rs) + {r.id} {
        var j :| 0 <= j < |out| && out[j].id == x;
        if j > 0 { assert rs[j - 1].id == x; }
      }
      forall x | x in Ids(rs) ensures x in Ids(out) {
        var j :| 0 <= j < |rs| && rs[j].id == x;
        assert out[j + 1].id == x;
      }
      assert out[0].id == r.id;
    }
  }

  /**
   * Saving keeps ids unique, and every entry carrying the saved id is the
   * saved report itself.
   */
  lemma UpsertKeepsIdsUnique(rs: seq<Report>, r: Report)
    requires UniqueIds(rs)
    ensures UniqueIds(Upsert(rs, r))
    ensures forall j :: 0 <= j < |Upsert(rs, r)| && Upsert(rs, r)[j].id == r.id ==> Upsert(rs, r)[j] == r
  {
    var out := Upsert(rs, r);
    var k := FindIndex(rs, r.id);
    if k >= 0 {
      assert forall j :: 0 <= j < |out| && j != k ==> out[j] == rs[j];
    } else {
      assert forall j :: 1 <= j < |out| ==> out[j] == rs[j - 1];
    }
  }

  /** An index holding `id` with no earlier one is what `FindIndex` returns. */
  lemma FindIndexIs(s: seq<Report>, id: string, k: nat)
    requires k < |s| && s[k].id == id
    requires forall j :: 0 <= j < k ==> s[j].id != id
    ensures FindIndex(s, id) == k
  {
  }

  /** The saved id is found where it already was, or first when it is new. */
  lemma UpsertPositionOfSaved(rs: seq<Report>, r: Report)
    ensures FindIndex(Upsert(rs, r), r.id) == (if FindIndex(rs, r.id) >= 0 then FindIndex(rs, r.id) else 0)
  {
    var k := FindIndex(rs, r.id);
    var out := Upsert(rs, r);
    if k >= 0 {
      assert out == rs[k := r];
      FindIndexIs(out, r.id, k);
    } else {
      assert out == [r] + rs;
      FindIndexIs(out, r.id, 0);
    }
  }

  /** Saving the same report twice leaves the same collection as saving it once. */
  lemma UpsertIdempotent(rs: seq<Report>, r: Report)
    ensures Upsert(Upsert(rs, r), r) == Upsert(rs, r)
  {
    var out := Upsert(rs, r);
    UpsertPositionOfSaved(rs, r);
    var k := FindIndex(out, r.id);
    assert out[k] == r by {
      if FindIndex(rs, r.id) >= 0 {
        assert out == rs[FindIndex(rs, r.id) := r];
      } else {
        assert out == [r] + rs;
      }
    }
    assert Upsert(out, r) == out[k := r];
    assert out[k := r] == out;
  }

  /** Two collections that hold `id` at the same positions find it at the same index. */
  lemma FindIndexSamePattern(a: seq<Report>, b: seq<Report>, id: string)
    requires |a| == |b|
    requires forall j :: 0 <= j < |a| ==> (a[j].id == id <==> b[j].id == id)
    ensures FindIndex(a, id) == FindIndex(b, id)
  {
    var ka, kb := FindIndex(a, id), FindIndex(b, id);
    if ka >= 0 && kb >= 0 {
      assert !(ka < kb) && !(kb < ka);
    }
  }

  /**
   * Every other id keeps its position: unchanged when an entry was replaced,
   * one further back when the saved report was new.
   */
  lemma UpsertPositionOfOthers(rs: seq<Report>, r: Report, id: string)
    requires id != r.id
    ensures FindIndex(Upsert(rs, r), id) ==
      if FindIndex(rs, id) == -1 then -1
      else if FindIndex(rs, r.id) >= 0 then FindIndex(rs, id)
      else FindIndex(rs, id) + 1
  {
    var out := Upsert(rs, r);
    var k := FindIndex(rs, r.id);
    if k >= 0 {
      assert forall j :: 0 <= j < |rs| && j != k ==> out[j] == rs[j];
      FindIndexSamePattern(out, rs, id);
    } else {
      assert out == [r] + rs;
      assert out[1..] == rs;
    }
  }

  // ---------------------------------------------------------------------------
  // Statistics
  // ---------------------------------------------------------------------------

  /** Number of reports whose unit is `u`. */
  function CountUnit(rs: seq<Report>, u: UnitType): (n: nat)
    ensures n <= |rs|
  {
    if rs == [] then 0
    else CountUnit(rs[..|rs| - 1], u) + (if rs[|rs| - 1].unit == Unit(u) then 1 else 0)
  }

  /** Number of reports that have a unit at all. */
  function CountWithUnit(rs: seq<Report>): (n: nat)
    ensures n <= |rs|
  {
    if rs == [] then 0
    else CountWithUnit(rs[..|rs| - 1]) + (if rs[|rs| - 1].unit.Unit? then 1 else 0)
  }

  /** The sum of the counts of the listed units. */
  function SumByUnit(byUnit: map<UnitType, nat>, us: seq<UnitType>): (n: nat)
    requires forall u :: u in us ==> u in byUnit
    ensures forall i :: 0 <= i < |us| ==> byUnit[us[i]] <= n
  {
    if us == [] then 0 else byUnit[us[0]] + SumByUnit(byUnit, us[1..])
  }

  /** The sum over all five units, written out. */
  lemma SumAllUnits(byUnit: map<UnitType, nat>)
    requires forall u: UnitType :: u in byUnit
    ensures SumByUnit(byUnit, AllUnits) ==
      byUnit[Pentadbiran] + byUnit[Kurikulum] + byUnit[Kokurikulum] + byUnit[Hem] + byUnit[Pibg]
  {
    assert SumByUnit(byUnit, [Pibg]) == byUnit[Pibg] by {
      assert [Pibg][1..] == [];
    }
    assert SumByUnit(byUnit, [Hem, Pibg]) == byUnit[Hem] + byUnit[Pibg] by {
      assert [Hem, Pibg][1..] == [Pibg];
    }
    assert SumByUnit(byUnit, [Kokurikulum, Hem, Pibg]) == byUnit[Kokurikulum] + byUnit[Hem] + byUnit[Pibg] by {
      assert [Kokurikulum, Hem, Pibg][1..] == [Hem, Pibg];
    }
    assert SumByUnit(byUnit, [Kurikulum, Kokurikulum, Hem, Pibg])
      == byUnit[Kurikulum] + byUnit[Kokurikulum] + byUnit[Hem] + byUnit[Pibg] by {
      assert [Kurikulum, Kokurikulum, Hem, Pibg][1..] == [Kokurikulum, Hem, Pibg];
    }
    assert AllUnits[1..] == [Kurikulum, Kokurikulum, Hem, Pibg];
  }

  /** The five per-unit counts add up to the number of reports that have a unit. */
  lemma {:induction false} UnitCountsSum(rs: seq<Report>)
    ensures CountUnit(rs, Pentadbiran) + CountUnit(rs, Kurikulum) + CountUnit(rs, Kokurikulum)
            + CountUnit(rs, Hem) + CountUnit(rs, Pibg) == CountWithUnit(rs)
  {
    if rs != [] {
      var init := rs[..|rs| - 1];
      UnitCountsSum(init);
      assert CountUnit(rs, Pentadbiran) == CountUnit(init, Pentadbiran) + (if rs[|rs| - 1].unit == Unit(Pentadbiran) then 1 else 0);
      assert CountUnit(rs, Kurikulum) == CountUnit(init, Kurikulum) + (if rs[|rs| - 1].unit == Unit(Kurikulum) then 1 else 0);
      assert CountUnit(rs, Kokurikulum) == CountUnit(init, Kokurikulum) + (if rs[|rs| - 1].unit == Unit(Kokurikulum) then 1 else 0);
      assert CountUnit(rs, Hem) == CountUnit(init, Hem) + (if rs[|rs| - 1].unit == Unit(Hem) then 1 else 0);
      assert CountUnit(rs, Pibg) == CountUnit(init, Pibg) + (if rs[|rs| - 1].unit == Unit(Pibg) then 1 else 0);
      match rs[|rs| - 1].unit
      case NoUnit =>
      case Unit(u) =>
        match u
        case Pentadbiran => case Kurikulum => case Kokurikulum => case Hem => case Pibg =>
    }
  }

  /** The first `RecentCount` reports, or all of them when there are fewer. */
  function Recent(rs: seq<Report>): (recent: seq<Report>)
    ensures |recent| == if |rs| < RecentCount then |rs| else RecentCount
    ensures recent <= rs
  {
    rs[..if |rs| < RecentCount then |rs| else RecentCount]
  }

  /**
   * `stats` is the statistics of the collection `rs`: the total, the recent
   * prefix, and a count for each of the five units.
   */
  ghost predicate StatsOf(stats: DashboardStats, rs: seq<Report>)
    ensures StatsOf(stats, rs) ==> |stats.recentReports| <= RecentCount
    ensures StatsOf(stats, rs) ==> forall u :: u in stats.byUnit ==> stats.byUnit[u] <= stats.totalReports
  {
    && stats.totalReports == |rs|
    && stats.recentReports == Recent(rs)
    && (forall u: UnitType :: u in stats.byUnit)
    && (forall u :: u in stats.byUnit ==> stats.byUnit[u] == CountUnit(rs, u))
  }

  // ---------------------------------------------------------------------------
  // Upload payload
  // ---------------------------------------------------------------------------

  /** `String.prototype.split` on a single separator character. */
  function Split(s: string, sep: char): (parts: seq<string>)
    ensures |parts| >= 1
    ensures forall i :: 0 <= i < |parts| ==> sep !in parts[i]
    decreases |s|
  {
    if s == [] then [""]
    else
      var rest := Split(s[1..], sep);
      if s[0] == sep then [""] + rest
      else [[s[0]] + rest[0]] + rest[1..]
  }

  /** `Array.prototype.join` with a single separator character. */
  function Join(parts: seq<string>, sep: char): (s: string)
    requires |parts| >= 1
    ensures parts[0] <= s
    ensures |s| >= |parts| - 1
  {
    if |parts| == 1 then parts[0] else parts[0] + [sep] + Join(parts[1..], sep)
  }

  /** Joining separator-free parts and splitting again gives back the parts. */
  lemma {:induction false} SplitJoin(parts: seq<string>, sep: char)
    requires |parts| >= 1
    requires forall i :: 0 <= i < |parts| ==> sep !in parts[i]
    ensures Split(Join(parts, sep), sep) == parts
    decreases |parts|
  {
    if |parts| == 1 {
      SplitWithoutSep(parts[0], sep);
    } else {
      SplitJoin(parts[1..], sep);
      SplitAfterHeader(parts[0], sep, Join(parts[1..], sep));
    }
  }

  /** Splitting and joining on the same separator gives back the string. */
  lemma {:induction false} JoinSplit(s: string, sep: char)
    ensures Join(Split(s, sep), sep) == s
    decreases |s|
  {
    if s != [] {
      var rest := Split(s[1..], sep);
      JoinSplit(s[1..], sep);
      var parts := Split(s, sep);
      if s[0] == sep {
        assert parts[1..] == rest;
      } else if |rest| == 1 {
        assert parts == [[s[0]] + rest[0]];
      } else {
        assert parts[1..] == rest[1..];
        assert Join(rest, sep) == rest[0] + [sep] + Join(rest[1..], sep);
      }
    }
  }

  /** A string without the separator is a single part. */
  lemma {:induction false} SplitWithoutSep(s: string, sep: char)
    requires sep !in s
    ensures Split(s, sep) == [s]
    decreases |s|
  {
    if s != [] {
      SplitWithoutSep(s[1..], sep);
      assert [s[0]] + s[1..] == s;
    }
  }

  /** A separator-free prefix becomes the first part on its own. */
  lemma {:induction false} SplitAfterHeader(h: string, sep: char, b: string)
    requires sep !in h
    ensures Split(h + [sep] + b, sep) == [h] + Split(b, sep)
    decreases |h|
  {
    var s := h + [sep] + b;
    if h == [] {
      assert s[1..] == b;
    } else {
      assert s[1..] == h[1..] + [sep] + b;
      SplitAfterHeader(h[1..], sep, b);
      assert [h[0]] + h[1..] == h;
    }
  }

  /**
   * The PDF data as sent: the text between the first and second comma, or the
   * whole input when that text is missing or empty (services/storageService.ts:48).
   */
  function CleanPdfBase64(pdfBase64: string): (clean: string)
    ensures clean == pdfBase64 || (clean != "" && ',' !in clean)
  {
    var parts := Split(pdfBase64, ',');
    if |parts| > 1 && parts[1] != "" then parts[1] else pdfBase64
  }

  /** A data URI `header,body` loses exactly its header. */
  lemma CleanStripsHeader(header: string, body: string)
    requires ',' !in header && ',' !in body && body != ""
    ensures CleanPdfBase64(header + "," + body) == body
  {
    SplitAfterHeader(header, ',', body);
    SplitWithoutSep(body, ',');
  }

  /**
   * With two or more commas the text between the first and the second is
   * sent, unless it is empty, in which case the whole input is sent.
   */
  lemma CleanSegment(h: string, seg: string, rest: string)
    requires ',' !in h && ',' !in seg
    ensures CleanPdfBase64(h + [','] + seg + [','] + rest)
      == if seg != "" then seg else h + [','] + seg + [','] + rest
  {
    assert h + [','] + seg + [','] + rest == h + [','] + (seg + [','] + rest);
    SplitAfterHeader(h, ',', seg + [','] + rest);
    SplitAfterHeader(seg, ',', rest);
  }

  /** With exactly one comma the text after it is sent, or the whole input when it is empty. */
  lemma CleanLastSegment(h: string, seg: string)
    requires ',' !in h && ',' !in seg
    ensures CleanPdfBase64(h + [','] + seg) == if seg != "" then seg else h + [','] + seg
  {
    SplitAfterHeader(h, ',', seg);
    SplitWithoutSep(seg, ',');
  }

  /** An input without a comma is sent as it is. */
  lemma CleanWithoutHeader(pdfBase64: string)
    requires ',' !in pdfBase64
    ensures CleanPdfBase64(pdfBase64) == pdfBase64
  {
    SplitWithoutSep(pdfBase64, ',');
  }

  /** The report fields plus the cleaned PDF, as posted (services/storageService.ts:51-54). */
  datatype UploadPayload = UploadPayload(report: Report, pdfBase64: string)

  /** `s.includes(t)`. */
  predicate Contains(s: string, t: string)
    ensures Contains(s, t) ==> |t| <= |s|
    ensures t == [] ==> Contains(s, t)
    decreases |s|
  {
    |t| <= |s| && (s[..|t|] == t || (s != [] && Contains(s[1..], t)))
  }

  /** `t` occurs in `s` starting at position `i`. */
  predicate OccursAt(s: string, t: string, i: int)
  {
    0 <= i <= |s| - |t| && s[i..i + |t|] == t
  }

  /** A contained pattern occurs at some position of the text. */
  lemma {:induction false} ContainsAt(s: string, t: string)
    ensures Contains(s, t) ==> exists i :: OccursAt(s, t, i)
    decreases |s|
  {
    if Contains(s, t) {
      if s[..|t|] == t {
        assert s[0..|t|] == s[..|t|];
        assert OccursAt(s, t, 0);
      } else {
        ContainsAt(s[1..], t);
        var i :| OccursAt(s[1..], t, i);
        assert s[1..][i..i + |t|] == s[i + 1..i + 1 + |t|];
        assert OccursAt(s, t, i + 1);
      }
    }
  }

  /** A pattern occurring at some position is contained. */
  lemma {:induction false} OccursAtContains(s: string, t: string, i: int)
    requires OccursAt(s, t, i)
    ensures Contains(s, t)
    decreases i
  {
    if i == 0 {
      assert s[..|t|] == s[0..0 + |t|];
    } else {
      assert s[1..][i - 1..i - 1 + |t|] == s[i..i + |t|];
      OccursAtContains(s[1..], t, i - 1);
    }
  }

  /** A non-empty pattern whose first character never occurs cannot occur. */
  lemma {:induction false} NotContainsFirstChar(s: string, t: string)
    requires t != [] && t[0] !in s
    ensures !Contains(s, t)
    decreases |s|
  {
    if |t| <= |s| {
      assert s[..|t|][0] == s[0];
      if s != [] { NotContainsFirstChar(s[1..], t); }
    }
  }

  /** A contained non-empty pattern's first character occurs in the text. */
  lemma ContainsHasFirstChar(s: string, t: string)
    requires t != []
    ensures Contains(s, t) ==> t[0] in s
  {
    if t[0] !in s {
      NotContainsFirstChar(s, t);
    }
  }

  /** The address is missing or still the template's placeholder (services/storageService.ts:41). */
  predicate IsPlaceholderUrl(url: string)
    ensures IsPlaceholderUrl(url) ==> url == "" || 'G' in url
  {
    ContainsHasFirstChar(url, "GANTIKAN");
    url == "" || Contains(url, "GANTIKAN")
  }

  /** What `uploadReportToCloud` answers: true for a placeholder address or a completed POST. */
  function UploadAnswer(url: string, transportOk: bool): (ok: bool)
    ensures transportOk ==> ok
    ensures url == GoogleScriptUrl ==> (ok <==> transportOk)
  {
    ConfiguredUrlIsNotPlaceholder();
    IsPlaceholderUrl(url) || transportOk
  }

  /** The version of the report the upload stores: marked Submitted only after a completed POST. */
  function StoredVersion(data: Report, url: string, transportOk: bool): (r: Report)
    ensures r.status == Submitted ==> data.status == Submitted || (transportOk && !IsPlaceholderUrl(url))
    ensures r.(status := data.status) == data
  {
    if !IsPlaceholderUrl(url) && transportOk then data.(status := Submitted) else data
  }

  /** A character in neither part is not in their concatenation. */
  lemma NotInAppend(a: string, b: string, c: char)
    requires c !in a && c !in b
    ensures c !in a + b
  {
  }

  /** The script host has no 'G'. */
  lemma UrlHostHasNoG()
    ensures 'G' !in UrlHost
  {
    NotInAppend("https://script.google", ".com/macros/s/", 'G');
  }

  /** The deployment id has no 'G'. */
  lemma UrlDeploymentHasNoG()
    ensures 'G' !in UrlDeployment
  {
    NotInAppend("AKfycbzR4cHHCUwgmveSHBCs", "hCnYRc05EbgYusLwqmf", 'G');
    NotInAppend("frWgsIhlqgawFb_-Ew0", "K104NuoL8", 'G');
    NotInAppend(UrlDeploymentHead, UrlDeploymentTail, 'G');
  }

  /** No character of the configured address is a 'G'. */
  lemma ConfiguredUrlHasNoG()
    ensures 'G' !in GoogleScriptUrl
  {
    UrlHostHasNoG();
    UrlDeploymentHasNoG();
    NotInAppend(UrlHost, UrlDeployment, 'G');
    NotInAppend(UrlHost + UrlDeployment, "/exec", 'G');
  }

  /** An address without a 'G' is not a placeholder, as long as it is not empty. */
  lemma NoGIsNotPlaceholder(url: string)
    requires url != "" && 'G' !in url
    ensures !IsPlaceholderUrl(url)
  {
    NotContainsFirstChar(url, "GANTIKAN");
  }

  /** The configured address is a real one, so uploads are attempted. */
  lemma ConfiguredUrlIsNotPlaceholder()
    ensures !IsPlaceholderUrl(GoogleScriptUrl)
  {
    ConfiguredUrlHasNoG();
    assert GoogleScriptUrl[0] == UrlHost[0] == 'h';
    NoGIsNotPlaceholder(GoogleScriptUrl);
  }

  // ---------------------------------------------------------------------------
  // The store
  // ---------------------------------------------------------------------------

  /** The browser's persisted collection under the storage key, and the upload endpoint. */
  class ReportStore {
    /** The value under the storage key; `None` while the key is absent. */
    var stored: Option<seq<Report>>
    /** The address uploads are posted to. */
    const scriptUrl: string

    constructor (initial: Option<seq<Report>>, url: string)
      ensures stored == initial && scriptUrl == url
    {
      stored := initial;
      scriptUrl := url;
    }

    /** `getStoredReports`: the stored collection, empty when nothing is stored (services/storageService.ts:85-88). */
    function GetStoredReports(): (rs: seq<Report>)
      reads this
      ensures stored.None? ==> rs == []
      ensures stored.Some? ==> rs == stored.value
    {
      if stored.Some? then stored.value else []
    }

    /** `saveReportLocal`: upsert and write the whole collection back (services/storageService.ts:27-38). */
    method SaveReportLocal(data: Report)
      modifies this
      ensures stored == Some(Upsert(old(GetStoredReports()), data))
    {
      var existingData := GetStoredReports();
      var index := FindIndex(existingData, data.id);
      var updatedData;
      if index >= 0 {
        updatedData := existingData[index := data];
      } else {
        updatedData := [data] + existingData;
      }
      stored := Some(updatedData);
    }

    /** `saveReport`: a local save that always reports success (services/storageService.ts:113-116). */
    method SaveReport(data: Report) returns (ok: bool)
      modifies this
      ensures ok
      ensures stored == Some(Upsert(old(GetStoredReports()), data))
    {
      SaveReportLocal(data);
      ok := true;
    }

    /**
     * `uploadReportToCloud` (services/storageService.ts:40-83). `transportOk` is
     * whether the POST completes without a network error; `sent` is what was
     * posted, if anything. Only a completed POST stores the report as Submitted;
     * a placeholder address stores it unchanged and still answers true.
     */
    method UploadReportToCloud(data: Report, pdfBase64: string, transportOk: bool)
      returns (ok: bool, sent: Option<UploadPayload>)
      modifies this
      ensures IsPlaceholderUrl(scriptUrl) ==>
        ok && sent == None && stored == Some(Upsert(old(GetStoredReports()), data))
      ensures !IsPlaceholderUrl(scriptUrl) ==>
        && sent == Some(UploadPayload(data, CleanPdfBase64(pdfBase64)))
        && ok == transportOk
        && stored == Some(Upsert(old(GetStoredReports()), if transportOk then data.(status := Submitted) else data))
      ensures ok == UploadAnswer(scriptUrl, transportOk)
      ensures stored == Some(Upsert(old(GetStoredReports()), StoredVersion(data, scriptUrl, transportOk)))
    {
      if scriptUrl == "" || Contains(scriptUrl, "GANTIKAN") {
        SaveReportLocal(data);
        return true, None;
      }
      var cleanPdfBase64 := CleanPdfBase64(pdfBase64);
      var payload := UploadPayload(data, cleanPdfBase64);
      sent := Some(payload);
      if transportOk {
        SaveReportLocal(data.(status := Submitted));
        ok := true;
      } else {
        SaveReportLocal(data);
        ok := false;
      }
    }

    /**
     * `getDashboardStats` (services/storageService.ts:90-111): the total, the
     * recent reports, and a per-unit count over all five units that skips
     * reports without a unit.
     */
    method GetDashboardStats() returns (stats: DashboardStats)
      ensures StatsOf(stats, GetStoredReports())
      ensures SumByUnit(stats.byUnit, AllUnits) == CountWithUnit(GetStoredReports())
    {
      var reports := GetStoredReports();
      var byUnit: map<UnitType, nat> := map[Pentadbiran := 0, Kurikulum := 0, Kokurikulum := 0, Hem := 0, Pibg := 0];
      forall u: UnitType ensures u in byUnit {
        match u
        case Pentadbiran => case Kurikulum => case Kokurikulum => case Hem => case Pibg =>
      }
      var i := 0;
      while i < |reports|
        invariant 0 <= i <= |reports|
        invariant forall u: UnitType :: u in byUnit
        invariant forall u :: u in byUnit ==> byUnit[u] == CountUnit(reports[..i], u)
      {
        var report := reports[i];
        if report.unit.Unit? {
          byUnit := byUnit[report.unit.unit := byUnit[report.unit.unit] + 1];
        }
        assert reports[..i + 1][..i] == reports[..i];
        i := i + 1;
      }
      assert reports[..i] == reports;
      stats := DashboardStats(|reports|, byUnit, Recent(reports));
      UnitCountsSum(reports);
      SumAllUnits(byUnit);
    }
  }
}
