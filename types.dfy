/**
 * The record types of the report system (types.ts): the five organisational
 * units, the report record itself, the dashboard statistics and the AI reply.
 */
module Types {

  /** The organisational units a report can belong to (types.ts:1-7). */
  datatype UnitType = Pentadbiran | Kurikulum | Kokurikulum | Hem | Pibg

  /** Every unit, in the declaration order of the enumeration. */
  const AllUnits: seq<UnitType> := [Pentadbiran, Kurikulum, Kokurikulum, Hem, Pibg]

  /** The string value each enumeration member carries. */
  function UnitLabel(u: UnitType): (name: string)
    ensures name != ""
  {
    match u
    case Pentadbiran => "Pentadbiran"
    case Kurikulum => "Kurikulum"
    case Kokurikulum => "Kokurikulum"
    case Hem => "Hal Ehwal Murid"
    case Pibg => "PIBG"
  }

  /** The enumeration has exactly five members, listed once each, with pairwise distinct labels. */
  lemma UnitsEnumerated()
    ensures |AllUnits| == 5
    ensures forall u: UnitType :: u in AllUnits
    ensures forall i, j :: 0 <= i < j < |AllUnits| ==> AllUnits[i] != AllUnits[j]
    ensures forall u, v :: UnitLabel(u) == UnitLabel(v) ==> u == v
  {
    forall u: UnitType ensures u in AllUnits {
      match u
      case Pentadbiran => assert AllUnits[0] == u;
      case Kurikulum => assert AllUnits[1] == u;
      case Kokurikulum => assert AllUnits[2] == u;
      case Hem => assert AllUnits[3] == u;
      case Pibg => assert AllUnits[4] == u;
    }
    forall u, v | UnitLabel(u) == UnitLabel(v) ensures u == v {
      assert |UnitLabel(u)| == |UnitLabel(v)|;
      assert UnitLabel(u)[0] == UnitLabel(v)[0];
      if u == Kurikulum || u == Kokurikulum {
        assert UnitLabel(u)[1] == UnitLabel(v)[1];
      }
    }
  }

  /** The `unit` field of a report: one of the units, or the empty string (types.ts:11). */
  datatype UnitField = NoUnit | Unit(unit: UnitType)

  /** The string the `unit` field holds. */
  function UnitText(f: UnitField): (s: string)
    ensures s == "" <==> f.NoUnit?
    ensures f.Unit? ==> s == UnitLabel(f.unit)
  {
    match f
    case NoUnit => ""
    case Unit(u) => UnitLabel(u)
  }

  /** The two lifecycle states of a report (types.ts:25). */
  datatype Status = Draft | Submitted

  /** The report record (types.ts:9-27). Image references are opaque strings. */
  datatype Report = Report(
    id: string,
    unit: UnitField,
    tajukProgram: string,
    tarikh: string,
    hari: string,
    masa: string,
    objektif: string,
    aktiviti: string,
    kekuatan: string,
    kelemahan: string,
    penambahbaikan: string,
    refleksi: string,
    disediakanOleh: string,
    jawatan: string,
    gambar: seq<string>,
    status: Status,
    createdAt: int)

  /** The derived dashboard figures (types.ts:29-33); `byUnit` is keyed by the units. */
  datatype DashboardStats = DashboardStats(
    totalReports: nat,
    byUnit: map<UnitType, nat>,
    recentReports: seq<Report>)

  /** The two narrative fields the AI service drafts (types.ts:35-38). */
  datatype GenerateAIResponse = GenerateAIResponse(penambahbaikan: string, refleksi: string)

  /** JavaScript `s || fallback` on a string: the empty string is falsy. */
  function OrElse(s: string, fallback: string): string
  {
    if s == "" then fallback else s
  }

  /** What a caption `value || fallback` promises: the value when there is one, the fallback otherwise. */
  predicate Shows(shown: string, value: string, fallback: string)
  {
    (value != "" ==> shown == value) && (value == "" ==> shown == fallback)
  }
}
