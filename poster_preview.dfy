/**
 * The poster rendering of a report (components/PosterPreview.tsx): which
 * images appear where, how many filler tiles complete the gallery strip, and
 * the captions shown for empty fields. Layout and styling are not modelled.
 */
module PosterPreview {
  import opened Wrappers
  import opened Types

  /** Shown in the main frame when the report has no usable first image. */
  const PlaceholderImage: string := "https://placehold.co/600x400/e2e8f0/94a3b8?text=Tiada+Gambar"

  /** The gallery strip always has this many tiles. */
  const GallerySize: nat := 3

  /** `data.gambar[0] || placeholder`: a missing or empty first reference is falsy. */
  function MainImage(gambar: seq<string>): (src: string)
    ensures |gambar| > 0 && gambar[0] != "" ==> src == gambar[0]
    ensures |gambar| == 0 || gambar[0] == "" ==> src == PlaceholderImage
    ensures src != ""
  {
    if |gambar| > 0 && gambar[0] != "" then gambar[0] else PlaceholderImage
  }

  /** `data.gambar.slice(1, 4)`: the second to the fourth image, in order. */
  function SubImages(gambar: seq<string>): (sub: seq<string>)
    ensures |sub| == if |gambar| <= 1 then 0 else if |gambar| >= 4 then 3 else |gambar| - 1
    ensures forall i :: 0 <= i < |sub| ==> sub[i] == gambar[i + 1]
  {
    if |gambar| <= 1 then [] else gambar[1..if |gambar| < 4 then |gambar| else 4]
  }

  /** A tile of the gallery strip: a photograph or a "No Image" filler. */
  datatype Tile = Photo(src: string) | Filler

  /** One photograph tile per sub-image, in order. */
  function Photos(sub: seq<string>): (tiles: seq<Tile>)
    ensures |tiles| == |sub|
    ensures forall i :: 0 <= i < |sub| ==> tiles[i] == Photo(sub[i])
  {
    if sub == [] then [] else [Photo(sub[0])] + Photos(sub[1..])
  }

  /** `[...Array(n)]` rendered as fillers. */
  function Fillers(n: nat): (tiles: seq<Tile>)
    ensures |tiles| == n
    ensures forall i :: 0 <= i < n ==> tiles[i] == Filler
  {
    if n == 0 then [] else [Filler] + Fillers(n - 1)
  }

  /**
   * The gallery strip (PosterPreview.tsx:212-233): absent when there are no
   * sub-images, otherwise the sub-images followed by `3 - length` fillers.
   */
  function Gallery(gambar: seq<string>): (strip: Option<seq<Tile>>)
    ensures strip.Some? <==> |gambar| >= 2
    ensures strip.Some? ==> |strip.value| == GallerySize
  {
    var sub := SubImages(gambar);
    if |sub| > 0 then Some(Photos(sub) + Fillers(GallerySize - |sub|)) else None
  }

  /**
   * The strip is shown iff the report has at least two images; it then has
   * exactly three tiles, tile i is the photograph gambar[i + 1] when that
   * image exists and a filler otherwise.
   */
  lemma GalleryLayout(gambar: seq<string>)
    ensures Gallery(gambar).Some? <==> |gambar| >= 2
    ensures Gallery(gambar).Some? ==> |Gallery(gambar).value| == GallerySize
    ensures Gallery(gambar).Some? ==> forall i :: 0 <= i < GallerySize ==>
      Gallery(gambar).value[i] == if i + 1 < |gambar| then Photo(gambar[i + 1]) else Filler
  {
    var sub := SubImages(gambar);
    if |sub| > 0 {
      var tiles := Photos(sub) + Fillers(GallerySize - |sub|);
      forall i | 0 <= i < GallerySize
        ensures tiles[i] == if i + 1 < |gambar| then Photo(gambar[i + 1]) else Filler
      {
        if i < |sub| {
          assert tiles[i] == Photos(sub)[i];
        } else {
          assert tiles[i] == Fillers(GallerySize - |sub|)[i - |sub|];
        }
      }
    }
  }

  /** The first four images, or all of them when there are fewer. */
  function FirstFour(gambar: seq<string>): seq<string>
  {
    if |gambar| <= 4 then gambar else gambar[..4]
  }

  /** Images after the fourth never reach the poster: only the first four decide it. */
  lemma PosterIgnoresLaterImages(g1: seq<string>, g2: seq<string>)
    requires FirstFour(g1) == FirstFour(g2)
    ensures MainImage(g1) == MainImage(g2)
    ensures Gallery(g1) == Gallery(g2)
  {
    assert |g1| > 0 ==> g1[0] == FirstFour(g1)[0];
    assert |g2| > 0 ==> g2[0] == FirstFour(g2)[0];
    assert |g1| >= 4 <==> |g2| >= 4;
    assert SubImages(g1) == SubImages(g2) by {
      forall i | 0 <= i < |SubImages(g1)| ensures SubImages(g1)[i] == SubImages(g2)[i] {
        assert g1[i + 1] == FirstFour(g1)[i + 1];
        assert g2[i + 1] == FirstFour(g2)[i + 1];
      }
    }
  }

  /** The captions printed on the poster. */
  datatype PosterText = PosterText(
    title: string, unit: string, tarikh: string, masa: string,
    objektif: string, aktiviti: string, kekuatan: string, kelemahan: string,
    penambahbaikan: string, refleksi: string, preparer: string, role: string)

  /** `"…"`: the poster sets the two reflective texts in quotation marks. */
  function Quoted(s: string): string
  {
    "\"" + s + "\""
  }

  /** The text between the outer quotation marks of a quoted caption. */
  function Inner(s: string): string
    requires |s| >= 2
  {
    s[1..|s| - 1]
  }

  /**
   * The captions (PosterPreview.tsx:73, 79, 119, 130, 151, 161, 171, 185,
   * 195, 205, 247-248): each field when it is filled in, otherwise its
   * fixed fallback; the date and the time are shown as they are.
   */
  function Captions(r: Report): (t: PosterText)
    ensures Shows(t.title, r.tajukProgram, "TAJUK PROGRAM DI SINI")
    ensures Shows(t.unit, UnitText(r.unit), "UNIT PENGANJUR")
    ensures t.tarikh == r.tarikh && t.masa == r.masa
    ensures Shows(t.objektif, r.objektif, "Tiada objektif dinyatakan.")
    ensures Shows(t.aktiviti, r.aktiviti, "Tiada ringkasan aktiviti.")
    ensures Shows(t.kekuatan, r.kekuatan, "-") && Shows(t.kelemahan, r.kelemahan, "-")
    ensures |t.penambahbaikan| >= 2 && t.penambahbaikan[0] == '"' && t.penambahbaikan[|t.penambahbaikan| - 1] == '"'
    ensures Shows(Inner(t.penambahbaikan), r.penambahbaikan, "-")
    ensures |t.refleksi| >= 2 && t.refleksi[0] == '"' && t.refleksi[|t.refleksi| - 1] == '"'
    ensures Shows(Inner(t.refleksi), r.refleksi, "-")
    ensures Shows(t.preparer, r.disediakanOleh, "Nama Guru") && Shows(t.role, r.jawatan, "Jawatan")
    // a report with a unit shows that unit's label
    ensures r.unit.Unit? ==> t.unit == UnitLabel(r.unit.unit)
    // apart from the date and the time, no caption is ever blank
    ensures && t.title != "" && t.unit != "" && t.objektif != "" && t.aktiviti != ""
            && t.kekuatan != "" && t.kelemahan != "" && t.preparer != "" && t.role != ""
            && Inner(t.penambahbaikan) != "" && Inner(t.refleksi) != ""
  {
    var p := OrElse(r.penambahbaikan, "-");
    var q := OrElse(r.refleksi, "-");
    assert Inner(Quoted(p)) == p;
    assert Inner(Quoted(q)) == q;
    PosterText(
      OrElse(r.tajukProgram, "TAJUK PROGRAM DI SINI"), OrElse(UnitText(r.unit), "UNIT PENGANJUR"),
      r.tarikh, r.masa,
      OrElse(r.objektif, "Tiada objektif dinyatakan."), OrElse(r.aktiviti, "Tiada ringkasan aktiviti."),
      OrElse(r.kekuatan, "-"), OrElse(r.kelemahan, "-"),
      Quoted(p), Quoted(q),
      OrElse(r.disediakanOleh, "Nama Guru"), OrElse(r.jawatan, "Jawatan"))
  }
}
