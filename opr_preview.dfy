/**
 * The one-page document rendering of a report (components/OPRPreview.tsx):
 * the image grid, the notice shown when there are no images, the captions
 * for empty fields and the date formatting guard. Layout is not modelled.
 */
module OPRPreview {
  import opened Types

  /** At most this many images are printed. */
  const MaxGridImages: nat := 4

  /** Printed in place of the grid when the report has no images. */
  const NoImagesNotice: string := "Tiada gambar dilampirkan"

  /** The image section: a grid of images, or the notice. */
  datatype ImageArea = Grid(images: seq<string>) | Notice(text: string)

  /**
   * `data.gambar.length > 0 ? slice(0, 4) : notice` (OPRPreview.tsx:114-124):
   * the notice exactly when there are no images, otherwise the first four
   * images (all of them when there are fewer) in their order.
   */
  function ImageSection(gambar: seq<string>): (area: ImageArea)
    ensures area.Notice? <==> gambar == []
    ensures area.Notice? ==> area.text == NoImagesNotice
    ensures area.Grid? ==> 1 <= |area.images| <= MaxGridImages
    ensures area.Grid? ==> |area.images| == if |gambar| < MaxGridImages then |gambar| else MaxGridImages
    ensures area.Grid? ==> area.images <= gambar
  {
    if |gambar| > 0 then Grid(gambar[..if |gambar| < 4 then |gambar| else 4]) else Notice(NoImagesNotice)
  }

  /** Adding images after the fourth leaves the printed grid unchanged. */
  lemma GridIgnoresLaterImages(gambar: seq<string>, more: seq<string>)
    requires |gambar| >= MaxGridImages
    ensures ImageSection(gambar + more) == ImageSection(gambar)
  {
    assert (gambar + more)[..4] == gambar[..4];
  }

  /**
   * `formatDate` (OPRPreview.tsx:9-13): the empty string stays empty; any
   * other text is given to the locale formatter `format`, which stands for
   * `new Date(s).toLocaleDateString('ms-MY', …)`.
   */
  function FormatDate(s: string, format: string -> string): (shown: string)
    ensures s == "" ==> shown == ""
    ensures s != "" ==> shown == format(s)
  {
    if s == "" then "" else format(s)
  }

  /** The captions printed on the document. */
  datatype DocumentText = DocumentText(
    unit: string, title: string, tarikh: string, hari: string, masa: string,
    objektif: string, aktiviti: string, kekuatan: string, kelemahan: string,
    penambahbaikan: string, refleksi: string, preparer: string, role: string,
    printedOn: string)

  /**
   * The captions (OPRPreview.tsx:39, 48, 52, 54, 58, 68, 75, 83, 89, 99, 105,
   * 130-132). `nowIso` is `new Date().toISOString()` at render time.
   */
  function Captions(r: Report, format: string -> string, nowIso: string): (t: DocumentText)
    ensures Shows(t.unit, UnitText(r.unit), "UNIT")
    ensures r.unit.Unit? ==> t.unit == UnitLabel(r.unit.unit)
    ensures t.title == r.tajukProgram && t.hari == r.hari && t.masa == r.masa
    ensures t.tarikh == FormatDate(r.tarikh, format) && t.printedOn == FormatDate(nowIso, format)
    ensures Shows(t.objektif, r.objektif, "-") && Shows(t.aktiviti, r.aktiviti, "-")
    ensures Shows(t.kekuatan, r.kekuatan, "-") && Shows(t.kelemahan, r.kelemahan, "-")
    ensures Shows(t.penambahbaikan, r.penambahbaikan, "-") && Shows(t.refleksi, r.refleksi, "-")
    ensures Shows(t.preparer, r.disediakanOleh, "NAMA GURU") && Shows(t.role, r.jawatan, "JAWATAN")
    // the six narrative sections, the unit and the signature block are never blank
    ensures && t.unit != "" && t.objektif != "" && t.aktiviti != "" && t.kekuatan != ""
            && t.kelemahan != "" && t.penambahbaikan != "" && t.refleksi != ""
            && t.preparer != "" && t.role != ""
  {
    DocumentText(
      OrElse(UnitText(r.unit), "UNIT"), r.tajukProgram, FormatDate(r.tarikh, format), r.hari, r.masa,
      OrElse(r.objektif, "-"), OrElse(r.aktiviti, "-"), OrElse(r.kekuatan, "-"), OrElse(r.kelemahan, "-"),
      OrElse(r.penambahbaikan, "-"), OrElse(r.refleksi, "-"),
      OrElse(r.disediakanOleh, "NAMA GURU"), OrElse(r.jawatan, "JAWATAN"),
      FormatDate(nowIso, format))
  }
}
