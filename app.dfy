/**
 * The application shell (App.tsx): which view is shown, which preview
 * rendering is active, the report being worked on, the busy flag, and the
 * handlers that move between them, save, send and download.
 */
module AppController {
  import opened Wrappers
  import opened Types
  import StorageService
  import Dashboard
  import OPRForm

  /** The three screens (App.tsx:33). */
  datatype View = DashboardView | FormView | PreviewView

  /** The two preview renderings (App.tsx:34). */
  datatype PreviewMode = Standard | Poster

  // ---------------------------------------------------------------------------
  // New reports
  // ---------------------------------------------------------------------------

  /** A report with nothing filled in: no unit, empty texts, no images, status Draft. */
  predicate IsBlankDraft(r: Report)
    ensures IsBlankDraft(r) ==> Dashboard.Rating(r) == 1
    ensures IsBlankDraft(r) ==>
      OPRForm.MissingFields(r) == (if r.tarikh == "" then OPRForm.MandatoryLabels
        else [OPRForm.MandatoryLabels[0], OPRForm.MandatoryLabels[1], OPRForm.MandatoryLabels[3]])
  {
    Dashboard.RatingExpanded(r);
    && r.unit == NoUnit && r.tajukProgram == "" && r.hari == "" && r.masa == ""
    && r.objektif == "" && r.aktiviti == "" && r.kekuatan == "" && r.kelemahan == ""
    && r.penambahbaikan == "" && r.refleksi == "" && r.disediakanOleh == "" && r.jawatan == ""
    && r.gambar == [] && r.status == Draft
  }

  /**
   * `INITIAL_DATA` (App.tsx:12-30). It is evaluated once, when the module
   * loads: `today` is that day's ISO date and `loadedAt` that moment's clock.
   */
  function InitialData(today: string, loadedAt: int): (r: Report)
    ensures IsBlankDraft(r) && r.id == "" && r.tarikh == today && r.createdAt == loadedAt
  {
    Report("", NoUnit, "", today, "", "", "", "", "", "", "", "", "", "", [], Draft, loadedAt)
  }

  // ---------------------------------------------------------------------------
  // Download file names
  // ---------------------------------------------------------------------------

  /** A character matched by the regular-expression class `\s`. */
  predicate IsWhitespace(c: char)
    ensures c < '\U{0080}' ==> (IsWhitespace(c) <==> c in " \t\n\r\U{000B}\U{000C}")
    ensures IsWhitespace(c) ==> c != '_'
  {
    || c == '\t' || c == '\n' || c == '\U{000B}' || c == '\U{000C}' || c == '\r' || c == ' '
    || c == '\U{00A0}' || c == '\U{1680}' || ('\U{2000}' <= c <= '\U{200A}')
    || c == '\U{2028}' || c == '\U{2029}' || c == '\U{202F}' || c == '\U{205F}'
    || c == '\U{3000}' || c == '\U{FEFF}'
  }

  /** No character of `s` is whitespace. */
  predicate NoWhitespace(s: string)
  {
    forall i :: 0 <= i < |s| ==> !IsWhitespace(s[i])
  }

  /** `s.replace(/\s/g, '')`: the non-whitespace characters of `s`, in order. */
  function StripWhitespace(s: string): (out: string)
    ensures NoWhitespace(out)
    ensures |out| <= |s|
  {
    if s == [] then []
    else (if IsWhitespace(s[0]) then [] else [s[0]]) + StripWhitespace(s[1..])
  }

  /** `s.replace(/\s/g, '_')`: each whitespace character becomes an underscore. */
  function UnderscoreWhitespace(s: string): (out: string)
    ensures |out| == |s|
    ensures forall i :: 0 <= i < |s| ==> out[i] == if IsWhitespace(s[i]) then '_' else s[i]
  {
    if s == [] then []
    else [if IsWhitespace(s[0]) then '_' else s[0]] + UnderscoreWhitespace(s[1..])
  }

  /** Stripping leaves a whitespace-free string unchanged. */
  lemma {:induction false} StripIdentity(s: string)
    requires NoWhitespace(s)
    ensures StripWhitespace(s) == s
  {
    if s != [] {
      StripIdentity(s[1..]);
    }
  }

  /** Stripping distributes over concatenation. */
  lemma {:induction false} StripAppend(a: string, b: string)
    ensures StripWhitespace(a + b) == StripWhitespace(a) + StripWhitespace(b)
  {
    if a != [] {
      assert (a + b)[1..] == a[1..] + b;
      StripAppend(a[1..], b);
    } else {
      assert a + b == b;
    }
  }

  /** Stripping removes exactly the whitespace: what is left is the same with or without it. */
  lemma {:induction false} StripIdempotent(s: string)
    ensures StripWhitespace(StripWhitespace(s)) == StripWhitespace(s)
  {
    StripIdentity(StripWhitespace(s));
  }

  /** A leading word is kept as it is. */
  lemma StripLeadingWord(w: string, rest: string)
    requires NoWhitespace(w)
    ensures StripWhitespace(w + rest) == w + StripWhitespace(rest)
  {
    StripAppend(w, rest);
    StripIdentity(w);
  }

  /** A leading space is dropped. */
  lemma StripLeadingSpace(rest: string)
    ensures StripWhitespace(" " + rest) == StripWhitespace(rest)
  {
    assert (" " + rest)[1..] == rest;
  }

  /** Letters are never whitespace. */
  lemma LettersOnly(s: string)
    requires forall i :: 0 <= i < |s| ==> 'A' <= s[i] <= 'z'
    ensures NoWhitespace(s)
  {
  }

  /** Three words separated by single spaces are joined. */
  lemma StripThreeWords(a: string, b: string, c: string)
    requires NoWhitespace(a) && NoWhitespace(b) && NoWhitespace(c)
    ensures StripWhitespace(a + (" " + (b + (" " + c)))) == a + (b + c)
  {
    StripLeadingWord(a, " " + (b + (" " + c)));
    StripLeadingSpace(b + (" " + c));
    StripLeadingWord(b, " " + c);
    StripLeadingSpace(c);
    StripIdentity(c);
  }

  /** 'Hal Ehwal Murid' is three words of letters separated by single spaces. */
  lemma HemLabelWords(u: UnitType)
    requires u == Hem
    ensures UnitLabel(u) == "Hal" + (" " + ("Ehwal" + (" " + "Murid")))
    ensures NoWhitespace("Hal") && NoWhitespace("Ehwal") && NoWhitespace("Murid")
  {
    LettersOnly("Hal");
    LettersOnly("Ehwal");
    LettersOnly("Murid");
  }

  /** 'Hal Ehwal Murid' loses its two spaces. */
  lemma HemLabelStripped(u: UnitType)
    requires u == Hem
    ensures StripWhitespace(UnitLabel(u)) == "HalEhwalMurid"
  {
    HemLabelWords(u);
    StripThreeWords("Hal", "Ehwal", "Murid");
    assert "Hal" + ("Ehwal" + "Murid") == "HalEhwalMurid";
  }

  /** The other unit labels are single words and stay as they are. */
  lemma OtherLabelsKept(u: UnitType)
    requires u != Hem
    ensures StripWhitespace(UnitLabel(u)) == UnitLabel(u)
  {
    LettersOnly(UnitLabel(u));
    StripIdentity(UnitLabel(u));
  }

  /** The unit part of the PDF name: only 'Hal Ehwal Murid' has spaces to drop. */
  lemma UnitPartOfFilename(u: UnitType)
    ensures StripWhitespace(UnitLabel(u)) == if u == Hem then "HalEhwalMurid" else UnitLabel(u)
  {
    if u == Hem {
      HemLabelStripped(u);
    } else {
      OtherLabelsKept(u);
    }
  }

  /** The PDF download name (App.tsx:107-108). */
  function PdfFilename(r: Report): (name: string)
    ensures |name| >= 9 && name[..4] == "OPR_" && name[|name| - 4..] == ".pdf"
  {
    "OPR_" + StripWhitespace(UnitText(r.unit)) + "_" + UnderscoreWhitespace(r.tajukProgram) + "_" + r.tarikh + ".pdf"
  }

  /** The poster download name (App.tsx:134). */
  function PosterFilename(r: Report): (name: string)
    ensures |name| == 11 + |r.tajukProgram|
    ensures name[..7] == "Poster_" && name[|name| - 4..] == ".png"
  {
    "Poster_" + UnderscoreWhitespace(r.tajukProgram) + ".png"
  }

  /** Whitespace-free parts give a whitespace-free concatenation. */
  lemma NoWhitespaceAppend(a: string, b: string)
    requires NoWhitespace(a) && NoWhitespace(b)
    ensures NoWhitespace(a + b)
  {
    forall i | 0 <= i < |a + b| ensures !IsWhitespace((a + b)[i]) {
      if i < |a| { assert (a + b)[i] == a[i]; } else { assert (a + b)[i] == b[i - |a|]; }
    }
  }

  /** Replacing leaves no whitespace behind. */
  lemma UnderscoredHasNoWhitespace(s: string)
    ensures NoWhitespace(UnderscoreWhitespace(s))
  {
    var out := UnderscoreWhitespace(s);
    forall i | 0 <= i < |out| ensures !IsWhitespace(out[i]) {
      assert out[i] == if IsWhitespace(s[i]) then '_' else s[i];
    }
  }

  /**
   * The PDF name is free of whitespace whenever the date is: the unit and the
   * title are cleaned, the date is inserted as it is.
   */
  lemma PdfFilenameNoWhitespace(r: Report)
    requires NoWhitespace(r.tarikh)
    ensures NoWhitespace(PdfFilename(r))
    ensures |PdfFilename(r)| == 4 + |StripWhitespace(UnitText(r.unit))| + 1 + |r.tajukProgram| + 1 + |r.tarikh| + 4
  {
    var a := StripWhitespace(UnitText(r.unit));
    var b := UnderscoreWhitespace(r.tajukProgram);
    UnderscoredHasNoWhitespace(r.tajukProgram);
    assert NoWhitespace("OPR_") && NoWhitespace("_") && NoWhitespace(".pdf");
    NoWhitespaceAppend("OPR_", a);
    NoWhitespaceAppend("OPR_" + a, "_");
    NoWhitespaceAppend("OPR_" + a + "_", b);
    NoWhitespaceAppend("OPR_" + a + "_" + b, "_");
    NoWhitespaceAppend("OPR_" + a + "_" + b + "_", r.tarikh);
    NoWhitespaceAppend("OPR_" + a + "_" + b + "_" + r.tarikh, ".pdf");
  }

  /** The poster name never contains whitespace and keeps the title's length. */
  lemma PosterFilenameNoWhitespace(r: Report)
    ensures NoWhitespace(PosterFilename(r))
    ensures |PosterFilename(r)| == 7 + |r.tajukProgram| + 4
  {
    var b := UnderscoreWhitespace(r.tajukProgram);
    UnderscoredHasNoWhitespace(r.tajukProgram);
    assert NoWhitespace("Poster_") && NoWhitespace(".png");
    NoWhitespaceAppend("Poster_", b);
    NoWhitespaceAppend("Poster_" + b, ".png");
  }

  // ---------------------------------------------------------------------------
  // The controller
  // ---------------------------------------------------------------------------

  /** JavaScript truthiness of the generated PDF: present and non-empty. */
  predicate Truthy(pdf: Option<string>)
    ensures Truthy(pdf) <==> pdf.Some? && StorageService.CleanPdfBase64(pdf.value) != ""
  {
    pdf.Some? && pdf.value != ""
  }

  /** The `App` component's state. */
  class App {
    var view: View
    var previewMode: PreviewMode
    var currentData: Report
    var stats: DashboardStats
    var isSaving: bool
    /** The browser store the services read and write. */
    const store: StorageService.ReportStore
    /** `INITIAL_DATA`, fixed when the application loads. */
    const initialData: Report

    /** Between events the busy flag is clear and the template report is blank. */
    ghost predicate Valid()
      reads this
    {
      !isSaving && IsBlankDraft(initialData) && initialData.id == ""
    }

    /** The first render (App.tsx:33-37): the dashboard, standard mode, the template report. */
    constructor (store: StorageService.ReportStore, today: string, loadedAt: int)
      ensures Valid()
      ensures this.store == store && initialData == InitialData(today, loadedAt)
      ensures view == DashboardView && previewMode == Standard && currentData == initialData
      ensures StorageService.StatsOf(stats, store.GetStoredReports())
    {
      var s := store.GetDashboardStats();
      this.store := store;
      initialData := InitialData(today, loadedAt);
      currentData := InitialData(today, loadedAt);
      view := DashboardView;
      previewMode := Standard;
      stats := s;
      isSaving := false;
    }

    /**
     * `setView('dashboard')` with the effect of App.tsx:43-48: arriving at the
     * dashboard recomputes the statistics; staying there does not.
     */
    method ShowDashboard()
      modifies this
      ensures view == DashboardView
      ensures old(view) != DashboardView ==> StorageService.StatsOf(stats, store.GetStoredReports())
      ensures old(view) == DashboardView ==> stats == old(stats)
      ensures previewMode == old(previewMode) && currentData == old(currentData) && isSaving == old(isSaving)
    {
      if view != DashboardView {
        view := DashboardView;
        stats := store.GetDashboardStats();
      }
    }

    /** `handleCreateNew` (App.tsx:56-60): a blank draft with a fresh id, opened in the form. */
    method HandleCreateNew(freshId: string)
      requires Valid()
      modifies this
      ensures Valid()
      ensures currentData == initialData.(id := freshId)
      ensures IsBlankDraft(currentData) && currentData.id == freshId
      ensures previewMode == Standard && view == FormView && stats == old(stats)
    {
      currentData := initialData.(id := freshId);
      previewMode := Standard;
      view := FormView;
    }

    /** `handlePreview` (App.tsx:62-65): show the form's data; the mode is kept. */
    method HandlePreview(data: Report)
      modifies this
      ensures currentData == data && view == PreviewView
      ensures previewMode == old(previewMode) && isSaving == old(isSaving) && stats == old(stats)
    {
      currentData := data;
      view := PreviewView;
    }

    /** `handleViewReport` (App.tsx:68-72): open a stored report in standard mode. */
    method HandleViewReport(data: Report)
      modifies this
      ensures currentData == data && view == PreviewView && previewMode == Standard
      ensures isSaving == old(isSaving) && stats == old(stats)
    {
      currentData := data;
      previewMode := Standard;
      view := PreviewView;
    }

    /** The two mode buttons (App.tsx:268, 274). */
    method SetPreviewMode(mode: PreviewMode)
      modifies this
      ensures previewMode == mode
      ensures view == old(view) && currentData == old(currentData) && isSaving == old(isSaving) && stats == old(stats)
    {
      previewMode := mode;
    }

    /** "Edit Semula" (App.tsx:283): back to the form with the same data. */
    method BackToEdit()
      modifies this
      ensures view == FormView
      ensures previewMode == old(previewMode) && currentData == old(currentData) && isSaving == old(isSaving) && stats == old(stats)
    {
      view := FormView;
    }

    /** `handleSaveDraft` (App.tsx:147-150): the form's save button stores its data. */
    method HandleSaveDraft(data: Report)
      modifies store
      ensures store.stored == Some(StorageService.Upsert(old(store.GetStoredReports()), data))
    {
      var _ := store.SaveReport(data);
    }

    /** `handleSaveOnly` (App.tsx:152-157): store the current report; view and mode stay. */
    method HandleSaveOnly()
      requires Valid()
      modifies this, store
      ensures Valid()
      ensures store.stored == Some(StorageService.Upsert(old(store.GetStoredReports()), currentData))
      ensures view == old(view) && previewMode == old(previewMode) && currentData == old(currentData)
      ensures stats == old(stats)
    {
      isSaving := true;
      var _ := store.SaveReport(currentData);
      isSaving := false;
    }

    /**
     * `handleDownloadPDF` (App.tsx:100-118). `pdf` is the rasteriser's data
     * URI (`None` when it failed); the result is the name of the file offered
     * for download, if any.
     */
    method HandleDownloadPDF(pdf: Option<string>) returns (download: Option<string>)
      requires Valid()
      modifies this
      ensures Valid()
      ensures download == if Truthy(pdf) then Some(PdfFilename(currentData)) else None
      ensures view == old(view) && previewMode == old(previewMode) && currentData == old(currentData)
      ensures stats == old(stats)
    {
      isSaving := true;
      var pdfBase64 := pdf;
      if pdfBase64.Some? && pdfBase64.value != "" {
        download := Some(PdfFilename(currentData));
      } else {
        download := None;
      }
      isSaving := false;
    }

    /**
     * `handleDownloadPoster` (App.tsx:120-145). `posterMounted` is whether the
     * poster element exists; `image` is the rendered PNG, `None` when the
     * rasteriser threw.
     */
    method HandleDownloadPoster(posterMounted: bool, image: Option<string>) returns (download: Option<string>)
      requires Valid()
      modifies this
      ensures Valid()
      ensures download == if posterMounted && image.Some? then Some(PosterFilename(currentData)) else None
      ensures view == old(view) && previewMode == old(previewMode) && currentData == old(currentData)
      ensures stats == old(stats)
    {
      if !posterMounted {
        return None;
      }
      isSaving := true;
      if image.Some? {
        download := Some(PosterFilename(currentData));
      } else {
        download := None;
      }
      isSaving := false;
    }

    /**
     * `handleSendReport` (App.tsx:159-191). The PDF is captured in standard
     * mode (`capturedIn`), `pdf` being what the rasteriser produced; it is
     * uploaded only when truthy, with `transportOk` the network outcome. Only
     * a true answer moves to the dashboard. Whatever happens, the busy flag is
     * cleared and the original mode is restored.
     */
    method HandleSendReport(pdf: Option<string>, transportOk: bool)
      returns (capturedIn: PreviewMode, sent: Option<StorageService.UploadPayload>)
      requires Valid()
      modifies this, store
      ensures Valid()
      ensures capturedIn == Standard
      ensures previewMode == old(previewMode) && currentData == old(currentData)
      ensures !Truthy(pdf) ==> sent == None && store.stored == old(store.stored)
      ensures Truthy(pdf) ==> store.stored == Some(StorageService.Upsert(old(store.GetStoredReports()),
        StorageService.StoredVersion(currentData, store.scriptUrl, transportOk)))
      ensures Truthy(pdf) && !StorageService.IsPlaceholderUrl(store.scriptUrl) ==>
        sent == Some(StorageService.UploadPayload(currentData, StorageService.CleanPdfBase64(pdf.value)))
      ensures Truthy(pdf) && StorageService.IsPlaceholderUrl(store.scriptUrl) ==> sent == None
      ensures view == if Truthy(pdf) && StorageService.UploadAnswer(store.scriptUrl, transportOk)
        then DashboardView else old(view)
      ensures view == DashboardView && old(view) != DashboardView ==>
        StorageService.StatsOf(stats, store.GetStoredReports())
      ensures view == old(view) ==> stats == old(stats)
    {
      isSaving := true;
      var wasPoster := previewMode == Poster;
      if wasPoster {
        previewMode := Standard;
      }
      capturedIn := previewMode;
      var pdfBase64 := pdf;
      sent := None;
      if pdfBase64.Some? && pdfBase64.value != "" {
        var success;
        success, sent := store.UploadReportToCloud(currentData, pdfBase64.value, transportOk);
        if success {
          ShowDashboard();
        }
      }
      isSaving := false;
      if wasPoster {
        previewMode := Poster;
      }
    }
  }
}
