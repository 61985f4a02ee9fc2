/**
 * The report form's editing state and its handlers (components/OPRForm.tsx):
 * field edits, image upload and removal, the AI-assist gate and merge, the
 * mandatory-field check that gates preview, and the weekday reset on a date
 * change.
 */
module OPRForm {
  import opened Wrappers
  import opened Types

  // ---------------------------------------------------------------------------
  // Field edits
  // ---------------------------------------------------------------------------

  /** The text inputs wired to `handleChange`, named by their `name` attribute. */
  datatype TextField =
    | TajukProgram | Hari | Masa | Objektif | Aktiviti | Kekuatan | Kelemahan
    | Penambahbaikan | Refleksi | DisediakanOleh | Jawatan

  /** A change event: from the unit select (its five options or '') or from a text input. */
  datatype Edit = SetUnit(unit: UnitField) | SetText(field: TextField, value: string)

  /** The value a text input shows. */
  function TextOf(r: Report, f: TextField): string
  {
    match f
    case TajukProgram => r.tajukProgram
    case Hari => r.hari
    case Masa => r.masa
    case Objektif => r.objektif
    case Aktiviti => r.aktiviti
    case Kekuatan => r.kekuatan
    case Kelemahan => r.kelemahan
    case Penambahbaikan => r.penambahbaikan
    case Refleksi => r.refleksi
    case DisediakanOleh => r.disediakanOleh
    case Jawatan => r.jawatan
  }

  /** The fields no change event can reach are the same in both reports. */
  predicate SameFixedFields(r: Report, r': Report)
  {
    r'.id == r.id && r'.tarikh == r.tarikh && r'.gambar == r.gambar
    && r'.status == r.status && r'.createdAt == r.createdAt
  }

  /** `{ ...prev, [name]: value }` (components/OPRForm.tsx:68-71): only the named field changes. */
  function ApplyEdit(r: Report, e: Edit): (r': Report)
    ensures SameFixedFields(r, r')
    ensures e.SetUnit? ==> r'.unit == e.unit && forall f :: TextOf(r', f) == TextOf(r, f)
    ensures e.SetText? ==> r'.unit == r.unit && TextOf(r', e.field) == e.value
    ensures e.SetText? ==> forall f :: f != e.field ==> TextOf(r', f) == TextOf(r, f)
  {
    match e
    case SetUnit(u) => r.(unit := u)
    case SetText(f, v) =>
      match f
      case TajukProgram => r.(tajukProgram := v)
      case Hari => r.(hari := v)
      case Masa => r.(masa := v)
      case Objektif => r.(objektif := v)
      case Aktiviti => r.(aktiviti := v)
      case Kekuatan => r.(kekuatan := v)
      case Kelemahan => r.(kelemahan := v)
      case Penambahbaikan => r.(penambahbaikan := v)
      case Refleksi => r.(refleksi := v)
      case DisediakanOleh => r.(disediakanOleh := v)
      case Jawatan => r.(jawatan := v)
  }

  /** Two reports agreeing on every field are equal. */
  lemma ReportExt(r: Report, r': Report)
    requires SameFixedFields(r, r') && r'.unit == r.unit
    requires forall f :: TextOf(r', f) == TextOf(r, f)
    ensures r' == r
  {
    assert TextOf(r', TajukProgram) == TextOf(r, TajukProgram);
    assert TextOf(r', Hari) == TextOf(r, Hari);
    assert TextOf(r', Masa) == TextOf(r, Masa);
    assert TextOf(r', Objektif) == TextOf(r, Objektif);
    assert TextOf(r', Aktiviti) == TextOf(r, Aktiviti);
    assert TextOf(r', Kekuatan) == TextOf(r, Kekuatan);
    assert TextOf(r', Kelemahan) == TextOf(r, Kelemahan);
    assert TextOf(r', Penambahbaikan) == TextOf(r, Penambahbaikan);
    assert TextOf(r', Refleksi) == TextOf(r, Refleksi);
    assert TextOf(r', DisediakanOleh) == TextOf(r, DisediakanOleh);
    assert TextOf(r', Jawatan) == TextOf(r, Jawatan);
  }

  /** Typing the old value back into a field undoes an edit. */
  lemma EditUndo(r: Report, f: TextField, v: string)
    ensures ApplyEdit(ApplyEdit(r, SetText(f, v)), SetText(f, TextOf(r, f))) == r
  {
    var r' := ApplyEdit(ApplyEdit(r, SetText(f, v)), SetText(f, TextOf(r, f)));
    ReportExt(r, r');
  }

  // ---------------------------------------------------------------------------
  // Images
  // ---------------------------------------------------------------------------

  /** `gambar.filter((_, i) => i !== index)`, keeping each element whose position differs from `index`. */
  function WithoutIndex(s: seq<string>, index: int): (out: seq<string>)
    ensures |out| == if 0 <= index < |s| then |s| - 1 else |s|
  {
    if s == [] then []
    else WithoutIndex(s[..|s| - 1], index) + (if |s| - 1 != index then [s[|s| - 1]] else [])
  }

  /** Removing drops exactly the element at an in-range index and ignores one out of range. */
  lemma {:induction false} WithoutIndexSpec(s: seq<string>, index: int)
    ensures WithoutIndex(s, index) == if 0 <= index < |s| then s[..index] + s[index + 1..] else s
  {
    if s != [] {
      var n := |s| - 1;
      var init := s[..n];
      WithoutIndexSpec(init, index);
      if 0 <= index < n {
        assert init[..index] == s[..index];
        assert init[index + 1..] + [s[n]] == s[index + 1..];
      } else if index == n {
        assert s[index + 1..] == [];
      } else {
        assert init + [s[n]] == s;
      }
    }
  }

  /** Removing the image that was just appended gives the old list back. */
  lemma RemoveUndoesUpload(g: seq<string>, img: string)
    ensures WithoutIndex(g + [img], |g|) == g
  {
    WithoutIndexSpec(g + [img], |g|);
    assert (g + [img])[..|g|] == g;
  }

  // ---------------------------------------------------------------------------
  // AI assist
  // ---------------------------------------------------------------------------

  /** The three fields the AI assist needs (components/OPRForm.tsx:90); `kekuatan` is optional. */
  predicate AIReady(r: Report)
  {
    r.aktiviti != "" && r.kelemahan != "" && r.objektif != ""
  }

  /**
   * Readiness looks only at the three inputs: the optional strength and the
   * two fields the helper drafts never matter.
   */
  lemma AIReadyIgnoresOptional(r: Report, kekuatan: string, penambahbaikan: string, refleksi: string)
    ensures AIReady(r) <==> AIReady(r.(kekuatan := kekuatan, penambahbaikan := penambahbaikan, refleksi := refleksi))
  {
  }

  /** What is passed to the drafting service (components/OPRForm.tsx:96). */
  datatype AIRequest = AIRequest(aktiviti: string, objektif: string, kekuatan: string, kelemahan: string)

  /** The merge of components/OPRForm.tsx:97-101: the two drafted fields are overwritten, nothing else. */
  function WithAIResult(r: Report, ai: GenerateAIResponse): (r': Report)
    ensures SameFixedFields(r, r') && r'.unit == r.unit
    ensures r'.penambahbaikan == ai.penambahbaikan && r'.refleksi == ai.refleksi
    ensures forall f :: f != Penambahbaikan && f != Refleksi ==> TextOf(r', f) == TextOf(r, f)
  {
    r.(penambahbaikan := ai.penambahbaikan, refleksi := ai.refleksi)
  }

  /** The merge is the same as typing the two drafted texts into their fields. */
  lemma AIResultIsTwoEdits(r: Report, ai: GenerateAIResponse)
    ensures WithAIResult(r, ai)
      == ApplyEdit(ApplyEdit(r, SetText(Penambahbaikan, ai.penambahbaikan)), SetText(Refleksi, ai.refleksi))
  {
    var a := WithAIResult(r, ai);
    var b := ApplyEdit(ApplyEdit(r, SetText(Penambahbaikan, ai.penambahbaikan)), SetText(Refleksi, ai.refleksi));
    forall f ensures TextOf(b, f) == TextOf(a, f) {
      if f != Penambahbaikan && f != Refleksi {
        assert TextOf(b, f) == TextOf(r, f);
      }
    }
    ReportExt(a, b);
  }

  // ---------------------------------------------------------------------------
  // Mandatory fields
  // ---------------------------------------------------------------------------

  /** The labels of the mandatory fields, in the order they are checked (components/OPRForm.tsx:111-114). */
  const MandatoryLabels: seq<string> := ["Unit", "Tajuk Program", "Tarikh", "Disediakan Oleh"]

  /** Whether mandatory field `k` (in label order) is empty. */
  predicate IsBlank(r: Report, k: nat)
    requires k < 4
  {
    if k == 0 then r.unit == NoUnit
    else if k == 1 then r.tajukProgram == ""
    else if k == 2 then r.tarikh == ""
    else r.disediakanOleh == ""
  }

  /** The labels of the blank mandatory fields from `k` on. */
  function MissingFrom(r: Report, k: nat): (labels: seq<string>)
    requires k <= 4
    ensures |labels| <= 4 - k
    decreases 4 - k
  {
    if k == 4 then [] else (if IsBlank(r, k) then [MandatoryLabels[k]] else []) + MissingFrom(r, k + 1)
  }

  /** The missing-field list the preview button reports. */
  function MissingFields(r: Report): (missing: seq<string>)
    ensures |missing| <= |MandatoryLabels|
  {
    MissingFrom(r, 0)
  }

  /** Position of a label in the check order (4 for anything else). */
  function LabelRank(l: string): nat
  {
    if l == MandatoryLabels[0] then 0
    else if l == MandatoryLabels[1] then 1
    else if l == MandatoryLabels[2] then 2
    else if l == MandatoryLabels[3] then 3
    else 4
  }

  lemma LabelRanks()
    ensures forall k :: 0 <= k < 4 ==> LabelRank(MandatoryLabels[k]) == k
  {
    assert |MandatoryLabels[0]| == 4 && |MandatoryLabels[1]| == 13;
    assert |MandatoryLabels[2]| == 6 && |MandatoryLabels[3]| == 15;
  }

  /** Every label in the list from `k` on belongs to a blank field at or after `k`. */
  lemma {:induction false} MissingFromSound(r: Report, k: nat)
    requires k <= 4
    ensures forall l :: l in MissingFrom(r, k) ==>
      k <= LabelRank(l) < 4 && l == MandatoryLabels[LabelRank(l)] && IsBlank(r, LabelRank(l))
    decreases 4 - k
  {
    if k < 4 {
      LabelRanks();
      MissingFromSound(r, k + 1);
    }
  }

  /** Every blank field at or after `k` has its label in the list from `k` on. */
  lemma {:induction false} MissingFromComplete(r: Report, k: nat)
    requires k <= 4
    ensures forall j :: k <= j < 4 && IsBlank(r, j) ==> MandatoryLabels[j] in MissingFrom(r, k)
    decreases 4 - k
  {
    if k < 4 {
      MissingFromComplete(r, k + 1);
    }
  }

  /** The list from `k` on is in strictly increasing check order. */
  lemma {:induction false} MissingFromOrdered(r: Report, k: nat)
    requires k <= 4
    ensures forall i, j :: 0 <= i < j < |MissingFrom(r, k)| ==>
      LabelRank(MissingFrom(r, k)[i]) < LabelRank(MissingFrom(r, k)[j])
    decreases 4 - k
  {
    if k < 4 {
      MissingFromOrdered(r, k + 1);
      MissingFromSound(r, k + 1);
      LabelRanks();
      var rest := MissingFrom(r, k + 1);
      var m := MissingFrom(r, k);
      if IsBlank(r, k) {
        assert m == [MandatoryLabels[k]] + rest;
        forall i, j | 0 <= i < j < |m| ensures LabelRank(m[i]) < LabelRank(m[j]) {
          assert m[j] == rest[j - 1];
          if i > 0 { assert m[i] == rest[i - 1]; } else { assert m[j] in rest; }
        }
      }
    }
  }

  /**
   * The missing-field list names exactly the empty ones among unit, title,
   * date and preparer, each once, in the fixed check order.
   */
  lemma MissingFieldsExact(r: Report)
    ensures forall k :: 0 <= k < 4 ==> (MandatoryLabels[k] in MissingFields(r) <==> IsBlank(r, k))
    ensures forall l :: l in MissingFields(r) ==> l in MandatoryLabels
    ensures forall i, j :: 0 <= i < j < |MissingFields(r)| ==>
      LabelRank(MissingFields(r)[i]) < LabelRank(MissingFields(r)[j])
  {
    MissingFromSound(r, 0);
    MissingFromComplete(r, 0);
    MissingFromOrdered(r, 0);
    LabelRanks();
    forall k | 0 <= k < 4 && MandatoryLabels[k] in MissingFields(r) ensures IsBlank(r, k) {
      assert LabelRank(MandatoryLabels[k]) == k;
    }
  }

  /** Nothing is missing exactly when all four mandatory fields are filled in. */
  lemma MissingFieldsEmptyIff(r: Report)
    ensures MissingFields(r) == [] <==>
      r.unit.Unit? && r.tajukProgram != "" && r.tarikh != "" && r.disediakanOleh != ""
  {
    MissingFieldsExact(r);
    if MissingFields(r) != [] {
      var l := MissingFields(r)[0];
      assert l in MandatoryLabels;
    }
  }

  /** Editing the two drafted fields never changes what is missing. */
  lemma AIResultKeepsMissing(r: Report, ai: GenerateAIResponse)
    ensures MissingFields(WithAIResult(r, ai)) == MissingFields(r)
  {
    var r' := WithAIResult(r, ai);
    assert forall k :: 0 <= k < 4 ==> (IsBlank(r', k) <==> IsBlank(r, k));
    assert MissingFrom(r', 3) == MissingFrom(r, 3);
    assert MissingFrom(r', 2) == MissingFrom(r, 2);
    assert MissingFrom(r', 1) == MissingFrom(r, 1);
  }

  // ---------------------------------------------------------------------------
  // Date
  // ---------------------------------------------------------------------------

  /**
   * The weekday shown for a date input value: empty for an empty value or one
   * that does not parse (`weekday` is the locale's parse-and-name, `None` for
   * an invalid date), otherwise the weekday name (components/OPRForm.tsx:123-137).
   */
  function DayName(val: string, weekday: string -> Option<string>): (day: string)
    ensures day != "" ==> val != "" && weekday(val) == Some(day)
    ensures val != "" && weekday(val).Some? ==> day == weekday(val).value
  {
    if val == "" then ""
    else match weekday(val)
      case None => ""
      case Some(name) => name
  }

  // ---------------------------------------------------------------------------
  // The form
  // ---------------------------------------------------------------------------

  /** The form component's state: the edited report and the AI-busy flag. */
  class FormState {
    var formData: Report
    var isGenerating: bool

    /** The form starts from the report it is given (components/OPRForm.tsx:65-66). */
    constructor (initialData: Report)
      ensures formData == initialData && !isGenerating
    {
      formData := initialData;
      isGenerating := false;
    }

    /** `handleChange` (components/OPRForm.tsx:68-71). */
    method HandleChange(e: Edit)
      modifies this
      ensures formData == ApplyEdit(old(formData), e)
      ensures isGenerating == old(isGenerating)
    {
      formData := ApplyEdit(formData, e);
    }

    /**
     * `handleImageUpload` (components/OPRForm.tsx:74-80): `files` holds one
     * object URL per chosen file, or `None` when the input has no file list.
     */
    method HandleImageUpload(files: Option<seq<string>>)
      modifies this
      ensures files.None? ==> formData == old(formData)
      ensures files.Some? ==> formData == old(formData).(gambar := old(formData.gambar) + files.value)
      ensures files.Some? ==> old(formData.gambar) <= formData.gambar
      ensures files.Some? ==> |formData.gambar| == |old(formData.gambar)| + |files.value|
      ensures isGenerating == old(isGenerating)
    {
      if files.Some? {
        var newImages := files.value;
        formData := formData.(gambar := formData.gambar + newImages);
      }
    }

    /** `removeImage` (components/OPRForm.tsx:82-87). */
    method RemoveImage(index: int)
      modifies this
      ensures formData == old(formData).(gambar := WithoutIndex(old(formData.gambar), index))
      ensures 0 <= index < |old(formData.gambar)| ==>
        formData.gambar == old(formData.gambar)[..index] + old(formData.gambar)[index + 1..]
      ensures !(0 <= index < |old(formData.gambar)|) ==> formData == old(formData)
      ensures isGenerating == old(isGenerating)
    {
      WithoutIndexSpec(formData.gambar, index);
      formData := formData.(gambar := WithoutIndex(formData.gambar, index));
    }

    /**
     * `handleGenerateAI` (components/OPRForm.tsx:89-107). Without activity,
     * weakness and objective nothing is requested and nothing changes. `ai` is
     * the service's reply, `None` when the call fails; a reply overwrites the
     * two drafted fields only. The busy flag is cleared in every case.
     */
    method HandleGenerateAI(ai: Option<GenerateAIResponse>) returns (request: Option<AIRequest>)
      modifies this
      ensures request.Some? <==> AIReady(old(formData))
      ensures request.Some? ==>
        (request.value == AIRequest(old(formData.aktiviti), old(formData.objektif), old(formData.kekuatan), old(formData.kelemahan)))
      ensures formData == if AIReady(old(formData)) && ai.Some? then WithAIResult(old(formData), ai.value) else old(formData)
      ensures AIReady(old(formData)) ==> !isGenerating
      ensures !AIReady(old(formData)) ==> isGenerating == old(isGenerating)
    {
      if formData.aktiviti == "" || formData.kelemahan == "" || formData.objektif == "" {
        return None;
      }
      isGenerating := true;
      request := Some(AIRequest(formData.aktiviti, formData.objektif, formData.kekuatan, formData.kelemahan));
      if ai.Some? {
        var result := ai.value;
        formData := formData.(penambahbaikan := result.penambahbaikan, refleksi := result.refleksi);
      }
      isGenerating := false;
    }

    /**
     * `handlePreviewClick` (components/OPRForm.tsx:109-121): collect the
     * labels of the empty mandatory fields; preview the current data only
     * when none is missing.
     */
    method HandlePreviewClick() returns (missing: seq<string>, preview: Option<Report>)
      ensures missing == MissingFields(formData)
      ensures preview.Some? <==> missing == []
      ensures preview.Some? ==> preview.value == formData
    {
      var missingFields: seq<string> := [];
      if formData.unit == NoUnit { missingFields := missingFields + ["Unit"]; }
      if formData.tajukProgram == "" { missingFields := missingFields + ["Tajuk Program"]; }
      if formData.tarikh == "" { missingFields := missingFields + ["Tarikh"]; }
      if formData.disediakanOleh == "" { missingFields := missingFields + ["Disediakan Oleh"]; }
      missing := missingFields;
      assert missing == MissingFields(formData);
      if |missingFields| > 0 {
        return missing, None;
      }
      preview := Some(formData);
    }

    /** `handleDateChange` (components/OPRForm.tsx:123-137): the date is always taken, the weekday recomputed. */
    method HandleDateChange(val: string, weekday: string -> Option<string>)
      modifies this
      ensures formData == old(formData).(tarikh := val, hari := DayName(val, weekday))
      ensures val == "" || weekday(val).None? ==> formData.hari == ""
      ensures val != "" && weekday(val).Some? ==> formData.hari == weekday(val).value
      ensures isGenerating == old(isGenerating)
    {
      if val == "" {
        formData := formData.(tarikh := val, hari := "");
        return;
      }
      var date := weekday(val);
      if date.None? {
        formData := formData.(tarikh := val, hari := "");
        return;
      }
      var dayName := date.value;
      formData := formData.(tarikh := val, hari := dayName);
    }
  }
}
