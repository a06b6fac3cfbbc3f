/**
 * The attendance upload panel (`AttendanceUploadPanel`): a staged file that
 * is mirrored into the parent view, a drag-highlight flag, the period label,
 * and the submit button with its enabling rule.
 */
module UploadPanel {
  import opened Wrappers
  import opened Text
  import AttendanceReport

  class AttendanceUploadPanel {
    var dragActive: bool
    var selectedFile: Option<AttendanceReport.FileRef>
    var periodoEtiqueta: string
    /** The last value handed to the parent's `setFile`. */
    var parentFile: Option<AttendanceReport.FileRef>

    /** The parent always holds the file the panel shows. */
    predicate Valid()
      reads this
    {
      parentFile == selectedFile
    }

    constructor()
      ensures Valid()
      ensures !dragActive && selectedFile == None && periodoEtiqueta == ""
    {
      dragActive := false;
      selectedFile := None;
      periodoEtiqueta := "";
      parentFile := None;
    }

    /** `handleFileChange`: the first chosen file, or none when the picker was cancelled. */
    method FileChange(first: Option<AttendanceReport.FileRef>)
      modifies this`selectedFile, this`parentFile
      ensures Valid() && selectedFile == first
    {
      selectedFile := first;
      parentFile := first;
    }

    method DragOver()
      modifies this`dragActive
      ensures dragActive
    {
      dragActive := true;
    }

    method DragLeave()
      modifies this`dragActive
      ensures !dragActive
    {
      dragActive := false;
    }

    /** `handleDrop`: the highlight goes off; only a dropped file replaces the staged one. */
    method Drop(first: Option<AttendanceReport.FileRef>)
      requires Valid()
      modifies this`dragActive, this`selectedFile, this`parentFile
      ensures Valid() && !dragActive
      ensures first.Some? ==> selectedFile == first
      ensures first.None? ==> selectedFile == old(selectedFile)
    {
      dragActive := false;
      if first.Some? {
        selectedFile := first;
        parentFile := first;
      }
    }

    method SetPeriodoEtiqueta(text: string)
      modifies this`periodoEtiqueta
      ensures periodoEtiqueta == text
    {
      periodoEtiqueta := text;
    }

    /** The submit button is disabled while loading, without a file, or with a blank period. */
    predicate Disabled(loading: bool)
      reads this
    {
      loading || selectedFile.None? || IsBlank(periodoEtiqueta)
    }

    /**
     * A click on the submit button: nothing when it is disabled, else the
     * trimmed period is handed to the parent, and it is never blank.
     */
    method ClickUpload(loading: bool) returns (sent: Option<string>)
      ensures sent.None? <==> Disabled(loading)
      ensures sent.Some? ==> sent.value == Trim(periodoEtiqueta) && !IsBlank(sent.value) && selectedFile.Some?
    {
      if Disabled(loading) {
        return None;
      }
      TrimEmptyIffBlank(periodoEtiqueta);
      var t := Trim(periodoEtiqueta);
      assert t != [] && !IsSpace(t[0]);
      return Some(t);
    }
  }

  /**
   * Whatever the enabled panel submits passes both guards of the attendance
   * view's upload: the file is staged in the parent, and the period is not blank.
   */
  lemma EnabledSubmitPassesGuards(panel: AttendanceUploadPanel, loading: bool)
    requires panel.Valid() && !panel.Disabled(loading)
    ensures panel.parentFile.Some?
    ensures !IsBlank(Trim(panel.periodoEtiqueta))
  {
    TrimEmptyIffBlank(panel.periodoEtiqueta);
    var t := Trim(panel.periodoEtiqueta);
    assert t != [] && !IsSpace(t[0]);
  }
}
