/**
 * The upload form of components/dashboard/pdf-upload-dialog.tsx: file
 * selection, the title derived from the file name, the upload guard, the
 * three ways an upload ends, and the reset on close.
 */
module UploadDialog {
  import opened Options
  import opened Text

  const PdfMimeType: string := "application/pdf"
  const PdfSuffix: string := ".pdf"
  const InvalidFileError: string := "Please select a valid PDF file"
  const MissingFieldsError: string := "Please select a file and enter a title"
  const UploadFailedError: string := "Upload failed"
  const UploadThrewError: string := "An error occurred during upload"

  /** The parts of a browser `File` the form looks at. */
  datatype FileInfo = FileInfo(name: string, mimeType: string)

  /** What the form posts: the file and the trimmed title. */
  datatype UploadRequest = UploadRequest(file: FileInfo, title: string)

  /**
   * How the upload ended: an ok response with the new document's id, a
   * non-ok response whose body may carry an `error` string, or a thrown error.
   */
  datatype UploadOutcome = Accepted(documentId: string) | Rejected(error: Option<string>) | Thrown

  /** The title proposed for a file: its name with the first `.pdf` cut out. */
  function TitleFromName(name: string): (title: string)
    ensures |title| <= |name|
    ensures !Contains(name, PdfSuffix) ==> title == name
    ensures Contains(name, PdfSuffix) ==>
              exists i: nat :: OccursAt(name, PdfSuffix, i) &&
                (forall j: nat :: j < i ==> !OccursAt(name, PdfSuffix, j)) &&
                title == name[..i] + name[i + |PdfSuffix|..]
  {
    RemoveFirst(name, PdfSuffix)
  }

  /** A name that is a stem plus `.pdf`, with no `.pdf` in the stem, proposes the stem. */
  lemma TitleOfPdfName(stem: string)
    requires !Contains(stem, PdfSuffix)
    ensures TitleFromName(stem + PdfSuffix) == stem
  {
    var u := stem + PdfSuffix;
    assert IndexOf(stem, PdfSuffix).None?;
    assert u[|stem|..|stem| + 4] == PdfSuffix;
    assert OccursAt(u, PdfSuffix, |stem|);
    forall j: nat | j < |stem|
      ensures !OccursAt(u, PdfSuffix, j)
    {
      if j + 4 <= |stem| {
        assert !OccursAt(stem, PdfSuffix, j);
        assert u[j..j + 4] == stem[j..j + 4];
      } else {
        assert u[|stem|] == '.';
        assert u[j..j + 4][|stem| - j] == '.';
        assert PdfSuffix[|stem| - j] != '.';
      }
    }
    assert IndexOf(u, PdfSuffix) == Some(|stem|);
    assert u[..|stem|] + u[|stem| + 4..] == stem;
  }

  /** Only the first `.pdf` goes: `notes.pdf.pdf` proposes `notes.pdf`. */
  lemma FirstSuffixOnly()
    ensures TitleFromName("notes.pdf.pdf") == "notes.pdf"
  {
    var u := "notes.pdf.pdf";
    assert u[5..9] == PdfSuffix;
    assert OccursAt(u, PdfSuffix, 5);
    forall j: nat | j < 5 ensures !OccursAt(u, PdfSuffix, j) {
      assert u[j..j + 4][0] == u[j] != '.';
    }
    assert IndexOf(u, PdfSuffix) == Some(5);
    assert u[..5] + u[9..] == "notes.pdf";
  }

  /** The message a failed upload shows: the server's `error` when truthy, else a fixed text; never empty. */
  function FailureMessage(outcome: UploadOutcome): (message: string)
    requires !outcome.Accepted?
    ensures message != ""
    ensures outcome.Rejected? && outcome.error.Some? && outcome.error.value != "" ==> message == outcome.error.value
    ensures outcome.Rejected? && (outcome.error.None? || outcome.error.value == "") ==> message == UploadFailedError
    ensures outcome.Thrown? ==> message == UploadThrewError
  {
    match outcome
    case Rejected(e) => if e.Some? && e.value != "" then e.value else UploadFailedError
    case Thrown => UploadThrewError
  }

  /** Where a successful upload navigates. */
  function TutorPath(documentId: string): (path: string)
    ensures StartsWith(path, "/tutor/") && path[7..] == documentId
  {
    assert ("/tutor/" + documentId)[..7] == "/tutor/";
    "/tutor/" + documentId
  }

  class UploadForm {
    var file: Option<FileInfo>
    var title: string
    var error: string
    var isUploading: bool

    /** The state the form starts in and returns to on close. */
    predicate Pristine()
      reads this
    {
      file == None && title == [] && error == [] && !isUploading
    }

    /** Whether the upload button is enabled. */
    predicate UploadEnabled(): (r: bool)
      reads this
      ensures r <==> file.Some? && !isUploading && exists i :: 0 <= i < |title| && !IsSpace(title[i])
    {
      file.Some? && Trim(title) != [] && !isUploading
    }

    constructor ()
      ensures Pristine() && !UploadEnabled()
    {
      file := None;
      title := [];
      error := [];
      isUploading := false;
    }

    /**
     * `handleFileChange`: a PDF is kept and titles the document; anything
     * else, or no file, clears the file and reports the error, keeping the title.
     */
    method FileChanged(selected: Option<FileInfo>)
      modifies this
      ensures selected.Some? && selected.value.mimeType == PdfMimeType ==>
                file == selected && title == TitleFromName(selected.value.name) && error == []
      ensures !(selected.Some? && selected.value.mimeType == PdfMimeType) ==>
                file == None && title == old(title) && error == InvalidFileError
      ensures isUploading == old(isUploading)
    {
      if selected.Some? && selected.value.mimeType == PdfMimeType {
        file := selected;
        title := TitleFromName(selected.value.name);
        error := [];
      } else {
        error := InvalidFileError;
        file := None;
      }
    }

    /** Typing in the title field. */
    method TitleChanged(text: string)
      modifies this
      ensures title == text
      ensures file == old(file) && error == old(error) && isUploading == old(isUploading)
    {
      title := text;
    }

    /**
     * The synchronous part of `handleUpload`: without a file or with a blank
     * title only the error changes; otherwise the upload starts with the
     * trimmed title.
     */
    method BeginUpload() returns (request: Option<UploadRequest>)
      modifies this
      ensures old(UploadEnabled()) ==> request.Some? && isUploading
      ensures old(file).None? || Trim(old(title)) == [] ==>
                request == None && error == MissingFieldsError &&
                file == old(file) && title == old(title) && isUploading == old(isUploading)
      ensures old(file).Some? && Trim(old(title)) != [] ==>
                request == Some(UploadRequest(old(file).value, Trim(old(title)))) &&
                isUploading && error == [] && file == old(file) && title == old(title)
    {
      if file.None? || Trim(title) == [] {
        error := MissingFieldsError;
        return None;
      }
      isUploading := true;
      error := [];
      request := Some(UploadRequest(file.value, Trim(title)));
    }

    /**
     * The rest of `handleUpload`. Success asks the parent to close and
     * returns the page to open; the parent's close does not go through
     * the reset, so file and title stay. A failure shows its message.
     * Uploading ends either way.
     */
    method CompleteUpload(outcome: UploadOutcome) returns (destination: Option<string>)
      modifies this
      ensures !isUploading && file == old(file) && title == old(title)
      ensures outcome.Accepted? ==> destination == Some(TutorPath(outcome.documentId)) && error == old(error)
      ensures !outcome.Accepted? ==> destination == None && error == FailureMessage(outcome)
    {
      match outcome {
        case Accepted(id) =>
          destination := Some(TutorPath(id));
        case Rejected(_) =>
          error := FailureMessage(outcome);
          destination := None;
        case Thrown =>
          error := FailureMessage(outcome);
          destination := None;
      }
      isUploading := false;
    }

    /** `resetDialog`. */
    method Reset()
      modifies this
      ensures Pristine()
    {
      file := None;
      title := [];
      error := [];
      isUploading := false;
    }

    /**
     * The Cancel button. It is disabled while uploading. It asks the parent
     * to close directly, not through the dialog's own handler, so the form
     * is not reset: reopening shows the same file, title and error.
     */
    method CancelClicked() returns (requestedOpen: bool)
      requires !isUploading
      ensures !requestedOpen
      ensures file == old(file) && title == old(title) && error == old(error) && isUploading == old(isUploading)
    {
      requestedOpen := false;
    }

    /** The dialog's own open-state handler: closing resets the form, opening changes nothing here. */
    method OpenChanged(newOpen: bool)
      modifies this
      ensures !newOpen ==> Pristine() && !UploadEnabled()
      ensures newOpen ==>
                file == old(file) && title == old(title) && error == old(error) && isUploading == old(isUploading)
    {
      if !newOpen {
        Reset();
      }
    }
  }
}
