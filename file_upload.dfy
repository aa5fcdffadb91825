/**
 * The upload component: the list of selected files it shows, kept to the
 * document and spreadsheet types, and passed on to the application every
 * time it changes.
 */
module FileUpload {
  import opened JsRuntime
  import opened App

  const DocxMimeType := "application/vnd.openxmlformats-officedocument.wordprocessingml.document"
  const XlsxMimeType := "application/vnd.openxmlformats-officedocument.spreadsheetml.sheet"

  /** The allow-list of MIME types. */
  predicate IsAllowedType(f: File)
  {
    f.mimeType == DocxMimeType || f.mimeType == XlsxMimeType
  }

  /** The files of a selection whose declared type is on the allow-list. */
  function AllowedFiles(incoming: seq<File>): seq<File>
  {
    Filter(incoming, IsAllowedType)
  }

  function NameIsNot(name: string): File -> bool
  {
    (f: File) => f.name != name
  }

  /** The files without the ones called `name`. */
  function WithoutName(files: seq<File>, name: string): seq<File>
  {
    Filter(files, NameIsNot(name))
  }

  /**
   * The allow-list filter keeps exactly the allowed files, each as often as
   * it was selected, and keeps their order: filtering a selection made of
   * two parts gives the filtered parts one after the other.
   */
  lemma {:induction false} AllowedFilesExactly(incoming: seq<File>, more: seq<File>)
    ensures forall f :: f in AllowedFiles(incoming) <==> f in incoming && IsAllowedType(f)
    ensures forall f :: IsAllowedType(f) ==> multiset(AllowedFiles(incoming))[f] == multiset(incoming)[f]
    ensures AllowedFiles(incoming + more) == AllowedFiles(incoming) + AllowedFiles(more)
  {
    FilterAppend(incoming, more, IsAllowedType);
    FilterMembers(incoming, IsAllowedType);
  }

  /** A selection of allowed files only is kept as it is, and filtering again changes nothing. */
  lemma AllowedFilesStable(incoming: seq<File>)
    ensures (forall i :: 0 <= i < |incoming| ==> IsAllowedType(incoming[i])) ==> AllowedFiles(incoming) == incoming
    ensures AllowedFiles(AllowedFiles(incoming)) == AllowedFiles(incoming)
  {
    if forall i :: 0 <= i < |incoming| ==> IsAllowedType(incoming[i]) {
      FilterKeepsAll(incoming, IsAllowedType);
    }
    FilterIdempotent(incoming, IsAllowedType);
  }

  /**
   * Removal by name drops every file with that name and keeps every other
   * file, as often as it was there and in the same order.
   */
  lemma {:induction false} WithoutNameExactly(files: seq<File>, more: seq<File>, name: string)
    ensures forall f: File :: f in WithoutName(files, name) <==> f in files && f.name != name
    ensures forall f: File :: f.name != name ==> multiset(WithoutName(files, name))[f] == multiset(files)[f]
    ensures WithoutName(files + more, name) == WithoutName(files, name) + WithoutName(more, name)
  {
    FilterAppend(files, more, NameIsNot(name));
    FilterMembers(files, NameIsNot(name));
  }

  /** Removing a name no file has leaves the list as it is. */
  lemma RemoveAbsentName(files: seq<File>, name: string)
    requires forall i :: 0 <= i < |files| ==> files[i].name != name
    ensures WithoutName(files, name) == files
  {
    FilterKeepsAll(files, NameIsNot(name));
  }

  /** The component: its own list of files, and the application it reports changes to. */
  class Uploader {
    var files: seq<File>
    /** The owner of `onFileChange`. */
    const app: AppState

    constructor (app: AppState)
      ensures files == [] && this.app == app
    {
      files := [];
      this.app := app;
    }

    /**
     * `handleFiles`: a missing list changes nothing; otherwise the allowed
     * files of the new selection replace the list, and the same list goes to
     * `onFileChange`.
     */
    method HandleFiles(incomingFiles: Option<seq<File>>)
      modifies this, app
      ensures incomingFiles.None? ==> files == old(files) && unchanged(app)
      ensures incomingFiles.Some? ==>
        && files == AllowedFiles(incomingFiles.value)
        && app.files == files && app.error.None? && app.pptxBlob.None?
        && app.isLoading == old(app.isLoading) && app.loadingMessage == old(app.loadingMessage)
        && app.Valid()
    {
      if incomingFiles.Some? {
        var validFiles := AllowedFiles(incomingFiles.value);
        files := validFiles;
        app.HandleFileChange(validFiles);
      }
    }

    /** `removeFile`: the list without the files called `fileName`, also passed to `onFileChange`. */
    method RemoveFile(fileName: string)
      modifies this, app
      ensures files == WithoutName(old(files), fileName)
      ensures app.files == files && app.error.None? && app.pptxBlob.None?
      ensures app.isLoading == old(app.isLoading) && app.loadingMessage == old(app.loadingMessage)
      ensures app.Valid()
    {
      var updatedFiles := WithoutName(files, fileName);
      files := updatedFiles;
      app.HandleFileChange(updatedFiles);
    }
  }
}
