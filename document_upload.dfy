/** The upload pane: the checks a dropped file must pass before it is handed to the page. */
module DocumentUpload {
  import opened Types
  import opened Page

  /** The size limit, 10 MiB. */
  const MaxUploadBytes: nat := 10 * 1024 * 1024

  /** The MIME types the pane accepts: PDF, DOCX and plain text. */
  const AllowedTypes: seq<string> := [
    "application/pdf",
    "application/vnd.openxmlformats-officedocument.wordprocessingml.document",
    "text/plain"
  ]

  /** What `onDrop` decides about a drop. */
  datatype DropDecision =
    | NoFile
    | WrongType(file: DroppedFile)
    | TooLarge(file: DroppedFile)
    | Accepted(file: DroppedFile)

  /** The guards of `onDrop`, in order: a file at all, then its type, then its size. */
  function CheckDrop(files: seq<DroppedFile>): DropDecision
  {
    if files == [] then NoFile
    else
      var file := files[0];
      if file.mimeType !in AllowedTypes then WrongType(file)
      else if file.size > MaxUploadBytes then TooLarge(file)
      else Accepted(file)
  }

  /** Only the first dropped file is ever considered, and a decision about a file names it. */
  lemma OnlyFirstFileCounts(files: seq<DroppedFile>)
    ensures CheckDrop(files).NoFile? <==> files == []
    ensures files != [] ==> CheckDrop(files) == CheckDrop([files[0]])
    ensures files != [] ==> CheckDrop(files).file == files[0]
  {
  }

  /** A drop is accepted exactly when its first file has a whitelisted type and is at most
      10 MiB; a wrong type is reported even for an oversized file. */
  lemma AcceptIff(files: seq<DroppedFile>)
    ensures CheckDrop(files).Accepted? <==>
      files != [] && files[0].mimeType in AllowedTypes && files[0].size <= 10485760
    ensures files != [] && files[0].mimeType !in AllowedTypes ==> CheckDrop(files).WrongType?
    ensures CheckDrop(files).TooLarge? <==>
      files != [] && files[0].mimeType in AllowedTypes && files[0].size > 10485760
  {
  }

  /** The size limit is inclusive: a PDF of exactly 10485760 bytes passes, one byte more does not. */
  lemma SizeBoundary(name: string)
    ensures CheckDrop([DroppedFile(name, "application/pdf", 10485760)]).Accepted?
    ensures CheckDrop([DroppedFile(name, "application/pdf", 10485761)]).TooLarge?
  {
  }

  /** The upload pane, mounted under the page `home` whose `handleDocumentUpload` is its `onUpload`. */
  class UploadPane {
    const home: Home
    var uploading: bool

    constructor (home: Home)
      ensures this.home == home && !uploading
    {
      this.home := home;
      uploading := false;
    }

    /** The synchronous part of `onDrop`: the checks, and `uploading` raised for an accepted file. */
    method BeginDrop(files: seq<DroppedFile>) returns (decision: DropDecision)
      modifies this`uploading
      ensures decision == CheckDrop(files)
      ensures uploading == (decision.Accepted? || old(uploading))
    {
      decision := CheckDrop(files);
      if decision.Accepted? {
        uploading := true;
      }
    }

    /** The `finally` of `onDrop`: the upload has settled, whatever its outcome. */
    method FinishUpload()
      modifies this`uploading
      ensures !uploading
    {
      uploading := false;
    }

    /** `onDrop` run to completion. `onUpload` (the page's upload handler) is called once, with
        the first file, exactly when the drop is accepted; a rejected drop leaves the page as it
        was. `uploading` is false once an accepted upload has settled. */
    method OnDrop(files: seq<DroppedFile>, uploaded: bool,
                  documentsReply: Reply<seq<Document>>, statsReply: Reply<Stats>)
      returns (sent: Option<DroppedFile>)
      requires home.Valid()
      modifies this`uploading, home
      ensures home.Valid()
      ensures sent.Some? <==> CheckDrop(files).Accepted?
      ensures sent.Some? ==> sent.value == files[0]
      ensures sent.Some? ==> !uploading
      ensures sent.None? ==> uploading == old(uploading)
      ensures sent.Some? && uploaded && documentsReply.Ok? && statsReply.Ok? ==>
        home.documents == documentsReply.value && home.stats == Some(statsReply.value)
      ensures !(sent.Some? && uploaded && documentsReply.Ok? && statsReply.Ok?) ==>
        home.documents == old(home.documents) && home.stats == old(home.stats)
      ensures sent.Some? && uploaded ==> !home.loading
      ensures sent.Some? && !uploaded ==> home.loading == old(home.loading)
      ensures sent.None? ==> home.loading == old(home.loading)
      ensures home.selectedDocument == old(home.selectedDocument)
      ensures home.selectedDocuments == old(home.selectedDocuments)
      ensures home.activeTab == old(home.activeTab)
    {
      var decision := BeginDrop(files);
      if decision.Accepted? {
        home.HandleDocumentUpload(decision.file, uploaded, documentsReply, statsReply);
        FinishUpload();
        sent := Some(decision.file);
      } else {
        sent := None;
      }
    }
  }
}
