/** The page-level store: the document registry snapshot, the selection and the active tab. */
module Page {
  import opened Types
  import opened Selection

  /** The four panes the navigation bar switches between. */
  datatype Tab = DocumentsTab | ChatTab | UploadTab | StatsTab

  class Home {
    var documents: seq<Document>
    var selectedDocument: Option<Document>
    var selectedDocuments: seq<Document>
    var stats: Option<Stats>
    var loading: bool
    var activeTab: Tab

    /** Every handler keeps a single selected document equal to the whole selection list. */
    ghost predicate Valid()
      reads this
    {
      SingleSelectionConsistent(selectedDocument, selectedDocuments)
    }

    /** The state the page mounts with, before its first load completes. */
    constructor ()
      ensures Valid()
      ensures documents == [] && selectedDocument == None && selectedDocuments == []
      ensures stats == None && loading && activeTab == DocumentsTab
    {
      documents := [];
      selectedDocument := None;
      selectedDocuments := [];
      stats := None;
      loading := true;
      activeTab := DocumentsTab;
    }

    /** `loadData`: both fetches must succeed for the snapshot to be replaced; otherwise the
        previous snapshot stays. The loading flag is cleared either way. */
    method LoadData(documentsReply: Reply<seq<Document>>, statsReply: Reply<Stats>)
      requires Valid()
      modifies this
      ensures Valid()
      ensures documentsReply.Ok? && statsReply.Ok? ==>
        documents == documentsReply.value && stats == Some(statsReply.value)
      ensures !(documentsReply.Ok? && statsReply.Ok?) ==>
        documents == old(documents) && stats == old(stats)
      ensures !loading
      ensures selectedDocument == old(selectedDocument) && selectedDocuments == old(selectedDocuments)
      ensures activeTab == old(activeTab)
    {
      loading := true;
      if documentsReply.Ok? && statsReply.Ok? {
        documents := documentsReply.value;
        stats := Some(statsReply.value);
      }
      loading := false;
    }

    /** `handleDocumentUpload`: a successful upload is followed by a reload; a failed one changes nothing. */
    method HandleDocumentUpload(file: DroppedFile, uploaded: bool,
                                documentsReply: Reply<seq<Document>>, statsReply: Reply<Stats>)
      requires Valid()
      modifies this
      ensures Valid()
      ensures uploaded && documentsReply.Ok? && statsReply.Ok? ==>
        documents == documentsReply.value && stats == Some(statsReply.value)
      ensures !(uploaded && documentsReply.Ok? && statsReply.Ok?) ==>
        documents == old(documents) && stats == old(stats)
      ensures uploaded ==> !loading
      ensures !uploaded ==> loading == old(loading)
      ensures selectedDocument == old(selectedDocument) && selectedDocuments == old(selectedDocuments)
      ensures activeTab == old(activeTab)
    {
      if uploaded {
        LoadData(documentsReply, statsReply);
      }
    }

    /** `handleDocumentDelete`: after a successful delete the registry is reloaded and the deleted
        id is pruned from the selection, whether or not the reload succeeded; a failed delete
        changes nothing. */
    method HandleDocumentDelete(id: int, deleted: bool,
                                documentsReply: Reply<seq<Document>>, statsReply: Reply<Stats>)
      requires Valid()
      modifies this
      ensures Valid()
      ensures deleted ==> selectedDocuments == RemoveId(old(selectedDocuments), id)
      ensures deleted ==> !HasId(selectedDocuments, id)
      ensures deleted ==> (selectedDocument == None <==>
        (old(selectedDocument) == None || old(selectedDocument).value.id == id))
      ensures deleted && selectedDocument != None ==> selectedDocument == old(selectedDocument)
      ensures deleted && documentsReply.Ok? && statsReply.Ok? ==>
        documents == documentsReply.value && stats == Some(statsReply.value)
      ensures deleted ==> !loading
      ensures !(deleted && documentsReply.Ok? && statsReply.Ok?) ==>
        documents == old(documents) && stats == old(stats)
      ensures !deleted ==>
        selectedDocument == old(selectedDocument) && selectedDocuments == old(selectedDocuments)
      ensures !deleted ==> loading == old(loading)
      ensures activeTab == old(activeTab)
    {
      if deleted {
        LoadData(documentsReply, statsReply);
        if selectedDocument.Some? && selectedDocument.value.id == id {
          selectedDocument := None;
        }
        selectedDocuments := RemoveId(selectedDocuments, id);
        RemoveIdHasId(old(selectedDocuments), id, id);
        if selectedDocument.Some? {
          assert old(selectedDocuments) == [selectedDocument.value];
          RemoveIdAbsent(old(selectedDocuments), id);
        }
      }
    }

    /** `handleDocumentSelect`: the document becomes the single selection and the chat pane opens. */
    method HandleDocumentSelect(document: Document)
      modifies this
      ensures Valid()
      ensures selectedDocument == Some(document) && selectedDocuments == [document]
      ensures activeTab == ChatTab
      ensures documents == old(documents) && stats == old(stats) && loading == old(loading)
    {
      selectedDocument := Some(document);
      selectedDocuments := [document];
      activeTab := ChatTab;
    }

    /** `handleMultiDocumentSelect`: the list replaces the selection verbatim and the single
        selection is cleared; the tab does not change. */
    method HandleMultiDocumentSelect(selection: seq<Document>)
      modifies this
      ensures Valid()
      ensures selectedDocuments == selection && selectedDocument == None
      ensures activeTab == old(activeTab)
      ensures documents == old(documents) && stats == old(stats) && loading == old(loading)
    {
      selectedDocuments := selection;
      selectedDocument := None;
    }

    /** `handleStartMultiChat`: only the tab changes. */
    method HandleStartMultiChat()
      modifies this`activeTab
      ensures activeTab == ChatTab
    {
      activeTab := ChatTab;
    }

    /** The chat pane's `onClearSelection`: nothing stays selected; the tab does not change. */
    method ClearSelection()
      modifies this`selectedDocument, this`selectedDocuments
      ensures Valid()
      ensures selectedDocument == None && selectedDocuments == []
    {
      selectedDocument := None;
      selectedDocuments := [];
    }

    /** A click on a navigation tab: only the tab changes. */
    method SetActiveTab(tab: Tab)
      modifies this`activeTab
      ensures activeTab == tab
    {
      activeTab := tab;
    }
  }
}
