/** The document list pane: search filter, file-type badges and the multi-select controller. */
module DocumentList {
  import opened Types
  import opened Seqs
  import opened Text
  import opened Selection
  import opened Page

  /** A document is shown when its lower-cased name includes the lower-cased search term. */
  predicate MatchesSearch(d: Document, term: string)
  {
    Includes(Lower(d.name), Lower(term))
  }

  /** `filteredDocuments`: an order-preserving subsequence of `docs` holding exactly the
      documents that match the search term. */
  function FilterByName(docs: seq<Document>, term: string): (r: seq<Document>)
    ensures IsSubsequence(r, docs)
    ensures forall i :: 0 <= i < |r| ==> MatchesSearch(r[i], term)
    ensures forall k :: 0 <= k < |docs| && MatchesSearch(docs[k], term) ==> docs[k] in r
    ensures forall x :: multiset(r)[x] == if MatchesSearch(x, term) then multiset(docs)[x] else 0
  {
    if docs == [] then []
    else
      assert docs == [docs[0]] + docs[1..];
      if MatchesSearch(docs[0], term) then [docs[0]] + FilterByName(docs[1..], term)
      else FilterByName(docs[1..], term)
  }

  /** An empty search term keeps every document, in order. */
  lemma {:induction false} FilterEmptyTermKeepsAll(docs: seq<Document>)
    ensures FilterByName(docs, "") == docs
  {
    if docs != [] {
      IncludesEmpty(Lower(docs[0].name));
      FilterEmptyTermKeepsAll(docs[1..]);
      assert docs == [docs[0]] + docs[1..];
    }
  }

  /** Filtering an already filtered list by the same term changes nothing. */
  lemma {:induction false} FilterIdempotent(docs: seq<Document>, term: string)
    ensures FilterByName(FilterByName(docs, term), term) == FilterByName(docs, term)
  {
    if docs != [] {
      FilterIdempotent(docs[1..], term);
      if MatchesSearch(docs[0], term) {
        var r := FilterByName(docs, term);
        assert r[0] == docs[0] && r[1..] == FilterByName(docs[1..], term);
      }
    }
  }

  /** The search ignores the case of the term. */
  lemma SearchIgnoresTermCase(docs: seq<Document>, term: string)
    ensures FilterByName(docs, Lower(term)) == FilterByName(docs, term)
  {
    LowerFacts(term);
    forall d | true ensures MatchesSearch(d, Lower(term)) == MatchesSearch(d, term) { }
    FilterSameMatches(docs, Lower(term), term);
  }

  /** Two terms that match the same documents filter every list alike. */
  lemma {:induction false} FilterSameMatches(docs: seq<Document>, t1: string, t2: string)
    requires forall d :: MatchesSearch(d, t1) == MatchesSearch(d, t2)
    ensures FilterByName(docs, t1) == FilterByName(docs, t2)
  {
    if docs != [] {
      FilterSameMatches(docs[1..], t1, t2);
    }
  }

  /** The kinds of file the badges tell apart. */
  datatype FileKind = Pdf | Docx | Txt | OtherKind

  /** The `switch (fileType.toLowerCase())` shared by the badge mappings. */
  function Classify(fileType: string): FileKind
  {
    var t := Lower(fileType);
    if t == "pdf" then Pdf
    else if t == "docx" then Docx
    else if t == "txt" then Txt
    else OtherKind
  }

  /** `getFileTypeColor`. */
  function FileTypeColor(fileType: string): string
  {
    match Classify(fileType)
    case Pdf => "badge-danger"
    case Docx => "badge-primary"
    case Txt => "badge-success"
    case OtherKind => "badge-gray"
  }

  /** `getFileTypeBgColor`. */
  function FileTypeBgColor(fileType: string): string
  {
    match Classify(fileType)
    case Pdf => "bg-red-100"
    case Docx => "bg-blue-100"
    case Txt => "bg-green-100"
    case OtherKind => "bg-gray-100"
  }

  /** Each badge names its file type exactly: a type gets the pdf, docx or txt class precisely when
      its lower-cased form is that extension, and every other type gets the default class. The
      mapping ignores case. */
  lemma FileTypeBadges(fileType: string)
    ensures FileTypeColor(fileType) == "badge-danger" <==> Lower(fileType) == "pdf"
    ensures FileTypeColor(fileType) == "badge-primary" <==> Lower(fileType) == "docx"
    ensures FileTypeColor(fileType) == "badge-success" <==> Lower(fileType) == "txt"
    ensures FileTypeColor(fileType) == "badge-gray" <==>
      Lower(fileType) != "pdf" && Lower(fileType) != "docx" && Lower(fileType) != "txt"
    ensures FileTypeBgColor(fileType) == "bg-red-100" <==> Lower(fileType) == "pdf"
    ensures FileTypeBgColor(fileType) == "bg-blue-100" <==> Lower(fileType) == "docx"
    ensures FileTypeBgColor(fileType) == "bg-green-100" <==> Lower(fileType) == "txt"
    ensures FileTypeBgColor(fileType) == "bg-gray-100" <==>
      Lower(fileType) != "pdf" && Lower(fileType) != "docx" && Lower(fileType) != "txt"
    ensures FileTypeColor(Lower(fileType)) == FileTypeColor(fileType)
    ensures FileTypeBgColor(Lower(fileType)) == FileTypeBgColor(fileType)
  {
    LowerFacts(fileType);
  }

  /** The list pane. `home` is the page whose callbacks it was given; `startMultiChatWired`
      says whether the optional `onStartMultiChat` callback was passed. */
  class DocumentListPane {
    const home: Home
    const startMultiChatWired: bool
    var searchTerm: string
    var multiSelectMode: bool

    /** A freshly mounted list: no search term, multi-select off. */
    constructor (home: Home, startMultiChatWired: bool)
      ensures this.home == home && this.startMultiChatWired == startMultiChatWired
      ensures searchTerm == "" && !multiSelectMode
    {
      this.home := home;
      this.startMultiChatWired := startMultiChatWired;
      searchTerm := "";
      multiSelectMode := false;
    }

    /** The documents the grid shows. */
    function FilteredDocuments(): seq<Document>
      reads this, home
    {
      FilterByName(home.documents, searchTerm)
    }

    /** Typing in the search box. */
    method SetSearchTerm(term: string)
      modifies this`searchTerm
      ensures searchTerm == term
    {
      searchTerm := term;
    }

    /** The clear button of the search box: every document is shown again. */
    method ClearSearch()
      modifies this`searchTerm
      ensures searchTerm == ""
      ensures FilteredDocuments() == home.documents
    {
      searchTerm := "";
      FilterEmptyTermKeepsAll(home.documents);
    }

    /** `handleMultiSelectToggle`, a click on a document card. In multi-select mode the selection
        is toggled through `onMultiSelect`; otherwise the click forwards to single selection. */
    method HandleMultiSelectToggle(document: Document)
      requires home.Valid()
      modifies home
      ensures home.Valid()
      ensures multiSelectMode ==>
        home.selectedDocuments == Toggle(old(home.selectedDocuments), document)
        && home.selectedDocument == None && home.activeTab == old(home.activeTab)
      ensures multiSelectMode && HasId(old(home.selectedDocuments), document.id) ==>
        !HasId(home.selectedDocuments, document.id)
        && IsSubsequence(home.selectedDocuments, old(home.selectedDocuments))
      ensures multiSelectMode && !HasId(old(home.selectedDocuments), document.id) ==>
        home.selectedDocuments == old(home.selectedDocuments) + [document]
      ensures multiSelectMode && DistinctIds(old(home.selectedDocuments)) ==>
        DistinctIds(home.selectedDocuments)
      ensures !multiSelectMode ==>
        home.selectedDocument == Some(document) && home.selectedDocuments == [document]
        && home.activeTab == ChatTab
      ensures home.documents == old(home.documents) && home.stats == old(home.stats)
      ensures home.loading == old(home.loading)
    {
      if multiSelectMode {
        var before := home.selectedDocuments;
        if HasId(before, document.id) {
          RemoveIdHasId(before, document.id, document.id);
        }
        if DistinctIds(before) {
          ToggleKeepsDistinct(before, document);
        }
        home.HandleMultiDocumentSelect(Toggle(before, document));
      } else {
        home.HandleDocumentSelect(document);
      }
    }

    /** `handleStartMultiSelect`: multi-select on, selection emptied. */
    method HandleStartMultiSelect()
      modifies this`multiSelectMode, home
      ensures multiSelectMode
      ensures home.Valid()
      ensures home.selectedDocuments == [] && home.selectedDocument == None
      ensures home.activeTab == old(home.activeTab)
      ensures home.documents == old(home.documents) && home.stats == old(home.stats)
      ensures home.loading == old(home.loading)
    {
      multiSelectMode := true;
      home.HandleMultiDocumentSelect([]);
    }

    /** `handleCancelMultiSelect`: multi-select off, selection emptied. */
    method HandleCancelMultiSelect()
      modifies this`multiSelectMode, home
      ensures !multiSelectMode
      ensures home.Valid()
      ensures home.selectedDocuments == [] && home.selectedDocument == None
      ensures home.activeTab == old(home.activeTab)
      ensures home.documents == old(home.documents) && home.stats == old(home.stats)
      ensures home.loading == old(home.loading)
    {
      multiSelectMode := false;
      home.HandleMultiDocumentSelect([]);
    }

    /** `handleStartChat`: a no-op on an empty selection; otherwise the selection list is kept
        (re-sent through `onMultiSelect`, which clears the single selection), multi-select ends
        and, when the callback is wired, the chat tab opens. */
    method HandleStartChat()
      requires home.Valid()
      modifies this`multiSelectMode, home
      ensures home.Valid()
      ensures old(home.selectedDocuments) == [] ==>
        multiSelectMode == old(multiSelectMode) && home.selectedDocument == old(home.selectedDocument)
        && home.selectedDocuments == [] && home.activeTab == old(home.activeTab)
      ensures old(home.selectedDocuments) != [] ==>
        !multiSelectMode && home.selectedDocuments == old(home.selectedDocuments)
        && home.selectedDocument == None
        && home.activeTab == (if startMultiChatWired then ChatTab else old(home.activeTab))
      ensures home.documents == old(home.documents) && home.stats == old(home.stats)
      ensures home.loading == old(home.loading)
    {
      if |home.selectedDocuments| > 0 {
        home.HandleMultiDocumentSelect(home.selectedDocuments);
        multiSelectMode := false;
        if startMultiChatWired {
          home.HandleStartMultiChat();
        }
      }
    }

    /** The "Start Chat" button of a document card: forwards to single selection. */
    method StartChatWith(document: Document)
      modifies home
      ensures home.Valid()
      ensures home.selectedDocument == Some(document) && home.selectedDocuments == [document]
      ensures home.activeTab == ChatTab
      ensures home.documents == old(home.documents) && home.stats == old(home.stats)
      ensures home.loading == old(home.loading)
    {
      home.HandleDocumentSelect(document);
    }

    /** The "Delete" button of a document card: the delete is requested only if the user
        confirms the dialog. */
    method DeleteClicked(document: Document, confirmed: bool, deleted: bool,
                         documentsReply: Reply<seq<Document>>, statsReply: Reply<Stats>)
      requires home.Valid()
      modifies home
      ensures home.Valid()
      ensures confirmed && deleted ==>
        home.selectedDocuments == RemoveId(old(home.selectedDocuments), document.id)
        && !HasId(home.selectedDocuments, document.id)
      ensures confirmed && deleted ==> (home.selectedDocument == None <==>
        (old(home.selectedDocument) == None || old(home.selectedDocument).value.id == document.id))
      ensures confirmed && deleted && documentsReply.Ok? && statsReply.Ok? ==>
        home.documents == documentsReply.value && home.stats == Some(statsReply.value)
      ensures confirmed && deleted && !(documentsReply.Ok? && statsReply.Ok?) ==>
        home.documents == old(home.documents) && home.stats == old(home.stats)
      ensures confirmed && deleted ==> !home.loading
      ensures !(confirmed && deleted) ==>
        home.selectedDocuments == old(home.selectedDocuments)
        && home.selectedDocument == old(home.selectedDocument)
        && home.documents == old(home.documents) && home.stats == old(home.stats)
        && home.loading == old(home.loading)
      ensures home.activeTab == old(home.activeTab)
    {
      if confirmed {
        home.HandleDocumentDelete(document.id, deleted, documentsReply, statsReply);
      }
    }
  }

  /** Entering multi-select and clicking d1, d2, d1 leaves exactly d2 selected; starting the chat
      then keeps that selection and opens the chat tab, while starting it with nothing selected
      changes nothing. */
  method MultiSelectScenario(d1: Document, d2: Document)
    returns (selection: seq<Document>, tab: Tab, emptyTab: Tab, emptyMode: bool)
    requires d1.id != d2.id
    ensures selection == [d2] && tab == ChatTab
    ensures emptyTab == DocumentsTab && emptyMode
  {
    var home := new Home();
    var list := new DocumentListPane(home, true);
    list.HandleStartMultiSelect();
    list.HandleMultiSelectToggle(d1);
    list.HandleMultiSelectToggle(d2);
    list.HandleMultiSelectToggle(d1);
    ToggleScenario(d1, d2);
    list.HandleStartChat();
    selection, tab := home.selectedDocuments, home.activeTab;

    var home2 := new Home();
    var list2 := new DocumentListPane(home2, true);
    list2.HandleStartMultiSelect();
    list2.HandleStartChat();
    emptyTab, emptyMode := home2.activeTab, list2.multiSelectMode;
  }
}
