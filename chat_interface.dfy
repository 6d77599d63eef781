/** The chat pane: which documents a conversation is about, the message log with its optimistic
    send and rollback, history loading and clearing. */
module ChatInterface {
  import opened Types
  import opened Seqs
  import opened Text
  import opened Selection
  import opened Page

  /** The body of a chat request: one document (whose id may be absent when nothing is
      selected) or the ids of every selected document. */
  datatype ChatRequest =
    | SingleDocumentRequest(documentId: Option<int>, message: string)
    | MultiDocumentRequest(documentIds: seq<int>, message: string)

  /** `isMultiDocument`. */
  predicate IsMultiDocument(selected: seq<Document>)
  {
    |selected| > 1
  }

  /** `currentDocument = selectedDocument || selectedDocuments[0]`. */
  function CurrentDocument(selectedDocument: Option<Document>, selected: seq<Document>): Option<Document>
  {
    if selectedDocument.Some? then selectedDocument
    else if selected != [] then Some(selected[0])
    else None
  }

  /** The request `sendMessage` builds from the selection and the trimmed text. */
  function BuildRequest(selectedDocument: Option<Document>, selected: seq<Document>, message: string): ChatRequest
  {
    if IsMultiDocument(selected) then MultiDocumentRequest(Ids(selected), message)
    else
      var current := CurrentDocument(selectedDocument, selected);
      SingleDocumentRequest(if current.Some? then Some(current.value.id) else None, message)
  }

  /** The ids a request addresses. */
  function RequestedIds(r: ChatRequest): seq<int>
  {
    match r
    case MultiDocumentRequest(ids, _) => ids
    case SingleDocumentRequest(id, _) => if id.Some? then [id.value] else []
  }

  /** Under the page's invariant the current document is the first selected one, and there is
      one exactly when something is selected. */
  lemma CurrentIsFirstSelected(selectedDocument: Option<Document>, selected: seq<Document>)
    requires SingleSelectionConsistent(selectedDocument, selected)
    ensures CurrentDocument(selectedDocument, selected).Some? <==> selected != []
    ensures selected != [] ==> CurrentDocument(selectedDocument, selected) == Some(selected[0])
    ensures !IsMultiDocument(selected) && selected != [] ==>
      selected == [CurrentDocument(selectedDocument, selected).value]
  {
  }

  /** Whatever the mode, a request carries the message and addresses every selected document,
      in selection order, and nothing else. Multi mode is used exactly when more than one
      document is selected. */
  lemma RequestAddressesSelection(selectedDocument: Option<Document>, selected: seq<Document>, message: string)
    requires SingleSelectionConsistent(selectedDocument, selected)
    ensures BuildRequest(selectedDocument, selected, message).message == message
    ensures BuildRequest(selectedDocument, selected, message).MultiDocumentRequest? <==> |selected| > 1
    ensures RequestedIds(BuildRequest(selectedDocument, selected, message)) == Ids(selected)
  {
    if |selected| == 1 {
      assert Ids(selected) == [selected[0].id];
    }
  }

  /** The chat pane mounted under the page `home`, whose selection it reads. */
  class ChatPane {
    const home: Home
    var messages: seq<ChatMessage>
    var inputMessage: string
    var loading: bool
    var loadingHistory: bool

    /** A freshly mounted pane: empty log and input, nothing in flight. */
    constructor (home: Home)
      ensures this.home == home
      ensures messages == [] && inputMessage == "" && !loading && !loadingHistory
    {
      this.home := home;
      messages := [];
      inputMessage := "";
      loading := false;
      loadingHistory := false;
    }

    function IsMulti(): bool
      reads home
    {
      IsMultiDocument(home.selectedDocuments)
    }

    function Current(): Option<Document>
      reads home
    {
      CurrentDocument(home.selectedDocument, home.selectedDocuments)
    }

    /** The input box's `onChange`. */
    method SetInput(text: string)
      modifies this`inputMessage
      ensures inputMessage == text
    {
      inputMessage := text;
    }

    /** `loadChatHistory`: with no current document nothing happens; otherwise a fetched history
        replaces the log and a failed fetch leaves it as it was. */
    method LoadChatHistory(history: Reply<seq<ChatMessage>>)
      modifies this`messages, this`loadingHistory
      ensures Current().Some? && history.Ok? ==> messages == history.value
      ensures !(Current().Some? && history.Ok?) ==> messages == old(messages)
      ensures Current().Some? ==> !loadingHistory
      ensures Current().None? ==> loadingHistory == old(loadingHistory)
    {
      if Current().None? {
        return;
      }
      loadingHistory := true;
      if history.Ok? {
        messages := history.value;
      }
      loadingHistory := false;
    }

    /** The effect run when the current document's id or the multi flag changes: a single
        target loads its history, anything else empties the log. */
    method TargetChanged(history: Reply<seq<ChatMessage>>)
      modifies this`messages, this`loadingHistory
      ensures Current().Some? && !IsMulti() && history.Ok? ==> messages == history.value
      ensures Current().Some? && !IsMulti() && history.Failed? ==> messages == old(messages)
      ensures !(Current().Some? && !IsMulti()) ==> messages == []
      ensures loadingHistory == (old(loadingHistory) && !(Current().Some? && !IsMulti()))
    {
      if Current().Some? && !IsMulti() {
        LoadChatHistory(history);
      } else {
        messages := [];
      }
    }

    /** The first half of `sendMessage`. A blank input or a send in flight makes it a no-op
        (no request). Otherwise the trimmed text is appended as a user message, the input is
        cleared, `loading` is raised, and the request to send is returned. */
    method BeginSend(timestamp: string) returns (request: Option<ChatRequest>)
      modifies this`messages, this`inputMessage, this`loading
      ensures (Trim(old(inputMessage)) == [] || old(loading)) ==>
        request == None && messages == old(messages)
        && inputMessage == old(inputMessage) && loading == old(loading)
      ensures !(Trim(old(inputMessage)) == [] || old(loading)) ==>
        && request == Some(BuildRequest(home.selectedDocument, home.selectedDocuments, Trim(old(inputMessage))))
        && messages == old(messages) + [ChatMessage(UserRole, Trim(old(inputMessage)), timestamp)]
        && inputMessage == "" && loading
    {
      var text := Trim(inputMessage);
      if text == [] || loading {
        return None;
      }
      inputMessage := "";
      loading := true;
      messages := messages + [ChatMessage(UserRole, text, timestamp)];
      request := Some(BuildRequest(home.selectedDocument, home.selectedDocuments, text));
    }

    /** The second half of `sendMessage`: a reply is appended as an assistant message; a
        failure drops the last entry of the log. `loading` is cleared either way. */
    method CompleteSend(reply: Reply<string>, timestamp: string)
      modifies this`messages, this`loading
      ensures reply.Ok? ==> messages == old(messages) + [ChatMessage(AssistantRole, reply.value, timestamp)]
      ensures reply.Failed? ==> messages == DropLast(old(messages))
      ensures !loading
    {
      if reply.Ok? {
        messages := messages + [ChatMessage(AssistantRole, reply.value, timestamp)];
      } else {
        messages := DropLast(messages);
      }
      loading := false;
    }

    /** `sendMessage` with nothing in between its two halves: on success the log gains the user
        message followed by the reply, on failure it is exactly what it was before the send. */
    method SendMessage(sentAt: string, reply: Reply<string>, repliedAt: string) returns (request: Option<ChatRequest>)
      modifies this`messages, this`inputMessage, this`loading
      ensures (Trim(old(inputMessage)) == [] || old(loading)) ==>
        request == None && messages == old(messages)
        && inputMessage == old(inputMessage) && loading == old(loading)
      ensures !(Trim(old(inputMessage)) == [] || old(loading)) ==>
        && request == Some(BuildRequest(home.selectedDocument, home.selectedDocuments, Trim(old(inputMessage))))
        && inputMessage == "" && !loading
      ensures !(Trim(old(inputMessage)) == [] || old(loading)) && reply.Ok? ==>
        messages == old(messages) + [ChatMessage(UserRole, Trim(old(inputMessage)), sentAt),
                                     ChatMessage(AssistantRole, reply.value, repliedAt)]
      ensures !(Trim(old(inputMessage)) == [] || old(loading)) && reply.Failed? ==>
        messages == old(messages)
    {
      request := BeginSend(sentAt);
      if request.Some? {
        ghost var staged := messages;
        CompleteSend(reply, repliedAt);
        if reply.Failed? {
          DropLastAppend(old(messages), staged[|staged| - 1]);
        }
      }
    }

    /** `clearChatHistory`: only a single-document session is cleared, and only after the
        backend confirms; otherwise the log is untouched. */
    method ClearChatHistory(cleared: bool)
      modifies this`messages
      ensures Current().Some? && !IsMulti() && cleared ==> messages == []
      ensures !(Current().Some? && !IsMulti() && cleared) ==> messages == old(messages)
    {
      if Current().None? || IsMulti() {
        return;
      }
      if cleared {
        messages := [];
      }
    }

    /** The pane's close button: the page's `onClearSelection`. */
    method ClearSelection()
      modifies home`selectedDocument, home`selectedDocuments
      ensures home.Valid()
      ensures home.selectedDocument == None && home.selectedDocuments == []
      ensures Current() == None && !IsMulti()
    {
      home.ClearSelection();
    }
  }

  /** A single-document session whose empty history was loaded on mount sends a message (say
      "hi") and the backend replies (say "hello"): the log is the user message followed by the
      reply. */
  method SendRoundTrip(d: Document, text: string, reply: string, sentAt: string, repliedAt: string)
    returns (log: seq<ChatMessage>)
    requires text != [] && !IsWhite(text[0]) && !IsWhite(text[|text| - 1])
    ensures log == [ChatMessage(UserRole, text, sentAt), ChatMessage(AssistantRole, reply, repliedAt)]
  {
    TrimKeepsWord(text);
    var home := new Home();
    home.HandleDocumentSelect(d);
    var pane := new ChatPane(home);
    pane.TargetChanged(Ok([]));
    pane.SetInput(text);
    var request := pane.SendMessage(sentAt, Ok(reply), repliedAt);
    log := pane.messages;
  }

  /** The same send with a failed backend call: the log is empty again. */
  method SendRollback(d: Document, text: string, sentAt: string, repliedAt: string)
    returns (log: seq<ChatMessage>)
    requires text != [] && !IsWhite(text[0]) && !IsWhite(text[|text| - 1])
    ensures log == []
  {
    TrimKeepsWord(text);
    var home := new Home();
    home.HandleDocumentSelect(d);
    var pane := new ChatPane(home);
    pane.TargetChanged(Ok([]));
    pane.SetInput(text);
    var request := pane.SendMessage(sentAt, Failed, repliedAt);
    log := pane.messages;
  }

  /** While a send is in flight a second one is refused, whatever its text. */
  method SendsSerialised(d: Document, text: string, next: string, sentAt: string)
    returns (first: Option<ChatRequest>, second: Option<ChatRequest>)
    requires text != [] && !IsWhite(text[0]) && !IsWhite(text[|text| - 1])
    ensures first == Some(SingleDocumentRequest(Some(d.id), text))
    ensures second == None
  {
    TrimKeepsWord(text);
    var home := new Home();
    home.HandleDocumentSelect(d);
    var pane := new ChatPane(home);
    pane.TargetChanged(Ok([]));
    pane.SetInput(text);
    first := pane.BeginSend(sentAt);
    pane.SetInput(next);
    second := pane.BeginSend(sentAt);
  }

  /** Clearing a single-document history twice succeeds both times and leaves the log empty. */
  method ClearTwice(d: Document, history: seq<ChatMessage>)
    returns (afterFirst: seq<ChatMessage>, afterSecond: seq<ChatMessage>)
    ensures afterFirst == [] && afterSecond == []
  {
    var home := new Home();
    home.HandleDocumentSelect(d);
    var pane := new ChatPane(home);
    pane.TargetChanged(Ok(history));
    pane.ClearChatHistory(true);
    afterFirst := pane.messages;
    pane.ClearChatHistory(true);
    afterSecond := pane.messages;
  }
}
