# Session state of the FinDoc document-chat client

This project models, in Dafny, the state the FinDoc browser client keeps between user actions
and backend replies, and proves properties of it. The client lets a user upload documents, pick
one or several of them, and chat with an AI service about the picked set. Four pieces of state
make up the model.

- **The page store** (`Page.Home`). It holds the registry snapshot (`documents`, `stats`), the
  selection (`selectedDocument`, `selectedDocuments`), the `loading` flag and the `activeTab`.
  Its handlers reload, upload, delete, select one, select many, start a multi-document chat,
  clear the selection and switch tabs. Every handler keeps the invariant `Valid()`: if a single
  document is selected, the selection list is exactly that document.
- **The document list** (`DocumentList`). It holds the search filter, the file-type badge
  mappings and the multi-select controller (`DocumentListPane`, which owns `multiSelectMode` and
  `searchTerm`). The toggle rule (`Selection.Toggle`) removes every entry with the clicked id if
  one is selected, and appends the document otherwise.
- **The chat pane** (`ChatInterface`). It derives the chat target from the selection. It owns
  the message log, the input and the `loading` and `loadingHistory` flags. A send appends the
  user message at once. On a reply it then appends the assistant message; on a failure it drops
  the last entry.
- **The upload pane** (`DocumentUpload`). It checks the first dropped file against a MIME
  whitelist and a 10 MiB limit before handing it to the page, and keeps the `uploading` flag.

Backend calls are not performed. Each one is a parameter of the step that awaits it: a
`Types.Reply<T>` (`Ok(payload)` or `Failed`), or a `bool` for calls whose reply carries nothing
the client uses. Timestamps (`new Date().toISOString()`) are string parameters. The `confirm()`
dialog before a delete is a `bool` parameter. Each pane holds a reference to the page (`home`),
and the callbacks the page passes it (`onMultiSelect`, `onDocumentSelect`, `onDocumentDelete`,
`onStartMultiChat`, `onUpload`, `onClearSelection`) are calls of `home`'s methods.

`sendMessage` awaits the backend between its two halves. It is modelled as `BeginSend` (guards,
optimistic append, `loading` raised, request built) and `CompleteSend` (reply appended or last
entry dropped, `loading` cleared). `SendMessage` composes the two with nothing in between. Likewise `onDrop` is
`BeginDrop` (checks, `uploading` raised), the page's upload handler, then `FinishUpload`.

## Model

| member | source | states |
|---|---|---|
| `Seqs.DropLast` | frontend/components/ChatInterface.tsx:99 | `slice(0, -1)`: for a non-empty log the result plus the old last entry is the old log; an empty log stays empty |
| `Seqs.DropLastAppend` | frontend/components/ChatInterface.tsx:73-99 | dropping the last entry undoes appending one, which is why a failed send restores the log |
| `Text.TrimStart` | frontend/components/ChatInterface.tsx:61-63 | the result is a suffix of the input, everything removed is white space, and it does not start with white space |
| `Text.TrimEnd` | frontend/components/ChatInterface.tsx:61-63 | the result is a prefix of the input, everything removed is white space, and it does not end with white space |
| `Text.TrimSlice` | frontend/components/ChatInterface.tsx:63 | the trimmed message is one contiguous slice of the input with only white space outside it |
| `Text.TrimEdges` | frontend/components/ChatInterface.tsx:63 | a non-empty trimmed message neither starts nor ends with white space |
| `Text.TrimEmptyIffBlank` | frontend/components/ChatInterface.tsx:61 | the blank-input guard fires exactly when every character of the input is white space |
| `Text.TrimIdempotent` | frontend/components/ChatInterface.tsx:63 | trimming the already trimmed message changes nothing |
| `Text.TrimKeepsWord` | frontend/components/ChatInterface.tsx:63 | a text that neither starts nor ends with white space is sent as it is |
| `Text.LowerFacts` | frontend/components/DocumentList.tsx:40 | lower-casing keeps the length, leaves no upper-case letter and is idempotent |
| `Text.IncludesIffOccurs` | frontend/components/DocumentList.tsx:40 | `includes` holds exactly when the term occurs at some offset of the name |
| `Text.IncludesEmpty` | frontend/components/DocumentList.tsx:40 | every name includes the empty term |
| `Selection.RemoveId` | frontend/app/page.tsx:63 | the filtered selection is an order-preserving subsequence that keeps every entry with another id, with each copy it had, and none with the removed id |
| `Selection.RemoveIdHasId` | frontend/components/DocumentList.tsx:51-56 | after removal an id is present exactly when it was present and differs from the removed id |
| `Selection.RemoveIdAbsent` | frontend/app/page.tsx:63 | removing an id that is not selected leaves the selection unchanged |
| `Selection.RemoveIdAppend` | frontend/components/DocumentList.tsx:54-59 | removal distributes over concatenation |
| `Selection.RemoveIdDistinct` | frontend/components/DocumentList.tsx:54 | removal keeps the selected ids distinct |
| `Selection.ToggleFlips` | frontend/components/DocumentList.tsx:50-62 | toggling flips the membership of the clicked id and leaves every other id's membership unchanged |
| `Selection.ToggleKeepsDistinct` | frontend/components/DocumentList.tsx:51-61 | if the ids were distinct before a toggle, they are distinct after it |
| `Selection.ToggleTwiceAbsent` | frontend/components/DocumentList.tsx:54-59 | toggling an unselected document appends it at the end, and toggling it again gives back the original selection |
| `Selection.ToggleScenario` | frontend/components/DocumentList.tsx:50-62 | starting from nothing, toggling d1, d2, d1 leaves exactly `[d2]` |
| `Page.Home.constructor` | frontend/app/page.tsx:14-19 | the page mounts with no documents, no selection, no stats, loading, on the documents tab |
| `Page.Home.LoadData` | frontend/app/page.tsx:25-40 | the snapshot is replaced wholesale only if both fetches succeed, otherwise kept; loading ends cleared; selection and tab untouched |
| `Page.Home.HandleDocumentUpload` | frontend/app/page.tsx:42-51 | a successful upload reloads; a failed one changes nothing |
| `Page.Home.HandleDocumentDelete` | frontend/app/page.tsx:53-68 | after a successful delete the selection list is the old one with the id filtered out, and no entry has that id. The single selection becomes null exactly when it had that id, and is otherwise kept. A failed delete leaves documents, stats and selection unchanged |
| `Page.Home.HandleDocumentSelect` | frontend/app/page.tsx:70-74 | the document becomes the single selection, the list is exactly `[d]`, and the chat tab opens |
| `Page.Home.HandleMultiDocumentSelect` | frontend/app/page.tsx:76-81 | the list replaces the selection verbatim, the single selection is cleared, and the tab does not change |
| `Page.Home.HandleStartMultiChat` | frontend/app/page.tsx:83-85 | only the tab changes, to chat |
| `Page.Home.ClearSelection` | frontend/app/page.tsx:192-195 | nothing stays selected; the tab and the registry are untouched |
| `Page.Home.SetActiveTab` | frontend/app/page.tsx:141 | only the tab changes |
| `DocumentList.FilterByName` | frontend/components/DocumentList.tsx:39-41 | the shown documents are an order-preserving subsequence of the registry holding exactly those whose lower-cased name includes the lower-cased term, each as often as in the registry |
| `DocumentList.FilterEmptyTermKeepsAll` | frontend/components/DocumentList.tsx:39-41 | an empty search term shows every document in order |
| `DocumentList.FilterIdempotent` | frontend/components/DocumentList.tsx:39-41 | filtering the shown list again by the same term changes nothing |
| `DocumentList.SearchIgnoresTermCase` | frontend/components/DocumentList.tsx:40 | lower-casing the term first does not change what is shown |
| `DocumentList.FilterSameMatches` | frontend/components/DocumentList.tsx:39-41 | two terms that match the same documents show the same list |
| `DocumentList.FileTypeBadges` | frontend/components/DocumentList.tsx:106-130 | each badge class is given exactly to its lower-cased extension (pdf, docx, txt), every other type gets the default class, and case is ignored |
| `DocumentList.DocumentListPane.constructor` | frontend/components/DocumentList.tsx:26-27 | the list mounts with an empty search term and multi-select off |
| `DocumentList.DocumentListPane.SetSearchTerm` | frontend/components/DocumentList.tsx:202 | typing sets the search term |
| `DocumentList.DocumentListPane.ClearSearch` | frontend/components/DocumentList.tsx:207 | clearing the search shows every document again |
| `DocumentList.DocumentListPane.HandleMultiSelectToggle` | frontend/components/DocumentList.tsx:43-67 | in multi-select mode a present id is removed entirely, keeping the order of the rest, and an absent document is appended. Distinct ids stay distinct. Outside the mode the click selects that one document and opens chat. The registry and the page's `loading` flag are untouched |
| `DocumentList.DocumentListPane.HandleStartMultiSelect` | frontend/components/DocumentList.tsx:69-73 | mode on, selection empty; tab, registry and `loading` unchanged |
| `DocumentList.DocumentListPane.HandleCancelMultiSelect` | frontend/components/DocumentList.tsx:75-78 | mode off, selection empty; tab, registry and `loading` unchanged |
| `DocumentList.DocumentListPane.HandleStartChat` | frontend/components/DocumentList.tsx:80-90 | a no-op on an empty selection. Otherwise the list is kept (the single selection is cleared), the mode goes off, and the chat tab opens when the callback is wired. The registry and `loading` are untouched in both cases |
| `DocumentList.DocumentListPane.StartChatWith` | frontend/components/DocumentList.tsx:313-316 | a card's Start Chat button selects that document alone and opens chat; the registry and `loading` are untouched |
| `DocumentList.DocumentListPane.DeleteClicked` | frontend/components/DocumentList.tsx:324-329 | the delete is requested only when confirmed, and a successful one reloads the registry (replaced only when both fetches succeed), ends with `loading` false and prunes the id from the selection as the page's handler does. An unconfirmed or failed delete changes nothing, `loading` included |
| `DocumentList.MultiSelectScenario` | frontend/components/DocumentList.tsx:43-90 | entering multi-select and clicking d1, d2, d1 leaves `[d2]`, and Start Chat opens chat with it; Start Chat on an empty selection changes nothing |
| `ChatInterface.CurrentIsFirstSelected` | frontend/components/ChatInterface.tsx:26-27 | under the page invariant there is a current document exactly when something is selected, and it is the first selected one |
| `ChatInterface.RequestAddressesSelection` | frontend/components/ChatInterface.tsx:76-84 | the request carries the message, uses the multi form exactly when more than one document is selected, and addresses all selected ids in selection order |
| `ChatInterface.ChatPane.constructor` | frontend/components/ChatInterface.tsx:20-23 | the pane mounts with an empty log and input and nothing in flight |
| `ChatInterface.ChatPane.SetInput` | frontend/components/ChatInterface.tsx:287 | typing sets the input |
| `ChatInterface.ChatPane.LoadChatHistory` | frontend/components/ChatInterface.tsx:45-58 | with a current document a fetched history replaces the log and a failed fetch keeps it; without one nothing happens |
| `ChatInterface.ChatPane.TargetChanged` | frontend/components/ChatInterface.tsx:29-35 | a single target loads its history; no target or a multi target empties the log |
| `ChatInterface.ChatPane.BeginSend` | frontend/components/ChatInterface.tsx:60-84 | a blank input or a send in flight is a no-op. Otherwise the trimmed text is appended as a user message, the input is cleared, `loading` is raised, and the request for the current selection is returned |
| `ChatInterface.ChatPane.CompleteSend` | frontend/components/ChatInterface.tsx:86-102 | a reply is appended as an assistant message, a failure drops the last entry, and `loading` is cleared either way |
| `ChatInterface.ChatPane.SendMessage` | frontend/components/ChatInterface.tsx:60-103 | a completed send leaves the log as the old log plus the user message and the reply, or exactly the old log on failure; `loading` ends false |
| `ChatInterface.ChatPane.ClearChatHistory` | frontend/components/ChatInterface.tsx:105-116 | only a single-document session is cleared, and only on success; otherwise the log is unchanged |
| `ChatInterface.ChatPane.ClearSelection` | frontend/components/ChatInterface.tsx:189 | the close button empties the page's selection, leaving no current document |
| `ChatInterface.SendRoundTrip` | frontend/components/ChatInterface.tsx:60-103 | a single-document session, emptied by the effect that runs when the pane mounts, that sends a message (such as "hi") and gets a reply (such as "hello") has the log `[user message, assistant reply]`, in that order |
| `ChatInterface.SendRollback` | frontend/components/ChatInterface.tsx:95-99 | the same send with a failed backend call leaves the log empty again |
| `ChatInterface.SendsSerialised` | frontend/components/ChatInterface.tsx:61-65 | the first send issues a single-document request for the selected id; while it is in flight a second send is refused, whatever its text |
| `ChatInterface.ClearTwice` | frontend/components/ChatInterface.tsx:105-116 | clearing a single-document history twice leaves the log empty both times |
| `DocumentUpload.OnlyFirstFileCounts` | frontend/components/DocumentUpload.tsx:16-17 | an empty drop decides `NoFile`; otherwise only the first file is looked at |
| `DocumentUpload.AcceptIff` | frontend/components/DocumentUpload.tsx:19-35 | a drop is accepted exactly when the first file's type is whitelisted and its size is at most 10485760 bytes; a wrong type is reported before any size problem |
| `DocumentUpload.SizeBoundary` | frontend/components/DocumentUpload.tsx:32-35 | a file of exactly 10485760 bytes passes the size check, one byte more fails it |
| `DocumentUpload.UploadPane.constructor` | frontend/components/DocumentUpload.tsx:13 | the pane mounts with `uploading` false |
| `DocumentUpload.UploadPane.BeginDrop` | frontend/components/DocumentUpload.tsx:15-38 | the decision is the check's; `uploading` is raised exactly for an accepted file |
| `DocumentUpload.UploadPane.FinishUpload` | frontend/components/DocumentUpload.tsx:42-44 | `uploading` is false once the upload settles |
| `DocumentUpload.UploadPane.OnDrop` | frontend/components/DocumentUpload.tsx:15-45 | `onUpload` receives the first file exactly when the drop is accepted. A rejected drop leaves the page unchanged. After an accepted drop a successful upload reloads the registry and ends with the page's `loading` false, a failed one keeps the registry and `loading`, and `uploading` ends false |

## Left out

- The HTTP client in frontend/lib/api.ts is not part of this model. Every call is an outcome passed into the step that awaits it, so request URLs, the history `limit` of 50 and response parsing are absent.
- frontend/components/StatsCard.tsx is not part of this model. Its byte formatting is floating-point arithmetic and the rest is rendering.
- Rendering is left out: JSX, CSS classes in templates, `getFileTypeIcon` (it returns an element), toasts, console logging, `scrollIntoView` and date formatting.
- The drop zone's own `accept` and `multiple: false` settings filter files before `onDrop` sees them. They are widget configuration and are left out; `CheckDrop` is applied to whatever list arrives.
- Asynchrony and interleaving are not explored. Each async handler is one step, except `sendMessage` and `onDrop`, which are two steps each. `CompleteSend` drops the last entry of whatever the log is at that moment. The model does not explore what else might run between the two halves, such as a target change.
- History responses are applied whatever the current target is when they arrive, and a failed history fetch leaves the log as it was. The model follows the code in both; it has no stale-response check.
- The selection is not pruned against a reloaded registry; only a successful delete removes an id. The model follows the code here too.
- React remounting is not modelled. A pane's local state lives only while the pane is shown: switching tabs, or the page's loading screen during a reload, discards it. Each pane's constructor is one fresh mount, and the model does not compose remounts.
- `Page.Home.LoadData`: the `loading` flag is raised and cleared within one step, so its `true` phase is not observable in the contract.
- `Text.Lower` lower-cases ASCII letters only; Unicode case mapping is not modelled.
- File sizes and ids are unbounded integers. JavaScript numbers are doubles, and the model does not bound them.
