/** Records exchanged with the backend, and the outcome of a backend call. */
module Types {

  /** A document as the registry lists it; `id` is assigned by the server. */
  datatype Document = Document(
    id: int,
    name: string,
    fileType: string,
    wordCount: int,
    uploadDate: string,
    lastAccessed: Option<string>,
    contentLength: Option<int>)

  /** One entry of a chat log; `role` is "user" or "assistant" for entries the client writes. */
  datatype ChatMessage = ChatMessage(role: string, content: string, timestamp: string)

  const UserRole: string := "user"
  const AssistantRole: string := "assistant"

  /** Aggregate counts reported by the statistics endpoint. */
  datatype Stats = Stats(
    totalDocuments: int,
    totalMessages: int,
    totalContentSize: int,
    mostRecentDocument: Option<string>,
    mostRecentDate: Option<string>)

  /** A file handed over by the drop zone: its MIME type and its size in bytes. */
  datatype DroppedFile = DroppedFile(name: string, mimeType: string, size: nat)

  datatype Option<T> = None | Some(value: T)

  /** The settled outcome of one backend request: its payload, or a rejection. */
  datatype Reply<T> = Ok(value: T) | Failed
}
