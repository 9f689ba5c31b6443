/**
 * The three record kinds and the shapes of their insert and partial-update
 * payloads. An absent optional key is `None`.
 */
module Schema {
  import opened Wrappers

  /** A point in time, in milliseconds, as read from the clock. */
  type Time = int

  datatype User = User(id: int, username: string, password: string)

  datatype InsertUser = InsertUser(username: string, password: string)

  /** `userId` is `None` for an ownerless document (`null`). */
  datatype Document = Document(id: int, title: string, content: string, userId: Option<int>, lastModified: Time)

  datatype InsertDocument = InsertDocument(title: Option<string>, content: Option<string>, userId: Option<int>)

  /**
   * `Partial<Document>`: any subset of a document's keys. `userId` is doubly
   * optional: absent, or present with an id or `null`.
   */
  datatype DocumentPatch = DocumentPatch(
    id: Option<int>,
    title: Option<string>,
    content: Option<string>,
    userId: Option<Option<int>>,
    lastModified: Option<Time>)

  datatype Suggestion = Suggestion(
    id: int,
    documentId: int,
    prompt: string,
    description: string,
    position: string,
    generated: bool,
    generatedContent: string)

  datatype InsertSuggestion = InsertSuggestion(
    documentId: int,
    prompt: string,
    description: Option<string>,
    position: Option<string>)

  /** `Partial<Suggestion>` */
  datatype SuggestionPatch = SuggestionPatch(
    id: Option<int>,
    documentId: Option<int>,
    prompt: Option<string>,
    description: Option<string>,
    position: Option<string>,
    generated: Option<bool>,
    generatedContent: Option<string>)

  /** A patch that sets only `content`, as the editor sends. */
  function ContentPatch(content: string): DocumentPatch {
    DocumentPatch(None, None, Some(content), None, None)
  }

  /** A patch that sets only `title`. */
  function TitlePatch(title: string): DocumentPatch {
    DocumentPatch(None, Some(title), None, None, None)
  }
}
