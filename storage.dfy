/**
 * `MemStorage`: the in-memory entity store. Three tables keyed by integer id
 * (users, documents, suggestions), each with its own auto-increment counter.
 */
module Storage {
  import opened Wrappers
  import opened Seqs
  import opened OrderedMap
  import opened JsString
  import opened Schema

  const DefaultTitle := "Untitled"
  const DefaultPosition := "right"

  /** The record `createDocument` stores: a falsy title becomes "Untitled", a falsy content "". */
  function NewDocument(id: int, insert: InsertDocument, now: Time): (d: Document)
    ensures d.id == id && d.userId == insert.userId && d.lastModified == now
    ensures d.title != ""
    ensures insert.title.Some? && insert.title.value != "" ==> d.title == insert.title.value
    ensures insert.title.None? || insert.title == Some("") ==> d.title == DefaultTitle
    ensures d.content == if insert.content.Some? then insert.content.value else ""
  {
    Document(id, Or(insert.title, DefaultTitle), Or(insert.content, ""), insert.userId, now)
  }

  /**
   * `{...existing, ...patch, lastModified: now}`: every key the patch carries
   * overwrites, every other key is kept, and the timestamp is always the clock's.
   */
  function MergeDocument(d: Document, patch: DocumentPatch, now: Time): (r: Document)
    ensures r.lastModified == now
    ensures r.id == if patch.id.Some? then patch.id.value else d.id
    ensures r.title == if patch.title.Some? then patch.title.value else d.title
    ensures r.content == if patch.content.Some? then patch.content.value else d.content
    ensures r.userId == if patch.userId.Some? then patch.userId.value else d.userId
  {
    Document(
      if patch.id.Some? then patch.id.value else d.id,
      if patch.title.Some? then patch.title.value else d.title,
      if patch.content.Some? then patch.content.value else d.content,
      if patch.userId.Some? then patch.userId.value else d.userId,
      now)
  }

  /**
   * The record `createSuggestion` stores: never generated, no generated
   * content, a falsy description becomes "" and a falsy position "right".
   */
  function NewSuggestion(id: int, insert: InsertSuggestion): (s: Suggestion)
    ensures s.id == id && s.documentId == insert.documentId && s.prompt == insert.prompt
    ensures !s.generated && s.generatedContent == ""
    ensures s.description == if insert.description.Some? then insert.description.value else ""
    ensures s.position != ""
    ensures insert.position.Some? && insert.position.value != "" ==> s.position == insert.position.value
    ensures insert.position.None? || insert.position == Some("") ==> s.position == DefaultPosition
  {
    Suggestion(id, insert.documentId, insert.prompt, Or(insert.description, ""),
               Or(insert.position, DefaultPosition), false, "")
  }

  /** `{...existing, ...patch}` */
  function MergeSuggestion(s: Suggestion, patch: SuggestionPatch): (r: Suggestion)
    ensures r.id == if patch.id.Some? then patch.id.value else s.id
    ensures r.documentId == if patch.documentId.Some? then patch.documentId.value else s.documentId
    ensures r.prompt == if patch.prompt.Some? then patch.prompt.value else s.prompt
    ensures r.description == if patch.description.Some? then patch.description.value else s.description
    ensures r.position == if patch.position.Some? then patch.position.value else s.position
    ensures r.generated == if patch.generated.Some? then patch.generated.value else s.generated
    ensures r.generatedContent == if patch.generatedContent.Some? then patch.generatedContent.value else s.generatedContent
  {
    Suggestion(
      if patch.id.Some? then patch.id.value else s.id,
      if patch.documentId.Some? then patch.documentId.value else s.documentId,
      if patch.prompt.Some? then patch.prompt.value else s.prompt,
      if patch.description.Some? then patch.description.value else s.description,
      if patch.position.Some? then patch.position.value else s.position,
      if patch.generated.Some? then patch.generated.value else s.generated,
      if patch.generatedContent.Some? then patch.generatedContent.value else s.generatedContent)
  }

  /** The predicate `suggestion.documentId === documentId`. */
  function OfDocument(documentId: int): Suggestion -> bool {
    (s: Suggestion) => s.documentId == documentId
  }

  /** `users.find(u => u.username === username)`: the first match in iteration order. */
  function FirstWithUsername(users: seq<User>, username: string): (r: Option<User>)
    ensures r.None? <==> forall i :: 0 <= i < |users| ==> users[i].username != username
    ensures r.Some? ==> exists i :: 0 <= i < |users| && users[i] == r.value && users[i].username == username
                                    && forall j :: 0 <= j < i ==> users[j].username != username
  {
    if users == [] then None
    else if users[0].username == username then Some(users[0])
    else
      var r := FirstWithUsername(users[1..], username);
      assert r.Some? ==> exists i :: 0 <= i < |users| && users[i] == r.value && users[i].username == username
                                    && forall j :: 0 <= j < i ==> users[j].username != username by {
        if r.Some? {
          var i :| 0 <= i < |users[1..]| && users[1..][i] == r.value && users[1..][i].username == username
                   && forall j :: 0 <= j < i ==> users[1..][j].username != username;
          assert users[i + 1] == r.value;
          assert forall j :: 0 <= j < i + 1 ==> users[j].username != username by {
            forall j | 0 <= j < i + 1 ensures users[j].username != username {
              if j > 0 { assert users[j] == users[1..][j - 1]; }
            }
          }
        }
      }
      r
  }

  /** The user `getUserByUsername` finds in a users table. */
  function UserByUsername(users: Table<User>, username: string): (r: Option<User>)
    ensures r.None? <==> forall k :: k in users.keys && k in users.entries ==> users.entries[k].username != username
    ensures r.Some? ==> r.value.username == username && exists k :: k in users.keys && users.Get(k) == r
  {
    var r := FirstWithUsername(users.Values(), username);
    assert r.None? ==> forall k :: k in users.keys && k in users.entries ==> users.entries[k].username != username by {
      forall k | k in users.keys && k in users.entries && r.None? ensures users.entries[k].username != username {
        ValuesOfComplete(users.keys, users.entries, k);
      }
    }
    if r.Some? then ValuesOfSound(users.keys, users.entries, r.value); r else r
  }

  /**
   * `getSuggestions(d)` lists exactly the stored suggestions of document `d`:
   * each listed one is stored, and each stored one of `d` is listed.
   */
  lemma SuggestionsOfDocument(t: Table<Suggestion>, documentId: int)
    requires t.Valid()
    ensures forall s :: s in Filter(t.Values(), OfDocument(documentId)) ==>
              s.documentId == documentId && exists k :: k in t.entries && t.entries[k] == s
    ensures forall k :: k in t.entries && t.entries[k].documentId == documentId ==>
              t.entries[k] in Filter(t.Values(), OfDocument(documentId))
  {
    var r := Filter(t.Values(), OfDocument(documentId));
    forall s | s in r
      ensures s.documentId == documentId && exists k :: k in t.entries && t.entries[k] == s
    {
      var i :| 0 <= i < |r| && r[i] == s;
      ValuesOfSound(t.keys, t.entries, s);
    }
    forall k | k in t.entries && t.entries[k].documentId == documentId
      ensures t.entries[k] in r
    {
      ValuesOfComplete(t.keys, t.entries, k);
      var j :| 0 <= j < |t.Values()| && t.Values()[j] == t.entries[k];
    }
  }

  /** A table whose keys were all issued by a counter that starts at 1: every key lies in [1, counter). */
  ghost predicate IssuedBelow<V>(t: Table<V>, counter: int) {
    && t.Valid()
    && 1 <= counter
    && forall i :: 0 <= i < |t.keys| ==> 1 <= t.keys[i] < counter
  }

  class MemStorage {
    var users: Table<User>
    var documents: Table<Document>
    var suggestions: Table<Suggestion>
    var userIdCounter: int
    var documentIdCounter: int
    var suggestionIdCounter: int

    /**
     * Every key was issued by its table's counter, so the next id is fresh;
     * user records carry their own key as id (nothing but `createUser` writes them).
     */
    ghost predicate Valid()
      reads this
    {
      && IssuedBelow(users, userIdCounter)
      && IssuedBelow(documents, documentIdCounter)
      && IssuedBelow(suggestions, suggestionIdCounter)
      && (forall k :: k in users.entries ==> users.entries[k].id == k)
    }

    /** Each stored suggestion's `id` is the key it is stored under. */
    ghost predicate SuggestionKeysMatchIds()
      reads this
    {
      forall k :: k in suggestions.entries ==> suggestions.entries[k].id == k
    }

    /** Every suggestion marked generated carries non-empty generated text. */
    ghost predicate GeneratedHaveContent()
      reads this
    {
      forall k :: k in suggestions.entries && suggestions.entries[k].generated ==> suggestions.entries[k].generatedContent != ""
    }

    /** The store starts with one untitled, empty, ownerless document, id 1. */
    constructor (now: Time)
      ensures Valid() && SuggestionKeysMatchIds()
      ensures users == Table([], map[]) && suggestions == Table([], map[])
      ensures documents == Table([1], map[1 := Document(1, DefaultTitle, "", None, now)])
      ensures userIdCounter == 1 && documentIdCounter == 2 && suggestionIdCounter == 1
    {
      users, documents, suggestions := Table([], map[]), Table([], map[]), Table([], map[]);
      userIdCounter, documentIdCounter, suggestionIdCounter := 1, 1, 1;
      new;
      var _ := CreateDocument(InsertDocument(Some(DefaultTitle), Some(""), None), now);
    }

    function GetUser(id: int): (r: Option<User>)
      reads this
      requires Valid()
      ensures r.Some? ==> r.value.id == id
    {
      users.Get(id)
    }

    function GetUserByUsername(username: string): (r: Option<User>)
      reads this
      ensures Valid() ==> (r.None? <==> forall k :: users.Has(k) ==> users.entries[k].username != username)
      ensures Valid() && r.Some? ==> r.value.username == username && users.Get(r.value.id) == r
    {
      UserByUsername(users, username)
    }

    method CreateUser(insert: InsertUser) returns (user: User)
      requires Valid()
      modifies this
      ensures Valid() && SuggestionKeysMatchIds() == old(SuggestionKeysMatchIds())
      ensures user == User(old(userIdCounter), insert.username, insert.password)
      ensures !old(users).Has(user.id) && users == old(users).Set(user.id, user)
      ensures userIdCounter == old(userIdCounter) + 1
      ensures documents == old(documents) && documentIdCounter == old(documentIdCounter)
      ensures suggestions == old(suggestions) && suggestionIdCounter == old(suggestionIdCounter)
    {
      var id := userIdCounter;
      userIdCounter := userIdCounter + 1;
      user := User(id, insert.username, insert.password);
      users := users.Set(id, user);
    }

    /** `Array.from(documents.values())`, in insertion order. */
    function GetAllDocuments(): (r: seq<Document>)
      reads this
      ensures forall d :: d in r ==> exists k :: k in documents.entries && documents.entries[k] == d
      ensures Valid() ==> forall k :: documents.Has(k) ==> documents.entries[k] in r
    {
      ValuesStored(documents);
      documents.Values()
    }

    /** `documents.get(id)`; a document found by id is among those `getAllDocuments` lists. */
    function GetDocument(id: int): (r: Option<Document>)
      reads this
      ensures r.Some? <==> documents.Has(id)
      ensures Valid() && r.Some? ==> r.value in GetAllDocuments()
    {
      documents.Get(id)
    }

    method CreateDocument(insert: InsertDocument, now: Time) returns (document: Document)
      requires Valid()
      modifies this
      ensures Valid() && SuggestionKeysMatchIds() == old(SuggestionKeysMatchIds())
      ensures document == NewDocument(old(documentIdCounter), insert, now)
      ensures !old(documents).Has(document.id) && documents == old(documents).Set(document.id, document)
      ensures documentIdCounter == old(documentIdCounter) + 1
      ensures users == old(users) && userIdCounter == old(userIdCounter)
      ensures suggestions == old(suggestions) && suggestionIdCounter == old(suggestionIdCounter)
    {
      var id := documentIdCounter;
      documentIdCounter := documentIdCounter + 1;
      document := NewDocument(id, insert, now);
      documents := documents.Set(id, document);
    }

    method UpdateDocument(id: int, patch: DocumentPatch, now: Time) returns (r: Option<Document>)
      requires Valid()
      modifies this
      ensures Valid() && SuggestionKeysMatchIds() == old(SuggestionKeysMatchIds())
      ensures !old(documents).Has(id) ==> r == None && documents == old(documents)
      ensures old(documents).Has(id) ==>
                && r == Some(MergeDocument(old(documents).entries[id], patch, now))
                && documents == old(documents).Set(id, r.value)
      ensures documentIdCounter == old(documentIdCounter)
      ensures users == old(users) && userIdCounter == old(userIdCounter)
      ensures suggestions == old(suggestions) && suggestionIdCounter == old(suggestionIdCounter)
    {
      if !documents.Has(id) {
        return None;
      }
      var updated := MergeDocument(documents.entries[id], patch, now);
      documents := documents.Set(id, updated);
      r := Some(updated);
    }

    /** The stored suggestions of one document, in insertion order. */
    function GetSuggestions(documentId: int): (r: seq<Suggestion>)
      reads this
      ensures forall i :: 0 <= i < |r| ==> r[i].documentId == documentId
    {
      Filter(suggestions.Values(), OfDocument(documentId))
    }

    /** `suggestions.get(id)`; a suggestion found by id is listed for its own document. */
    function GetSuggestion(id: int): (r: Option<Suggestion>)
      reads this
      ensures r.Some? <==> suggestions.Has(id)
      ensures Valid() && r.Some? ==> r.value in GetSuggestions(r.value.documentId)
    {
      var r := suggestions.Get(id);
      assert Valid() && r.Some? ==> r.value in GetSuggestions(r.value.documentId) by {
        if Valid() && r.Some? {
          ValuesOfComplete(suggestions.keys, suggestions.entries, id);
        }
      }
      r
    }

    method CreateSuggestion(insert: InsertSuggestion) returns (suggestion: Suggestion)
      requires Valid()
      modifies this
      ensures Valid() && (old(SuggestionKeysMatchIds()) ==> SuggestionKeysMatchIds())
      ensures suggestion == NewSuggestion(old(suggestionIdCounter), insert)
      ensures !old(suggestions).Has(suggestion.id) && suggestions == old(suggestions).Set(suggestion.id, suggestion)
      ensures suggestionIdCounter == old(suggestionIdCounter) + 1
      ensures users == old(users) && userIdCounter == old(userIdCounter)
      ensures documents == old(documents) && documentIdCounter == old(documentIdCounter)
    {
      var id := suggestionIdCounter;
      suggestionIdCounter := suggestionIdCounter + 1;
      suggestion := NewSuggestion(id, insert);
      suggestions := suggestions.Set(id, suggestion);
    }

    method UpdateSuggestion(id: int, patch: SuggestionPatch) returns (r: Option<Suggestion>)
      requires Valid()
      modifies this
      ensures Valid()
      ensures !old(suggestions).Has(id) ==> r == None && suggestions == old(suggestions)
      ensures old(suggestions).Has(id) ==>
                && r == Some(MergeSuggestion(old(suggestions).entries[id], patch))
                && suggestions == old(suggestions).Set(id, r.value)
      ensures patch.id.None? && old(SuggestionKeysMatchIds()) ==> SuggestionKeysMatchIds()
      ensures suggestionIdCounter == old(suggestionIdCounter)
      ensures users == old(users) && userIdCounter == old(userIdCounter)
      ensures documents == old(documents) && documentIdCounter == old(documentIdCounter)
    {
      if !suggestions.Has(id) {
        return None;
      }
      var updated := MergeSuggestion(suggestions.entries[id], patch);
      suggestions := suggestions.Set(id, updated);
      r := Some(updated);
    }

    /** `suggestions.delete(id)`: true iff the id was present. The counter is untouched. */
    method DeleteSuggestion(id: int) returns (removed: bool)
      requires Valid()
      modifies this
      ensures Valid() && (old(SuggestionKeysMatchIds()) ==> SuggestionKeysMatchIds())
      ensures removed == old(suggestions).Has(id)
      ensures suggestions == old(suggestions).Delete(id)
      ensures suggestionIdCounter == old(suggestionIdCounter)
      ensures users == old(users) && userIdCounter == old(userIdCounter)
      ensures documents == old(documents) && documentIdCounter == old(documentIdCounter)
    {
      removed := suggestions.Has(id);
      suggestions := suggestions.Delete(id);
    }
  }
}
