/**
 * The HTTP handlers as transactions over the store: parse the `:id` segment
 * with `parseInt` (400 on `NaN`), look the entities up (404 when missing),
 * then act and answer.
 */
module Routes {
  import opened Wrappers
  import opened Seqs
  import opened OrderedMap
  import opened Schema
  import opened Storage
  import opened JsNumber
  import Gateway

  datatype Response<T> = Success(status: int, body: T) | Failure(status: int, message: string)

  const InvalidDocumentId := "Invalid document ID"
  const DocumentNotFound := "Document not found"
  const InvalidDocumentData := "Invalid document data"
  const InvalidSuggestionId := "Invalid suggestion ID"
  const SuggestionNotFound := "Suggestion not found"
  const FailedToGenerateContent := "Failed to generate content"

  /** The insert payload built from one generated proposal. */
  function InsertFor(p: Gateway.Proposal, documentId: int): InsertSuggestion {
    InsertSuggestion(documentId, p.prompt, p.description, p.position)
  }

  /** The ids carried by some suggestion records. */
  ghost function IdsOf(ss: seq<Suggestion>): set<int> {
    set s | s in ss :: s.id
  }

  lemma IdsOfPrefix(ss: seq<Suggestion>, i: int)
    requires 0 <= i < |ss|
    ensures IdsOf(ss[..i + 1]) == IdsOf(ss[..i]) + {ss[i].id}
  {
    assert ss[..i + 1] == ss[..i] + [ss[i]];
  }

  /** The predicate `suggestion.documentId !== documentId`. */
  function OfOtherDocument(documentId: int): Suggestion -> bool {
    (s: Suggestion) => s.documentId != documentId
  }

  /** GET /api/documents */
  method ListDocuments(store: MemStorage) returns (r: Response<seq<Document>>)
    ensures r == Success(200, store.documents.Values())
  {
    r := Success(200, store.GetAllDocuments());
  }

  /** GET /api/documents/:id */
  method GetDocument(store: MemStorage, rawId: string) returns (r: Response<Document>)
    ensures ParseInt(rawId).None? <==> r == Failure(400, InvalidDocumentId)
    ensures ParseInt(rawId).Some? ==>
              r == if store.documents.Has(ParseInt(rawId).value)
                   then Success(200, store.documents.entries[ParseInt(rawId).value])
                   else Failure(404, DocumentNotFound)
  {
    var parsed := ParseInt(rawId);
    if parsed.None? {
      return Failure(400, InvalidDocumentId);
    }
    var document := store.GetDocument(parsed.value);
    if document.None? {
      return Failure(404, DocumentNotFound);
    }
    r := Success(200, document.value);
  }

  /** POST /api/documents; `body` is what schema validation produced, `None` when it rejected the request. */
  method CreateDocument(store: MemStorage, body: Option<InsertDocument>, now: Time) returns (r: Response<Document>)
    requires store.Valid()
    modifies store
    ensures store.Valid()
    ensures body.None? ==> r == Failure(400, InvalidDocumentData) && unchanged(store)
    ensures body.Some? ==>
              && r == Success(201, NewDocument(old(store.documentIdCounter), body.value, now))
              && store.documents == old(store.documents).Set(r.body.id, r.body)
              && store.documentIdCounter == old(store.documentIdCounter) + 1
              && store.users == old(store.users) && store.userIdCounter == old(store.userIdCounter)
              && store.suggestions == old(store.suggestions) && store.suggestionIdCounter == old(store.suggestionIdCounter)
  {
    if body.None? {
      return Failure(400, InvalidDocumentData);
    }
    var document := store.CreateDocument(body.value, now);
    r := Success(201, document);
  }

  /** PATCH /api/documents/:id; the body is merged unvalidated. Existence is checked before the update. */
  method PatchDocument(store: MemStorage, rawId: string, patch: DocumentPatch, now: Time) returns (r: Response<Document>)
    requires store.Valid()
    modifies store
    ensures store.Valid()
    ensures ParseInt(rawId).None? ==> r == Failure(400, InvalidDocumentId) && unchanged(store)
    ensures ParseInt(rawId).Some? && !old(store.documents).Has(ParseInt(rawId).value) ==>
              r == Failure(404, DocumentNotFound) && unchanged(store)
    ensures ParseInt(rawId).Some? && old(store.documents).Has(ParseInt(rawId).value) ==>
              var id := ParseInt(rawId).value;
              && r == Success(200, MergeDocument(old(store.documents).entries[id], patch, now))
              && store.documents == old(store.documents).Set(id, r.body)
              && store.documentIdCounter == old(store.documentIdCounter)
              && store.users == old(store.users) && store.userIdCounter == old(store.userIdCounter)
              && store.suggestions == old(store.suggestions) && store.suggestionIdCounter == old(store.suggestionIdCounter)
  {
    var parsed := ParseInt(rawId);
    if parsed.None? {
      return Failure(400, InvalidDocumentId);
    }
    var document := store.GetDocument(parsed.value);
    if document.None? {
      return Failure(404, DocumentNotFound);
    }
    var updated := store.UpdateDocument(parsed.value, patch, now);
    // The document exists, so this update never reports it absent.
    r := Success(200, updated.value);
  }

  /** GET /api/documents/:id/suggestions */
  method ListSuggestions(store: MemStorage, rawId: string) returns (r: Response<seq<Suggestion>>)
    ensures ParseInt(rawId).None? <==> r == Failure(400, InvalidDocumentId)
    ensures ParseInt(rawId).Some? ==>
              r == if store.documents.Has(ParseInt(rawId).value)
                   then Success(200, Filter(store.suggestions.Values(), OfDocument(ParseInt(rawId).value)))
                   else Failure(404, DocumentNotFound)
  {
    var parsed := ParseInt(rawId);
    if parsed.None? {
      return Failure(400, InvalidDocumentId);
    }
    var document := store.GetDocument(parsed.value);
    if document.None? {
      return Failure(404, DocumentNotFound);
    }
    r := Success(200, store.GetSuggestions(parsed.value));
  }

  /**
   * When stored suggestions carry their keys as ids, the ids of a document's
   * suggestions are exactly the keys whose records belong to that document.
   */
  lemma DocumentSuggestionIds(t: Table<Suggestion>, documentId: int)
    requires t.Valid()
    requires forall k :: k in t.entries ==> t.entries[k].id == k
    ensures forall i :: 0 <= i < |t.keys| ==>
              t.keys[i] in t.entries
              && (t.keys[i] in IdsOf(Filter(t.Values(), OfDocument(documentId)))
                  <==> !OfOtherDocument(documentId)(t.entries[t.keys[i]]))
  {
    var existing := Filter(t.Values(), OfDocument(documentId));
    forall i | 0 <= i < |t.keys|
      ensures t.keys[i] in IdsOf(existing) <==> t.entries[t.keys[i]].documentId == documentId
    {
      var k := t.keys[i];
      if k in IdsOf(existing) {
        var x :| x in existing && x.id == k;
        var j :| 0 <= j < |existing| && existing[j] == x;
        ValuesOfSound(t.keys, t.entries, x);
        var k' :| k' in t.keys && k' in t.entries && t.entries[k'] == x;
        assert k' == k;
      }
      if t.entries[k].documentId == documentId {
        ValuesOfComplete(t.keys, t.entries, k);
        var j :| 0 <= j < |t.Values()| && t.Values()[j] == t.entries[k];
        assert t.entries[k] in existing;
      }
    }
  }

  /**
   * Deleting every listed suggestion of a document leaves exactly the other
   * documents' suggestions, in their order.
   */
  lemma DeleteDocumentSuggestions(t: Table<Suggestion>, documentId: int)
    requires t.Valid()
    requires forall k :: k in t.entries ==> t.entries[k].id == k
    ensures var rest := t.DeleteAll(IdsOf(Filter(t.Values(), OfDocument(documentId)))).Values();
      && Filter(rest, OfDocument(documentId)) == []
      && forall d :: d != documentId ==> Filter(rest, OfDocument(d)) == Filter(t.Values(), OfDocument(d))
  {
    var gone := IdsOf(Filter(t.Values(), OfDocument(documentId)));
    DocumentSuggestionIds(t, documentId);
    ValuesOfDeleteWhere(t.keys, t.entries, gone, OfOtherDocument(documentId));
    var rest := t.DeleteAll(gone).Values();
    assert rest == Filter(t.Values(), OfOtherDocument(documentId));
    FilterKeepsNone(rest, OfDocument(documentId));
    forall d | d != documentId
      ensures Filter(rest, OfDocument(d)) == Filter(t.Values(), OfDocument(d))
    {
      FilterFilter(t.Values(), OfOtherDocument(documentId), OfDocument(d), OfDocument(d));
    }
  }

  /** Appending a batch of one document's suggestions extends that document's list and no other. */
  lemma AppendBatch(rest: seq<Suggestion>, batch: seq<Suggestion>, documentId: int)
    requires forall i :: 0 <= i < |batch| ==> batch[i].documentId == documentId
    ensures Filter(rest + batch, OfDocument(documentId)) == Filter(rest, OfDocument(documentId)) + batch
    ensures forall d :: d != documentId ==> Filter(rest + batch, OfDocument(d)) == Filter(rest, OfDocument(d))
  {
    FilterAppend(rest, batch, OfDocument(documentId));
    FilterKeepsAll(batch, OfDocument(documentId));
    forall d | d != documentId
      ensures Filter(rest + batch, OfDocument(d)) == Filter(rest, OfDocument(d))
    {
      FilterAppend(rest, batch, OfDocument(d));
      FilterKeepsNone(batch, OfDocument(d));
    }
  }

  /** Deletes, one by one, the suggestions currently listed for a document. */
  method ClearSuggestions(store: MemStorage, documentId: int)
    requires store.Valid()
    modifies store
    ensures store.Valid()
    ensures store.suggestions == old(store.suggestions).DeleteAll(IdsOf(old(store.GetSuggestions(documentId))))
    ensures old(store.SuggestionKeysMatchIds()) ==> store.SuggestionKeysMatchIds()
    ensures old(store.GeneratedHaveContent()) ==> store.GeneratedHaveContent()
    ensures store.suggestionIdCounter == old(store.suggestionIdCounter)
    ensures store.users == old(store.users) && store.userIdCounter == old(store.userIdCounter)
    ensures store.documents == old(store.documents) && store.documentIdCounter == old(store.documentIdCounter)
  {
    var existing := store.GetSuggestions(documentId);
    ghost var before := store.suggestions;
    ghost var matched := store.SuggestionKeysMatchIds();
    ghost var complete := store.GeneratedHaveContent();
    ghost var gone: set<int> := {};
    DeleteNothing(before);
    var i := 0;
    while i < |existing|
      invariant 0 <= i <= |existing|
      invariant store.Valid()
      invariant gone == IdsOf(existing[..i])
      invariant store.suggestions == before.DeleteAll(gone)
      invariant matched ==> store.SuggestionKeysMatchIds()
      invariant complete ==> store.GeneratedHaveContent()
      invariant store.suggestionIdCounter == old(store.suggestionIdCounter)
      invariant store.users == old(store.users) && store.userIdCounter == old(store.userIdCounter)
      invariant store.documents == old(store.documents) && store.documentIdCounter == old(store.documentIdCounter)
    {
      var _ := store.DeleteSuggestion(existing[i].id);
      DeleteAllTwice(before, gone, {existing[i].id});
      IdsOfPrefix(existing, i);
      gone := gone + {existing[i].id};
      i := i + 1;
    }
    assert existing[..i] == existing;
  }

  /** Creates one suggestion per proposal, in order, and returns the stored records. */
  method SaveBatch(store: MemStorage, documentId: int, proposals: seq<Gateway.Proposal>) returns (saved: seq<Suggestion>)
    requires store.Valid()
    modifies store
    ensures store.Valid()
    ensures |saved| == |proposals|
    ensures forall k :: 0 <= k < |saved| ==>
              saved[k] == NewSuggestion(old(store.suggestionIdCounter) + k, InsertFor(proposals[k], documentId))
    ensures store.suggestions.Values() == old(store.suggestions.Values()) + saved
    ensures forall k :: k in store.suggestions.entries ==> k in old(store.suggestions.entries) || k >= old(store.suggestionIdCounter)
    ensures store.suggestionIdCounter == old(store.suggestionIdCounter) + |proposals|
    ensures old(store.SuggestionKeysMatchIds()) ==> store.SuggestionKeysMatchIds()
    ensures old(store.GeneratedHaveContent()) ==> store.GeneratedHaveContent()
    ensures store.users == old(store.users) && store.userIdCounter == old(store.userIdCounter)
    ensures store.documents == old(store.documents) && store.documentIdCounter == old(store.documentIdCounter)
  {
    ghost var c0 := store.suggestionIdCounter;
    ghost var start := store.suggestions;
    ghost var matched := store.SuggestionKeysMatchIds();
    ghost var complete := store.GeneratedHaveContent();
    saved := [];
    var j := 0;
    while j < |proposals|
      invariant 0 <= j <= |proposals|
      invariant store.Valid()
      invariant |saved| == j && store.suggestionIdCounter == c0 + j
      invariant forall k :: 0 <= k < j ==> saved[k] == NewSuggestion(c0 + k, InsertFor(proposals[k], documentId))
      invariant store.suggestions.Values() == start.Values() + saved
      invariant forall k :: k in store.suggestions.entries ==> k in start.entries || k >= c0
      invariant matched ==> store.SuggestionKeysMatchIds()
      invariant complete ==> store.GeneratedHaveContent()
      invariant store.users == old(store.users) && store.userIdCounter == old(store.userIdCounter)
      invariant store.documents == old(store.documents) && store.documentIdCounter == old(store.documentIdCounter)
    {
      ghost var prev := store.suggestions;
      var suggestion := store.CreateSuggestion(InsertFor(proposals[j], documentId));
      ValuesSetNew(prev, suggestion.id, suggestion);
      saved := saved + [suggestion];
      j := j + 1;
    }
  }

  /**
   * Clearing a document's suggestions and then appending a batch for it under
   * fresh keys leaves the batch as the document's list, no old suggestion of
   * the document, and every other document's list as it was.
   */
  lemma ReplaceBatch(before: Table<Suggestion>, cleared: Table<Suggestion>, after: Table<Suggestion>,
                     saved: seq<Suggestion>, documentId: int, firstNew: int)
    requires before.Valid()
    requires forall k :: k in before.entries ==> before.entries[k].id == k
    requires forall i :: 0 <= i < |before.keys| ==> before.keys[i] < firstNew
    requires cleared == before.DeleteAll(IdsOf(Filter(before.Values(), OfDocument(documentId))))
    requires after.Values() == cleared.Values() + saved
    requires forall k :: k in after.entries ==> k in cleared.entries || k >= firstNew
    requires forall i :: 0 <= i < |saved| ==> saved[i].documentId == documentId
    ensures Filter(after.Values(), OfDocument(documentId)) == saved
    ensures forall s :: s in Filter(before.Values(), OfDocument(documentId)) ==> !after.Has(s.id)
    ensures forall d :: d != documentId ==> Filter(after.Values(), OfDocument(d)) == Filter(before.Values(), OfDocument(d))
  {
    var existing := Filter(before.Values(), OfDocument(documentId));
    DeleteDocumentSuggestions(before, documentId);
    AppendBatch(cleared.Values(), saved, documentId);
    forall s | s in existing ensures !after.Has(s.id) {
      var k :| 0 <= k < |existing| && existing[k] == s;
      assert s.id in IdsOf(existing);
      ValuesOfSound(before.keys, before.entries, s);
      assert s.id in before.keys;
    }
  }

  /** Clears a document's suggestions, then stores one new suggestion per proposal. */
  method ReplaceSuggestions(store: MemStorage, documentId: int, proposals: seq<Gateway.Proposal>)
    returns (saved: seq<Suggestion>)
    requires store.Valid()
    modifies store
    ensures store.Valid()
    ensures |saved| == |proposals|
    ensures forall i :: 0 <= i < |proposals| ==>
              saved[i] == NewSuggestion(old(store.suggestionIdCounter) + i, InsertFor(proposals[i], documentId))
    ensures store.suggestionIdCounter == old(store.suggestionIdCounter) + |proposals|
    ensures store.users == old(store.users) && store.userIdCounter == old(store.userIdCounter)
    ensures store.documents == old(store.documents) && store.documentIdCounter == old(store.documentIdCounter)
    ensures old(store.SuggestionKeysMatchIds()) ==> store.SuggestionKeysMatchIds()
    ensures old(store.GeneratedHaveContent()) ==> store.GeneratedHaveContent()
    ensures old(store.SuggestionKeysMatchIds()) ==>
              && store.GetSuggestions(documentId) == saved
              && (forall s :: s in old(store.GetSuggestions(documentId)) ==> !store.suggestions.Has(s.id))
              && (forall d :: d != documentId ==> store.GetSuggestions(d) == old(store.GetSuggestions(d)))
  {
    ghost var before := store.suggestions;
    ghost var matched := store.SuggestionKeysMatchIds();
    ClearSuggestions(store, documentId);
    ghost var cleared := store.suggestions;
    saved := SaveBatch(store, documentId, proposals);
    if matched {
      assert forall k :: 0 <= k < |saved| ==> saved[k].documentId == documentId;
      ReplaceBatch(before, cleared, store.suggestions, saved, documentId, old(store.suggestionIdCounter));
    }
  }

  /**
   * POST /api/documents/:id/generate-suggestions: ask the gateway, delete the
   * document's suggestions one by one, then store and return the new batch.
   */
  method GenerateSuggestions(store: MemStorage, rawId: string, upstream: string -> Gateway.SuggestionsReply)
    returns (r: Response<seq<Suggestion>>)
    requires store.Valid()
    modifies store
    ensures store.Valid()
    ensures ParseInt(rawId).None? ==> r == Failure(400, InvalidDocumentId) && unchanged(store)
    ensures ParseInt(rawId).Some? && !old(store.documents).Has(ParseInt(rawId).value) ==>
              r == Failure(404, DocumentNotFound) && unchanged(store)
    ensures ParseInt(rawId).Some? && old(store.documents).Has(ParseInt(rawId).value) ==>
              var id := ParseInt(rawId).value;
              var batch := Gateway.GenerateSuggestions(Some(old(store.documents).entries[id].content), upstream);
              var c0 := old(store.suggestionIdCounter);
              && r.Success? && r.status == 200 && |r.body| == |batch|
              && (forall i :: 0 <= i < |batch| ==> r.body[i] == NewSuggestion(c0 + i, InsertFor(batch[i], id)))
              && store.suggestionIdCounter == c0 + |batch|
              && store.users == old(store.users) && store.userIdCounter == old(store.userIdCounter)
              && store.documents == old(store.documents) && store.documentIdCounter == old(store.documentIdCounter)
    ensures old(store.SuggestionKeysMatchIds()) ==> store.SuggestionKeysMatchIds()
    ensures old(store.GeneratedHaveContent()) ==> store.GeneratedHaveContent()
    ensures ParseInt(rawId).Some? && old(store.documents).Has(ParseInt(rawId).value) && old(store.SuggestionKeysMatchIds()) ==>
              var id := ParseInt(rawId).value;
              && store.GetSuggestions(id) == r.body
              && (forall s :: s in old(store.GetSuggestions(id)) ==> !store.suggestions.Has(s.id))
              && (forall d :: d != id ==> store.GetSuggestions(d) == old(store.GetSuggestions(d)))
  {
    var parsed := ParseInt(rawId);
    if parsed.None? {
      return Failure(400, InvalidDocumentId);
    }
    var id := parsed.value;
    var document := store.GetDocument(id);
    if document.None? {
      return Failure(404, DocumentNotFound);
    }
    var generated := Gateway.GenerateSuggestions(Some(document.value.content), upstream);
    var saved := ReplaceSuggestions(store, id, generated);
    r := Success(200, saved);
  }

  /**
   * POST /api/suggestions/:id/generate: ask the gateway for the text of one
   * suggestion and store it with the suggestion marked generated.
   */
  method GenerateContent(store: MemStorage, rawId: string, upstream: (string, string) -> Gateway.ContentReply)
    returns (r: Response<Suggestion>)
    requires store.Valid()
    modifies store
    ensures store.Valid()
    ensures old(store.SuggestionKeysMatchIds()) ==> store.SuggestionKeysMatchIds()
    ensures old(store.GeneratedHaveContent()) ==> store.GeneratedHaveContent()
    ensures ParseInt(rawId).None? ==> r == Failure(400, InvalidSuggestionId) && unchanged(store)
    ensures ParseInt(rawId).Some? && !old(store.suggestions).Has(ParseInt(rawId).value) ==>
              r == Failure(404, SuggestionNotFound) && unchanged(store)
    ensures ParseInt(rawId).Some? && old(store.suggestions).Has(ParseInt(rawId).value) ==>
              var s := old(store.suggestions).entries[ParseInt(rawId).value];
              !old(store.documents).Has(s.documentId) ==> r == Failure(404, DocumentNotFound) && unchanged(store)
    ensures ParseInt(rawId).Some? && old(store.suggestions).Has(ParseInt(rawId).value) ==>
              var id := ParseInt(rawId).value;
              var s := old(store.suggestions).entries[id];
              old(store.documents).Has(s.documentId) ==>
                var text := Gateway.GenerateContent(Some(old(store.documents).entries[s.documentId].content), s.prompt, upstream);
                && (text.Err? ==> r == Failure(500, FailedToGenerateContent) && unchanged(store))
                && (text.Ok? ==>
                      && r == Success(200, s.(generated := true, generatedContent := text.value))
                      && store.suggestions == old(store.suggestions).Set(id, r.body)
                      && store.suggestionIdCounter == old(store.suggestionIdCounter)
                      && store.users == old(store.users) && store.userIdCounter == old(store.userIdCounter)
                      && store.documents == old(store.documents) && store.documentIdCounter == old(store.documentIdCounter))
  {
    var parsed := ParseInt(rawId);
    if parsed.None? {
      return Failure(400, InvalidSuggestionId);
    }
    var id := parsed.value;
    var suggestion := store.GetSuggestion(id);
    if suggestion.None? {
      return Failure(404, SuggestionNotFound);
    }
    var document := store.GetDocument(suggestion.value.documentId);
    if document.None? {
      return Failure(404, DocumentNotFound);
    }
    r := StoreGeneratedContent(store, id, suggestion.value, document.value, upstream);
  }

  /** The tail of POST /api/suggestions/:id/generate, once the suggestion and its document are found. */
  method StoreGeneratedContent(store: MemStorage, id: int, s: Suggestion, document: Document,
                               upstream: (string, string) -> Gateway.ContentReply)
    returns (r: Response<Suggestion>)
    requires store.Valid() && store.suggestions.Get(id) == Some(s)
    modifies store
    ensures store.Valid()
    ensures old(store.SuggestionKeysMatchIds()) ==> store.SuggestionKeysMatchIds()
    ensures old(store.GeneratedHaveContent()) ==> store.GeneratedHaveContent()
    ensures var text := Gateway.GenerateContent(Some(document.content), s.prompt, upstream);
            && (text.Err? ==> r == Failure(500, FailedToGenerateContent) && unchanged(store))
            && (text.Ok? ==>
                  && r == Success(200, s.(generated := true, generatedContent := text.value))
                  && store.suggestions == old(store.suggestions).Set(id, r.body)
                  && store.suggestionIdCounter == old(store.suggestionIdCounter)
                  && store.users == old(store.users) && store.userIdCounter == old(store.userIdCounter)
                  && store.documents == old(store.documents) && store.documentIdCounter == old(store.documentIdCounter))
  {
    var text := Gateway.GenerateContent(Some(document.content), s.prompt, upstream);
    if text.Err? {
      return Failure(500, FailedToGenerateContent);
    }
    var patch := SuggestionPatch(None, None, None, None, None, Some(true), Some(text.value));
    var updated := store.UpdateSuggestion(id, patch);
    r := Success(200, updated.value);
  }
}
