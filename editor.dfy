/**
 * The editor page's decisions: which suggestions are shown and in what
 * order, when a batch is generated automatically, and the document edit
 * each accept button leads to. The suggestion lookup used after a refetch is
 * an explicit input (the list the handler's closure holds).
 */
module Editor {
  import opened Wrappers
  import opened Seqs
  import opened JsString
  import opened Schema
  import DocumentDraft
  import Card
  import Gateway

  /** Add mode: the generated text goes after the current text, separated by a blank line. */
  function AddContent(current: string, generated: string): (r: string)
    ensures |r| == |current| + 2 + |generated|
    ensures r[..|current|] == current
    ensures r[|current|..|current| + 2] == "\n\n"
    ensures r[|current| + 2..] == generated
  {
    current + "\n\n" + generated
  }

  function IsLeft(): Suggestion -> bool {
    (s: Suggestion) => s.position == "left"
  }

  function IsRight(): Suggestion -> bool {
    (s: Suggestion) => s.position == "right"
  }

  /** The cards shown: left suggestions, then right ones; any other position is not shown. */
  function Displayed(ss: seq<Suggestion>): (r: seq<Suggestion>)
    ensures forall i :: 0 <= i < |r| ==> r[i] in ss && (r[i].position == "left" || r[i].position == "right")
    ensures forall i :: 0 <= i < |ss| && (ss[i].position == "left" || ss[i].position == "right") ==> ss[i] in r
    ensures forall i, j :: 0 <= i < j < |r| && r[j].position == "left" ==> r[i].position == "left"
  {
    var left := Filter(ss, IsLeft());
    var right := Filter(ss, IsRight());
    assert forall i :: 0 <= i < |left| ==> (left + right)[i] == left[i];
    assert forall i :: |left| <= i < |left + right| ==> (left + right)[i] == right[i - |left|];
    left + right
  }

  /** A list already ordered left-then-right, with no other position, is shown as it is. */
  lemma {:induction false} DisplayedKeepsOrderedList(ss: seq<Suggestion>)
    requires forall i :: 0 <= i < |ss| ==> ss[i].position == "left" || ss[i].position == "right"
    requires forall i, j :: 0 <= i < j < |ss| && ss[j].position == "left" ==> ss[i].position == "left"
    ensures Displayed(ss) == ss
  {
    if ss != [] {
      if ss[0].position == "left" {
        DisplayedKeepsOrderedList(ss[1..]);
        assert Filter(ss, IsLeft()) == [ss[0]] + Filter(ss[1..], IsLeft());
        assert Filter(ss, IsRight()) == Filter(ss[1..], IsRight());
        assert ss == [ss[0]] + ss[1..];
      } else {
        FilterKeepsNone(ss, IsLeft());
        FilterKeepsAll(ss, IsRight());
        assert Displayed(ss) == [] + ss;
      }
    }
  }

  /** Within each column the cards keep the order of the list they come from. */
  lemma DisplayedKeepsGroupOrder(ss: seq<Suggestion>)
    ensures Filter(Displayed(ss), IsLeft()) == Filter(ss, IsLeft())
    ensures Filter(Displayed(ss), IsRight()) == Filter(ss, IsRight())
  {
    var left := Filter(ss, IsLeft());
    var right := Filter(ss, IsRight());
    FilterAppend(left, right, IsLeft());
    FilterAppend(left, right, IsRight());
    FilterFilter(ss, IsLeft(), IsLeft(), IsLeft());
    FilterFilter(ss, IsRight(), IsRight(), IsRight());
    FilterKeepsNone(right, IsLeft());
    FilterKeepsNone(left, IsRight());
    assert left + [] == left && [] + right == right;
  }

  /** `suggestions.find(s => s.id === id)` */
  function FindById(ss: seq<Suggestion>, id: int): (r: Option<Suggestion>)
    ensures r.None? <==> forall i :: 0 <= i < |ss| ==> ss[i].id != id
    ensures r.Some? ==> exists i :: 0 <= i < |ss| && ss[i] == r.value && r.value.id == id
                                  && forall j :: 0 <= j < i ==> ss[j].id != id
  {
    if ss == [] then None
    else if ss[0].id == id then Some(ss[0])
    else
      var r := FindById(ss[1..], id);
      assert r.Some? ==> exists i :: 0 <= i < |ss| && ss[i] == r.value && r.value.id == id
                                   && forall j :: 0 <= j < i ==> ss[j].id != id by {
        if r.Some? {
          var i :| 0 <= i < |ss[1..]| && ss[1..][i] == r.value && r.value.id == id
                   && forall j :: 0 <= j < i ==> ss[1..][j].id != id;
          assert ss[i + 1] == r.value;
          assert forall j :: 0 <= j < i + 1 ==> ss[j].id != id by {
            forall j | 0 <= j < i + 1 ensures ss[j].id != id {
              if j > 0 { assert ss[j] == ss[1..][j - 1]; }
            }
          }
        }
      }
      r
  }

  /**
   * The auto-generation effect: the displayed content is truthy, the
   * suggestions query is not loading, and it returned no suggestion.
   */
  function ShouldAutoGenerate(document: Option<Document>, suggestionsLoading: bool, count: nat): (r: bool)
    ensures r <==> document.Some? && document.value.content != "" && !suggestionsLoading && count == 0
  {
    var content := if document.Some? then Some(document.value.content) else None;
    Or(content, "") != "" && !suggestionsLoading && count == 0
  }

  /** The generated batch is never empty, so the list it is refetched into never triggers another batch. */
  lemma NoAutoGenerateAfterBatch(document: Option<Document>, content: Option<string>,
                                 upstream: string -> Gateway.SuggestionsReply)
    ensures !ShouldAutoGenerate(document, false, |Gateway.GenerateSuggestions(content, upstream)|)
  {
  }

  datatype Request = GenerateContentRequest(suggestionId: int) | RefetchSuggestions

  /** What an accept handler does: the requests it awaits, in order, and the document edit it makes. */
  datatype Reaction = Reaction(requests: seq<Request>, edit: Option<DocumentPatch>)

  /**
   * `handleAcceptAdd`. `document` is the displayed document; `lookup` is the
   * list searched after the refetch; `generatedOk` says whether the generate
   * request succeeded (a rejected request ends the handler).
   */
  function AcceptAdd(document: Option<Document>, s: Suggestion, lookup: seq<Suggestion>, generatedOk: bool): (r: Reaction)
    ensures r.edit.Some? ==> document.Some?
    ensures s.generated ==>
              && r.requests == []
              && r.edit == if document.Some? then Some(ContentPatch(AddContent(document.value.content, s.generatedContent))) else None
    ensures !s.generated ==>
              r.requests == [GenerateContentRequest(s.id)] + (if generatedOk then [RefetchSuggestions] else [])
    ensures !s.generated && (!generatedOk || FindById(lookup, s.id).None?) ==> r.edit.None?
    ensures !s.generated && generatedOk && FindById(lookup, s.id).Some? && document.Some? ==>
              r.edit == Some(ContentPatch(AddContent(document.value.content, FindById(lookup, s.id).value.generatedContent)))
  {
    if s.generated then
      Reaction([], if document.Some? then Some(ContentPatch(AddContent(document.value.content, s.generatedContent))) else None)
    else if !generatedOk then
      Reaction([GenerateContentRequest(s.id)], None)
    else
      var requests := [GenerateContentRequest(s.id), RefetchSuggestions];
      match FindById(lookup, s.id)
      case None => Reaction(requests, None)
      case Some(updated) =>
        Reaction(requests, if document.Some? then Some(ContentPatch(AddContent(document.value.content, updated.generatedContent))) else None)
  }

  /** `handleAcceptReplace`: like add mode, but the new content is the generated text alone and no document is needed. */
  function AcceptReplace(s: Suggestion, lookup: seq<Suggestion>, generatedOk: bool): (r: Reaction)
    ensures s.generated ==> r.requests == [] && r.edit == Some(ContentPatch(s.generatedContent))
    ensures !s.generated ==>
              r.requests == [GenerateContentRequest(s.id)] + (if generatedOk then [RefetchSuggestions] else [])
    ensures !s.generated && (!generatedOk || FindById(lookup, s.id).None?) ==> r.edit.None?
    ensures !s.generated && generatedOk && FindById(lookup, s.id).Some? ==>
              r.edit == Some(ContentPatch(FindById(lookup, s.id).value.generatedContent))
  {
    if s.generated then Reaction([], Some(ContentPatch(s.generatedContent)))
    else if !generatedOk then Reaction([GenerateContentRequest(s.id)], None)
    else
      var requests := [GenerateContentRequest(s.id), RefetchSuggestions];
      match FindById(lookup, s.id)
      case None => Reaction(requests, None)
      case Some(updated) => Reaction(requests, Some(ContentPatch(updated.generatedContent)))
  }

  function Accept(mode: Card.AcceptMode, document: Option<Document>, s: Suggestion, lookup: seq<Suggestion>, generatedOk: bool): Reaction {
    match mode
    case Add => AcceptAdd(document, s, lookup, generatedOk)
    case Replace => AcceptReplace(s, lookup, generatedOk)
  }

  /**
   * Runs an accept handler against the page's document hook: the awaited
   * requests are returned, and the edit, if any, goes through `updateDocument`.
   */
  method HandleAccept(hook: DocumentDraft.DocumentStorage, server: Option<Document>, mode: Card.AcceptMode,
                      s: Suggestion, lookup: seq<Suggestion>, generatedOk: bool)
    returns (requests: seq<Request>)
    modifies hook
    ensures var reaction := Accept(mode, DocumentDraft.LocalDocument(server, old(hook.State())), s, lookup, generatedOk);
      && requests == reaction.requests
      && hook.State() == if reaction.edit.Some? then DocumentDraft.AfterEdit(old(hook.State()), reaction.edit.value) else old(hook.State())
  {
    var document := DocumentDraft.LocalDocument(server, hook.State());
    requests := [];
    var content: Option<string> := None;
    if !s.generated {
      requests := requests + [GenerateContentRequest(s.id)];
      if !generatedOk {
        return;
      }
      requests := requests + [RefetchSuggestions];
      var updated := FindById(lookup, s.id);
      if updated.None? {
        return;
      }
      content := Some(updated.value.generatedContent);
    } else {
      content := Some(s.generatedContent);
    }
    if mode.Add? {
      if document.Some? {
        hook.UpdateDocument(ContentPatch(AddContent(document.value.content, content.value)));
      }
    } else {
      hook.UpdateDocument(ContentPatch(content.value));
    }
  }

  /**
   * From a click on an idle card to the document: when the card's generate
   * request succeeds with text `g`, the editor's add handler appends `g`
   * after a blank line, and the hook shows that content at once.
   */
  lemma AcceptAddAppendsGenerated(c: Card.CardState, reply: Card.GenerateReply, server: Document,
                                  d: DocumentDraft.Draft, lookup: seq<Suggestion>)
    requires Card.Valid(c) && Card.WillRequest(c) && reply.generated
    ensures |Card.Run(c, [Card.Click(Card.Add), Card.Settle(Card.Succeeded(reply))]).accepted| == |c.accepted| + 1
    ensures var after := Card.Run(c, [Card.Click(Card.Add), Card.Settle(Card.Succeeded(reply))]);
      var accepted := after.accepted[|after.accepted| - 1];
      var shown := DocumentDraft.LocalDocument(Some(server), d);
      var reaction := Accept(accepted.mode, shown, accepted.suggestion, lookup, true);
      && reaction.requests == []
      && reaction.edit.Some?
      && DocumentDraft.LocalDocument(Some(server), DocumentDraft.AfterEdit(d, reaction.edit.value)).value.content
         == AddContent(shown.value.content, reply.generatedContent)
  {
    Card.ClickThenSuccess(c, Card.Add, reply);
  }
}
