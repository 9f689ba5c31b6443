/**
 * The editor's document hook: an optimistic local overlay of `content` and
 * `title` over the last fetched server document, plus a debounced PATCH.
 * Time is abstracted into discrete events: an edit, the debounce timer
 * firing, a server refresh re-running the seeding effect, and unmount.
 */
module DocumentDraft {
  import opened Wrappers
  import opened Schema

  /**
   * `localContent`/`localTitle` are `None` while `null`; `pending` is the
   * payload of the scheduled timer, `None` when no timer is scheduled; `sent`
   * logs the PATCH payloads handed to the mutation, oldest first.
   */
  datatype Draft = Draft(
    localContent: Option<string>,
    localTitle: Option<string>,
    pending: Option<DocumentPatch>,
    sent: seq<DocumentPatch>)

  const Initial := Draft(None, None, None, [])

  datatype HookEvent =
    | Edit(update: DocumentPatch)
    | TimerFires
    | Refresh(server: Option<Document>)
    | Unmount

  /** `updateDocument(update)`: overlay the present keys, replace the scheduled write. */
  function AfterEdit(d: Draft, update: DocumentPatch): (r: Draft)
    ensures r.localContent == if update.content.Some? then update.content else d.localContent
    ensures r.localTitle == if update.title.Some? then update.title else d.localTitle
    ensures r.pending == Some(update) && r.sent == d.sent
  {
    Draft(
      if update.content.Some? then update.content else d.localContent,
      if update.title.Some? then update.title else d.localTitle,
      Some(update),
      d.sent)
  }

  /** The timer callback: hand the scheduled payload to the mutation. */
  function AfterTimer(d: Draft): (r: Draft)
    ensures r.localContent == d.localContent && r.localTitle == d.localTitle && r.pending == None
    ensures r.sent == d.sent + (if d.pending.Some? then [d.pending.value] else [])
  {
    match d.pending
    case None => d
    case Some(update) => d.(pending := None, sent := d.sent + [update])
  }

  /** The seeding effect: fill each local value from the server only while it is `null`. */
  function AfterRefresh(d: Draft, server: Option<Document>): (r: Draft)
    ensures d.localContent.Some? ==> r.localContent == d.localContent
    ensures d.localTitle.Some? ==> r.localTitle == d.localTitle
    ensures server.Some? && d.localContent.None? ==> r.localContent == Some(server.value.content)
    ensures server.Some? && d.localTitle.None? ==> r.localTitle == Some(server.value.title)
    ensures server.None? ==> r == d
    ensures r.pending == d.pending && r.sent == d.sent
  {
    match server
    case None => d
    case Some(document) =>
      d.(localContent := if d.localContent.None? then Some(document.content) else d.localContent,
         localTitle := if d.localTitle.None? then Some(document.title) else d.localTitle)
  }

  /** The cleanup effect: cancel the scheduled write. */
  function AfterUnmount(d: Draft): (r: Draft)
    ensures r.pending == None && r.sent == d.sent
    ensures r.localContent == d.localContent && r.localTitle == d.localTitle
  {
    d.(pending := None)
  }

  function Step(d: Draft, e: HookEvent): Draft {
    match e
    case Edit(update) => AfterEdit(d, update)
    case TimerFires => AfterTimer(d)
    case Refresh(server) => AfterRefresh(d, server)
    case Unmount => AfterUnmount(d)
  }

  function Run(d: Draft, es: seq<HookEvent>): Draft
    decreases |es|
  {
    if es == [] then d else Run(Step(d, es[0]), es[1..])
  }

  /** The document the hook exposes: the server document under the local overlay. */
  function LocalDocument(server: Option<Document>, d: Draft): (r: Option<Document>)
    ensures r.None? <==> server.None?
    ensures r.Some? ==>
              && r.value.id == server.value.id
              && r.value.userId == server.value.userId
              && r.value.lastModified == server.value.lastModified
              && r.value.content == (if d.localContent.Some? then d.localContent.value else server.value.content)
              && r.value.title == (if d.localTitle.Some? then d.localTitle.value else server.value.title)
  {
    match server
    case None => None
    case Some(document) =>
      Some(document.(content := if d.localContent.Some? then d.localContent.value else document.content,
                     title := if d.localTitle.Some? then d.localTitle.value else document.title))
  }

  function Edits(us: seq<DocumentPatch>): (es: seq<HookEvent>)
    ensures |es| == |us| && forall i :: 0 <= i < |us| ==> es[i] == Edit(us[i])
  {
    if us == [] then [] else [Edit(us[0])] + Edits(us[1..])
  }

  /** No event of `es` is an edit: only timers, refreshes and unmounts. */
  predicate NoEdits(es: seq<HookEvent>) {
    forall i :: 0 <= i < |es| ==> !es[i].Edit?
  }

  lemma {:induction false} RunAppend(d: Draft, a: seq<HookEvent>, b: seq<HookEvent>)
    ensures Run(d, a + b) == Run(Run(d, a), b)
    decreases |a|
  {
    if a != [] {
      assert (a + b)[1..] == a[1..] + b;
      RunAppend(Step(d, a[0]), a[1..], b);
    } else {
      assert a + b == b;
    }
  }

  /** A burst of edits leaves exactly the last payload scheduled and sends nothing yet. */
  lemma {:induction false} BurstKeepsLastPending(d: Draft, us: seq<DocumentPatch>)
    requires |us| > 0
    ensures Run(d, Edits(us)).pending == Some(us[|us| - 1])
    ensures Run(d, Edits(us)).sent == d.sent
    decreases |us|
  {
    if |us| > 1 {
      assert Edits(us)[1..] == Edits(us[1..]);
      BurstKeepsLastPending(AfterEdit(d, us[0]), us[1..]);
    } else {
      assert Edits(us)[1..] == [];
    }
  }

  /** When the timer fires after a burst of edits, only the last payload is sent. */
  lemma BurstSendsOnlyLast(d: Draft, us: seq<DocumentPatch>)
    requires |us| > 0
    ensures Run(d, Edits(us) + [TimerFires]).sent == d.sent + [us[|us| - 1]]
    ensures Run(d, Edits(us) + [TimerFires]).pending == None
  {
    RunAppend(d, Edits(us), [TimerFires]);
    BurstKeepsLastPending(d, us);
  }

  /** A title edit followed quickly by a content edit sends the content patch alone. */
  lemma TitleThenContentSendsContent(d: Draft, title: string, content: string)
    ensures Run(d, [Edit(TitlePatch(title)), Edit(ContentPatch(content)), TimerFires]).sent == d.sent + [ContentPatch(content)]
  {
    assert Edits([TitlePatch(title), ContentPatch(content)]) == [Edit(TitlePatch(title)), Edit(ContentPatch(content))];
    BurstSendsOnlyLast(d, [TitlePatch(title), ContentPatch(content)]);
  }

  /** Without edits, local values that are set never change, whatever the server says. */
  lemma {:induction false} RefreshesKeepLocalValues(d: Draft, es: seq<HookEvent>)
    requires NoEdits(es)
    ensures d.localContent.Some? ==> Run(d, es).localContent == d.localContent
    ensures d.localTitle.Some? ==> Run(d, es).localTitle == d.localTitle
    decreases |es|
  {
    if es != [] {
      RefreshesKeepLocalValues(Step(d, es[0]), es[1..]);
    }
  }

  /** Once unmounted, nothing further is sent unless a new edit is made. */
  lemma {:induction false} NothingSentAfterUnmount(d: Draft, es: seq<HookEvent>)
    requires NoEdits(es)
    ensures Run(d, [Unmount] + es).sent == d.sent
  {
    assert ([Unmount] + es)[1..] == es;
    QuietRun(AfterUnmount(d), es);
  }

  /** With no write scheduled and no edits, the sent log stays as it is. */
  lemma {:induction false} QuietRun(d: Draft, es: seq<HookEvent>)
    requires d.pending.None? && NoEdits(es)
    ensures Run(d, es).sent == d.sent && Run(d, es).pending.None?
    decreases |es|
  {
    if es != [] {
      QuietRun(Step(d, es[0]), es[1..]);
    }
  }

  /** Right after the first load, the hook exposes exactly the server document. */
  lemma FirstLoadShowsServer(document: Document)
    ensures LocalDocument(Some(document), AfterRefresh(Initial, Some(document))) == Some(document)
  {
  }

  /** The hook as a component instance: its state is overwritten by each callback. */
  class DocumentStorage {
    var localContent: Option<string>
    var localTitle: Option<string>
    var pending: Option<DocumentPatch>
    var sent: seq<DocumentPatch>

    function State(): Draft
      reads this
    {
      Draft(localContent, localTitle, pending, sent)
    }

    constructor ()
      ensures State() == Initial
    {
      localContent := None;
      localTitle := None;
      pending := None;
      sent := [];
    }

    method UpdateDocument(update: DocumentPatch)
      modifies this
      ensures State() == AfterEdit(old(State()), update)
    {
      if update.content.Some? {
        localContent := update.content;
      }
      if update.title.Some? {
        localTitle := update.title;
      }
      // Any previously scheduled write is cancelled and replaced.
      pending := Some(update);
    }

    method TimerFires()
      modifies this
      ensures State() == AfterTimer(old(State()))
    {
      if pending.Some? {
        sent := sent + [pending.value];
        pending := None;
      }
    }

    method Refresh(server: Option<Document>)
      modifies this
      ensures State() == AfterRefresh(old(State()), server)
    {
      if server.Some? {
        if localContent.None? {
          localContent := Some(server.value.content);
        }
        if localTitle.None? {
          localTitle := Some(server.value.title);
        }
      }
    }

    method Unmount()
      modifies this
      ensures State() == AfterUnmount(old(State()))
    {
      pending := None;
    }
  }
}
