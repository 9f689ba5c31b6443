/**
 * One suggestion card: the "generate once" flag machine behind its two
 * accept buttons. A click either asks the server to generate the
 * suggestion's text and waits, or hands the suggestion to the editor at
 * once; the request later settles with the server's reply or an error.
 */
module Card {
  import opened Wrappers
  import opened Schema

  datatype AcceptMode = Add | Replace

  /** One invocation of `onAcceptAdd` or `onAcceptReplace`, with its argument. */
  datatype Acceptance = Acceptance(mode: AcceptMode, suggestion: Suggestion)

  /** The fields of the generate reply that the card reads. */
  datatype GenerateReply = GenerateReply(generated: bool, generatedContent: string)

  datatype Settlement = Succeeded(reply: GenerateReply) | Failed

  /**
   * `awaiting` is the mode of the click whose request is in flight;
   * `requests` counts generate requests issued; `accepted` logs the
   * callback invocations, oldest first.
   */
  datatype CardState = CardState(
    suggestion: Suggestion,
    isGenerating: bool,
    awaiting: Option<AcceptMode>,
    requests: nat,
    accepted: seq<Acceptance>)

  datatype CardEvent = Click(mode: AcceptMode) | Settle(outcome: Settlement)

  function Initial(s: Suggestion): CardState {
    CardState(s, false, None, 0, [])
  }

  /** A request is in flight exactly while the card shows it is generating. */
  ghost predicate Valid(c: CardState) {
    c.isGenerating <==> c.awaiting.Some?
  }

  /** The success handler's update of the card's suggestion object. */
  function Absorb(s: Suggestion, reply: GenerateReply): (r: Suggestion)
    ensures reply.generated ==> r.generated && r.generatedContent == reply.generatedContent
    ensures !reply.generated ==> r == s
    ensures r.(generated := s.generated, generatedContent := s.generatedContent) == s
  {
    if reply.generated then s.(generated := true, generatedContent := reply.generatedContent) else s
  }

  /** Whether a click starts a generate request rather than accepting at once. */
  predicate WillRequest(c: CardState) {
    !c.suggestion.generated && !c.isGenerating
  }

  function AfterClick(c: CardState, mode: AcceptMode): (r: CardState)
    ensures WillRequest(c) ==> r.requests == c.requests + 1 && r.accepted == c.accepted && r.isGenerating
    ensures !WillRequest(c) ==> r.requests == c.requests && r.accepted == c.accepted + [Acceptance(mode, c.suggestion)]
    ensures r.suggestion == c.suggestion
  {
    if WillRequest(c) then c.(isGenerating := true, awaiting := Some(mode), requests := c.requests + 1)
    else c.(accepted := c.accepted + [Acceptance(mode, c.suggestion)])
  }

  function AfterSettle(c: CardState, outcome: Settlement): (r: CardState)
    ensures c.awaiting.Some? ==> !r.isGenerating && r.awaiting.None?
    ensures c.awaiting.Some? && outcome.Succeeded? ==>
              && r.suggestion == Absorb(c.suggestion, outcome.reply)
              && r.accepted == c.accepted + [Acceptance(c.awaiting.value, r.suggestion)]
    ensures outcome.Failed? ==> r.suggestion == c.suggestion && r.accepted == c.accepted
    ensures r.requests == c.requests
  {
    match c.awaiting
    case None => c
    case Some(mode) =>
      match outcome
      case Failed => c.(isGenerating := false, awaiting := None)
      case Succeeded(reply) =>
        var s := Absorb(c.suggestion, reply);
        c.(suggestion := s, isGenerating := false, awaiting := None,
           accepted := c.accepted + [Acceptance(mode, s)])
  }

  function Step(c: CardState, e: CardEvent): CardState {
    match e
    case Click(mode) => AfterClick(c, mode)
    case Settle(outcome) => AfterSettle(c, outcome)
  }

  function Run(c: CardState, es: seq<CardEvent>): CardState
    decreases |es|
  {
    if es == [] then c else Run(Step(c, es[0]), es[1..])
  }

  lemma {:induction false} RunKeepsValid(c: CardState, es: seq<CardEvent>)
    requires Valid(c)
    ensures Valid(Run(c, es))
    decreases |es|
  {
    if es != [] {
      assert Valid(Step(c, es[0]));
      RunKeepsValid(Step(c, es[0]), es[1..]);
    }
  }

  /**
   * Generate once: when the suggestion is generated, no later event issues a
   * request or un-generates it.
   */
  lemma {:induction false} GeneratedNeverRequests(c: CardState, es: seq<CardEvent>)
    requires c.suggestion.generated
    ensures Run(c, es).requests == c.requests
    ensures Run(c, es).suggestion.generated
    decreases |es|
  {
    if es != [] {
      GeneratedNeverRequests(Step(c, es[0]), es[1..]);
    }
  }

  /** A click on an idle card whose request succeeds invokes the callback once, with the updated suggestion. */
  lemma ClickThenSuccess(c: CardState, mode: AcceptMode, reply: GenerateReply)
    requires Valid(c) && WillRequest(c)
    ensures var r := Run(c, [Click(mode), Settle(Succeeded(reply))]);
      && r.accepted == c.accepted + [Acceptance(mode, Absorb(c.suggestion, reply))]
      && r.requests == c.requests + 1
      && !r.isGenerating
  {
    var es := [Click(mode), Settle(Succeeded(reply))];
    var c1 := AfterClick(c, mode);
    assert es[1..] == [Settle(Succeeded(reply))] && es[1..][1..] == [];
    assert Run(c, es) == Run(c1, es[1..]) == AfterSettle(c1, Succeeded(reply));
  }

  /** A click on an idle card whose request fails invokes no callback and leaves the suggestion unchanged. */
  lemma ClickThenFailure(c: CardState, mode: AcceptMode)
    requires Valid(c) && WillRequest(c)
    ensures var r := Run(c, [Click(mode), Settle(Failed)]);
      && r.accepted == c.accepted
      && r.suggestion == c.suggestion
      && r.requests == c.requests + 1
      && !r.isGenerating
  {
    var es := [Click(mode), Settle(Failed)];
    var c1 := AfterClick(c, mode);
    assert es[1..] == [Settle(Failed)] && es[1..][1..] == [];
    assert Run(c, es) == Run(c1, es[1..]) == AfterSettle(c1, Failed);
  }

  /** The card as a component instance: the flag is toggled and the suggestion object mutated in place. */
  class SuggestionCard {
    var suggestion: Suggestion
    var isGenerating: bool
    var awaiting: Option<AcceptMode>
    var requests: nat
    var accepted: seq<Acceptance>

    function State(): CardState
      reads this
    {
      CardState(suggestion, isGenerating, awaiting, requests, accepted)
    }

    constructor (s: Suggestion)
      ensures State() == Initial(s)
    {
      suggestion := s;
      isGenerating := false;
      awaiting := None;
      requests := 0;
      accepted := [];
    }

    /** `handleAcceptAdd` (mode `Add`) and `handleAcceptReplace` (mode `Replace`), up to the await. */
    method HandleAccept(mode: AcceptMode)
      modifies this
      ensures State() == AfterClick(old(State()), mode)
    {
      if !suggestion.generated && !isGenerating {
        isGenerating := true;
        requests := requests + 1;
        awaiting := Some(mode);
      } else {
        accepted := accepted + [Acceptance(mode, suggestion)];
      }
    }

    /** The request settles: `onSuccess` or `onError`, then the rest of the awaiting handler. */
    method Settle(outcome: Settlement)
      modifies this
      ensures State() == AfterSettle(old(State()), outcome)
    {
      if awaiting.Some? {
        var mode := awaiting.value;
        if outcome.Succeeded? {
          if outcome.reply.generated {
            suggestion := suggestion.(generated := true, generatedContent := outcome.reply.generatedContent);
          }
          isGenerating := false;
          awaiting := None;
          accepted := accepted + [Acceptance(mode, suggestion)];
        } else {
          isGenerating := false;
          awaiting := None;
        }
      }
    }
  }
}
