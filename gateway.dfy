/**
 * The content-generation gateway: the fallback and unwrapping policy around
 * the two calls to the external language-model service. The service itself
 * is a parameter: a function from the request's inputs to what it replies.
 */
module Gateway {
  import opened Wrappers
  import opened JsString

  /** One generated suggestion: keys missing from an upstream item are `None`. */
  datatype Proposal = Proposal(prompt: string, description: Option<string>, position: Option<string>)

  /** The value `JSON.parse` produced from the reply's text. */
  datatype ParsedReply =
    | ReplyArray(items: seq<Proposal>)
      /** An object; `suggestions` is `None` when that key is absent or falsy. */
    | ReplyObject(suggestions: Option<seq<Proposal>>)
    | ReplyNull
      /** A number, string or boolean. */
    | ReplyScalar

  /** What the service does when asked for suggestions. */
  datatype SuggestionsReply =
    | SuggestionsCallFailed
      /** The message content is `null` or "", so `'{"suggestions":[]}'` is parsed instead. */
    | EmptyContent
    | Unparsable
    | Parsed(value: ParsedReply)

  /** What the service does when asked for content. `content` is "" for a `null` message. */
  datatype ContentReply = ContentCallFailed | ContentReplied(content: string)

  const NoContentText := "Sorry, I couldn't generate content at this time."
  const GenerationFailed := "Failed to generate content. Please try again later."

  /** `JSON.parse('{"suggestions":[]}')` */
  const EmptyReplyJson := ReplyObject(Some([]))

  /** The fixed list used whenever no usable suggestions arrive. */
  function DefaultSuggestions(): (r: seq<Proposal>)
    ensures |r| == 5
    ensures forall i :: 0 <= i < 5 ==> r[i].description.Some? && r[i].position.Some?
    ensures r[0].position == r[1].position == Some("left")
    ensures r[2].position == r[3].position == r[4].position == Some("right")
  {
    [ Proposal("Generate an interesting project idea and draft an outline",
               Some("Get a complete project concept with structure"), Some("left")),
      Proposal("Create a pros and cons list for this idea",
               Some("Evaluate the feasibility of your concept"), Some("left")),
      Proposal("Suggest a timeline for development",
               Some("Break down implementation steps"), Some("right")),
      Proposal("List potential user personas for this product",
               Some("Understanding your target audience"), Some("right")),
      Proposal("Brainstorm potential monetization strategies",
               Some("Explore business model options"), Some("right")) ]
  }

  /**
   * `Array.isArray(p) ? p : (p.suggestions || [])`. Reading `suggestions`
   * of `null` throws, which is `None` here.
   */
  function Unwrap(parsed: ParsedReply): (r: Option<seq<Proposal>>)
    ensures parsed.ReplyArray? ==> r == Some(parsed.items)
    ensures parsed.ReplyObject? ==> r == Some(if parsed.suggestions.Some? then parsed.suggestions.value else [])
    ensures r.None? <==> parsed.ReplyNull?
  {
    match parsed
    case ReplyArray(items) => Some(items)
    case ReplyObject(suggestions) => Some(if suggestions.Some? then suggestions.value else [])
    case ReplyNull => None
    case ReplyScalar => Some([])
  }

  /** The list a parsed reply yields: an empty one, or a failure to unwrap it, gives the defaults. */
  function FromParsed(parsed: ParsedReply): (r: seq<Proposal>)
    ensures |r| > 0
    ensures Unwrap(parsed).Some? && Unwrap(parsed).value != [] ==> r == Unwrap(parsed).value
    ensures Unwrap(parsed).None? || Unwrap(parsed) == Some([]) ==> r == DefaultSuggestions()
  {
    match Unwrap(parsed)
    case None => DefaultSuggestions()
    case Some(items) => if |items| == 0 then DefaultSuggestions() else items
  }

  /** `generateSuggestions(documentContent)`, asking `upstream` only when the content is not blank. */
  function GenerateSuggestions(documentContent: Option<string>, upstream: string -> SuggestionsReply): (r: seq<Proposal>)
    ensures |r| > 0
  {
    var safe := Or(documentContent, "");
    if Trim(safe) == "" then DefaultSuggestions()
    else
      match upstream(safe)
      case SuggestionsCallFailed => DefaultSuggestions()
      case Unparsable => DefaultSuggestions()
      case EmptyContent => FromParsed(EmptyReplyJson)
      case Parsed(value) => FromParsed(value)
  }

  /** `generateContent({documentContent, prompt})`: the reply's text, or a fixed text when it is empty. */
  function GenerateContent(documentContent: Option<string>, prompt: string,
                           upstream: (string, string) -> ContentReply): (r: Result<string, string>)
    ensures r.Ok? ==> r.value != ""
    ensures r.Err? ==> r.error == GenerationFailed
    ensures r.Err? <==> upstream(Or(documentContent, ""), prompt).ContentCallFailed?
    ensures var u := upstream(Or(documentContent, ""), prompt);
              u.ContentReplied? && u.content != "" ==> r == Ok(u.content)
    ensures upstream(Or(documentContent, ""), prompt) == ContentReplied("") ==> r == Ok(NoContentText)
  {
    match upstream(Or(documentContent, ""), prompt)
    case ContentCallFailed => Err(GenerationFailed)
    case ContentReplied(content) => Ok(if content != "" then content else NoContentText)
  }

  /** Blank content yields the defaults whatever the service would have said. */
  lemma BlankContentIgnoresUpstream(documentContent: Option<string>, upstream: string -> SuggestionsReply)
    requires forall i :: 0 <= i < |Or(documentContent, "")| ==> IsWhitespace(Or(documentContent, "")[i])
    ensures GenerateSuggestions(documentContent, upstream) == DefaultSuggestions()
  {
    TrimEmptyIffBlank(Or(documentContent, ""));
  }

  /**
   * For non-blank content the result is either the defaults or the service's
   * own non-empty list, unwrapped from an array or from `{suggestions: [...]}`.
   */
  lemma SuggestionsComeFromUpstreamOrDefaults(documentContent: Option<string>, upstream: string -> SuggestionsReply)
    ensures var r := GenerateSuggestions(documentContent, upstream);
      || r == DefaultSuggestions()
      || (&& Trim(Or(documentContent, "")) != ""
          && upstream(Or(documentContent, "")).Parsed?
          && Unwrap(upstream(Or(documentContent, "")).value) == Some(r))
  {
  }

  /** An upstream failure, an unparsable reply and an empty reply all give the defaults. */
  lemma FailuresGiveDefaults(documentContent: Option<string>, upstream: string -> SuggestionsReply)
    requires upstream(Or(documentContent, "")) in {SuggestionsCallFailed, Unparsable, EmptyContent}
    ensures GenerateSuggestions(documentContent, upstream) == DefaultSuggestions()
  {
  }

  /** A non-empty array or wrapped list from the service is used as it is. */
  lemma UpstreamListUsed(documentContent: Option<string>, upstream: string -> SuggestionsReply, items: seq<Proposal>)
    requires Trim(Or(documentContent, "")) != "" && items != []
    requires upstream(Or(documentContent, "")) in {Parsed(ReplyArray(items)), Parsed(ReplyObject(Some(items)))}
    ensures GenerateSuggestions(documentContent, upstream) == items
  {
  }
}
