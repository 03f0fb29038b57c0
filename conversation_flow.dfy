/**
 * `continueChessConversation` (src/ai/flows/analyze-chess-tournament.ts): the
 * recent history flattened into a transcript, the pages of the first expanded
 * tournament addresses as context, and one call of the hosted client.
 */
module ConversationFlow {
  import opened Wrappers
  import opened Strings
  import opened HostedGeneration
  import opened UrlContent
  import opened ChessLinks

  const HistoryWindow: nat := 6
  const ContextUrlLimit: nat := 4
  const ContextPageChars: nat := 2000
  const NoConversation := "(no prior conversation)"
  const AnswerMaxTokens: int := 512
  const AnswerTemperature: real := 0.3

  datatype Role = UserRole | ModelRole

  /** One history entry; `parts` is `None` when the field is missing. */
  datatype HistoryEntry = HistoryEntry(role: Role, parts: Option<seq<string>>)

  datatype Input = Input(name: string, link: string, question: string, history: Option<seq<HistoryEntry>>)

  /** `(history || []).slice(-6)`: the last six entries, or all of them when there are fewer. */
  function RecentHistory(history: Option<seq<HistoryEntry>>): (r: seq<HistoryEntry>)
    ensures var h := history.GetOr([]);
            |r| == (if |h| < HistoryWindow then |h| else HistoryWindow) && r == h[|h| - |r|..]
  {
    var h := history.GetOr([]);
    if |h| <= HistoryWindow then h else h[|h| - HistoryWindow..]
  }

  function Speaker(role: Role): string
  {
    if role == UserRole then "User" else "Assistant"
  }

  /** One transcript line: the speaker, then the entry's texts joined by single spaces. */
  function EntryLine(e: HistoryEntry): (r: string)
    ensures r != []
  {
    Speaker(e.role) + ": " + Join(e.parts.GetOr([]), " ")
  }

  function Lines(entries: seq<HistoryEntry>): (r: seq<string>)
    ensures |r| == |entries|
    ensures forall i :: 0 <= i < |entries| ==> r[i] == EntryLine(entries[i])
  {
    if entries == [] then [] else [EntryLine(entries[0])] + Lines(entries[1..])
  }

  /** The transcript of the recent history, one line per entry. */
  function Transcript(history: Option<seq<HistoryEntry>>): (r: string)
    ensures var recent := RecentHistory(history);
            forall i :: 0 <= i < |recent| ==> Contains(r, EntryLine(recent[i]))
  {
    var lines := Lines(RecentHistory(history));
    JoinContainsAll(lines, "\n");
    Join(lines, "\n")
  }

  /** A join of parts whose first part is not empty is not empty. */
  lemma JoinNonEmpty(parts: seq<string>, sep: string)
    requires |parts| > 0 && parts[0] != []
    ensures Join(parts, sep) != []
  {
  }

  /** The placeholder stands in exactly when there is no history at all. */
  lemma TranscriptEmptyIffNoHistory(history: Option<seq<HistoryEntry>>)
    ensures Transcript(history) == [] <==> history.GetOr([]) == []
  {
    var lines := Lines(RecentHistory(history));
    if lines != [] {
      JoinNonEmpty(lines, "\n");
    }
  }

  /** The addresses whose pages are fetched: none without a link, else the first four of its expansion. */
  function ContextUrls(link: string, codec: UrlCodec): (r: seq<string>)
    ensures |r| <= ContextUrlLimit
    ensures link == "" ==> r == []
    ensures link != "" ==> |r| == (if |ProcessLink(link, codec)| < ContextUrlLimit then |ProcessLink(link, codec)| else ContextUrlLimit)
                           && r == ProcessLink(link, codec)[..|r|]
  {
    if link == "" then [] else Take(ProcessLink(link, codec), ContextUrlLimit)
  }

  /** The tournament context: the fetched pages, in order, separated by a rule. */
  function Context(link: string, codec: UrlCodec, net: string -> FetchOutcome): (r: string)
    ensures link == "" ==> r == ""
    ensures var urls := ContextUrls(link, codec);
            forall i :: 0 <= i < |urls| ==> Contains(r, FetchUrlContent(urls[i], ContextPageChars, net(urls[i])))
  {
    if link == "" then ""
    else
      JoinedPagesContain(ContextUrls(link, codec), ContextPageChars, net, PageSeparator);
      Join(Pages(ContextUrls(link, codec), ContextPageChars, net), PageSeparator)
  }

  /** How every prompt of the flows opens, naming the model's role. */
  const RoleOpening := "You are "
  /** The prompt's opening sentence, the assistant's role. */
  const PromptRole := RoleOpening + "a chess insight assistant."
  const PromptHead := PromptRole + " The user's name is "
  const PromptContext := ".\nTournament context (truncated excerpts may contain standings/pairings):\n---\n"
  const PromptConversation := "\n---\n\nConversation so far:\n"
  const PromptQuestion := "\n\nUser question: "
  const PromptTail := "\n\nProvide a concise, accurate answer grounded in the provided tournament context when possible. If data is missing in the context, use general chess knowledge but avoid fabricating specific results. Reply clearly."

  /** The prompt, with the placeholder for an empty transcript. */
  function Prompt(name: string, context: string, transcript: string, question: string): (r: string)
    ensures |PromptHead| <= |r| && r[..|PromptHead|] == PromptHead
    ensures Contains(r, context)
  {
    var conversation := if transcript == "" then NoConversation else transcript;
    var fromContext := context + (PromptConversation + (conversation + (PromptQuestion + (question + PromptTail))));
    ContainsStart(context, fromContext[|context|..]);
    ContainsPrepend(PromptContext, fromContext, context);
    ContainsPrepend(name, PromptContext + fromContext, context);
    ContainsPrepend(PromptHead, name + (PromptContext + fromContext), context);
    PromptHead + (name + (PromptContext + fromContext))
  }

  function AnswerOptions(prompt: string): Options
  {
    Options(prompt, Some(AnswerMaxTokens), Some(AnswerTemperature), None)
  }

  function ConversationOptions(input: Input, codec: UrlCodec, net: string -> FetchOutcome): (r: Options)
    ensures r.maxTokens == Some(AnswerMaxTokens) && r.temperature == Some(AnswerTemperature) && r.topP.None?
    ensures Contains(r.prompt, input.question) && Contains(r.prompt, Context(input.link, codec, net))
  {
    PromptCarriesInputs(input.name, Context(input.link, codec, net), Transcript(input.history), input.question);
    AnswerOptions(Prompt(input.name, Context(input.link, codec, net), Transcript(input.history), input.question))
  }

  /** The answer: the generated text, or the client's error passed on. */
  function Answer(run: Run): (r: Result<string, GenError>)
    ensures run.result.Success? ==> r == Success(run.result.value.text)
    ensures run.result.Failure? ==> r == Failure(run.result.error)
  {
    if run.result.Success? then Success(run.result.value.text) else Failure(run.result.error)
  }

  /**
   * The whole flow; `fetched` are the addresses whose pages were requested.
   * The `catch` around the context never fires in this model, since neither the
   * expansion nor the page fetch fails by throwing.
   */
  method ContinueChessConversation(input: Input, codec: UrlCodec, net: string -> FetchOutcome,
                                   env: Option<string>, script: seq<Attempt>)
    returns (r: Result<string, GenError>, ghost fetched: seq<string>)
    requires |script| > MaxRetries
    ensures r == Answer(Generation(ConversationOptions(input, codec, net), env, script))
    ensures fetched == ContextUrls(input.link, codec)
  {
    var history := RecentHistory(input.history);
    var transcript := Join(Lines(history), "\n");
    var context := "";
    fetched := [];
    if input.link != "" {
      var urls := Take(ProcessLink(input.link, codec), ContextUrlLimit);
      var pages := Pages(urls, ContextPageChars, net);
      fetched := urls;
      context := Join(pages, PageSeparator);
    }
    var prompt := Prompt(input.name, context, transcript, input.question);
    var result;
    ghost var attempts, fetches, sleeps;
    result, attempts, fetches, sleeps := GenerateText(AnswerOptions(prompt), env, script);
    r := if result.Success? then Success(result.value.text) else Failure(result.error);
  }

  /**
   * Whatever the inputs, the flow's options pass the client's validation and
   * reach the endpoint as 512 tokens at temperature 0.3.
   */
  lemma ConversationPassesValidation(input: Input, codec: UrlCodec, net: string -> FetchOutcome)
    ensures Validate(ConversationOptions(input, codec, net)).Success?
    ensures Validate(ConversationOptions(input, codec, net)).value.maxNewTokens == AnswerMaxTokens
    ensures Validate(ConversationOptions(input, codec, net)).value.temperature == AnswerTemperature
  {
    PromptNotBlank(input.name, Context(input.link, codec, net), Transcript(input.history), input.question);
  }

  lemma PromptNotBlank(name: string, context: string, transcript: string, question: string)
    ensures !IsBlank(Prompt(name, context, transcript, question))
  {
    var conversation := if transcript == "" then NoConversation else transcript;
    assert PromptHead[0] == RoleOpening[0] == 'Y';
    NotBlankAfterHead(PromptHead, name + (PromptContext + (context + (PromptConversation + (conversation + (PromptQuestion + (question + PromptTail)))))));
  }

  /** The prompt carries the name, the question and the transcript (or the placeholder). */
  lemma PromptCarriesInputs(name: string, context: string, transcript: string, question: string)
    ensures Contains(Prompt(name, context, transcript, question), name)
    ensures Contains(Prompt(name, context, transcript, question), question)
    ensures Contains(Prompt(name, context, transcript, question), if transcript == "" then NoConversation else transcript)
  {
    var conversation := if transcript == "" then NoConversation else transcript;
    var fromQuestion := question + PromptTail;
    ContainsStart(question, PromptTail);
    ContainsPrepend(PromptQuestion, fromQuestion, question);
    var fromConversation := conversation + (PromptQuestion + fromQuestion);
    ContainsStart(conversation, PromptQuestion + fromQuestion);
    ContainsPrepend(conversation, PromptQuestion + fromQuestion, question);
    var fromContext := context + (PromptConversation + fromConversation);
    ContainsPrepend(PromptConversation, fromConversation, question);
    ContainsPrepend(PromptConversation, fromConversation, conversation);
    ContainsPrepend(context, PromptConversation + fromConversation, question);
    ContainsPrepend(context, PromptConversation + fromConversation, conversation);
    var fromName := name + (PromptContext + fromContext);
    ContainsStart(name, PromptContext + fromContext);
    ContainsPrepend(PromptContext, fromContext, question);
    ContainsPrepend(PromptContext, fromContext, conversation);
    ContainsPrepend(name, PromptContext + fromContext, question);
    ContainsPrepend(name, PromptContext + fromContext, conversation);
    ContainsPrepend(PromptHead, fromName, name);
    ContainsPrepend(PromptHead, fromName, question);
    ContainsPrepend(PromptHead, fromName, conversation);
  }
}
