/**
 * The report flows `deepDive` and `battleForecast`
 * (src/ai/flows/feature-flows.ts): the first six expanded tournament addresses,
 * their pages numbered into one context, and one call of the hosted client whose
 * text is the report.
 */
module FeatureFlows {
  import opened Wrappers
  import opened Strings
  import opened HostedGeneration
  import opened UrlContent
  import opened ChessLinks
  import ConversationFlow

  const FeatureUrlLimit: nat := 6
  const DeepDivePageChars: nat := 3000
  const ForecastPageChars: nat := 2500
  const DeepDiveMaxTokens: int := 1024
  const DeepDiveTemperature: real := 0.5
  const ForecastMaxTokens: int := 768
  const ForecastTemperature: real := 0.4

  datatype DeepDiveInput = DeepDiveInput(name: string, link: string, playerName: string)
  datatype ForecastInput = ForecastInput(name: string, link: string)

  /** The addresses fetched for a report: the first six of the expansion, in order. */
  function FeatureUrls(link: string, codec: UrlCodec): (r: seq<string>)
    ensures |r| <= FeatureUrlLimit
    ensures |r| == (if |ProcessLink(link, codec)| < FeatureUrlLimit then |ProcessLink(link, codec)| else FeatureUrlLimit)
    ensures r == ProcessLink(link, codec)[..|r|]
  {
    Take(ProcessLink(link, codec), FeatureUrlLimit)
  }

  /** Page `i` headed by its number, counting from 1. */
  function NumberedPage(i: nat, page: string): string
  {
    "URL " + NatToString(i + 1) + ":\n" + page
  }

  function NumberedFrom(pages: seq<string>, start: nat): (r: seq<string>)
    ensures |r| == |pages|
  {
    if pages == [] then [] else [NumberedPage(start, pages[0])] + NumberedFrom(pages[1..], start + 1)
  }

  /** Entry `i` of the numbering is page `i` under the number `start + i + 1`. */
  lemma {:induction false} NumberedAt(pages: seq<string>, start: nat, i: nat)
    requires i < |pages|
    ensures NumberedFrom(pages, start)[i] == NumberedPage(start + i, pages[i])
    decreases i
  {
    if i > 0 {
      NumberedAt(pages[1..], start + 1, i - 1);
    }
  }

  /** Every entry of the numbering is its page under its number. */
  lemma NumberedAll(pages: seq<string>, start: nat)
    ensures forall i :: 0 <= i < |pages| ==> NumberedFrom(pages, start)[i] == NumberedPage(start + i, pages[i])
  {
    forall i | 0 <= i < |pages|
      ensures NumberedFrom(pages, start)[i] == NumberedPage(start + i, pages[i])
    {
      NumberedAt(pages, start, i);
    }
  }

  /** The context of a report: the numbered pages separated by a rule. */
  function NumberedContext(pages: seq<string>): (r: string)
    ensures pages == [] ==> r == ""
    ensures forall i :: 0 <= i < |pages| ==> Contains(r, NumberedPage(i, pages[i]))
  {
    var numbered := NumberedFrom(pages, 0);
    NumberedAll(pages, 0);
    JoinContainsAll(numbered, PageSeparator);
    Join(numbered, PageSeparator)
  }

  /** The numeral after "URL " is the page's position plus one, and no two pages share one. */
  lemma NumberingDistinct(pages: seq<string>, i: nat, j: nat)
    requires i < |pages| && j < |pages| && i != j
    ensures NumberedFrom(pages, 0)[i] == "URL " + NatToString(i + 1) + ":\n" + pages[i]
    ensures NatToString(i + 1) != NatToString(j + 1)
  {
    NumberedAt(pages, 0, i);
    if NatToString(i + 1) == NatToString(j + 1) {
      NatToStringInjective(i + 1, j + 1);
    }
  }

  /** A numbered context of pages ends with the last page's text. */
  lemma {:induction false} NumberedContextSnoc(pages: seq<string>, page: string)
    requires pages != []
    ensures NumberedContext(pages + [page]) == NumberedContext(pages) + PageSeparator + NumberedPage(|pages|, page)
  {
    NumberedFromSnoc(pages, page, 0);
    JoinSnoc(NumberedFrom(pages, 0), NumberedPage(|pages|, page), PageSeparator);
  }

  lemma {:induction false} NumberedFromSnoc(pages: seq<string>, page: string, start: nat)
    ensures NumberedFrom(pages + [page], start) == NumberedFrom(pages, start) + [NumberedPage(start + |pages|, page)]
    decreases |pages|
  {
    if pages == [] {
      assert [page][1..] == [];
    } else {
      var longer := pages + [page];
      assert longer[0] == pages[0] && longer[1..] == pages[1..] + [page];
      NumberedFromSnoc(pages[1..], page, start + 1);
    }
  }

  /** The report prompt's opening sentence, the model's role. */
  const DeepDiveRole := ConversationFlow.RoleOpening + "a world-class chess analyst."
  const DeepDiveHead := DeepDiveRole + " Generate a detailed Deep Dive report for the player \""
  const DeepDiveAuthor := "\".\n\nAuthor name: "
  const DeepDiveContext := "\nSource: chess-results.com pages (HTML excerpts below). Focus on accuracy.\n\nContext (multiple rounds and pairings, truncated):\n---\n"
  const DeepDiveTail := "\n---\n\nWrite a well-structured markdown report including:\n1. Overall Performance (final rank, points, performance rating if available)\n2. Round-by-Round Breakdown (opponent, result, notable details)\n3. Key Game Analysis (1-2 crucial games)\n\nDo not mention that you are reading HTML or that content is truncated."

  function DeepDivePrompt(playerName: string, name: string, context: string): (r: string)
    ensures |DeepDiveHead| <= |r| && r[..|DeepDiveHead|] == DeepDiveHead
    ensures Contains(r, context)
  {
    ContainsStart(context, DeepDiveTail);
    ContainsPrepend(DeepDiveContext, context + DeepDiveTail, context);
    ContainsPrepend(name, DeepDiveContext + (context + DeepDiveTail), context);
    ContainsPrepend(DeepDiveAuthor, name + (DeepDiveContext + (context + DeepDiveTail)), context);
    ContainsPrepend(playerName, DeepDiveAuthor + (name + (DeepDiveContext + (context + DeepDiveTail))), context);
    ContainsPrepend(DeepDiveHead, playerName + (DeepDiveAuthor + (name + (DeepDiveContext + (context + DeepDiveTail)))), context);
    DeepDiveHead + (playerName + (DeepDiveAuthor + (name + (DeepDiveContext + (context + DeepDiveTail)))))
  }

  /** The forecast prompt's opening sentence, the model's role. */
  const ForecastRole := ConversationFlow.RoleOpening + "a chess analyst with a knack for prediction."
  const ForecastHead := ForecastRole + " Generate a \"Battle Forecast\" for "
  const ForecastContext := " based on current tournament context below.\n\nContext (standings/pairings excerpts, truncated):\n---\n"
  const ForecastTasks := "\n---\n\nTasks:\n- Determine current standings and scores (as available in context)\n- Apply Swiss pairing logic at a high level (similar scores play, avoid rematches)\n- List the top 3 most likely opponents for "
  const ForecastTail := "\n- For each, provide a one-sentence summary of their strength or recent performance\n\nOutput a clean, well-formatted markdown section starting with the heading: \"Battle Forecast\"."

  function ForecastPrompt(name: string, context: string): (r: string)
    ensures |ForecastHead| <= |r| && r[..|ForecastHead|] == ForecastHead
    ensures Contains(r, context)
  {
    var fromContext := context + (ForecastTasks + (name + ForecastTail));
    ContainsStart(context, ForecastTasks + (name + ForecastTail));
    ContainsPrepend(ForecastContext, fromContext, context);
    ContainsPrepend(name, ForecastContext + fromContext, context);
    ContainsPrepend(ForecastHead, name + (ForecastContext + fromContext), context);
    ForecastHead + (name + (ForecastContext + fromContext))
  }

  /**
   * The deep dive asks for 1024 tokens at temperature 0.5, with a prompt that
   * names the player and the author and carries the numbered pages of the
   * first six addresses, 3000 characters each at most.
   */
  function DeepDiveOptions(input: DeepDiveInput, codec: UrlCodec, net: string -> FetchOutcome): (r: Options)
    ensures r.maxTokens == Some(DeepDiveMaxTokens) && r.temperature == Some(DeepDiveTemperature) && r.topP.None?
    ensures Contains(r.prompt, input.playerName) && Contains(r.prompt, input.name)
    ensures Contains(r.prompt, NumberedContext(Pages(FeatureUrls(input.link, codec), DeepDivePageChars, net)))
  {
    var pages := Pages(FeatureUrls(input.link, codec), DeepDivePageChars, net);
    DeepDivePromptNames(input.playerName, input.name, NumberedContext(pages));
    Options(DeepDivePrompt(input.playerName, input.name, NumberedContext(pages)), Some(DeepDiveMaxTokens), Some(DeepDiveTemperature), None)
  }

  /**
   * The forecast asks for 768 tokens at temperature 0.4, with a prompt that
   * names the player and carries the numbered pages of the first six
   * addresses, 2500 characters each at most.
   */
  function ForecastOptions(input: ForecastInput, codec: UrlCodec, net: string -> FetchOutcome): (r: Options)
    ensures r.maxTokens == Some(ForecastMaxTokens) && r.temperature == Some(ForecastTemperature) && r.topP.None?
    ensures Contains(r.prompt, input.name)
    ensures Contains(r.prompt, NumberedContext(Pages(FeatureUrls(input.link, codec), ForecastPageChars, net)))
  {
    var pages := Pages(FeatureUrls(input.link, codec), ForecastPageChars, net);
    ForecastPromptNames(input.name, NumberedContext(pages));
    Options(ForecastPrompt(input.name, NumberedContext(pages)), Some(ForecastMaxTokens), Some(ForecastTemperature), None)
  }

  /** Options that pass validation reach the endpoint, and the report fails only with the endpoint's error. */
  lemma ValidatedReport(o: Options, env: Option<string>, script: seq<Attempt>)
    requires |script| > MaxRetries && Validate(o).Success?
    ensures Generation(o, env, script).attempts >= 1
    ensures ConversationFlow.Answer(Generation(o, env, script)).Failure? ==>
              !IsValidationError(ConversationFlow.Answer(Generation(o, env, script)).error)
  {
  }

  /**
   * `deepDive(input)`: the report is the generated text. Its options always pass
   * validation, so the endpoint is always tried and a failure is the endpoint's.
   */
  function DeepDive(input: DeepDiveInput, codec: UrlCodec, net: string -> FetchOutcome,
                    env: Option<string>, script: seq<Attempt>): (r: Result<string, GenError>)
    requires |script| > MaxRetries
    ensures Generation(DeepDiveOptions(input, codec, net), env, script).attempts >= 1
    ensures r.Failure? ==> !IsValidationError(r.error)
  {
    DeepDivePassesValidation(input, codec, net);
    ValidatedReport(DeepDiveOptions(input, codec, net), env, script);
    ConversationFlow.Answer(Generation(DeepDiveOptions(input, codec, net), env, script))
  }

  /**
   * `battleForecast(input)`: the report is the generated text. Its options always
   * pass validation, so the endpoint is always tried and a failure is the endpoint's.
   */
  function BattleForecast(input: ForecastInput, codec: UrlCodec, net: string -> FetchOutcome,
                          env: Option<string>, script: seq<Attempt>): (r: Result<string, GenError>)
    requires |script| > MaxRetries
    ensures Generation(ForecastOptions(input, codec, net), env, script).attempts >= 1
    ensures r.Failure? ==> !IsValidationError(r.error)
  {
    ForecastPassesValidation(input, codec, net);
    ValidatedReport(ForecastOptions(input, codec, net), env, script);
    ConversationFlow.Answer(Generation(ForecastOptions(input, codec, net), env, script))
  }

  lemma DeepDivePromptNotBlank(playerName: string, name: string, context: string)
    ensures !IsBlank(DeepDivePrompt(playerName, name, context))
  {
    assert DeepDiveHead[0] == ConversationFlow.RoleOpening[0] == 'Y';
    NotBlankAfterHead(DeepDiveHead, playerName + (DeepDiveAuthor + (name + (DeepDiveContext + (context + DeepDiveTail)))));
  }

  lemma ForecastPromptNotBlank(name: string, context: string)
    ensures !IsBlank(ForecastPrompt(name, context))
  {
    assert ForecastHead[0] == ConversationFlow.RoleOpening[0] == 'Y';
    NotBlankAfterHead(ForecastHead, name + (ForecastContext + (context + (ForecastTasks + (name + ForecastTail)))));
  }

  /** Options with a non-blank prompt and the given token budget and temperature pass as those. */
  lemma OptionsPass(prompt: string, maxTokens: int, temperature: real)
    requires !IsBlank(prompt) && 1 <= maxTokens <= 2048 && 0.0 <= temperature <= 2.0
    ensures Validate(Options(prompt, Some(maxTokens), Some(temperature), None)).Success?
    ensures Validate(Options(prompt, Some(maxTokens), Some(temperature), None)).value.maxNewTokens == maxTokens
    ensures Validate(Options(prompt, Some(maxTokens), Some(temperature), None)).value.temperature == temperature
  {
    var o := Options(prompt, Some(maxTokens), Some(temperature), None);
    assert MaxTokensOf(o) == maxTokens && TemperatureOf(o) == temperature;
  }

  /** The deep dive's options pass the client's validation as 1024 tokens at temperature 0.5. */
  lemma DeepDivePassesValidation(input: DeepDiveInput, codec: UrlCodec, net: string -> FetchOutcome)
    ensures Validate(DeepDiveOptions(input, codec, net)).Success?
    ensures Validate(DeepDiveOptions(input, codec, net)).value.maxNewTokens == DeepDiveMaxTokens
    ensures Validate(DeepDiveOptions(input, codec, net)).value.temperature == DeepDiveTemperature
  {
    var context := NumberedContext(Pages(FeatureUrls(input.link, codec), DeepDivePageChars, net));
    var prompt := DeepDivePrompt(input.playerName, input.name, context);
    DeepDivePromptNotBlank(input.playerName, input.name, context);
    OptionsPass(prompt, DeepDiveMaxTokens, DeepDiveTemperature);
  }

  /** The forecast's options pass the client's validation as 768 tokens at temperature 0.4. */
  lemma ForecastPassesValidation(input: ForecastInput, codec: UrlCodec, net: string -> FetchOutcome)
    ensures Validate(ForecastOptions(input, codec, net)).Success?
    ensures Validate(ForecastOptions(input, codec, net)).value.maxNewTokens == ForecastMaxTokens
    ensures Validate(ForecastOptions(input, codec, net)).value.temperature == ForecastTemperature
  {
    var context := NumberedContext(Pages(FeatureUrls(input.link, codec), ForecastPageChars, net));
    var prompt := ForecastPrompt(input.name, context);
    ForecastPromptNotBlank(input.name, context);
    OptionsPass(prompt, ForecastMaxTokens, ForecastTemperature);
  }

  /** The deep-dive prompt names the player and the author. */
  lemma DeepDivePromptNames(playerName: string, name: string, context: string)
    ensures Contains(DeepDivePrompt(playerName, name, context), playerName)
    ensures Contains(DeepDivePrompt(playerName, name, context), name)
  {
    var fromName := name + (DeepDiveContext + (context + DeepDiveTail));
    ContainsStart(name, DeepDiveContext + (context + DeepDiveTail));
    ContainsPrepend(DeepDiveAuthor, fromName, name);
    var fromPlayer := playerName + (DeepDiveAuthor + fromName);
    ContainsStart(playerName, DeepDiveAuthor + fromName);
    ContainsPrepend(playerName, DeepDiveAuthor + fromName, name);
    ContainsPrepend(DeepDiveHead, fromPlayer, playerName);
    ContainsPrepend(DeepDiveHead, fromPlayer, name);
  }

  /** The forecast prompt names the player it forecasts for. */
  lemma ForecastPromptNames(name: string, context: string)
    ensures Contains(ForecastPrompt(name, context), name)
  {
    ContainsStart(name, ForecastContext + (context + (ForecastTasks + (name + ForecastTail))));
    ContainsPrepend(ForecastHead, name + (ForecastContext + (context + (ForecastTasks + (name + ForecastTail)))), name);
  }
}
