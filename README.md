# ziropilot: a Dafny model of its core logic

ziropilot is two small web front-ends. The first is an offline chatbot shell that runs a text-generation model in the browser. The second is a chess-tournament analysis chat that calls a hosted inference endpoint. This project models the logic under the screens of both, module by module:

- **Config** (`src/lib/config.ts`): looking up the API token, and masking it for display.
- **HostedGeneration** (`src/lib/generateText.ts`): the hosted text-generation client.
  - It validates the parameters up front and builds the request body.
  - The retry loop is a method. It runs over a scripted sequence of endpoint answers and records its fetches and sleeps in ghost logs.
  - It extracts the response text and strips instruction markers from it.
- **GenerationProperties**: what the retry loop guarantees.
  - It makes at most four attempts and returns at the first reply that carries text.
  - It sleeps 1000, 3000 and 7000 ms only after a 429 or 503, for at most 11000 ms in all.
  - It fails with the last attempt's error, and a persistent 400 is still tried four times.
- **SearchParams**: the query list of a URL, with `get` and `set` as the WHATWG URL Standard defines them.
- **ChessLinks** (`src/lib/chess-utils.ts`): `processChessLink`. This is an imperative double loop over rounds and list numbers, proved equal to a value-level expansion. Lemmas prove four things about that expansion: its shape, that it has no duplicates, that it keeps first-occurrence order, and which addresses it covers.
- **Strings**, **Json**, **Wrappers**: JavaScript's `trim`, `\s`, `join`, `slice`, `toString` and `parseInt(s, 10)`, JSON values and truthiness, and Option/Result.
- **UrlContent** (`src/ai/tools/get-url-content.ts`): a page fetch as a function of the network's answer.
- **ConversationFlow** (`src/ai/flows/analyze-chess-tournament.ts`) and **FeatureFlows** (`src/ai/flows/feature-flows.ts`): building the prompts, the context and the generation parameters, with proofs that every caller passes the client's validation.
- **BrowserModel** (`src/utils/ai.ts`): the browser model session, meaning the cached transformers module, ONNX set-up that runs once, the loaded pipeline and its model id, the progress callback mapping, and normalisation of the pipeline's result.
- **Storage** (`src/utils/storage.ts`): the model store in IndexedDB key order, and the messages and settings entries in localStorage.
- **AppShell** (`src/App.tsx`): the app state machine as a class whose fields are the component's state. It owns a `Store` and a `Session`.
- **Chatbot** (`src/app/components/chatbot.tsx`) and **AnalysisForm** (`src/app/components/chess-analysis-form.tsx`): the tournament chat and its form, as classes with one method per handler.

Remote calls are inputs: the fetch answers, the pipeline's output, the environment variable and the answer to `confirm()`. Each handler is one step that runs to completion. In `src/app/components/chatbot.tsx` and `src/app/components/chess-analysis-form.tsx` this matches the screens, which disable their inputs while a request is pending. In `src/App.tsx` it does not, because some controls stay enabled while a reply is pending (see "## Left out").

Where the code's behaviour is easy to mistake, the model follows the code:

- In the retry loop, every error thrown inside the `try` is caught, and the loop moves on without sleeping. This covers a non-retryable status, a malformed body, a fetch exception and a missing token (`src/lib/generateText.ts:58`, `:80-83`). So a 400 is tried four times, not once (`PersistentRejection`). A missing token does not abort before the loop: it costs four attempts, none of which fetches (`SendWithoutToken`). A network failure is retried without the backoff schedule.
- `cleanText` removes only a *leading* `[/INST]`. So `"[INST] hello [/INST] world"` becomes `"hello [/INST] world"`, not `"world"` (`CleanTextDropsLeadingOpen`).
- The final 429/503 errors carry only their message, not the status.

## Model

| member | source | states |
|---|---|---|
| Config.GetHfToken | src/lib/config.ts:3-9 | Succeeds exactly when the variable is set and not empty, with its value. Otherwise it fails with the "HUGGINGFACE_API_TOKEN is not set" message. |
| Config.MaskToken | src/lib/config.ts:11-15 | "***" for the empty token and any token under 8 characters. Otherwise the first four characters, "...", and the last four. The result is 3 or 11 long. |
| Config.MaskHidesShortTokens | src/lib/config.ts:12-13 | Any two tokens shorter than 8 characters have the same mask. |
| Config.MaskExposesAtMostEight | src/lib/config.ts:14 | Two long tokens that agree on their first and last four characters have the same mask. |
| HostedGeneration.Validate | src/lib/generateText.ts:15-46 | Succeeds exactly when the prompt is not blank, maxTokens (default 512) is in [1, 2048] and temperature (default 0.7) is in [0, 2]. The checks run in that order, each with its own error. The body carries the prompt, those values, topP (default 0.95, never checked), do_sample true and return_full_text false. |
| HostedGeneration.StripOpen | src/lib/generateText.ts:99 | When the text starts with `[INST]` in any case, the result is what follows the marker once the white-space run after it is removed. Only white space lies between the marker and the result, and the result starts with a non-space. Any other text is returned unchanged. |
| HostedGeneration.StripClose | src/lib/generateText.ts:100 | When the text, after its leading white space, starts with `[/INST]` in any case, the result is what follows the marker once the white-space run after it is removed. Only white space lies before the marker and between the marker and the result, and the result starts with a non-space. Any other text is returned unchanged. |
| HostedGeneration.CleanText | src/lib/generateText.ts:97-102 | The cleaned text is a suffix of the trimmed input and has no white space at either end. When the trimmed input starts with `[INST]` or `[/INST]` in any case, the result is shorter than the input by at least that marker. |
| HostedGeneration.ExtractText | src/lib/generateText.ts:89-95 | Succeeds exactly when `data` is an array whose first element is an object with a string `generated_text`, and returns that string cleaned. Otherwise it fails with "Unexpected response format". |
| HostedGeneration.AttemptStep | src/lib/generateText.ts:53-83 | An attempt ends by sleeping only before the last attempt, and then for the scheduled delay of its index. An error it raises is never a validation error. |
| HostedGeneration.Steps | src/lib/generateText.ts:52-83 | Gives one outcome for each of the four attempts, each decided by its own endpoint answer. Only an attempt before the last can sleep. |
| HostedGeneration.RunFrom | src/lib/generateText.ts:52-86 | From any attempt on, the loop makes at least one attempt and no more than remain. It sleeps fewer times than it attempts. |
| HostedGeneration.Send | src/lib/generateText.ts:52-86 | The loop makes one to four attempts and sleeps fewer times than it attempts. It never fails with a validation error. |
| HostedGeneration.Generation | src/lib/generateText.ts:19-87 | No attempt is made exactly when validation fails. Then the call fails with that error, with no fetch and no sleep. A validation error is the result exactly when validation fails. |
| HostedGeneration.TryAttempt | src/lib/generateText.ts:53-79 | The `try` of one attempt ends as `AttemptStep` says. It fetches once, with the token and the body, exactly when a token is set. |
| HostedGeneration.SendWithRetries | src/lib/generateText.ts:48-86 | For every script, the loop's result, attempt count, fetch log and sleep log equal those of the recursive reference `Send`. |
| HostedGeneration.GenerateText | src/lib/generateText.ts:19-86 | The whole call equals the reference `Generation`. A validation error is returned before any attempt, fetch or sleep. |
| GenerationProperties.RunFromFetches | src/lib/generateText.ts:52-61 | The loop makes between one and four attempts. Each makes the same single fetch, or none without a token. |
| GenerationProperties.RunFromSleeps | src/lib/generateText.ts:69-73 | The sleeps are exactly the delays of the attempts made that ended by sleeping, in order. |
| HostedGeneration.RunFromStops | src/lib/generateText.ts:63-67 | The loop ends at the first attempt that returns text, with finish reason "completed". Otherwise it ends after the last attempt, with that attempt's error. |
| GenerationProperties.RunFromFirstReturned | src/lib/generateText.ts:63-67 | When attempt k is the first that returns, the result is its text after k + 1 attempts. |
| GenerationProperties.RunFromNoneReturned | src/lib/generateText.ts:80-86 | When no attempt returns, all four attempts are made and the last one's error is thrown. |
| GenerationProperties.StepAt | src/lib/generateText.ts:53-79 | With a token, attempt k is decided by the endpoint's k-th answer. |
| GenerationProperties.DeliveringStep | src/lib/generateText.ts:63-66 | With a token, an attempt returns exactly when its answer is ok and yields text, and it returns that text. |
| GenerationProperties.SleepingStep | src/lib/generateText.ts:69-73 | With a token, an attempt sleeps exactly on a 429 or 503 before the last attempt. |
| GenerationProperties.LastStep | src/lib/generateText.ts:74-83 | The last attempt's error is the rate-limit or loading error for 429/503, the API error with status and body for any other status, the format error, or the thrown message. |
| GenerationProperties.StepsSleepAsScheduled | src/lib/generateText.ts:69-73 | Every attempt sleeps as scheduled: after a 429/503 that is not the last, for `retryDelays[k]`. |
| GenerationProperties.StepsReturnAsDelivered | src/lib/generateText.ts:63-66 | Every attempt returns exactly when its answer yields text. |
| GenerationProperties.SendWithoutToken | src/lib/generateText.ts:52-58 | Without a token, all four attempts throw the missing-token error. Nothing is fetched and nothing sleeps. |
| GenerationProperties.SendFetches | src/lib/generateText.ts:54-61 | With a token, every attempt fetches once from the endpoint, with the token and the validated body. |
| GenerationProperties.SendReturnsFirstText | src/lib/generateText.ts:63-67 | With a token, the first answer that yields text is returned at once, after k + 1 attempts. |
| GenerationProperties.SendFailsWithLastError | src/lib/generateText.ts:74-86 | With a token and no answer that yields text, all four attempts are made and the call fails with the last attempt's error. |
| GenerationProperties.SendSleeps | src/lib/generateText.ts:69-73 | With a token, the sleeps are the schedule's delays for each 429/503 among the attempts before the last. |
| GenerationProperties.LastAttemptNeverSleeps | src/lib/generateText.ts:70-75 | The last attempt adds no sleep. |
| GenerationProperties.TransientDelaysBound | src/lib/generateText.ts:49 | The 429/503 delays in a range of attempts number at most the range's size and sum to at most the schedule's tail. |
| GenerationProperties.SleepBudget | src/lib/generateText.ts:48-73 | Whatever the endpoint does, a call sleeps at most three times and at most 11000 ms in all. |
| GenerationProperties.TransientDelaysAll | src/lib/generateText.ts:49 | When every attempt before the last is a 429/503, the delays are the whole remaining schedule. |
| GenerationProperties.TransientDelaysNone | src/lib/generateText.ts:69 | When no attempt in a range is a 429/503, there are no delays. |
| GenerationProperties.LoadingThenReply | src/lib/generateText.ts:63-73 | Three 503s then a reply with text: four fetches, sleeps of 1000, 3000 and 7000 ms, then the text. |
| GenerationProperties.LoadingSleepsThroughSchedule | src/lib/generateText.ts:69-73 | 503s on the first three attempts give the sleeps 1000, 3000 and 7000, whatever the last attempt does. |
| GenerationProperties.AlwaysRateLimited | src/lib/generateText.ts:69-75 | Four 429s give four attempts, three sleeps of 1000, 3000 and 7000 ms, then the rate-limit error. |
| GenerationProperties.PersistentRejection | src/lib/generateText.ts:78-83 | A status the endpoint keeps answering, such as 400, is sent four times without sleeping and ends with that API error. |
| GenerationProperties.CleanTextWithoutMarker | src/lib/generateText.ts:97-102 | Text that does not start with a marker is only trimmed. |
| GenerationProperties.CleanTextDropsLeadingOpen | src/lib/generateText.ts:97-102 | Leading and trailing white space, then `[INST]` in any case and any white-space run after it, all go. A later `[/INST]` in the text is kept. |
| GenerationProperties.StripOpenMarker | src/lib/generateText.ts:99 | `[INST]` in any case, followed by any white-space run, goes, and exactly the rest is left. |
| GenerationProperties.StripCloseAbsent | src/lib/generateText.ts:100 | A text that does not start with `[/INST]` passes through the second replacement unchanged. |
| GenerationProperties.StripCloseMarker | src/lib/generateText.ts:100 | Any leading white-space run, `[/INST]` in any case and any white-space run after it all go, and exactly the rest is left. |
| GenerationProperties.CleanTextDropsLeadingClose | src/lib/generateText.ts:97-102 | `[/INST]` in any case, with any white space around it, goes from the front of a text, and exactly the rest is left. |
| GenerationProperties.CleanTextDropsBothMarkers | src/lib/generateText.ts:97-102 | `[INST]` and then `[/INST]`, in any case and with any white space around them, both go from the front of a text, and exactly the rest is left. |
| Strings.TrimStart | src/lib/generateText.ts:99 | The result is the suffix left after blank characters, and it starts with a non-space. |
| Strings.TrimEnd | src/lib/generateText.ts:98 | The result is the prefix left before blank characters, and it ends with a non-space. |
| Strings.Trim | src/lib/generateText.ts:27 | The result is empty exactly for a blank string, and otherwise has no white space at either end. |
| Strings.JoinSnoc | src/ai/flows/analyze-chess-tournament.ts:37 | Joining one more part appends the separator and that part. |
| Strings.NatToString | src/lib/chess-utils.ts:29 | A numeral is at least one digit, and a single digit exactly below 10. |
| Strings.NatToStringInjective | src/lib/chess-utils.ts:29-37 | Different numbers have different numerals. |
| Strings.DigitPrefix | src/lib/chess-utils.ts:14 | The longest prefix made of digits: what follows it is not a digit. |
| Strings.ParseIntDigits | src/lib/chess-utils.ts:14 | A non-empty string of digits parses as its value. |
| Strings.ParseIntNat | src/lib/chess-utils.ts:14 | `parseInt(String(n), 10)` is n for every natural n. |
| Strings.DigitsValueOfNat | src/lib/chess-utils.ts:14 | The value of n's numeral is n. |
| Strings.Take | src/ai/flows/feature-flows.ts:29 | `slice(0, n)` is the first min(n, length) elements. |
| SearchParams.Get | src/lib/chess-utils.ts:14 | `get(k)` is missing exactly when no pair is named k. |
| SearchParams.Without | src/lib/chess-utils.ts:29 | No pair named k is left, and the list gets no longer. |
| SearchParams.FindKey | src/lib/chess-utils.ts:13 | The name found is present and reads as the target up to case. |
| SearchParams.SetGet | src/lib/chess-utils.ts:29 | After `set(k, v)`, `get(k)` is v. |
| SearchParams.SetKeeps | src/lib/chess-utils.ts:27-37 | `set(k, v)` keeps every other name and its value. |
| SearchParams.SetTwice | src/lib/chess-utils.ts:28-37 | A second `set` of the same name overrides the first entirely. |
| SearchParams.SetCommute | src/lib/chess-utils.ts:28-37 | Setting a present name commutes with setting any other name. |
| SearchParams.WithoutKeeps | src/lib/chess-utils.ts:29 | Dropping the pairs named k leaves every other name alone. |
| SearchParams.ReplaceSets | src/lib/chess-utils.ts:29 | Replacing a present name gives it the new value. |
| SearchParams.ReplaceKeeps | src/lib/chess-utils.ts:29 | Replacing a name leaves every other name alone. |
| SearchParams.FindKeySetPresent | src/lib/chess-utils.ts:32-34 | Setting a present name does not move the case-insensitive match. |
| SearchParams.FindKeySetMissing | src/lib/chess-utils.ts:35-37 | Appending `art` when nothing matched makes it the match. |
| SearchParams.FindKeySetOther | src/lib/chess-utils.ts:28-32 | Setting a name that does not match leaves the match where it was. |
| SearchParams.FindKeyNoneMissing | src/lib/chess-utils.ts:32 | No match means no name equal to the target up to case is present. |
| ChessLinks.StartRound | src/lib/chess-utils.ts:13-19 | With no round key the expansion starts at round 1. |
| ChessLinks.StartOf | src/lib/chess-utils.ts:13-14 | Without a name matching "rd" in any case the start round is 1. Otherwise it is that name's value read with `parseInt`, an empty value reading as "1". |
| ChessLinks.WithRound | src/lib/chess-utils.ts:27-30 | With a round key the round number is written under it, and every other name keeps its value. Without one the query is unchanged. |
| ChessLinks.Apply | src/lib/chess-utils.ts:27-37 | The list number goes under the existing name matching "art" in any case, or under "art" when there is none. |
| ChessLinks.ArtKey | src/lib/chess-utils.ts:32-37 | The list number goes under the existing name that matches "art" up to case, or else under "art". |
| ChessLinks.Rounds | src/lib/chess-utils.ts:24-42 | Rounds hi down to lo give two queries each. |
| ChessLinks.Renders | src/lib/chess-utils.ts:39-40 | One printed address per query. |
| ChessLinks.RendersAt | src/lib/chess-utils.ts:39-40 | Address i is the printed query i. |
| ChessLinks.Dedup | src/lib/chess-utils.ts:45 | The result has no duplicates and holds exactly the strings of the input. |
| ChessLinks.FirstIndex | src/lib/chess-utils.ts:45 | The first position of a string: it sits there and not earlier. |
| ChessLinks.ExpandLink | src/lib/chess-utils.ts:7-52 | An unparsable address, or a round that is not a number, gives exactly `[url]`. A start round of 0 or below gives nothing. The result has no duplicates. |
| ChessLinks.ProcessLink | src/lib/chess-utils.ts:7-52 | The expansion through a URL library has no duplicates. |
| ChessLinks.ProcessChessLink | src/lib/chess-utils.ts:7-52 | The nested loops are run with the live `params` that each `search` assignment rewrites. They return exactly the value-level expansion. |
| ChessLinks.PushRound | src/lib/chess-utils.ts:26-41 | The inner loop appends round rd's standings, then its pairings. |
| ChessLinks.DeriveParams | src/lib/chess-utils.ts:27-37 | The copy of the query with the round and the list number written. |
| ChessLinks.RoundsFinished | src/lib/chess-utils.ts:24 | When the round counter drops below 1, every round down to 1 is done; with a start of 0 or below nothing is. |
| ChessLinks.LiveStep | src/lib/chess-utils.ts:27-39 | Deriving from the live query gives what deriving from the original gives. |
| ChessLinks.LiveApply | src/lib/chess-utils.ts:27-39 | Deriving for one round and list, then another, equals deriving the latter directly. |
| ChessLinks.WithRoundKeepsArt | src/lib/chess-utils.ts:28-32 | Writing the round does not move the "art" match. |
| ChessLinks.ArtKeyAfterSet | src/lib/chess-utils.ts:32-37 | After the list number is set, the "art" match is the name it was set under. |
| ChessLinks.ApplySetsKeys | src/lib/chess-utils.ts:27-37 | A derived query has the list number under the art name, the round under the round key, and every other parameter as it was. |
| ChessLinks.ApplyInjective | src/lib/chess-utils.ts:27-37 | Two derived queries are equal only for the same round and list. |
| ChessLinks.RoundsShape | src/lib/chess-utils.ts:24-42 | Position k holds round hi - k/2: standings at even positions, pairings at odd ones. |
| ChessLinks.RoundsDistinct | src/lib/chess-utils.ts:24-42 | With a round key all positions differ. Without one there is a single round, whose two lists differ. |
| ChessLinks.RendersDistinct | src/lib/chess-utils.ts:39-40 | When printing is injective, distinct queries give distinct addresses. |
| ChessLinks.DedupDistinct | src/lib/chess-utils.ts:45 | A list without duplicates comes back unchanged. |
| ChessLinks.DedupOrder | src/lib/chess-utils.ts:45 | The kept strings come in the order of their first occurrences. |
| ChessLinks.ExpandLinkAllRounds | src/lib/chess-utils.ts:24-45 | For start round N ≥ 1 and injective printing, the result is 2N addresses in order: round N down to 1, standings before pairings. |
| ChessLinks.ExpandLinkCovers | src/lib/chess-utils.ts:24-45 | An address is returned exactly when it is the printed form of one of the derived queries. |
| ChessLinks.RendersMembers | src/lib/chess-utils.ts:39-40 | The printed addresses are exactly the prints of the queries. |
| ChessLinks.EmptyRoundIsOne | src/lib/chess-utils.ts:14 | An empty round value counts as round 1. |
| ChessLinks.NumeralRoundStarts | src/lib/chess-utils.ts:14 | A numeral round value starts the expansion at that round. |
| UrlContent.Truncate | src/ai/tools/get-url-content.ts:10 | The first min(maxChars, length) characters. |
| UrlContent.ThrownText | src/ai/tools/get-url-content.ts:12 | The error's message when it is set and not empty, else `String(e)`. |
| UrlContent.FetchUrlContent | src/ai/tools/get-url-content.ts:3-14 | A body is cut to maxChars. A response that is not ok, or a thrown error, becomes a message naming the URL. |
| UrlContent.Pages | src/ai/flows/analyze-chess-tournament.ts:44 | One page per address. The page of a fetched body has at most maxChars characters. |
| UrlContent.PagesAppend | src/ai/flows/analyze-chess-tournament.ts:44 | Each page depends on its own address only: fetching two lists together gives the two lists of pages one after the other. |
| ConversationFlow.RecentHistory | src/ai/flows/analyze-chess-tournament.ts:31 | The last six entries, or all when there are fewer. A missing history counts as empty. |
| ConversationFlow.EntryLine | src/ai/flows/analyze-chess-tournament.ts:33-36 | A line is never empty, whatever the entry's parts: the speaker and ": " always lead it, even when the parts are missing. |
| ConversationFlow.Lines | src/ai/flows/analyze-chess-tournament.ts:32-37 | One line per entry, in order. |
| ConversationFlow.Transcript | src/ai/flows/analyze-chess-tournament.ts:31-37 | The transcript contains the line of each of the last six history entries. |
| ConversationFlow.JoinNonEmpty | src/ai/flows/analyze-chess-tournament.ts:37 | A join whose first part is not empty is not empty. |
| ConversationFlow.TranscriptEmptyIffNoHistory | src/ai/flows/analyze-chess-tournament.ts:31-37 | The transcript is empty, so the "(no prior conversation)" placeholder appears, exactly when there is no history. |
| ConversationFlow.ContextUrls | src/ai/flows/analyze-chess-tournament.ts:41-43 | No addresses without a link. Otherwise the first four of the expansion, in order. |
| ConversationFlow.Context | src/ai/flows/analyze-chess-tournament.ts:40-49 | Empty without a link. Otherwise it contains the page of each of the first four expanded addresses, each cut to 2000 characters. |
| ConversationFlow.Prompt | src/ai/flows/analyze-chess-tournament.ts:51-62 | The prompt opens with the assistant's role and "The user's name is ", and it contains the tournament context. |
| ConversationFlow.ConversationOptions | src/ai/flows/analyze-chess-tournament.ts:51-64 | The flow asks for 512 tokens at temperature 0.3 and leaves topP to its default. Its prompt contains the question and the context. |
| ConversationFlow.Answer | src/ai/flows/analyze-chess-tournament.ts:65 | The answer is the generated text unchanged, or the client's error. The two feature flows return their report the same way. |
| ConversationFlow.ContinueChessConversation | src/ai/flows/analyze-chess-tournament.ts:25-66 | The flow returns the answer for its options and fetches exactly the context addresses, none without a link. |
| ConversationFlow.ConversationPassesValidation | src/ai/flows/analyze-chess-tournament.ts:51-64 | For every input, the flow's options pass validation, as 512 tokens at temperature 0.3. |
| ConversationFlow.PromptNotBlank | src/ai/flows/analyze-chess-tournament.ts:51-62 | The prompt is never blank. |
| ConversationFlow.PromptCarriesInputs | src/ai/flows/analyze-chess-tournament.ts:51-62 | The prompt contains the name, the question, and the transcript or the placeholder. |
| FeatureFlows.FeatureUrls | src/ai/flows/feature-flows.ts:27-29 | The first six addresses of the expansion, in order. |
| FeatureFlows.NumberedFrom | src/ai/flows/feature-flows.ts:32-34 | One numbered page per page. |
| FeatureFlows.NumberedAt | src/ai/flows/feature-flows.ts:32-34 | Entry i is page i headed "URL {i+1}:". |
| FeatureFlows.NumberingDistinct | src/ai/flows/feature-flows.ts:32-35 | Page i is numbered i + 1, and no two pages share a number. |
| FeatureFlows.NumberedContextSnoc | src/ai/flows/feature-flows.ts:32-35 | One more page adds the separator and that page under the next number. |
| FeatureFlows.NumberedFromSnoc | src/ai/flows/feature-flows.ts:32-34 | Numbering one more page appends it under the next number. |
| FeatureFlows.NumberedContext | src/ai/flows/feature-flows.ts:32-35 | Empty for no pages. Otherwise it contains every page i under the heading "URL {i+1}:". |
| FeatureFlows.DeepDivePrompt | src/ai/flows/feature-flows.ts:37-52 | The prompt opens with the analyst's role and the report request, and it contains the context. |
| FeatureFlows.ForecastPrompt | src/ai/flows/feature-flows.ts:70-83 | The prompt opens with the analyst's role and the forecast request, and it contains the context. |
| FeatureFlows.DeepDiveOptions | src/ai/flows/feature-flows.ts:27-54 | The deep dive asks for 1024 tokens at temperature 0.5 and leaves topP to its default. Its prompt names the player and the author and contains the numbered pages of the first six addresses, each cut to 3000 characters. |
| FeatureFlows.ForecastOptions | src/ai/flows/feature-flows.ts:61-85 | The forecast asks for 768 tokens at temperature 0.4 and leaves topP to its default. Its prompt names the player and contains the numbered pages of the first six addresses, each cut to 2500 characters. |
| FeatureFlows.DeepDive | src/ai/flows/feature-flows.ts:24-56 | The endpoint is always tried, and a failed report fails with the endpoint's error, never a validation error. |
| FeatureFlows.BattleForecast | src/ai/flows/feature-flows.ts:58-87 | The endpoint is always tried, and a failed forecast fails with the endpoint's error, never a validation error. |
| FeatureFlows.OptionsPass | src/lib/generateText.ts:27-46 | Options with a non-blank prompt and in-range values pass validation as those values. |
| FeatureFlows.DeepDivePassesValidation | src/ai/flows/feature-flows.ts:37-54 | For every input, the deep dive's options pass validation, as 1024 tokens at temperature 0.5. |
| FeatureFlows.ForecastPassesValidation | src/ai/flows/feature-flows.ts:70-85 | For every input, the forecast's options pass validation, as 768 tokens at temperature 0.4. |
| FeatureFlows.DeepDivePromptNotBlank | src/ai/flows/feature-flows.ts:37-52 | The deep-dive prompt is never blank. |
| FeatureFlows.ForecastPromptNotBlank | src/ai/flows/feature-flows.ts:70-83 | The forecast prompt is never blank. |
| FeatureFlows.DeepDivePromptNames | src/ai/flows/feature-flows.ts:37-39 | The deep-dive prompt contains the player's name and the author's name. |
| FeatureFlows.ForecastPromptNames | src/ai/flows/feature-flows.ts:70-80 | The forecast prompt contains the name. |
| BrowserModel.ErrorText | src/utils/ai.ts:80 | An Error's message, else "Unknown error". |
| BrowserModel.ProgressReport | src/utils/ai.ts:66-70 | With a callback, a "progress" event with a value forwards that value and "done" forwards 1.0. Nothing else is forwarded. |
| BrowserModel.Reports | src/utils/ai.ts:63-71 | At most one report per event, and none without a callback. |
| BrowserModel.ReportsAppend | src/utils/ai.ts:63-71 | The reports of consecutive events are the reports of each part, in order. |
| BrowserModel.ReportsFromEvents | src/utils/ai.ts:66-70 | Every reported value is 1.0 or the value of a "progress" event. |
| BrowserModel.ReportsIgnoreOthers | src/utils/ai.ts:66-70 | Events with any other status report nothing. |
| BrowserModel.Normalize | src/utils/ai.ts:110-118 | An array whose first `generated_text` is truthy gives that text. Otherwise an object with a `generated_text` key gives its value. Anything else is "Unexpected response format from model". |
| BrowserModel.CallFor | src/utils/ai.ts:96-100 | The pipeline gets the prompt and the caller's options with defaults 0.7, 256 and true, and return_full_text false. |
| BrowserModel.Outcome | src/utils/ai.ts:93-122 | Every failure is rewrapped with "Failed to generate text: ". |
| BrowserModel.Session.constructor | src/utils/ai.ts:2-40 | Starts with no module, no ONNX set-up, no pipeline and no model id. |
| BrowserModel.Session.IsModelLoaded | src/utils/ai.ts:125-127 | True exactly when a pipeline is loaded. |
| BrowserModel.Session.GetCurrentModelId | src/utils/ai.ts:129-131 | A model id is recorded exactly when a pipeline is loaded. |
| BrowserModel.Session.GetTransformers | src/utils/ai.ts:20-37 | Returns the cached module when there is one. Otherwise ONNX set-up runs, but never twice, and the import is cached with remote models allowed and local ones refused. |
| BrowserModel.Configured | src/utils/ai.ts:31-34 | A module without an `env` is kept as imported. One with an `env` allows remote models and refuses local ones. |
| BrowserModel.Session.LoadModel | src/utils/ai.ts:48-82 | Does nothing for the model already loaded. Otherwise a success loads exactly that model. A failure clears only the pipeline and the model id, with a "Failed to load model: " error. The transformers module stays cached as `getTransformers` leaves it, and the progress reports are forwarded. |
| BrowserModel.Session.Generate | src/utils/ai.ts:84-123 | Refuses without a pipeline. Otherwise it calls the pipeline with the filled-in options and settles with the normalised outcome. |
| Storage.BelowIrreflexive | src/utils/storage.ts:67-71 | No key sorts before itself. |
| Storage.BelowTransitive | src/utils/storage.ts:67-71 | The key order is transitive. |
| Storage.BelowTotal | src/utils/storage.ts:67-71 | Any two different keys are ordered. |
| Storage.SortedCons | src/utils/storage.ts:55 | A key below every stored key can head a sorted store. |
| Storage.PutKeepsOrder | src/utils/storage.ts:55 | A put keeps the store in key order. Afterwards it holds the new record and every earlier record with a different key, and nothing else. |
| Storage.First | src/utils/storage.ts:71 | Nothing exactly for an empty store, else one of its records. |
| Storage.FirstIsLeast | src/utils/storage.ts:67-71 | In key order, the first record has the least key. |
| Storage.FirstAfterPut | src/utils/storage.ts:45-71 | After a save, the restored model is the saved one exactly when its id sorts before every other stored id. |
| Storage.Merge | src/utils/storage.ts:120 | Every stored field overrides the default, and a missing one keeps it. |
| Storage.MergeSaved | src/utils/storage.ts:114-120 | Settings read back after a save are the saved ones. |
| Storage.Store.constructor | src/utils/storage.ts:45-121 | The store as found. |
| Storage.Store.SaveModel | src/utils/storage.ts:45-60 | The model store after `put`, still in key order; the other entries are unchanged. |
| Storage.Store.GetStoredModel | src/utils/storage.ts:62-75 | Nothing for an empty store, else the model with the least id. |
| Storage.Store.ClearModel | src/utils/storage.ts:77-87 | Empties the model store only. |
| Storage.Store.SaveMessages | src/utils/storage.ts:89-91 | Reading the messages back gives what was saved. |
| Storage.Store.GetMessages | src/utils/storage.ts:93-96 | The stored messages, or none when the entry is absent. |
| Storage.Store.ClearMessages | src/utils/storage.ts:98-100 | Messages read back as none. |
| Storage.Store.SaveSettings | src/utils/storage.ts:114-116 | Reading the settings back gives what was saved. |
| Storage.Store.GetSettings | src/utils/storage.ts:108-121 | The defaults 0.7, 256 and dark mode when nothing is stored; otherwise the defaults overridden by the stored fields. |
| AppShell.MessageLines | src/App.tsx:88-89 | One "User: c" or "Assistant: c" line per message, in order. |
| AppShell.ChatPromptSnoc | src/App.tsx:88-90 | One more message adds its line, after a newline when others precede, before the "\nAssistant:" cue. |
| AppShell.ChatPromptEnds | src/App.tsx:88-90 | Every prompt ends with the "\nAssistant:" cue, and the last message's line comes right before it. |
| AppShell.SendCall | src/App.tsx:92-96 | The pipeline gets the prompt, the settings' temperature and token budget, sampling on and no echo. |
| AppShell.Reply | src/App.tsx:92-107 | A reply is stored exactly when a pipeline is loaded and generation gives a string, and it is trimmed. |
| AppShell.ProgressAfter | src/App.tsx:36-63 | The bar shows the last report as a percentage, or stays where it was. |
| AppShell.App.constructor | src/App.tsx:21-27 | Loading, no model, 0 progress, no messages, nothing pending, settings closed, settings from storage. |
| AppShell.App.InitApp | src/App.tsx:29-53 | With a stored model, the app names it and loads it. The chat opens at 100 with the stored messages exactly when the load succeeds; otherwise it falls back to the model selection. Without a stored model it goes to the selection. |
| AppShell.App.HandleModelSelect | src/App.tsx:55-72 | Names the model and loads it from 0. On success it saves the model and opens the chat at 100. On failure it alerts and returns to the selection, still naming the model. |
| AppShell.App.HandleSendMessage | src/App.tsx:74-114 | Appends and saves the user's message, prompts with the whole transcript, then appends and saves the trimmed reply. On failure it alerts, and the transcript ends with the user's message. Nothing is pending afterwards. |
| AppShell.App.HandleClearModel | src/App.tsx:116-125 | Confirmed: no model, no messages, back to the selection, settings closed. Unconfirmed: nothing changes. |
| AppShell.App.HandleClearChat | src/App.tsx:127-133 | Confirmed: no messages and settings closed, with the screen and the model unchanged. Unconfirmed: nothing changes. |
| AppShell.App.HandleSettingsChange | src/App.tsx:135-138 | Adopts the settings and saves them, so they read back as given. |
| Chatbot.ChatHistory | src/app/components/chatbot.tsx:55-58 | One entry per message, in order: "bot" as the model's role, with one text part. |
| Chatbot.ChatTranscriptLines | src/app/components/chatbot.tsx:55-65 | The flow's transcript of a chat is its last six messages, each as a "User: " or "Assistant: " line with its text unchanged. |
| Chatbot.ChatLineAt | src/app/components/chatbot.tsx:55-65 | Line i of that transcript is message \|ms\| - k + i. |
| Chatbot.EntryLineOfMessage | src/app/components/chatbot.tsx:56-57 | A message's history entry reads as its chat line. |
| Chatbot.ChatTranscriptNotEmpty | src/app/components/chatbot.tsx:55-65 | The history sent always contains the new question, so the transcript is never the placeholder. |
| Chatbot.Chat.constructor | src/app/components/chatbot.tsx:38-39 | The chat starts with the initial messages and an empty input. |
| Chatbot.Chat.SetInput | src/app/components/chatbot.tsx:212 | Typing changes the input only. |
| Chatbot.Chat.HandleSendMessage | src/app/components/chatbot.tsx:44-78 | A blank input changes nothing and asks nothing. Otherwise the raw input is appended and cleared, and the flow is asked with the whole list. The answer is appended; a failure removes the user's message. |
| Chatbot.Chat.ExecuteFeature | src/app/components/chatbot.tsx:80-106 | Appends a placeholder that the report replaces in place, so the length matches the pending list. A failure restores the list as it was before the placeholder. |
| Chatbot.Chat.HandleDeepDive | src/app/components/chatbot.tsx:108-110 | Asks for a deep dive on the player with this chat's name and link, under "Generating deep dive for {player}...". |
| Chatbot.Chat.HandleBattleForecast | src/app/components/chatbot.tsx:112-114 | Asks for a forecast with this chat's name and link, under "Generating battle forecast...". |
| AnalysisForm.EmptyQuestionRefused | src/app/components/chess-analysis-form.tsx:40-65 | The empty question of the defaults fails the schema. |
| AnalysisForm.LinkWithoutHostRefused | src/app/components/chess-analysis-form.tsx:34-39 | A link that does not mention "chess-results.com" fails the schema, whatever the URL check answers. |
| AnalysisForm.NoHyphenNoHost | src/app/components/chess-analysis-form.tsx:37 | A link with no hyphen cannot mention "chess-results.com". |
| AnalysisForm.HyphenFreeLinkRefused | src/app/components/chess-analysis-form.tsx:34-39 | Any link without a hyphen fails the link check and the whole schema, whatever `.url()` answers, because the site's name has one. |
| AnalysisForm.OtherSiteRefused | src/app/components/chess-analysis-form.tsx:34-39 | A form whose link is on another chess site is refused, even when that link is a well-formed URL. |
| AnalysisForm.Form.constructor | src/app/components/chess-analysis-form.tsx:54-65 | No details, no messages, not pending, default values. |
| AnalysisForm.Form.SetValues | src/app/components/chess-analysis-form.tsx:59-66 | Editing changes the values only. |
| AnalysisForm.Form.ShowsChat | src/app/components/chess-analysis-form.tsx:115-117 | The chat shows exactly when both the details and the messages are set. |
| AnalysisForm.Form.StartAnalysisWithQuestion | src/app/components/chess-analysis-form.tsx:68-93 | Asks the flow with an empty history. On success the chat opens with [question, answer]; a failure leaves the form as it was. It is not pending afterwards. |
| AnalysisForm.Form.OnSubmit | src/app/components/chess-analysis-form.tsx:95-99 | Nothing happens for an undefined or empty question. Otherwise the analysis starts with it. |
| AnalysisForm.Form.Submit | src/app/components/chess-analysis-form.tsx:32-99 | An invalid form starts nothing. A valid one starts exactly when the question is defined, and that question has at least 10 characters. |
| AnalysisForm.Form.HandleAnalyzeWithoutMessage | src/app/components/chess-analysis-form.tsx:101-112 | Only the name and the link are checked. When both pass, the chat opens with no messages. |
| AnalysisForm.Form.MountChat | src/app/components/chess-analysis-form.tsx:115-117 | A chat is mounted exactly when it shows, with the form's details and opening messages. |

## Left out

- I/O, time and concurrency.
  - The network, the pipeline download, the dynamic imports, IndexedDB, localStorage and `confirm()` are inputs (scripts, oracle functions and outcome parameters).
  - Sleeps are recorded as durations.
  - `Promise.all` is an ordered map.
  - React transitions and updater closures are sequential steps.
- Storage failures: a rejected `saveModel`, `clearModel` or IndexedDB open is not modelled. The store always succeeds, and JSON in localStorage reads back as what was written.
- Timestamps and message ids: `Date.now()` in records and messages is not modelled.
- Floating point:
  - Temperatures and progress values are `real`.
  - `progress * 100` is exact.
  - NaN is not a JSON number here, so its truthiness is not modelled.
- Text encoding:
  - Strings are sequences of Unicode characters, not UTF-16 code units, so lengths and slices differ from the source for characters outside the Basic Multilingual Plane.
  - Case-insensitive matching (the `rd`/`art` key lookup, and the `/i` marker patterns) is ASCII-only. This matters only for names that are not ASCII.
- The URL library: `new URL`, `toString` and zod's `.url()` are oracle parameters (`UrlCodec`, `isUrl`). `ChessLinks.ExpandLinkAllRounds` and `ChessLinks.RendersDistinct` assume printing is injective.
- AppShell.App.HandleClearChat, AppShell.App.HandleClearModel, AppShell.App.HandleSettingsChange: these can run in the source while `HandleSendMessage` waits for its reply. While a reply is pending, only the message box and the send button are disabled (`src/components/ChatInterface.tsx:124-129`). The settings button and the panel's Clear Chat and Delete Model buttons stay enabled. The model runs every handler to completion, one after another. So it does not capture a clear being undone when the reply lands: `src/App.tsx:105-107` then set and save the transcript from before the clear, plus the reply.
- ChessLinks.StartOf, ChessLinks.ProcessChessLink, Strings.ParseInt: the round number is an exact, unbounded integer. In the source, `parseInt` (`src/lib/chess-utils.ts:14`) returns a double. Above 2^53, `rd--` (`:24`) no longer changes `rd`, and a numeral of about 309 or more digits parses as `Infinity`. In both cases the source loop never ends, while the model returns two addresses per round.
- HostedGeneration.Validate: maxTokens is an integer and temperature a real. So a fractional token count such as 1.5 and NaN are not modelled. In JavaScript NaN passes both range checks, because every comparison with it is false. No caller in the core passes such values: the flows pass integer and finite constants.
- HostedGeneration.Send, HostedGeneration.Generation, HostedGeneration.RunFrom, FeatureFlows.DeepDive, FeatureFlows.BattleForecast: like `GenerateText`, these require a script of at least four endpoint answers, or a well-formed list of attempt outcomes.
- HostedGeneration.GenerateText: requires a script of at least four endpoint answers, one for each attempt that may reach the network. A shorter script would leave some attempt's answer undefined.
- The catch around the context at src/ai/flows/analyze-chess-tournament.ts:46-48 never fires: neither the expansion nor the page fetch throws. So the model has no error path there.
- ONNX details: `initializeONNX` is reduced to a counter of how often it ran. Its own failure is logged and swallowed in the source, so it changes nothing here.
- The streaming `onToken` callback of the browser pipeline is not modelled.
- Prompt templates are modelled as fixed literal pieces, and only their structure is proved: non-blank, containing the inputs, with the cue at the end. The literal wording is not verified.
- Alerts, toasts and console logging: alerts are returned as values; toasts and `console` calls are left out.
- Presentational components are not part of this model: the pages, ModelSelector, ChatInterface, chat-features, and SettingsPanel together with its `setSettingsOpen(true/false)` toggles.
- `isPending` of the chat (`useTransition`) is not a field: handlers run to completion.
- AnalysisForm.Form.StartAnalysisWithQuestion: the details it sets keep only the name and the link. The source also stores the question there, but nothing reads it.
- The form's field-level error messages are not modelled; only whether each field passes.
