/**
 * The tournament chat (src/app/components/chatbot.tsx): the message list and
 * the input box, changed by sending a question and by the two report features.
 * Each handler runs to completion before the next one (the transition disables
 * the inputs); what the flow or the report answered is an input.
 */
module Chatbot {
  import opened Wrappers
  import opened Strings
  import opened HostedGeneration
  import opened ConversationFlow
  import opened FeatureFlows

  datatype Sender = User | Bot

  datatype ChatMessage = ChatMessage(sender: Sender, content: string)

  /** The tournament the chat is about, as the analysis form hands it over. */
  datatype TournamentDetails = TournamentDetails(name: string, link: string)

  const ForecastLoadingText := "Generating battle forecast..."

  /** The placeholder shown while a deep dive on `playerName` is generated. */
  function DeepDiveLoadingText(playerName: string): string
  {
    "Generating deep dive for " + playerName + "..."
  }

  /** One message as a history entry: a bot message as the model's, one text part. */
  function ToEntry(m: ChatMessage): HistoryEntry
  {
    HistoryEntry(if m.sender == User then UserRole else ModelRole, Some([m.content]))
  }

  function ChatHistory(ms: seq<ChatMessage>): (r: seq<HistoryEntry>)
    ensures |r| == |ms|
    ensures forall i :: 0 <= i < |ms| ==> r[i] == ToEntry(ms[i])
  {
    seq(|ms|, i requires 0 <= i < |ms| => ToEntry(ms[i]))
  }

  /** How a chat message reads in the flow's transcript. */
  function ChatLine(m: ChatMessage): string
  {
    (if m.sender == User then "User" else "Assistant") + ": " + m.content
  }

  /**
   * The flow's transcript of a chat is the last six messages (or all, when
   * fewer), each as one "User: " or "Assistant: " line with its text unchanged.
   */
  lemma ChatTranscriptLines(ms: seq<ChatMessage>)
    ensures var lines := Lines(RecentHistory(Some(ChatHistory(ms))));
            var k := if |ms| < HistoryWindow then |ms| else HistoryWindow;
            |lines| == k && forall i :: 0 <= i < k ==> lines[i] == ChatLine(ms[|ms| - k + i])
  {
    var k := if |ms| < HistoryWindow then |ms| else HistoryWindow;
    var lines := Lines(RecentHistory(Some(ChatHistory(ms))));
    ChatLinesLength(ms, k);
    forall i | 0 <= i < k
      ensures lines[i] == ChatLine(ms[|ms| - k + i])
    {
      ChatLineAt(ms, k, i);
    }
  }

  lemma ChatLinesLength(ms: seq<ChatMessage>, k: nat)
    requires k == (if |ms| < HistoryWindow then |ms| else HistoryWindow)
    ensures |Lines(RecentHistory(Some(ChatHistory(ms))))| == k
  {
  }

  lemma ChatLineAt(ms: seq<ChatMessage>, k: nat, i: nat)
    requires k == (if |ms| < HistoryWindow then |ms| else HistoryWindow) && i < k
    ensures |Lines(RecentHistory(Some(ChatHistory(ms))))| == k
    ensures Lines(RecentHistory(Some(ChatHistory(ms))))[i] == ChatLine(ms[|ms| - k + i])
  {
    var h := ChatHistory(ms);
    var recent := RecentHistory(Some(h));
    assert recent[i] == h[|h| - k + i];
    EntryLineOfMessage(ms[|ms| - k + i]);
  }

  lemma EntryLineOfMessage(m: ChatMessage)
    ensures EntryLine(ToEntry(m)) == ChatLine(m)
  {
    assert Join([m.content], " ") == m.content;
  }

  /** The question the user sends always reaches the transcript, so the placeholder never does. */
  lemma ChatTranscriptNotEmpty(ms: seq<ChatMessage>)
    requires ms != []
    ensures Transcript(Some(ChatHistory(ms))) != []
  {
    TranscriptEmptyIffNoHistory(Some(ChatHistory(ms)));
  }

  class Chat {
    const details: TournamentDetails
    var messages: seq<ChatMessage>
    var input: string

    constructor (details0: TournamentDetails, initialMessages: seq<ChatMessage>)
      ensures details == details0 && messages == initialMessages && input == ""
    {
      details := details0;
      messages := initialMessages;
      input := "";
    }

    /** Typing into the input box. */
    method SetInput(text: string)
      modifies this
      ensures input == text && messages == old(messages)
    {
      input := text;
    }

    /**
     * `handleSendMessage`: nothing for a blank input; otherwise the raw input is
     * appended as the user's message and cleared, and the flow is asked with the
     * whole list as history; its answer is appended, a failure takes the user's
     * message back off. `request` is what the flow was asked, if anything.
     */
    method HandleSendMessage(answer: Result<string, GenError>) returns (request: Option<Input>)
      modifies this
      ensures IsBlank(old(input)) ==> request.None? && messages == old(messages) && input == old(input)
      ensures !IsBlank(old(input)) ==>
                var sent := old(messages) + [ChatMessage(User, old(input))];
                && request == Some(Input(details.name, details.link, old(input), Some(ChatHistory(sent))))
                && input == ""
                && (answer.Success? ==> messages == sent + [ChatMessage(Bot, answer.value)])
                && (answer.Failure? ==> messages == old(messages))
    {
      if Trim(input) == "" {
        return None;
      }
      var userMessage := ChatMessage(User, input);
      var before := messages;
      messages := messages + [userMessage];
      var currentInput := input;
      input := "";
      request := Some(Input(details.name, details.link, currentInput, Some(ChatHistory(before + [userMessage]))));
      if answer.Success? {
        messages := messages + [ChatMessage(Bot, answer.value)];
      } else {
        messages := messages[..|messages| - 1];
      }
    }

    /**
     * `executeFeature`: a placeholder message from the user, which the report
     * replaces as the bot's message; a failure restores the list as it was
     * before the placeholder.
     */
    method ExecuteFeature(loadingMessage: string, report: Result<string, GenError>)
      returns (ghost pending: seq<ChatMessage>)
      modifies this
      ensures pending == old(messages) + [ChatMessage(User, loadingMessage)]
      ensures report.Success? ==> |messages| == |pending| && messages == pending[..|pending| - 1] + [ChatMessage(Bot, report.value)]
      ensures report.Success? ==> messages == old(messages) + [ChatMessage(Bot, report.value)]
      ensures report.Failure? ==> messages == old(messages)
      ensures input == old(input)
    {
      var snapshot := messages;
      messages := messages + [ChatMessage(User, loadingMessage)];
      pending := messages;
      if report.Success? {
        var updated := messages;
        updated := updated[|updated| - 1 := ChatMessage(Bot, report.value)];
        messages := updated;
      } else {
        messages := snapshot;
      }
    }

    /** `handleDeepDive(playerName)`: a deep dive on the player for this tournament. */
    method HandleDeepDive(playerName: string, report: Result<string, GenError>)
      returns (request: DeepDiveInput, ghost pending: seq<ChatMessage>)
      modifies this
      ensures request == DeepDiveInput(details.name, details.link, playerName)
      ensures pending == old(messages) + [ChatMessage(User, DeepDiveLoadingText(playerName))]
      ensures report.Success? ==> messages == old(messages) + [ChatMessage(Bot, report.value)]
      ensures report.Failure? ==> messages == old(messages)
      ensures input == old(input)
    {
      request := DeepDiveInput(details.name, details.link, playerName);
      pending := ExecuteFeature(DeepDiveLoadingText(playerName), report);
    }

    /** `handleBattleForecast()`: a forecast for this tournament's player. */
    method HandleBattleForecast(report: Result<string, GenError>)
      returns (request: ForecastInput, ghost pending: seq<ChatMessage>)
      modifies this
      ensures request == ForecastInput(details.name, details.link)
      ensures pending == old(messages) + [ChatMessage(User, ForecastLoadingText)]
      ensures report.Success? ==> messages == old(messages) + [ChatMessage(Bot, report.value)]
      ensures report.Failure? ==> messages == old(messages)
      ensures input == old(input)
    {
      request := ForecastInput(details.name, details.link);
      pending := ExecuteFeature(ForecastLoadingText, report);
    }
  }
}
