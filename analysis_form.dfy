/**
 * The tournament form (src/app/components/chess-analysis-form.tsx): its
 * validation schema, the two ways of starting a chat (with an opening question,
 * answered by the conversation flow, or without one) and the switch from the
 * form to the chat. Whether a string is a URL and what the flow answers are
 * inputs.
 */
module AnalysisForm {
  import opened Wrappers
  import opened Strings
  import opened HostedGeneration
  import opened ConversationFlow
  import opened Chatbot

  const ResultsHost := "chess-results.com"
  const MinQuestionLength: nat := 10

  /** The form's fields; `question` is `None` when the field is undefined. */
  datatype FormValues = FormValues(name: string, link: string, question: Option<string>)

  const DefaultValues := FormValues("", "", Some(""))

  // ---------------------------------------------------------------------------
  // The schema

  predicate ValidName(name: string)
  {
    |name| >= 1
  }

  predicate ValidLink(link: string, isUrl: string -> bool)
  {
    isUrl(link) && Contains(link, ResultsHost)
  }

  predicate ValidQuestion(question: Option<string>)
  {
    question.None? || |question.value| >= MinQuestionLength
  }

  predicate FormValid(v: FormValues, isUrl: string -> bool)
  {
    ValidName(v.name) && ValidLink(v.link, isUrl) && ValidQuestion(v.question)
  }

  /**
   * The schema rejects an empty question, present as the empty string: the
   * defaults never pass, and a form submitted without a question is refused
   * (only the analyse-without-message button opens a chat then).
   */
  lemma EmptyQuestionRefused(v: FormValues, isUrl: string -> bool)
    requires v.question == Some("")
    ensures !FormValid(v, isUrl)
  {
  }

  /**
   * The site check is independent of the URL check: a link that does not
   * mention the site fails the schema, and neither opens a chat, whatever the
   * URL check answers.
   */
  lemma LinkWithoutHostRefused(v: FormValues, isUrl: string -> bool)
    requires !Contains(v.link, ResultsHost)
    ensures !ValidLink(v.link, isUrl) && !FormValid(v, isUrl)
  {
  }

  /** The site's name has a hyphen, so a link without one never mentions it. */
  lemma {:induction false} NoHyphenNoHost(link: string)
    requires forall k :: 0 <= k < |link| ==> link[k] != '-'
    ensures !Contains(link, ResultsHost)
  {
    forall i | 0 <= i <= |link| - |ResultsHost|
      ensures !OccursAt(link, ResultsHost, i)
    {
      if i + |ResultsHost| <= |link| {
        assert link[i..i + |ResultsHost|][5] == link[i + 5] != ResultsHost[5];
      }
    }
  }

  /** A link without a hyphen is refused, whatever the URL check answers. */
  lemma HyphenFreeLinkRefused(v: FormValues, isUrl: string -> bool)
    requires forall k :: 0 <= k < |v.link| ==> v.link[k] != '-'
    ensures !ValidLink(v.link, isUrl) && !FormValid(v, isUrl)
  {
    NoHyphenNoHost(v.link);
  }

  /** A valid URL on another chess site is refused, even though it is a URL. */
  lemma OtherSiteRefused(name: string, question: Option<string>, isUrl: string -> bool)
    ensures !FormValid(FormValues(name, "https://lichess.org/broadcast/round", question), isUrl)
  {
    var v := FormValues(name, "https://lichess.org/broadcast/round", question);
    assert forall k :: 0 <= k < |v.link| ==> v.link[k] != '-';
    HyphenFreeLinkRefused(v, isUrl);
  }

  // ---------------------------------------------------------------------------
  // The component state

  class Form {
    var tournamentDetails: Option<TournamentDetails>
    var initialMessages: Option<seq<ChatMessage>>
    var isPending: bool
    /** What the form's fields hold. */
    var values: FormValues

    constructor ()
      ensures tournamentDetails.None? && initialMessages.None? && !isPending && values == DefaultValues
    {
      tournamentDetails := None;
      initialMessages := None;
      isPending := false;
      values := DefaultValues;
    }

    /** Editing the fields. */
    method SetValues(v: FormValues)
      modifies this
      ensures values == v
      ensures tournamentDetails == old(tournamentDetails) && initialMessages == old(initialMessages) && isPending == old(isPending)
    {
      values := v;
    }

    /** The chat replaces the form once both the details and the opening messages are set. */
    function ShowsChat(): (r: bool)
      reads this
      ensures r <==> tournamentDetails.Some? && initialMessages.Some?
    {
      tournamentDetails.Some? && initialMessages.Some?
    }

    /**
     * `startAnalysisWithQuestion(details, question)`: the flow asked with no
     * history; its answer opens the chat after the question, a failure leaves
     * the form as it was. `request` is what the flow was asked.
     */
    method StartAnalysisWithQuestion(details: TournamentDetails, question: string, answer: Result<string, GenError>)
      returns (request: Input)
      modifies this
      ensures request == Input(details.name, details.link, question, Some([]))
      ensures answer.Success? ==>
                initialMessages == Some([ChatMessage(User, question), ChatMessage(Bot, answer.value)])
                && tournamentDetails == Some(details) && ShowsChat()
      ensures answer.Failure? ==> initialMessages == old(initialMessages) && tournamentDetails == old(tournamentDetails)
      ensures !isPending && values == old(values)
    {
      isPending := true;
      request := Input(details.name, details.link, question, Some([]));
      if answer.Success? {
        initialMessages := Some([ChatMessage(User, question), ChatMessage(Bot, answer.value)]);
        tournamentDetails := Some(details);
      }
      isPending := false;
    }

    /** `onSubmit(v)`: starts the analysis only when the question is a non-empty string. */
    method OnSubmit(v: FormValues, answer: Result<string, GenError>) returns (request: Option<Input>)
      modifies this
      ensures v.question.None? || v.question.value == "" ==>
                request.None? && tournamentDetails == old(tournamentDetails)
                && initialMessages == old(initialMessages) && isPending == old(isPending)
      ensures v.question.Some? && v.question.value != "" ==>
                var q := v.question.value;
                && request == Some(Input(v.name, v.link, q, Some([])))
                && (answer.Success? ==>
                      initialMessages == Some([ChatMessage(User, q), ChatMessage(Bot, answer.value)])
                      && tournamentDetails == Some(TournamentDetails(v.name, v.link)))
                && (answer.Failure? ==> initialMessages == old(initialMessages) && tournamentDetails == old(tournamentDetails))
                && !isPending
      ensures values == old(values)
    {
      request := None;
      if v.question.Some? && v.question.value != "" {
        var r := StartAnalysisWithQuestion(TournamentDetails(v.name, v.link), v.question.value, answer);
        request := Some(r);
      }
    }

    /**
     * Submitting the form: the schema first, then `onSubmit` with the fields'
     * values. A chat started this way always opens with a question of at least
     * ten characters; a valid form whose question is undefined starts nothing.
     */
    method Submit(isUrl: string -> bool, answer: Result<string, GenError>) returns (request: Option<Input>)
      modifies this
      ensures !FormValid(old(values), isUrl) ==> request.None?
      ensures request.None? ==>
                tournamentDetails == old(tournamentDetails)
                && initialMessages == old(initialMessages) && isPending == old(isPending)
      ensures request.Some? ==>
                FormValid(values, isUrl) && values.question.Some?
                && request == Some(Input(values.name, values.link, values.question.value, Some([])))
                && |request.value.question| >= MinQuestionLength
      ensures FormValid(old(values), isUrl) ==> (request.Some? <==> old(values).question.Some?)
      ensures request.Some? && answer.Success? ==>
                initialMessages == Some([ChatMessage(User, request.value.question), ChatMessage(Bot, answer.value)])
                && tournamentDetails == Some(TournamentDetails(values.name, values.link))
      ensures request.Some? && answer.Failure? ==>
                initialMessages == old(initialMessages) && tournamentDetails == old(tournamentDetails)
      ensures values == old(values)
    {
      request := None;
      if FormValid(values, isUrl) {
        request := OnSubmit(values, answer);
      }
    }

    /**
     * `handleAnalyzeWithoutMessage()`: only the name and the link are checked;
     * when both pass the chat opens with no messages, whatever the question holds.
     */
    method HandleAnalyzeWithoutMessage(isUrl: string -> bool)
      modifies this
      ensures ValidName(values.name) && ValidLink(values.link, isUrl) ==>
                tournamentDetails == Some(TournamentDetails(values.name, values.link))
                && initialMessages == Some([]) && !isPending && ShowsChat()
      ensures !(ValidName(values.name) && ValidLink(values.link, isUrl)) ==>
                tournamentDetails == old(tournamentDetails) && initialMessages == old(initialMessages)
                && isPending == old(isPending)
      ensures values == old(values)
    {
      if ValidName(values.name) && ValidLink(values.link, isUrl) {
        isPending := true;
        tournamentDetails := Some(TournamentDetails(values.name, values.link));
        initialMessages := Some([]);
        isPending := false;
      }
    }

    /** The chat the form renders once both are set, started with the details and the opening messages. */
    method MountChat() returns (chat: Option<Chat>)
      ensures chat.Some? <==> ShowsChat()
      ensures chat.Some? ==>
                fresh(chat.value) && chat.value.details == tournamentDetails.value
                && chat.value.messages == initialMessages.value && chat.value.input == ""
    {
      if tournamentDetails.Some? && initialMessages.Some? {
        var c := new Chat(tournamentDetails.value, initialMessages.value);
        chat := Some(c);
      } else {
        chat := None;
      }
    }
  }
}
