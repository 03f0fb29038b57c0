/**
 * The app shell (src/App.tsx): which screen shows, the chosen model, the
 * download progress, the chat transcript and the settings, as the start-up
 * effect and the handlers change them. Each handler runs to completion as one
 * step; the source lets the settings and clear handlers run while a reply is
 * still pending, which is not modelled. The download, the pipeline's answer
 * and the user's answer to `confirm()` are inputs.
 */
module AppShell {
  import opened Wrappers
  import opened Strings
  import opened Json
  import opened Storage
  import opened BrowserModel

  /** `'loading' | 'model-selection' | 'downloading' | 'chat'`. */
  datatype AppState = Loading | ModelSelection | Downloading | ChatScreen

  const DownloadFailedAlert := "Failed to download model. Please try again."
  const GenerationFailedAlert := "Failed to generate response. Please try again."
  const ReplyCue := "\nAssistant:"

  // ---------------------------------------------------------------------------
  // The chat prompt

  function MessageLine(m: Message): string
  {
    (if m.role == UserMessage then "User" else "Assistant") + ": " + m.content
  }

  function MessageLines(ms: seq<Message>): (r: seq<string>)
    ensures |r| == |ms|
    ensures forall i :: 0 <= i < |ms| ==> r[i] == MessageLine(ms[i])
  {
    if ms == [] then [] else [MessageLine(ms[0])] + MessageLines(ms[1..])
  }

  /** The prompt for the local model: one line per message, then the assistant's cue. */
  function ChatPrompt(ms: seq<Message>): string
  {
    Join(MessageLines(ms), "\n") + ReplyCue
  }

  /**
   * The prompt of a transcript one message longer is the shorter transcript's
   * lines, a new line for the added message, and the same cue.
   */
  lemma {:induction false} ChatPromptSnoc(ms: seq<Message>, m: Message)
    ensures ms == [] ==> ChatPrompt(ms + [m]) == MessageLine(m) + ReplyCue
    ensures ms != [] ==> ChatPrompt(ms + [m]) == Join(MessageLines(ms), "\n") + "\n" + MessageLine(m) + ReplyCue
  {
    assert MessageLines(ms + [m]) == MessageLines(ms) + [MessageLine(m)];
    if ms != [] {
      JoinSnoc(MessageLines(ms), MessageLine(m), "\n");
    }
  }

  /** Every prompt ends with the cue, and the last message's line comes right before it. */
  lemma ChatPromptEnds(ms: seq<Message>)
    ensures |ChatPrompt(ms)| >= |ReplyCue|
    ensures ChatPrompt(ms)[|ChatPrompt(ms)| - |ReplyCue|..] == ReplyCue
    ensures ms != [] ==>
              var line := MessageLine(ms[|ms| - 1]);
              |ChatPrompt(ms)| >= |line| + |ReplyCue|
              && ChatPrompt(ms)[|ChatPrompt(ms)| - |ReplyCue| - |line|..|ChatPrompt(ms)| - |ReplyCue|] == line
  {
    var p := ChatPrompt(ms);
    assert p[|p| - |ReplyCue|..] == ReplyCue;
    if ms != [] {
      var init := ms[..|ms| - 1];
      var last := ms[|ms| - 1];
      assert ms == init + [last];
      ChatPromptSnoc(init, last);
      var before := if init == [] then "" else Join(MessageLines(init), "\n") + "\n";
      assert p == before + MessageLine(last) + ReplyCue;
    }
  }

  /** The options the shell passes: the settings' temperature and token budget, sampling on. */
  function SendOptions(s: AppSettings): GenerateOptions
  {
    GenerateOptions(Some(s.temperature), Some(s.maxTokens), Some(true))
  }

  /** The pipeline sees the prompt, the settings' values, sampling on and no echo of the prompt. */
  lemma SendCall(ms: seq<Message>, s: AppSettings)
    ensures CallFor(ChatPrompt(ms), SendOptions(s)) == PipelineCall(ChatPrompt(ms), s.temperature, s.maxTokens, true, false)
  {
  }

  /**
   * The assistant's reply to store, given whether a pipeline is loaded and what
   * it answered: the trimmed text, or nothing when generation failed or its
   * result is not a string (on which `trim` throws).
   */
  function Reply(loaded: bool, outcome: Result<Json, Thrown>): (r: Option<string>)
    ensures r.Some? <==> loaded && Outcome(outcome).Success? && Outcome(outcome).value.JString?
    ensures r.Some? ==> r.value == Trim(Outcome(outcome).value.s)
  {
    var g := Outcome(outcome);
    if loaded && g.Success? && g.value.JString? then Some(Trim(g.value.s)) else None
  }

  /** The progress bar after the download reports `reported`: the last report as a percentage. */
  function ProgressAfter(current: real, reported: seq<real>): (r: real)
    ensures reported == [] ==> r == current
    ensures reported != [] ==> r == reported[|reported| - 1] * 100.0
  {
    if reported == [] then current else reported[|reported| - 1] * 100.0
  }

  // ---------------------------------------------------------------------------
  // The component state

  class App {
    var appState: AppState
    var currentModel: Option<string>
    var downloadProgress: real
    var messages: seq<Message>
    var isGenerating: bool
    var settingsOpen: bool
    var settings: AppSettings
    /** The browser's storage. */
    const store: Store
    /** The module state of src/utils/ai.ts. */
    const session: Session

    /**
     * Between handlers nothing is pending, and the chat shows only while the
     * session serves exactly the model the shell names.
     */
    ghost predicate Valid()
      reads this, store, session
    {
      && store.Valid() && session.Valid()
      && appState != Downloading && !isGenerating
      && (appState == ChatScreen ==> currentModel.Some? && session.generator == Some(Generator(currentModel.value)))
    }

    constructor (store0: Store, session0: Session)
      requires store0.Valid() && session0.Valid()
      ensures Valid()
      ensures store == store0 && session == session0
      ensures appState == Loading && currentModel.None? && downloadProgress == 0.0
      ensures messages == [] && !isGenerating && !settingsOpen && settings == store0.GetSettings()
    {
      store := store0;
      session := session0;
      appState := Loading;
      currentModel := None;
      downloadProgress := 0.0;
      messages := [];
      isGenerating := false;
      settingsOpen := false;
      settings := store0.GetSettings();
    }

    /**
     * The start-up effect: with a stored model, name it and load it; the chat
     * opens with the stored messages when it loads, the model selection when it
     * fails. Without a stored model, the model selection.
     */
    method InitApp(imported: Result<Transformers, Thrown>, events: seq<ProgressEvent>, pipeline: Result<(), Thrown>)
      returns (ghost reported: seq<real>)
      requires Valid()
      modifies this, session
      ensures Valid()
      ensures old(store.GetStoredModel()).None? ==>
                appState == ModelSelection && currentModel == old(currentModel)
                && downloadProgress == old(downloadProgress) && messages == old(messages)
                && session.generator == old(session.generator) && reported == []
      ensures old(store.GetStoredModel()).Some? ==>
                var id := old(store.GetStoredModel()).value.id;
                && currentModel == Some(id)
                && (reported == [] || reported == Reports(events, true))
                && (appState == ChatScreen <==> session.generator == Some(Generator(id)))
                && (appState == ChatScreen ==> downloadProgress == 100.0 && messages == store.GetMessages())
                && (appState != ChatScreen ==> appState == ModelSelection && session.generator.None?
                                               && downloadProgress == ProgressAfter(old(downloadProgress), reported)
                                               && messages == old(messages))
      ensures settingsOpen == old(settingsOpen) && settings == old(settings)
    {
      reported := [];
      var storedModel := store.GetStoredModel();
      if storedModel.Some? {
        var id := storedModel.value.id;
        currentModel := Some(id);
        appState := Downloading;
        var r, progress := session.LoadModel(id, true, imported, events, pipeline);
        reported := progress;
        downloadProgress := ProgressAfter(downloadProgress, progress);
        if r.Success? {
          downloadProgress := 100.0;
          messages := store.GetMessages();
          appState := ChatScreen;
        } else {
          appState := ModelSelection;
        }
      } else {
        appState := ModelSelection;
      }
    }

    /**
     * `handleModelSelect(modelId)`: name the model and load it from 0%; on
     * success save it and open the chat at 100%, on failure alert and go back to
     * the selection, still naming the attempted model.
     */
    method HandleModelSelect(modelId: string, imported: Result<Transformers, Thrown>,
                             events: seq<ProgressEvent>, pipeline: Result<(), Thrown>)
      returns (alert: Option<string>, ghost reported: seq<real>)
      requires Valid()
      modifies this, store, session
      ensures Valid()
      ensures currentModel == Some(modelId)
      ensures reported == [] || reported == Reports(events, true)
      ensures appState == ChatScreen <==> session.generator == Some(Generator(modelId))
      ensures appState == ChatScreen ==>
                downloadProgress == 100.0 && alert.None?
                && store.models == Put(old(store.models), StoredModel(modelId, modelId))
      ensures appState != ChatScreen ==>
                appState == ModelSelection && session.generator.None?
                && downloadProgress == ProgressAfter(0.0, reported)
                && alert == Some(DownloadFailedAlert) && store.models == old(store.models)
      ensures store.messages == old(store.messages) && store.settings == old(store.settings)
      ensures messages == old(messages) && settingsOpen == old(settingsOpen) && settings == old(settings)
    {
      currentModel := Some(modelId);
      appState := Downloading;
      downloadProgress := 0.0;
      var r, progress := session.LoadModel(modelId, true, imported, events, pipeline);
      reported := progress;
      downloadProgress := ProgressAfter(downloadProgress, progress);
      if r.Success? {
        store.SaveModel(modelId, modelId);
        downloadProgress := 100.0;
        appState := ChatScreen;
        alert := None;
      } else {
        alert := Some(DownloadFailedAlert);
        appState := ModelSelection;
      }
    }

    /**
     * `handleSendMessage(content)`: append and save the user's message, prompt
     * the pipeline with the whole transcript, then append and save the trimmed
     * reply, or alert and leave the transcript ending with the user's message.
     * `call` is what the pipeline was called with.
     */
    method HandleSendMessage(content: string, outcome: Result<Json, Thrown>)
      returns (alert: Option<string>, call: Option<PipelineCall>)
      requires Valid()
      modifies this, store
      ensures Valid()
      ensures var sent := old(messages) + [Message(UserMessage, content)];
              && call == (if session.generator.Some? then Some(CallFor(ChatPrompt(sent), SendOptions(settings))) else None)
              && var reply := Reply(session.generator.Some?, outcome);
              && (reply.Some? ==> messages == sent + [Message(AssistantMessage, reply.value)] && alert.None?)
              && (reply.None? ==> messages == sent && alert == Some(GenerationFailedAlert))
      ensures store.messages == Some(messages)
      ensures store.models == old(store.models) && store.settings == old(store.settings)
      ensures !isGenerating
      ensures appState == old(appState) && currentModel == old(currentModel) && downloadProgress == old(downloadProgress)
      ensures settingsOpen == old(settingsOpen) && settings == old(settings)
    {
      var newMessages := messages + [Message(UserMessage, content)];
      messages := newMessages;
      store.SaveMessages(newMessages);
      isGenerating := true;
      var prompt := ChatPrompt(newMessages);
      var response;
      response, call := session.Generate(prompt, SendOptions(settings), outcome);
      if response.Success? && response.value.JString? {
        var updated := newMessages + [Message(AssistantMessage, Trim(response.value.s))];
        messages := updated;
        store.SaveMessages(updated);
        alert := None;
      } else {
        alert := Some(GenerationFailedAlert);
      }
      isGenerating := false;
    }

    /**
     * `handleClearModel(confirmed)`: when confirmed, forget the stored model and
     * messages and go back to the model selection with the settings closed. The
     * session keeps its pipeline.
     */
    method HandleClearModel(confirmed: bool)
      requires Valid()
      modifies this, store
      ensures Valid()
      ensures confirmed ==>
                store.models == [] && store.messages.None? && messages == []
                && currentModel.None? && appState == ModelSelection && !settingsOpen
      ensures !confirmed ==>
                store.models == old(store.models) && store.messages == old(store.messages)
                && messages == old(messages) && currentModel == old(currentModel)
                && appState == old(appState) && settingsOpen == old(settingsOpen)
      ensures store.settings == old(store.settings)
      ensures downloadProgress == old(downloadProgress) && isGenerating == old(isGenerating) && settings == old(settings)
    {
      if confirmed {
        store.ClearModel();
        store.ClearMessages();
        messages := [];
        currentModel := None;
        appState := ModelSelection;
        settingsOpen := false;
      }
    }

    /** `handleClearChat(confirmed)`: when confirmed, forget the messages and close the settings. */
    method HandleClearChat(confirmed: bool)
      requires Valid()
      modifies this, store
      ensures Valid()
      ensures confirmed ==> store.messages.None? && messages == [] && !settingsOpen
      ensures !confirmed ==> store.messages == old(store.messages) && messages == old(messages) && settingsOpen == old(settingsOpen)
      ensures store.models == old(store.models) && store.settings == old(store.settings)
      ensures appState == old(appState) && currentModel == old(currentModel)
      ensures downloadProgress == old(downloadProgress) && isGenerating == old(isGenerating) && settings == old(settings)
    {
      if confirmed {
        store.ClearMessages();
        messages := [];
        settingsOpen := false;
      }
    }

    /** `handleSettingsChange(s)`: adopt and save the settings; reading them back gives `s`. */
    method HandleSettingsChange(s: AppSettings)
      requires Valid()
      modifies this, store
      ensures Valid()
      ensures settings == s && store.GetSettings() == s
      ensures store.models == old(store.models) && store.messages == old(store.messages)
      ensures appState == old(appState) && currentModel == old(currentModel) && messages == old(messages)
      ensures downloadProgress == old(downloadProgress) && isGenerating == old(isGenerating) && settingsOpen == old(settingsOpen)
    {
      settings := s;
      store.SaveSettings(s);
    }
  }
}
