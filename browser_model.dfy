/**
 * The in-browser model session (src/utils/ai.ts): the lazily imported
 * transformers module, the one-time ONNX set-up, the loaded text-generation
 * pipeline and the id of the model it serves, and the normalisation of what the
 * pipeline returns.
 *
 * The dynamic imports, the download with its progress events and the pipeline's
 * output are inputs of the methods.
 */
module BrowserModel {
  import opened Wrappers
  import opened Json

  const LoadFailedPrefix := "Failed to load model: "
  const GenerateFailedPrefix := "Failed to generate text: "
  const NotLoadedMessage := "Model not loaded. Please select and download a model first."
  const UnexpectedModelFormat := "Unexpected response format from model"
  const UnknownError := "Unknown error"
  const GeneratedTextKey := "generated_text"

  const DefaultTemperature: real := 0.7
  const DefaultMaxNewTokens: int := 256
  const DefaultDoSample := true

  /** A thrown value: an `Error` with its message, or anything else. */
  datatype Thrown = ErrorValue(message: string) | OtherValue

  /** `error instanceof Error ? error.message : 'Unknown error'`. */
  function ErrorText(e: Thrown): (r: string)
    ensures e.ErrorValue? ==> r == e.message
    ensures e.OtherValue? ==> r == UnknownError
  {
    match e
    case ErrorValue(message) => message
    case OtherValue => UnknownError
  }

  /** The `env` object of the transformers module: whether remote and local models are allowed. */
  datatype TransformersEnv = TransformersEnv(allowRemoteModels: bool, allowLocalModels: bool)

  /** The imported `@xenova/transformers` module; only its `env` is inspected. */
  datatype Transformers = Transformers(env: Option<TransformersEnv>)

  /** The loaded pipeline, identified by the model it was created for. */
  datatype Generator = Generator(modelId: string)

  /** One object passed to `progress_callback`; `progress` is `undefined` when absent. */
  datatype ProgressEvent = ProgressEvent(status: string, progress: Option<real>)

  /** The options the pipeline is called with. */
  datatype PipelineCall = PipelineCall(prompt: string, temperature: real, maxNewTokens: int, doSample: bool, returnFullText: bool)

  /** The caller's options; `None` stands for `undefined` or `null`. */
  datatype GenerateOptions = GenerateOptions(temperature: Option<real>, maxNewTokens: Option<int>, doSample: Option<bool>)

  // ---------------------------------------------------------------------------
  // Progress events

  /** What one event forwards to `onProgress`, if anything. */
  function ProgressReport(e: ProgressEvent, hasCallback: bool): (r: Option<real>)
    ensures r.Some? <==> hasCallback && ((e.status == "progress" && e.progress.Some?) || e.status == "done")
    ensures r.Some? && e.status == "progress" ==> r.value == e.progress.value
    ensures r.Some? && e.status == "done" ==> r.value == 1.0
  {
    if e.status == "progress" && e.progress.Some? && hasCallback then Some(e.progress.value)
    else if e.status == "done" && hasCallback then Some(1.0)
    else None
  }

  /** The values `onProgress` receives during a download, in order. */
  function Reports(events: seq<ProgressEvent>, hasCallback: bool): (r: seq<real>)
    ensures |r| <= |events|
    ensures !hasCallback ==> r == []
  {
    if events == [] then []
    else
      var head := ProgressReport(events[0], hasCallback);
      (if head.Some? then [head.value] else []) + Reports(events[1..], hasCallback)
  }

  /** The reports of consecutive downloads are the reports of each, in order. */
  lemma {:induction false} ReportsAppend(a: seq<ProgressEvent>, b: seq<ProgressEvent>, hasCallback: bool)
    ensures Reports(a + b, hasCallback) == Reports(a, hasCallback) + Reports(b, hasCallback)
  {
    if a == [] {
      assert a + b == b;
    } else {
      var ab := a + b;
      assert ab[0] == a[0] && ab[1..] == a[1..] + b;
      var h := ProgressReport(a[0], hasCallback);
      var head: seq<real> := if h.Some? then [h.value] else [];
      assert Reports(ab, hasCallback) == head + Reports(a[1..] + b, hasCallback);
      ReportsAppend(a[1..], b, hasCallback);
      assert Reports(a, hasCallback) == head + Reports(a[1..], hasCallback);
    }
  }

  /**
   * Every value reported is 1.0 from a "done" event or the value of a "progress"
   * event; other statuses are never reported.
   */
  lemma {:induction false} ReportsFromEvents(events: seq<ProgressEvent>, hasCallback: bool)
    ensures forall x :: x in Reports(events, hasCallback) ==>
              x == 1.0 || exists i :: 0 <= i < |events| && events[i].status == "progress" && events[i].progress == Some(x)
  {
    if events != [] {
      ReportsFromEvents(events[1..], hasCallback);
      forall x | x in Reports(events[1..], hasCallback) && x != 1.0
        ensures exists i :: 0 <= i < |events| && events[i].status == "progress" && events[i].progress == Some(x)
      {
        var i :| 0 <= i < |events[1..]| && events[1..][i].status == "progress" && events[1..][i].progress == Some(x);
        assert events[i + 1] == events[1..][i];
      }
    }
  }

  /** Events with neither status "progress" nor "done" report nothing. */
  lemma {:induction false} ReportsIgnoreOthers(events: seq<ProgressEvent>, hasCallback: bool)
    requires forall i :: 0 <= i < |events| ==> events[i].status != "progress" && events[i].status != "done"
    ensures Reports(events, hasCallback) == []
  {
    if events != [] {
      ReportsIgnoreOthers(events[1..], hasCallback);
    }
  }

  // ---------------------------------------------------------------------------
  // Normalising the pipeline's result

  /** The first element of an array result, when its `generated_text` is truthy. */
  function FirstText(result: Json): Option<Json>
  {
    var first := Index(result, 0);
    if first.Some? && Defined(Member(first.value, GeneratedTextKey)) then Member(first.value, GeneratedTextKey)
    else None
  }

  /**
   * The text handed back: an array's first `generated_text` when truthy,
   * otherwise the `generated_text` of an object result; anything else is an error.
   */
  function Normalize(result: Json): (r: Result<Json, string>)
    ensures r.Success? <==> FirstText(result).Some? || (result.JObject? && GeneratedTextKey in result.fields)
    ensures result.JArray? ==> (r.Success? <==> |result.items| > 0 && Defined(Member(result.items[0], GeneratedTextKey)))
    ensures result.JArray? && r.Success? ==> Truthy(r.value) && Member(result.items[0], GeneratedTextKey) == Some(r.value)
    ensures result.JObject? && r.Success? ==> r.value == result.fields[GeneratedTextKey]
    ensures r.Failure? ==> r.error == UnexpectedModelFormat
    ensures !IsObjectType(result) ==> r == Failure(UnexpectedModelFormat)
  {
    var first := FirstText(result);
    if first.Some? then Success(first.value)
    else if result.JObject? && GeneratedTextKey in result.fields then Success(result.fields[GeneratedTextKey])
    else Failure(UnexpectedModelFormat)
  }

  /** The pipeline options for the caller's options. */
  function CallFor(prompt: string, options: GenerateOptions): (c: PipelineCall)
    ensures options.temperature.None? ==> c.temperature == DefaultTemperature
    ensures options.maxNewTokens.None? ==> c.maxNewTokens == DefaultMaxNewTokens
    ensures options.doSample.None? ==> c.doSample == DefaultDoSample
    ensures options.temperature.Some? ==> c.temperature == options.temperature.value
    ensures options.maxNewTokens.Some? ==> c.maxNewTokens == options.maxNewTokens.value
    ensures options.doSample.Some? ==> c.doSample == options.doSample.value
    ensures c.prompt == prompt && !c.returnFullText
  {
    PipelineCall(prompt, options.temperature.GetOr(DefaultTemperature), options.maxNewTokens.GetOr(DefaultMaxNewTokens),
                 options.doSample.GetOr(DefaultDoSample), false)
  }

  /** What `generateText` settles with once the pipeline has answered `outcome`. */
  function Outcome(outcome: Result<Json, Thrown>): (r: Result<Json, string>)
    ensures outcome.Failure? ==> r == Failure(GenerateFailedPrefix + ErrorText(outcome.error))
    ensures outcome.Success? && Normalize(outcome.value).Success? ==> r == Normalize(outcome.value)
    ensures outcome.Success? && Normalize(outcome.value).Failure? ==> r == Failure(GenerateFailedPrefix + UnexpectedModelFormat)
  {
    if outcome.Failure? then Failure(GenerateFailedPrefix + ErrorText(outcome.error))
    else
      var n := Normalize(outcome.value);
      if n.Success? then n else Failure(GenerateFailedPrefix + n.error)
  }

  /** The imported module as `getTransformers` leaves it: remote models allowed, local ones refused. */
  function Configured(m: Transformers): (r: Transformers)
    ensures m.env.None? ==> r == m
    ensures m.env.Some? ==> r.env == Some(TransformersEnv(true, false))
  {
    if m.env.Some? then m.(env := Some(m.env.value.(allowRemoteModels := true, allowLocalModels := false))) else m
  }

  // ---------------------------------------------------------------------------
  // The session

  /** The module-level state of src/utils/ai.ts. */
  class Session {
    var transformersModule: Option<Transformers>
    var isInitialized: bool
    var generator: Option<Generator>
    var currentModelId: Option<string>
    /** How many times ONNX set-up has run. */
    ghost var onnxInits: nat

    /**
     * ONNX set-up ran exactly when `isInitialized`, a cached module was set up,
     * and a pipeline is loaded exactly when a model id is recorded, for that id.
     */
    ghost predicate Valid()
      reads this
    {
      && onnxInits == (if isInitialized then 1 else 0)
      && (transformersModule.Some? ==> isInitialized)
      && (transformersModule.Some? && transformersModule.value.env.Some? ==>
            transformersModule.value.env.value == TransformersEnv(true, false))
      && (generator.Some? <==> currentModelId.Some?)
      && (generator.Some? ==> generator.value.modelId == currentModelId.value)
    }

    constructor ()
      ensures Valid()
      ensures transformersModule == None && !isInitialized && generator == None && currentModelId == None
    {
      transformersModule := None;
      isInitialized := false;
      generator := None;
      currentModelId := None;
      onnxInits := 0;
    }

    /** `isModelLoaded()`. */
    function IsModelLoaded(): (r: bool)
      reads this
      ensures r <==> generator.Some?
    {
      generator.Some?
    }

    /** `getCurrentModelId()`. */
    function GetCurrentModelId(): (r: Option<string>)
      reads this
      requires Valid()
      ensures r.Some? <==> IsModelLoaded()
    {
      currentModelId
    }

    /**
     * `getTransformers()`: the cached module if there is one; otherwise ONNX
     * set-up (only the first time), then the import `imported`, configured for
     * remote models only.
     */
    method GetTransformers(imported: Result<Transformers, Thrown>) returns (r: Result<Transformers, Thrown>)
      requires Valid()
      modifies this
      ensures Valid()
      ensures generator == old(generator) && currentModelId == old(currentModelId)
      ensures isInitialized
      ensures onnxInits == 1
      ensures old(transformersModule).Some? ==>
                r == Success(old(transformersModule).value) && transformersModule == old(transformersModule)
      ensures old(transformersModule).None? && imported.Failure? ==> r == Failure(imported.error) && transformersModule.None?
      ensures old(transformersModule).None? && imported.Success? ==>
                r == Success(Configured(imported.value)) && transformersModule == Some(Configured(imported.value))
    {
      if transformersModule.None? {
        if !isInitialized {
          onnxInits := onnxInits + 1;
          isInitialized := true;
        }
        if imported.Failure? {
          return Failure(imported.error);
        }
        var m := imported.value;
        if m.env.Some? {
          m := m.(env := Some(m.env.value.(allowRemoteModels := true, allowLocalModels := false)));
        }
        assert m == Configured(imported.value);
        transformersModule := Some(m);
      }
      r := Success(transformersModule.value);
    }

    /**
     * `loadModel(modelId, onProgress)`: nothing when `modelId` is already loaded;
     * otherwise the module, then the pipeline download, whose `events` are
     * forwarded to the callback (when there is one) as `reported`.
     */
    method LoadModel(modelId: string, hasCallback: bool, imported: Result<Transformers, Thrown>,
                     events: seq<ProgressEvent>, pipeline: Result<(), Thrown>)
      returns (r: Result<(), string>, reported: seq<real>)
      requires Valid()
      modifies this
      ensures Valid()
      ensures old(currentModelId) == Some(modelId) && old(generator).Some? ==>
                r.Success? && reported == [] && generator == old(generator) && currentModelId == old(currentModelId)
                && transformersModule == old(transformersModule) && isInitialized == old(isInitialized)
      ensures !(old(currentModelId) == Some(modelId) && old(generator).Some?) ==>
                isInitialized
                && (r.Success? <==> (old(transformersModule).Some? || imported.Success?) && pipeline.Success?)
                && (r.Success? ==> generator == Some(Generator(modelId)) && currentModelId == Some(modelId))
                && (r.Failure? ==> generator.None? && currentModelId.None? && |r.error| >= |LoadFailedPrefix|
                                   && r.error[..|LoadFailedPrefix|] == LoadFailedPrefix)
                && reported == (if old(transformersModule).None? && imported.Failure? then [] else Reports(events, hasCallback))
                && (old(transformersModule).Some? ==> transformersModule == old(transformersModule))
                && (old(transformersModule).None? && imported.Failure? ==> transformersModule.None?)
                && (old(transformersModule).None? && imported.Success? ==>
                      transformersModule == Some(Configured(imported.value)))
    {
      if currentModelId == Some(modelId) && generator.Some? {
        return Success(()), [];
      }
      var t := GetTransformers(imported);
      if t.Failure? {
        generator := None;
        currentModelId := None;
        return Failure(LoadFailedPrefix + ErrorText(t.error)), [];
      }
      reported := Reports(events, hasCallback);
      if pipeline.Failure? {
        generator := None;
        currentModelId := None;
        return Failure(LoadFailedPrefix + ErrorText(pipeline.error)), reported;
      }
      generator := Some(Generator(modelId));
      currentModelId := Some(modelId);
      r := Success(());
    }

    /**
     * `generateText(prompt, options)`: refuses without a loaded pipeline,
     * otherwise calls it with the defaults filled in and normalises the answer
     * `outcome`; every failure after the call is rewrapped.
     */
    method Generate(prompt: string, options: GenerateOptions, outcome: Result<Json, Thrown>)
      returns (r: Result<Json, string>, call: Option<PipelineCall>)
      ensures generator.None? ==> r == Failure(NotLoadedMessage) && call.None?
      ensures generator.Some? ==> call == Some(CallFor(prompt, options)) && r == Outcome(outcome)
    {
      if generator.None? {
        return Failure(NotLoadedMessage), None;
      }
      call := Some(CallFor(prompt, options));
      if outcome.Failure? {
        return Failure(GenerateFailedPrefix + ErrorText(outcome.error)), call;
      }
      var n := Normalize(outcome.value);
      if n.Failure? {
        return Failure(GenerateFailedPrefix + n.error), call;
      }
      r := Success(n.value);
    }
  }
}
