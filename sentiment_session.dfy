/**
 * The sentiment session of `useSentimentAnalysis`: a lazily loaded
 * text-classification engine, its loading/analyzing flags, the last error
 * message and the last result.
 *
 * The machine-learning library is an oracle: every load and every
 * classification is handed to an operation as its outcome (`LoadOutcome`,
 * `ClassifyOutcome`). Each asynchronous operation runs to completion and
 * returns `Ok` or `Err`, where `Err` carries the failure it rethrows.
 *
 * The pure step functions below say what one operation does to the
 * observable state; the class `Session` performs the same assignments step
 * by step and is proved to agree with them.
 */
module SentimentAnalysis {
  import opened Wrappers
  import opened StringTrim
  import opened ClassifierOutput

  // ---------------------------------------------------------------------
  // Configuration
  // ---------------------------------------------------------------------

  /** The numeric precision requested when the model is loaded. */
  datatype Dtype = Fp32 | Fp16 | Q8 | Int8 | Uint8 | Q4 | Bnb4 | Q4f16

  const DefaultModelName: string := "Xenova/distilbert-base-uncased-finetuned-sst-2-english"
  const DefaultDtype: Dtype := Fp16
  const DefaultAutoInit: bool := true

  /** The task name passed to the library's `pipeline` loader. */
  const PipelineTask: string := "sentiment-analysis"

  const NoError: string := ""
  const LoadFailedMessage: string := "Failed to load the sentiment analysis model."
  const AnalyzeFailedMessage: string := "Failed to analyze sentiment."

  /** The options object; `None` is a property left `undefined`. */
  datatype Options = Options(modelName: Option<string>, dtype: Option<Dtype>, autoInit: Option<bool>)

  /** `useSentimentAnalysis()` called without an argument gets `{}`. */
  const NoOptions: Options := Options(None, None, None)

  datatype Config = Config(modelName: string, dtype: Dtype, autoInit: bool)

  /** Destructuring with defaults: a property that is given is used, one that
      is `undefined` takes its default. */
  function ResolveOptions(options: Options): (c: Config)
    ensures options.modelName.None? ==> c.modelName == DefaultModelName
    ensures options.modelName.Some? ==> c.modelName == options.modelName.value
    ensures options.dtype.None? ==> c.dtype == DefaultDtype
    ensures options.dtype.Some? ==> c.dtype == options.dtype.value
    ensures options.autoInit.None? ==> c.autoInit == DefaultAutoInit
    ensures options.autoInit.Some? ==> c.autoInit == options.autoInit.value
  {
    Config(
      if options.modelName.Some? then options.modelName.value else DefaultModelName,
      if options.dtype.Some? then options.dtype.value else DefaultDtype,
      if options.autoInit.Some? then options.autoInit.value else DefaultAutoInit)
  }

  /** Without options the session loads the distilbert model at fp16 and
      starts loading at once. */
  lemma DefaultConfig()
    ensures ResolveOptions(NoOptions) == Config(DefaultModelName, Fp16, true)
  {
  }

  // ---------------------------------------------------------------------
  // The oracle and the observable state
  // ---------------------------------------------------------------------

  /** A loaded engine, known only by an opaque token. */
  datatype Engine = Engine(token: nat)

  /** A value thrown by the library, opaque to the session. */
  datatype Failure = Failure(detail: string)

  /** How an awaited `pipeline(...)` load settles. */
  datatype LoadOutcome = Loaded(engine: Engine) | LoadRejected(cause: Failure)

  /** How an awaited `classifier(text)` call settles. */
  datatype ClassifyOutcome = Classified(output: seq<OutputItem>) | ClassifyRejected(cause: Failure)

  /** How an operation's promise settles: resolved, or rejected with the
      failure it rethrows. */
  datatype Outcome = Ok | Err(cause: Failure)

  /** The state the session holds: the `classifier` variable and the four refs. */
  datatype State = State(
    classifier: Option<Engine>,
    isLoading: bool,
    isAnalyzing: bool,
    error: string,
    sentiment: Option<Record>)

  /** A call from the session into the library, with the session's state as
      an observer sees it while the call is awaited. */
  datatype LibraryCall =
    | Load(task: string, model: string, dtype: Dtype, seen: State)
    | Classify(engine: Engine, text: string, seen: State)
    | Release(engine: Engine)

  /** The result of one asynchronous operation: the new state, how its promise
      settles, and the library calls it made, in order. */
  datatype Step = Step(state: State, outcome: Outcome, calls: seq<LibraryCall>)

  /** The session at rest: no analysis is in flight, and the error message is
      empty or one of the two fixed messages. */
  predicate AtRest(s: State)
  {
    !s.isAnalyzing && s.error in {NoError, LoadFailedMessage, AnalyzeFailedMessage}
  }

  predicate MakesNoClassifyCall(calls: seq<LibraryCall>)
  {
    forall k :: 0 <= k < |calls| ==> !calls[k].Classify?
  }

  // ---------------------------------------------------------------------
  // One operation at a time
  // ---------------------------------------------------------------------

  /** The state when `useSentimentAnalysis` returns: `isLoading` mirrors
      `autoInit`, nothing else is set. */
  function Initial(c: Config): (s: State)
    ensures s.classifier.None? && s.isLoading == c.autoInit
    ensures !s.isAnalyzing && s.error == NoError && s.sentiment.None?
    ensures AtRest(s)
  {
    State(None, c.autoInit, false, NoError, None)
  }

  /** The state while a load is awaited: `isLoading` set and the error cleared. */
  function LoadStarted(s: State): (r: State)
    ensures r.isLoading && r.error == NoError
    ensures r.classifier == s.classifier && r.isAnalyzing == s.isAnalyzing && r.sentiment == s.sentiment
  {
    s.(isLoading := true, error := NoError)
  }

  /** What happens once an awaited load settles (the try/catch/finally around
      the load): on success the engine is stored, on failure the fixed message
      is recorded and the failure rethrown; `isLoading` is cleared either way. */
  function SettleLoad(s: State, load: LoadOutcome): (r: Step)
    ensures !r.state.isLoading && r.calls == []
    ensures r.outcome.Ok? <==> load.Loaded?
    ensures load.Loaded? ==> r.state.classifier == Some(load.engine) && r.state.error == s.error
    ensures load.LoadRejected? ==>
      r.outcome == Err(load.cause) && r.state.error == LoadFailedMessage && r.state.classifier == s.classifier
    ensures r.state.isAnalyzing == s.isAnalyzing && r.state.sentiment == s.sentiment
    ensures AtRest(s) ==> AtRest(r.state)
  {
    match load
    case Loaded(e) => Step(s.(classifier := Some(e), isLoading := false), Ok, [])
    case LoadRejected(cause) => Step(s.(error := LoadFailedMessage, isLoading := false), Err(cause), [])
  }

  /** `initPipeline()`. With an engine present nothing happens. Otherwise
      exactly one load of the configured model is made, seen with `isLoading`
      set and the error cleared, and afterwards `isLoading` is false. The
      promise resolves exactly when an engine is then present. */
  function InitStep(c: Config, s: State, load: LoadOutcome): (r: Step)
    ensures s.classifier.Some? ==> r == Step(s, Ok, [])
    ensures s.classifier.None? ==>
      r.calls == [Load(PipelineTask, c.modelName, c.dtype, LoadStarted(s))] &&
      !r.state.isLoading
    ensures r.outcome.Ok? <==> r.state.classifier.Some?
    ensures s.classifier.None? && load.Loaded? ==>
      r.outcome == Ok && r.state.classifier == Some(load.engine) && r.state.error == NoError
    ensures s.classifier.None? && load.LoadRejected? ==>
      r.outcome == Err(load.cause) && r.state.error == LoadFailedMessage && r.state.classifier.None?
    ensures r.state.isAnalyzing == s.isAnalyzing && r.state.sentiment == s.sentiment
    ensures AtRest(s) ==> AtRest(r.state)
  {
    if s.classifier.Some? then Step(s, Ok, [])
    else
      var started := LoadStarted(s);
      SettleLoad(started, load).(calls := [Load(PipelineTask, c.modelName, c.dtype, started)])
  }

  /** The part of `analyze` after `initPipeline` has resolved. Blank text,
      or no engine, clears the result without calling the engine. Otherwise
      the engine is called once with `text`, seen with `isAnalyzing` set and
      the error cleared; its output is normalised into the result, or its
      failure recorded and rethrown with the previous result kept; either
      way `isAnalyzing` is cleared. */
  function ClassifyStep(s: State, text: string, classify: ClassifyOutcome): (r: Step)
    ensures IsBlank(text) || s.classifier.None? ==> r == Step(s.(sentiment := None), Ok, [])
    ensures !IsBlank(text) && s.classifier.Some? ==>
      r.calls == [Classify(s.classifier.value, text, s.(isAnalyzing := true, error := NoError))] &&
      !r.state.isAnalyzing && r.state.classifier == s.classifier && r.state.isLoading == s.isLoading
    ensures !IsBlank(text) && s.classifier.Some? && classify.Classified? ==>
      r.outcome == Ok && r.state.sentiment == Normalise(classify.output) && r.state.error == NoError
    ensures !IsBlank(text) && s.classifier.Some? && classify.ClassifyRejected? ==>
      r.outcome == Err(classify.cause) && r.state.sentiment == s.sentiment &&
      r.state.error == AnalyzeFailedMessage
    ensures AtRest(s) ==> AtRest(r.state)
  {
    if Trim(text) == [] || s.classifier.None? then
      Step(s.(sentiment := None), Ok, [])
    else
      var analyzing := s.(isAnalyzing := true, error := NoError);
      var calls := [Classify(s.classifier.value, text, analyzing)];
      match classify
      case Classified(output) =>
        Step(analyzing.(sentiment := Normalise(output), isAnalyzing := false), Ok, calls)
      case ClassifyRejected(cause) =>
        Step(analyzing.(error := AnalyzeFailedMessage, isAnalyzing := false), Err(cause), calls)
  }

  /** `analyze(text)`: a rejected load is rethrown before the text is looked
      at; once the load has resolved an engine is present, so blank text is
      the only way the engine is not called. */
  function AnalyzeStep(c: Config, s: State, text: string, load: LoadOutcome, classify: ClassifyOutcome): (r: Step)
    ensures var init := InitStep(c, s, load);
      init.outcome.Err? ==> r == init
    ensures var init := InitStep(c, s, load);
      init.outcome.Ok? && IsBlank(text) ==>
        r.outcome == Ok && r.state == init.state.(sentiment := None) && r.calls == init.calls
    ensures var init := InitStep(c, s, load);
      init.outcome.Ok? && !IsBlank(text) ==>
        r.calls == init.calls + [Classify(init.state.classifier.value, text,
                                          init.state.(isAnalyzing := true, error := NoError))] &&
        !r.state.isAnalyzing &&
        r.state.classifier == init.state.classifier && r.state.isLoading == init.state.isLoading
    ensures var init := InitStep(c, s, load);
      init.outcome.Ok? && !IsBlank(text) && classify.Classified? ==>
        r.outcome == Ok && r.state.sentiment == Normalise(classify.output) && r.state.error == NoError
    ensures var init := InitStep(c, s, load);
      init.outcome.Ok? && !IsBlank(text) && classify.ClassifyRejected? ==>
        r.outcome == Err(classify.cause) && r.state.sentiment == s.sentiment &&
        r.state.error == AnalyzeFailedMessage
    ensures AtRest(s) ==> AtRest(r.state)
  {
    var init := InitStep(c, s, load);
    if init.outcome.Err? then init
    else
      var rest := ClassifyStep(init.state, text, classify);
      Step(rest.state, rest.outcome, init.calls + rest.calls)
  }

  /** `reset()`: clears the analysis output and leaves the engine and
      `isLoading` alone. */
  function ResetState(s: State): (r: State)
    ensures r.sentiment.None? && r.error == NoError && !r.isAnalyzing
    ensures r.classifier == s.classifier && r.isLoading == s.isLoading
    ensures AtRest(r)
  {
    s.(sentiment := None, error := NoError, isAnalyzing := false)
  }

  /** `dispose()`: drops the engine reference and nothing else. */
  function DisposeState(s: State): (r: State)
    ensures r.classifier.None?
    ensures r.isLoading == s.isLoading && r.isAnalyzing == s.isAnalyzing
    ensures r.error == s.error && r.sentiment == s.sentiment
  {
    s.(classifier := None)
  }

  /** The library calls `dispose()` makes: the engine's own release, when there
      is an engine. */
  function Released(s: State): (calls: seq<LibraryCall>)
    ensures s.classifier.Some? ==> calls == [Release(s.classifier.value)]
    ensures s.classifier.None? ==> calls == []
  {
    if s.classifier.Some? then [Release(s.classifier.value)] else []
  }

  // ---------------------------------------------------------------------
  // Properties relating several operations
  // ---------------------------------------------------------------------

  /** A second `initPipeline()` after one that resolved loads nothing and
      changes nothing. */
  lemma InitPipelineIdempotent(c: Config, s: State, first: LoadOutcome, second: LoadOutcome)
    requires InitStep(c, s, first).outcome.Ok?
    ensures var after := InitStep(c, s, first).state;
      InitStep(c, after, second) == Step(after, Ok, [])
  {
  }

  /** Blank text never reaches the engine, and when the load succeeds the
      result is cleared whatever it was. */
  lemma AnalyzeBlankNeverClassifies(c: Config, s: State, text: string, load: LoadOutcome, classify: ClassifyOutcome)
    requires IsBlank(text)
    ensures var r := AnalyzeStep(c, s, text, load, classify);
      MakesNoClassifyCall(r.calls) && (r.outcome.Ok? ==> r.state.sentiment.None?)
  {
  }

  lemma EmptyAndSpacesAreBlank()
    ensures IsBlank("") && IsBlank("   ") && IsBlank("\t\r\n")
    ensures !IsBlank("I love this.")
  {
    assert !IsTrimmable("I love this."[0]);
  }

  /** `reset()` twice is `reset()` once. */
  lemma ResetIdempotent(s: State)
    ensures ResetState(ResetState(s)) == ResetState(s)
  {
  }

  /** `dispose()` twice is `dispose()` once, and the second one releases
      nothing. */
  lemma DisposeIdempotent(s: State)
    ensures DisposeState(DisposeState(s)) == DisposeState(s)
    ensures Released(DisposeState(s)) == []
  {
  }

  /** After `dispose()` the guard of `initPipeline` fails again: a fresh load
      is made. */
  lemma DisposeThenInitReloads(c: Config, s: State, load: LoadOutcome)
    ensures var d := DisposeState(s);
      InitStep(c, d, load).calls == [Load(PipelineTask, c.modelName, c.dtype, LoadStarted(d))]
  {
  }

  /** After `dispose()`, `analyze` on non-blank text loads afresh and, when
      that load succeeds, classifies with the new engine, not the disposed one. */
  lemma DisposeThenAnalyzeReloads(c: Config, s: State, text: string, load: LoadOutcome, classify: ClassifyOutcome)
    requires !IsBlank(text) && load.Loaded?
    ensures var r := AnalyzeStep(c, DisposeState(s), text, load, classify);
      |r.calls| == 2 && r.calls[0].Load? && r.calls[1].Classify? && r.calls[1].engine == load.engine
  {
  }

  /** A sequence of calls a client makes on the session, one after another. */
  datatype Op =
    | InitOp(load: LoadOutcome)
    | AnalyzeOp(text: string, load: LoadOutcome, classify: ClassifyOutcome)
    | ResetOp
    | DisposeOp

  function Apply(c: Config, s: State, op: Op): State
  {
    match op
    case InitOp(load) => InitStep(c, s, load).state
    case AnalyzeOp(text, load, classify) => AnalyzeStep(c, s, text, load, classify).state
    case ResetOp => ResetState(s)
    case DisposeOp => DisposeState(s)
  }

  function Run(c: Config, s: State, ops: seq<Op>): State
    decreases |ops|
  {
    if ops == [] then s else Run(c, Apply(c, s, ops[0]), ops[1..])
  }

  /** Any sequence of calls keeps the session at rest: `isAnalyzing` is false
      between calls and the error is one of the fixed messages; and once
      `isLoading` is false, no call sets it back between calls. */
  lemma {:induction false} RunStaysAtRest(c: Config, s: State, ops: seq<Op>)
    requires AtRest(s)
    ensures AtRest(Run(c, s, ops))
    ensures !s.isLoading ==> !Run(c, s, ops).isLoading
    decreases |ops|
  {
    if ops != [] {
      RunStaysAtRest(c, Apply(c, s, ops[0]), ops[1..]);
    }
  }

  // ---------------------------------------------------------------------
  // The session object
  // ---------------------------------------------------------------------

  /** The closure returned by `useSentimentAnalysis`: its `classifier`
      variable and its refs become fields. */
  class Session {
    const config: Config
    var classifier: Option<Engine>
    var isLoading: bool
    var isAnalyzing: bool
    var error: string
    var sentiment: Option<Record>

    /** Every call made into the library, in order. */
    ghost var calls: seq<LibraryCall>
    /** The load started by construction with `autoInit` has not settled yet. */
    ghost var autoInitPending: bool

    function View(): State
      reads this
    {
      State(classifier, isLoading, isAnalyzing, error, sentiment)
    }

    /** Between calls no analysis is in flight, the error is a fixed message,
        and `isLoading` is set only while the automatic load is pending. */
    ghost predicate Valid()
      reads this
    {
      AtRest(View()) && (isLoading ==> autoInitPending)
    }

    /** `useSentimentAnalysis(options)`. With `autoInit` the initial
        `initPipeline()` runs up to its await: the load is made and left
        pending, to be settled by `SettleAutoInit`. */
    constructor (options: Options)
      ensures config == ResolveOptions(options)
      ensures View() == Initial(config)
      ensures calls == if config.autoInit
                       then [Load(PipelineTask, config.modelName, config.dtype, Initial(config))]
                       else []
      ensures autoInitPending == config.autoInit
      ensures Valid()
    {
      var c := ResolveOptions(options);
      config := c;
      sentiment := None;
      isLoading := c.autoInit;
      isAnalyzing := false;
      error := NoError;
      classifier := None;
      calls := [];
      autoInitPending := false;
      new;
      if config.autoInit {
        BeginLoad();
        autoInitPending := true;
      }
    }

    /** The part of `initPipeline` before the await: set `isLoading`, clear
        the error, call the loader. */
    method BeginLoad()
      modifies this
      ensures View() == LoadStarted(old(View()))
      ensures calls == old(calls) + [Load(PipelineTask, config.modelName, config.dtype, View())]
      ensures autoInitPending == old(autoInitPending)
    {
      isLoading := true;
      error := NoError;
      calls := calls + [Load(PipelineTask, config.modelName, config.dtype, View())];
    }

    /** The part of `initPipeline` after the await. */
    method CompleteLoad(load: LoadOutcome) returns (r: Outcome)
      modifies this
      ensures View() == SettleLoad(old(View()), load).state
      ensures r == SettleLoad(old(View()), load).outcome
      ensures calls == old(calls) && autoInitPending == old(autoInitPending)
    {
      match load {
        case Loaded(engine) =>
          classifier := Some(engine);
          r := Ok;
        case LoadRejected(cause) =>
          error := LoadFailedMessage;
          r := Err(cause);
      }
      isLoading := false;
    }

    /** `initPipeline()`. */
    method InitPipeline(load: LoadOutcome) returns (r: Outcome)
      requires Valid()
      modifies this
      ensures Valid()
      ensures View() == InitStep(config, old(View()), load).state
      ensures r == InitStep(config, old(View()), load).outcome
      ensures calls == old(calls) + InitStep(config, old(View()), load).calls
      ensures autoInitPending == old(autoInitPending)
    {
      if classifier.Some? {
        return Ok;
      }
      BeginLoad();
      r := CompleteLoad(load);
    }

    /** The automatic load started by construction settles. Its rejection
        has no awaiting caller; it is returned here. */
    method SettleAutoInit(load: LoadOutcome) returns (r: Outcome)
      requires Valid() && autoInitPending
      modifies this
      ensures Valid() && !autoInitPending
      ensures View() == SettleLoad(old(View()), load).state
      ensures r == SettleLoad(old(View()), load).outcome
      ensures calls == old(calls)
    {
      r := CompleteLoad(load);
      autoInitPending := false;
    }

    /** `analyze(text)`. */
    method Analyze(text: string, load: LoadOutcome, classify: ClassifyOutcome) returns (r: Outcome)
      requires Valid()
      modifies this
      ensures Valid()
      ensures View() == AnalyzeStep(config, old(View()), text, load, classify).state
      ensures r == AnalyzeStep(config, old(View()), text, load, classify).outcome
      ensures calls == old(calls) + AnalyzeStep(config, old(View()), text, load, classify).calls
      ensures autoInitPending == old(autoInitPending)
    {
      r := InitPipeline(load);
      if r.Err? {
        return;
      }
      r := AnalyzeLoaded(text, classify);
    }

    /** The part of `analyze` after its `await initPipeline()` has resolved. */
    method AnalyzeLoaded(text: string, classify: ClassifyOutcome) returns (r: Outcome)
      requires Valid()
      modifies this
      ensures Valid()
      ensures View() == ClassifyStep(old(View()), text, classify).state
      ensures r == ClassifyStep(old(View()), text, classify).outcome
      ensures calls == old(calls) + ClassifyStep(old(View()), text, classify).calls
      ensures autoInitPending == old(autoInitPending)
    {
      if Trim(text) == [] || classifier.None? {
        sentiment := None;
        return Ok;
      }
      isAnalyzing := true;
      error := NoError;
      calls := calls + [Classify(classifier.value, text, View())];
      match classify {
        case Classified(output) =>
          sentiment := Normalise(output);
          r := Ok;
        case ClassifyRejected(cause) =>
          error := AnalyzeFailedMessage;
          r := Err(cause);
      }
      isAnalyzing := false;
    }

    /** `reset()`. */
    method Reset()
      requires Valid()
      modifies this
      ensures Valid()
      ensures View() == ResetState(old(View()))
      ensures calls == old(calls) && autoInitPending == old(autoInitPending)
    {
      sentiment := None;
      error := NoError;
      isAnalyzing := false;
    }

    /** `dispose()`. */
    method Dispose()
      requires Valid()
      modifies this
      ensures Valid()
      ensures View() == DisposeState(old(View()))
      ensures calls == old(calls) + Released(old(View()))
      ensures autoInitPending == old(autoInitPending)
    {
      if classifier.Some? {
        calls := calls + [Release(classifier.value)];
      }
      classifier := None;
    }
  }
}
