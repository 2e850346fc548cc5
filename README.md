# Sentiment session model

A Dafny model of the sentiment-analysis "session" that the Vue composable
`useSentimentAnalysis` returns. The session holds a lazily loaded
text-classification engine (`classifier`). It also holds four refs:
`isLoading`, `isAnalyzing`, `error` (where `''` means no error) and
`sentiment` (the last `{label, score}` record, or `undefined`). Four
operations act on that state: `initPipeline`, `analyze`, `reset` and
`dispose`.

Files and modules:

- `wrappers.dfy` (`Wrappers`): `Option`, standing for a value that may be
  `undefined`.
- `string_trim.dfy` (`StringTrim`): the blank-input test `!text.trim()`.
  `IsTrimmable` is the set of code points that `String.prototype.trim`
  removes (ECMAScript 2024, section 22.1.3.32). That set is WhiteSpace
  (section 12.2) and LineTerminator (section 12.3). `IsBlank` holds when
  every character is trimmable. `Trim` is proved empty exactly on blank
  strings.
- `classifier_output.dfy` (`ClassifierOutput`): the engine's record and
  output shapes, plus the normalisation that keeps the first output
  element, unwrapped once when it is an array. The record's `label` field is called
  `classLabel`, because `label` is a Dafny keyword.
- `sentiment_session.dfy` (`SentimentAnalysis`): configuration and defaults,
  the session state, and pure step functions that say what each operation
  does. The class `Session` has the closure's variables as fields. Each
  method performs the source's assignments in order and is proved equal to
  its step function.

The machine-learning library is an oracle:

- Each operation that awaits a load takes a `LoadOutcome` (`Loaded(engine)`
  or `LoadRejected(cause)`). A loaded engine is an opaque token.
- `analyze` also takes a `ClassifyOutcome`: either `Classified(output)` or
  `ClassifyRejected(cause)`. Each element of `output` is a record or an
  array of records.
- Each asynchronous operation runs to completion and returns `Ok` or
  `Err(cause)`. `Err(cause)` is the rejection with the rethrown failure.
- A ghost log `calls` records every call into the library: loads,
  classifications and engine releases. Each load and classification
  entry also stores the session state as it is while that call is awaited.
  This is how the contracts say "no load is made", "the engine is not
  called", and "`isLoading` is true while the load is in flight".

Construction with `autoInit` (lines 86-88) starts `initPipeline()` without
awaiting it. The constructor models the state at the moment
`useSentimentAnalysis` returns. At that point the load has been requested,
`isLoading` equals `autoInit`, and there is no classifier yet.
`SettleAutoInit(load)` is the continuation that runs when that load settles.
Every other operation is atomic. Other calls may run before the automatic load
settles, and the model then does what the code does. For example, a
separate `initPipeline` also loads, and the automatic load settling later
overwrites `classifier`.

Edge cases of the code that the model keeps as written:

- A successful classification whose output is `[]` or `[[]]` stores
  `undefined` as `sentiment`, because the code indexes past the end of an
  array (useSentimentAnalysis.ts:64-66).
- "No error" is the empty string `''` (useSentimentAnalysis.ts:26), not an
  absent value.
- In this sequential model an engine is always present once `initPipeline`
  inside `analyze` has resolved. So the `!classifier` half of the test at
  useSentimentAnalysis.ts:54 cannot hold there. `Session.AnalyzeLoaded` keeps
  the test as written, and `SentimentAnalysis.AnalyzeStep` states that, once
  the load has resolved, blank text is the only reason the engine is not
  called.

## Model

| member | source | states |
|---|---|---|
| `SentimentAnalysis.ResolveOptions` | src/composables/useSentimentAnalysis.ts:17-21 | each option that is given is used; each one left `undefined` takes its default (the distilbert model name, `fp16`, `true`) |
| `SentimentAnalysis.DefaultConfig` | src/composables/useSentimentAnalysis.ts:14-21 | called without options, the session uses `Xenova/distilbert-base-uncased-finetuned-sst-2-english`, `fp16` and `autoInit = true` |
| `SentimentAnalysis.Initial` | src/composables/useSentimentAnalysis.ts:23-28 | the initial state: no classifier, `isLoading == autoInit`, `isAnalyzing` false, `error == ''`, `sentiment` absent |
| `SentimentAnalysis.Session.constructor` | src/composables/useSentimentAnalysis.ts:17-28 | fields start as `Initial` of the resolved options; the only load requested is the automatic one (with `autoInit`), made with `isLoading` true and the error empty; that load is left pending |
| `SentimentAnalysis.Session.SettleAutoInit` | src/composables/useSentimentAnalysis.ts:86-88 | when the automatic load settles, the state becomes `SettleLoad` of the state at that moment; nothing is left pending and the session stays at rest |
| `SentimentAnalysis.LoadStarted` | src/composables/useSentimentAnalysis.ts:35-36 | before the load is awaited, `isLoading` is set and the error cleared; the other fields are kept |
| `SentimentAnalysis.SettleLoad` | src/composables/useSentimentAnalysis.ts:42-47 | when the load settles, `isLoading` is false on both paths; the promise resolves exactly when the load succeeded, and the engine is then stored; on failure `error` is exactly `'Failed to load the sentiment analysis model.'`, the failure is rethrown and the classifier is unchanged |
| `SentimentAnalysis.InitStep` | src/composables/useSentimentAnalysis.ts:30-48 | with a classifier present, no load is made and no field changes; otherwise the configured model and dtype are loaded exactly once, with `isLoading` true and the error cleared while the load is awaited, and `isLoading` is false afterwards; `Ok` exactly when a classifier is then present; on failure `Err(cause)`, the fixed message and no classifier; the session stays at rest |
| `SentimentAnalysis.Session.BeginLoad` | src/composables/useSentimentAnalysis.ts:35-41 | sets `isLoading`, clears `error`, and logs one load of the configured model with the state at that moment |
| `SentimentAnalysis.Session.CompleteLoad` | src/composables/useSentimentAnalysis.ts:42-48 | the new state and the returned outcome are those of `SettleLoad` |
| `SentimentAnalysis.Session.InitPipeline` | src/composables/useSentimentAnalysis.ts:30-49 | the new state, the outcome and the library calls are those of `InitStep` |
| `SentimentAnalysis.InitPipelineIdempotent` | src/composables/useSentimentAnalysis.ts:31-33 | after an `initPipeline` that resolved, another one makes no load and changes nothing |
| `SentimentAnalysis.ClassifyStep` | src/composables/useSentimentAnalysis.ts:54-72 | blank text, or no engine, sets `sentiment` to absent and returns `Ok` with no engine call; otherwise one engine call is made with the text while `isAnalyzing` is true and the error is empty, and afterwards `isAnalyzing` is false; on success `sentiment` is the normalised output and the error stays `''`; on failure `error` is `'Failed to analyze sentiment.'`, the failure is rethrown and `sentiment` keeps its previous value |
| `SentimentAnalysis.AnalyzeStep` | src/composables/useSentimentAnalysis.ts:51-73 | a rejected load leaves the state and result of the failed `initPipeline` (so `sentiment` is unchanged and the engine is not called); once the load has resolved, blank text clears `sentiment` with no engine call, and non-blank text calls the engine exactly once; the success and failure cases are as in `ClassifyStep`; the session stays at rest |
| `SentimentAnalysis.Session.Analyze` | src/composables/useSentimentAnalysis.ts:51-73 | the new state, the outcome and the library calls are those of `AnalyzeStep` |
| `SentimentAnalysis.Session.AnalyzeLoaded` | src/composables/useSentimentAnalysis.ts:54-72 | the new state, the outcome and the library calls are those of `ClassifyStep` |
| `SentimentAnalysis.AnalyzeBlankNeverClassifies` | src/composables/useSentimentAnalysis.ts:54-57 | for blank text, `analyze` never calls the engine; when it resolves, `sentiment` is absent whatever it was before |
| `SentimentAnalysis.EmptyAndSpacesAreBlank` | src/composables/useSentimentAnalysis.ts:54 | `""`, `"   "` and `"\t\r\n"` are blank and `"I love this."` is not |
| `SentimentAnalysis.ResetState` | src/composables/useSentimentAnalysis.ts:75-79 | `sentiment` becomes absent, `error` becomes `''` and `isAnalyzing` becomes false; the classifier and `isLoading` are unchanged |
| `SentimentAnalysis.Session.Reset` | src/composables/useSentimentAnalysis.ts:75-79 | the new state is `ResetState` of the old one, and no library call is made |
| `SentimentAnalysis.ResetIdempotent` | src/composables/useSentimentAnalysis.ts:75-79 | resetting twice is the same as resetting once |
| `SentimentAnalysis.DisposeState` | src/composables/useSentimentAnalysis.ts:81-84 | the classifier becomes absent and every other field is unchanged |
| `SentimentAnalysis.Released` | src/composables/useSentimentAnalysis.ts:82 | the engine's own `dispose` is called once when an engine is present, and not otherwise |
| `SentimentAnalysis.Session.Dispose` | src/composables/useSentimentAnalysis.ts:81-84 | the new state is `DisposeState` of the old one, and the library calls are those of `Released` |
| `SentimentAnalysis.DisposeIdempotent` | src/composables/useSentimentAnalysis.ts:81-84 | disposing twice is the same as disposing once, and the second dispose releases nothing |
| `SentimentAnalysis.DisposeThenInitReloads` | src/composables/useSentimentAnalysis.ts:31 | after `dispose`, the guard fails again, so `initPipeline` makes a fresh load |
| `SentimentAnalysis.DisposeThenAnalyzeReloads` | src/composables/useSentimentAnalysis.ts:52 | after `dispose`, `analyze` on non-blank text loads first and then calls the engine returned by that fresh load |
| `SentimentAnalysis.RunStaysAtRest` | src/composables/useSentimentAnalysis.ts:23-84 | after any sequence of `initPipeline`, `analyze`, `reset` and `dispose` calls, `isAnalyzing` is false and `error` is `''` or one of the two fixed messages; once `isLoading` is false, it stays false |
| `ClassifierOutput.Normalise` | src/composables/useSentimentAnalysis.ts:64-66 | the result is present exactly when the output has a first element and that element has a first record; it is then that first record, with one level of nesting unwrapped |
| `ClassifierOutput.NormaliseEitherShape` | src/composables/useSentimentAnalysis.ts:64-66 | a flat array of records and an array nested one level deeper give the same stored record, the first one |
| `StringTrim.IsTrimmable` | src/composables/useSentimentAnalysis.ts:54 | the code points `trim` removes: ECMAScript WhiteSpace (TAB, VT, FF, ZWNBSP and every Zs code point) and LineTerminator (LF, CR, LS, PS); all of them lie in the Basic Multilingual Plane |
| `StringTrim.IsBlank` | src/composables/useSentimentAnalysis.ts:54 | every character of the text is one that `trim` removes (the empty text included) |
| `StringTrim.Trim` | src/composables/useSentimentAnalysis.ts:54 | `text.trim()` is the slice between the first and the last kept character; it neither starts nor ends with trimmable whitespace; it is empty exactly when every character is WhiteSpace or a LineTerminator |
| `StringTrim.TrimIdempotent` | src/composables/useSentimentAnalysis.ts:54 | trimming a trimmed string changes nothing |

## Left out

- Strings: JavaScript strings are sequences of UTF-16 code units, while `string` here is a sequence of Unicode scalar values, so a `text` holding a lone surrogate cannot be represented. The blank test is unaffected, because every trimmable code point lies in the Basic Multilingual Plane and is a single code unit (`StringTrim.IsTrimmable`).
- Vue reactivity (lines 1 and 90-92): the refs are plain fields, and the `onUnmounted` hook is not modelled. `dispose` is an explicit call.
- The library's `pipeline(...)` load and the `classifier(text)` inference (lines 39 and 63) cannot be seen from this code. They appear only as oracle outcomes, and a thrown value is an opaque `Failure`.
- Engine resources: `classifier.dispose()` (line 82) frees memory outside this code. The model only logs the release call and clears the reference.
- Async interleaving: each operation is atomic. The model does not cover overlapping `initPipeline` or `analyze` calls, or a `dispose` while a call is in flight. The automatic load is the one exception: other calls may run before it settles.
- Unhandled rejection: the promise of the automatic `initPipeline()` at line 87 is never awaited. `SettleAutoInit` returns its outcome, and nothing models the runtime's unhandled-rejection report.
- `score` is a number the engine produces. It is an unconstrained `real`, with no claim that it lies in [0, 1] and no model of floating point.
- The `dtype` union and the option types are TypeScript compile-time types. The model gives them as a datatype and as `Option` fields.
- `astro.config.mjs` is build and integration configuration with no logic of its own.
- `src/content.config.ts` declares a schema and loader for the framework's validation library. It has no logic of its own.
