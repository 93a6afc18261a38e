# recognit: transcription session, modelled in Dafny

This project models the two scripts of a browser speech-to-text page:

- `main.js`, the page. It admits one file at a time behind the `isProcessing`
  flag. It posts `load` and then `run` to a worker. It turns the worker's
  status messages into the output text and the status bar.
- `worker.js`, the inference worker. It keeps one loaded engine
  (`transcriber`) and the model id it was loaded for (`currentModel`). It
  reloads only when the requested model id differs. It forwards download
  progress, builds the engine options for a run, and answers with
  `complete` or `error`.

Files and modules:

- `wrappers.dfy` (`Wrappers`): `Option` for null or absent values. `Result`
  for a call that either returns or throws.
- `messages.dfy` (`Messages`): the messages in both directions, and the
  three shapes of engine output: a string, an array of timestamped chunks,
  or an object with `.text`.
- `decimal.dfy` (`Decimal`): `Number.prototype.toString` for whole numbers,
  and reading digits back.
- `time_format.dfy` (`TimeFormat`): `formatTime`, with JavaScript's
  truncating `%` and `padStart(2, '0')` written out.
- `rendering.dfy` (`Rendering`): the normalisation in the `complete` branch.
- `worker.dfy` (`InferenceWorker`): the worker's step functions and the
  class `Worker`. Its methods are proved against those step functions.
- `controller.dfy` (`SessionController`): the page's step functions and the
  class `Controller`. Its methods are proved against those step functions.
- `session.dfy` (`Session`): whole jobs across both sides, the findings
  below, and a corrected protocol.

The speech engine is a pair of function parameters:

- `pipeline(model)` gives the progress callbacks it made, then an engine or
  a thrown message.
- `transcribe(engine, audio, options)` gives the partial texts it reported,
  then an output or a thrown message.

Decoding a file is a `Result` parameter. The page's three settings are a
value read for each job.

Facts about the code that the model keeps:

- The worker's reload cache is keyed by the model id alone.
- The worker posts `loading`, `progress`, `ready`, `partial`, `complete` and
  `error`, and nothing else.
- The page posts `run` right behind `load` and does not wait for `ready`.
- The worker's listener is `async`: a `run` is handled while a `load` awaits
  the pipeline.
- The page has no branch for `loading`, and its `partial` branch does nothing.
- A chunk renders as `[a -> b] text` inside a span, followed by `<br>`.
- Two seconds renders as `0:02`, not `00:02`, because minutes are not
  padded.
- A decode failure does not release the guard.

## Model

| member | source | states |
|---|---|---|
| Decimal.IntToString | main.js:137 | `toString` of a whole number: non-empty, it starts with `-` exactly when the number is negative, and a non-negative number gives only digits |
| Decimal.IntToStringValue | main.js:135-137 | the digits after the optional minus denote the absolute value, with no leading zero unless the number is zero |
| Decimal.NatToStringRoundTrip | main.js:137 | the decimal text of a non-negative number reads back as that number and has no leading zero |
| TimeFormat.JsRem | main.js:136 | JavaScript's `%`: the dividend minus the divisor times the quotient truncated toward zero; it equals the Euclidean remainder for a non-negative dividend and lies in (-d, 0] for a negative one |
| TimeFormat.PadStart2 | main.js:137 | the padded text has length max(2, n), text already two long is left as it is, and every added character is '0' |
| TimeFormat.PadStart2Suffix | main.js:137 | the padded text ends with the original text |
| TimeFormat.FormatTimeShape | main.js:133-138 | every result has at least four characters; it starts with `-` exactly for a negative time; for an absent or non-negative time the colon is third from the end |
| TimeFormat.FormatTimeZeroIff | main.js:134 | the result is "00:00" if and only if the argument is falsy (absent or zero) |
| TimeFormat.FormatTimeFields | main.js:135-137 | for a positive time: the unpadded decimal of floor(s/60), a colon, then exactly two digits denoting s mod 60, which is below 60 |
| TimeFormat.FormatTimeRoundTrip | main.js:133-138 | reading "M:SS" back from the formatted text of a positive time gives that time |
| TimeFormat.FormatTimeUnderTen | main.js:135-137 | a time of 1 to 9 seconds renders as "0:0" followed by its digit |
| TimeFormat.FormatTimeExamples | main.js:133-138 | null and 0 give "00:00", 65 gives "1:05", 3661 gives "61:01", and -5 gives "-1:-5" |
| Rendering.ChunkLineTimes | main.js:109 | an entry opens with the span, then the block of start time, arrow and end time, then the closing bracket, each block at its position |
| Rendering.ChunkLineText | main.js:109 | an entry ends with the chunk text, unescaped and unchanged, right before the final `<br>` |
| Rendering.RenderOneChunk | main.js:108-110 | an array of one chunk renders as that chunk's entry alone |
| Rendering.RenderChunksAppend | main.js:108-110 | rendering concatenated chunk lists concatenates their renderings, so order is kept and nothing is merged |
| Rendering.RenderChunkAt | main.js:108-110 | the entry of chunk k appears whole in the markup, right after the entries of the chunks before it, so none is dropped |
| Rendering.RenderChunksExample | main.js:109 | two chunks (0-2 "hi", 2-5 "there") render as two entries "[00:00 -> 0:02] hi" and "[0:02 -> 0:05] there", each wrapped and followed by `<br>` |
| Rendering.Normalise | main.js:104-113 | type-directed: a string is shown verbatim as text, an object by its `.text`, and a chunk array as the markup of its entries |
| InferenceWorker.BuildOptions | worker.js:51-56 | chunk 30, stride 5, task "transcribe", timestamps copied; language is null exactly when it is "auto", otherwise passed through unchanged |
| InferenceWorker.Forwarded | worker.js:26-35 | only `progress` messages are forwarded, at most one per callback |
| InferenceWorker.ForwardedExactly | worker.js:28-33 | a message is forwarded exactly when some callback had status "progress" and carried that file and progress value unchanged |
| InferenceWorker.ForwardedAppend | worker.js:26-35 | forwarding keeps the callbacks' order |
| InferenceWorker.FinishLoad | worker.js:25-42 | after the pipeline settles: at least one message; the last is `ready` exactly when loading succeeded and `error` exactly when it threw; success records the new engine for the requested model; failure changes nothing; exactly one terminal message exactly on failure |
| InferenceWorker.FinishLoadForwards | worker.js:25-36 | every message the rest of a `load` posts before its last one is exactly the forwarded progress of the pipeline's callbacks, in order |
| InferenceWorker.LoadStep | worker.js:15-43 | the state changes only to the engine just loaded and the requested model, so the invariant (engine null exactly when model null) is kept; the last message is `ready` or `error` |
| InferenceWorker.LoadCacheHit | worker.js:16-19 | a `load` of the model already loaded, with an engine present, posts only `ready` and changes neither variable |
| InferenceWorker.LoadSuccess | worker.js:21-39 | a fresh `load` that succeeds posts `loading`, then exactly the forwarded progress messages, then one `ready`, and records the new engine and the requested model id |
| InferenceWorker.LoadFailure | worker.js:21-42 | a fresh `load` that throws posts `loading`, then exactly the forwarded progress messages, then exactly one `error` with the message and no `ready`; both variables keep their values |
| InferenceWorker.ReloadAvoided | worker.js:16-39 | after a `load` that succeeded or hit the cache, a second `load` of the same model posts only `ready` |
| InferenceWorker.RunStep | worker.js:46-77 | a `run` posts nothing exactly when no engine is loaded, and otherwise exactly one terminal message |
| InferenceWorker.RunReplies | worker.js:46-77 | with an engine, a `run` posts the partial texts and then, last, `complete` with the engine's output for the built options or `error` with the exception message |
| InferenceWorker.HandleRequest | worker.js:11-79 | a `run` never changes the worker's variables, and no message breaks the invariant |
| InferenceWorker.Worker.constructor | worker.js:7-8 | both variables start null, nothing is posted, and the invariant holds |
| InferenceWorker.Worker.OnProgressEvents | worker.js:26-35 | the callback loop posts exactly the forwarded progress messages, in order |
| InferenceWorker.Worker.OnPartials | worker.js:57-65 | the callback loop posts one `partial` per partial text, in order |
| InferenceWorker.Worker.FinishLoading | worker.js:25-42 | the continuation after the pipeline settles: the new variables and the posted messages are those of `FinishLoad` |
| InferenceWorker.Worker.OnLoad | worker.js:15-43 | the new variables and the posted messages are those of the `load` step, and the invariant is kept |
| InferenceWorker.Worker.OnRun | worker.js:46-78 | the variables are unchanged and the posted messages are those of the `run` step |
| InferenceWorker.Worker.OnMessage | worker.js:11-79 | the listener dispatches on the message type to the `load` or `run` step |
| SessionController.ProgressText | main.js:85 | the status text is the prefix, the file name, ": ", the progress in decimal, and a final `%`, each at its position |
| SessionController.SubmitStep | main.js:48-76 | after `processFile` the guard is set; requests are posted only when the page was idle and the audio decoded; the status bar is untouched |
| SessionController.ReceiveStep | main.js:79-122 | a message leaves the guard set exactly when it was set and the message is neither `complete` nor `error`; `loading` and `partial` change nothing |
| SessionController.SubmitWhileBusy | main.js:49 | while a job is in flight, `processFile` posts nothing and changes nothing |
| SessionController.SubmitAdmitted | main.js:48-76 | an admitted file sets the guard; decoded audio posts exactly `load` with the selected model, then `run` with the same audio, language and timestamps; a decode failure posts nothing |
| SessionController.ReceiveAllGuard | main.js:79-122 | after a run of messages the guard is still set exactly when it was set and none of them was terminal |
| SessionController.ReceiveTerminalView | main.js:100-121 | after `complete` the page shows the normalised output, and after `error` the error prefix followed by the message; both release the guard |
| SessionController.Controller.constructor | main.js:15-16 | the page starts idle, with nothing posted |
| SessionController.Controller.ProcessFile | main.js:48-76 | the new state and the posted requests are those of the submit step |
| SessionController.Controller.OnWorkerMessage | main.js:79-122 | the new state is that of the receive step, and nothing is posted |
| Session.CachedJobCompletes | main.js:66-75 | a job whose model is cached, whichever handler settles first, gets `ready` and then exactly one terminal message with what the cached engine returned for the request's options; the guard is released and the worker is unchanged |
| Session.FirstJobNeverFinishes | main.js:66-75 | with no engine loaded, the `run` is handled while `load` awaits and is dropped; the load ends with `ready`, no terminal message comes, the guard stays set, and every later submission is a no-op |
| Session.NoEngineLoadFails | worker.js:40-47 | with no engine loaded, a failed `load` gives exactly one `error`; the `run` is dropped, the guard is released and the worker is unchanged |
| Session.FailedSwitchRunsPreviousModel | worker.js:40-47 | a failed model switch runs the job on the previously loaded engine: `error` and the run's outcome both arrive, two terminal messages, and the guard opens before the second |
| Session.SuccessfulSwitchRunsPreviousModel | worker.js:25-47 | a successful model switch installs the new engine, but the job is transcribed by the previous one; if the run settles first, the final `ready` replaces its result with the "processing" text |
| Session.DecodeFailureLocksPage | main.js:55-58 | a file that fails to decode sets the guard and posts nothing, so every later sequence of submissions posts nothing and changes nothing |
| Session.FixedAnswerToLoad | main.js:66-75 | corrected protocol: on `ready` the page posts the pending `run` and keeps the guard; on `error` it drops the run and releases the guard |
| Session.FixedAnswerToRun | main.js:100-121 | corrected protocol: the replies of a run on a loaded engine release the guard after exactly one terminal message |
| Session.FixedJobEndsOnce | main.js:48-122 | corrected protocol: every job ends with the guard released, after exactly one terminal message for decoded audio; the worker invariant holds, and a loaded model's engine transcribes with the request's options |

## Left out

- DOM wiring: element lookups, the settings toggle, drag and drop, file input, CSS classes (main.js:5-45), the processing indicator (main.js:54, 102, 118) and the red error class (main.js:120). Only the rendered strings are kept: the output element (text or markup) and the status bar (hidden, or its text).
- `readAudio` (main.js:125-130) uses browser audio decoding. It is a parameter: samples, or the message it threw.
- The Transformers.js pipeline, its import from a CDN and the `env` setting (worker.js:2-5). The engine is a pair of function parameters.
- The tokenizer decode inside `callback_function` (worker.js:59). The partial texts are given as strings. The page ignores `partial` (main.js:93-98).
- Floating point: `Math.round(progress)`, fractional seconds and NaN. Times are whole seconds or absent, with absent covering null, undefined and NaN. Progress is a whole percentage. A fractional time in (0, 1) would render "0:00", which the model cannot express.
- Asynchrony, in part. The worker's listener is `async`, so the `run` posted behind a `load` is handled while that `load` awaits the pipeline. A job is modelled that way: `load` posts `loading`, `run` runs on the state before the load finishes, and the load ends with `FinishLoad`. Both orders in which the two awaits can settle are modelled (`runSettlesFirst`). How `progress` and `partial` messages of the two handlers interleave with each other is not modelled; they are placed in blocks, and neither ends a job. `HandleAll` and the class `Worker` handle each message to completion, which matches the corrected protocol, where only one request is in flight.
- Number formatting beyond whole numbers below 10^21: `toString` switches to exponent notation from 1e21, and integers above 2^53 lose precision. `Decimal.IntToString` gives exact decimal digits for every integer.
- The settings are read after the decode await (main.js:61-63). They are passed as one value per job.
- Engine outputs other than a string, a chunk array or an object with string `.text`. An object without `.text`, a number and null are not modelled.
- Messages to the worker whose type is neither `load` nor `run` are ignored by the source and have no constructor here.
- The unused `isModelLoading` flag (main.js:15) is not modelled.
- Chunk text goes into `innerHTML` without escaping. The model keeps it as a string and does not interpret markup.
- TimeFormat.FormatTimeFields: states the field layout only for positive times. Negative times, which the engine does not produce, are covered only by the -5 example.

## Findings

| source | as written | input that shows it | evidently intended | confidence | as-written member | corrected member |
|---|---|---|---|---|---|---|
| main.js:66-75 | `run` is posted right behind `load`. The worker's `load` handler is still awaiting the pipeline when `run` is handled. `transcriber` is still null, so `run` returns silently. Only `ready` follows, so `isProcessing` stays true. | the first file after the page opens, with a model that loads | the page sends `run` once the worker reports `ready`, so the job completes (the adjacent comment says it waits for readiness) | likely; not executed | Session.FirstJobNeverFinishes | Session.FixedJobEndsOnce |
| worker.js:40-47 | while a `load` that will fail awaits the pipeline, `run` checks only that some engine exists. It transcribes with the previously loaded model. The page receives `error` and the run's outcome, in either order, and the guard opens after the first of them. | model A loaded; a file submitted with model B whose load throws | no run after a failed load, and exactly one terminal message per job | likely; not executed | Session.FailedSwitchRunsPreviousModel | Session.FixedAnswerToLoad |
| worker.js:25-47 | the worker's `run` handler runs while `load` awaits the pipeline, with the previous engine. After a successful switch the page gets the result of the previously selected model. If the run settles first, the later `ready` overwrites the shown result with the "processing" text while the guard is already released. | model A loaded; a file submitted with model B, which loads | the job is transcribed by model B and its result stays on the page | likely; not executed | Session.SuccessfulSwitchRunsPreviousModel | Session.FixedJobEndsOnce |
| main.js:55-58 | a decode failure rejects `processFile` after the guard is set. Nothing resets the guard, so every later file is ignored. | a file the browser cannot decode | the error is shown and the guard is released | high; not executed | Session.DecodeFailureLocksPage | Session.FixedJobEndsOnce |
