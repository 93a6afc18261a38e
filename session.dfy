/**
 * One transcription job across both sides of the channel. The page posts its
 * requests, the worker answers them in order, and the page receives the
 * answers in order. Lemmas here compose the two sides: first as the code is
 * written, then under the corrected protocol in which the page sends `run`
 * only after `ready`.
 */
module Session {
  import opened Wrappers
  import opened Messages
  import opened Rendering
  import opened InferenceWorker
  import opened SessionController

  /**
   * The worker handling a batch of requests one after another, each to
   * completion: exact when nothing else is in flight, as under the corrected
   * protocol below.
   */
  function HandleAll(w: WorkerState, reqs: seq<Request>, pipeline: Pipeline, transcribe: Transcribe): (WorkerState, seq<Reply>)
    decreases |reqs|
  {
    if reqs == [] then (w, [])
    else
      var first := HandleRequest(w, reqs[0], pipeline, transcribe);
      var rest := HandleAll(first.0, reqs[1..], pipeline, transcribe);
      (rest.0, first.1 + rest.1)
  }

  /**
   * How the worker answers a job's `load` and `run` as the listener is
   * written. The listener is an `async` function, so each message is handled
   * only up to its first `await` before the next message is taken. A `load`
   * of the cached model posts `ready` without awaiting, so the `run` behind it
   * finds that engine. Any other `load` posts `loading` and awaits the
   * pipeline; the `run` is handled during that await, with the worker state
   * as it was before the `load`, and then awaits its own engine call.
   * `runSettlesFirst` says which of the two awaits settles first.
   */
  function PipelinedReplies(w: WorkerState, model: string, audio: Samples, language: string, timestamps: bool,
                            pipeline: Pipeline, transcribe: Transcribe, runSettlesFirst: bool): (WorkerState, seq<Reply>)
  {
    var ran := RunStep(w, audio, language, timestamps, transcribe);
    if IsCached(w, model) then (w, [Ready] + ran)
    else
      var finished := FinishLoad(w, model, pipeline(model));
      (finished.0, if runSettlesFirst then [Loading(LoadingText)] + ran + finished.1
                   else [Loading(LoadingText)] + finished.1 + ran)
  }

  /** A job as written: the page submits, the worker answers, the page receives the answers in order. */
  function AsWrittenJob(c: ControllerState, w: WorkerState, decoded: Result<Samples>, settings: Settings,
                        pipeline: Pipeline, transcribe: Transcribe, runSettlesFirst: bool): (ControllerState, WorkerState, seq<Reply>)
  {
    var submitted := SubmitStep(c, decoded, settings);
    if c.isProcessing || decoded.Failure? then (submitted.0, w, [])
    else
      var worked := PipelinedReplies(w, settings.model, decoded.value, settings.language, settings.timestamps,
                                     pipeline, transcribe, runSettlesFirst);
      (ReceiveAll(submitted.0, worked.1), worked.0, worked.1)
  }

  /** What the page shows after a terminal message. */
  function TerminalView(r: Reply): View
    requires IsTerminal(r)
  {
    if r.Complete? then Normalise(r.output) else TextContent(ErrorPrefix + r.data)
  }

  /** An admitted job: the page posts `load` and `run`, and receives the worker's replies in order. */
  lemma AdmittedJob(c: ControllerState, w: WorkerState, audio: Samples, settings: Settings,
                    pipeline: Pipeline, transcribe: Transcribe, runSettlesFirst: bool)
    requires !c.isProcessing
    ensures var submitted := SubmitStep(c, Ok(audio), settings);
      var worked := PipelinedReplies(w, settings.model, audio, settings.language, settings.timestamps,
                                     pipeline, transcribe, runSettlesFirst);
      && submitted.1 == [Load(settings.model), Run(audio, settings.language, settings.timestamps)]
      && AsWrittenJob(c, w, Ok(audio), settings, pipeline, transcribe, runSettlesFirst)
         == (ReceiveAll(submitted.0, worked.1), worked.0, worked.1)
  {
  }

  /** The page after a non-empty run of replies: the guard, and what the last reply leaves shown. */
  lemma PageAfterReplies(c1: ControllerState, rs: seq<Reply>)
    requires |rs| >= 1
    ensures ReceiveAll(c1, rs).isProcessing <==> c1.isProcessing && CountTerminals(rs) == 0
    ensures rs[|rs| - 1].Ready? ==> ReceiveAll(c1, rs).view == TextContent(WorkingText)
    ensures IsTerminal(rs[|rs| - 1]) ==> ReceiveAll(c1, rs).view == TerminalView(rs[|rs| - 1])
  {
    ReceiveAllGuard(c1, rs);
    if IsTerminal(rs[|rs| - 1]) {
      ReceiveTerminalView(ReceiveAll(c1, rs[..|rs| - 1]), rs[|rs| - 1]);
    }
  }

  /** `loading` is not terminal. */
  lemma LoadingFirst(rs: seq<Reply>)
    ensures CountTerminals([Loading(LoadingText)] + rs) == CountTerminals(rs)
  {
    var loading := [Loading(LoadingText)];
    assert loading[..0] == [];
    CountTerminalsAppend(loading, rs);
  }

  /**
   * With no engine loaded the `run` posts nothing, so whatever settles first
   * the worker's replies are `loading` and then those of the pipeline.
   */
  lemma NoEngineReplies(w: WorkerState, model: string, audio: Samples, language: string, timestamps: bool,
                        pipeline: Pipeline, transcribe: Transcribe, runSettlesFirst: bool)
    requires w.transcriber.None?
    ensures var finished := FinishLoad(w, model, pipeline(model));
      var worked := PipelinedReplies(w, model, audio, language, timestamps, pipeline, transcribe, runSettlesFirst);
      && worked.0 == finished.0
      && worked.1 == [Loading(LoadingText)] + finished.1
      && CountTerminals(worked.1) == CountTerminals(finished.1)
  {
    var finished := FinishLoad(w, model, pipeline(model));
    var ran := RunStep(w, audio, language, timestamps, transcribe);
    assert ran == [];
    assert [Loading(LoadingText)] + ran + finished.1 == [Loading(LoadingText)] + finished.1;
    assert [Loading(LoadingText)] + finished.1 + ran == [Loading(LoadingText)] + finished.1;
    LoadingFirst(finished.1);
  }

  /**
   * Switching models while an engine is loaded: the replies hold the run's
   * outcome on the previously loaded engine and the load's last message, and
   * end with whichever settled last.
   */
  lemma SwitchReplies(w: WorkerState, model: string, audio: Samples, language: string, timestamps: bool,
                      pipeline: Pipeline, transcribe: Transcribe, runSettlesFirst: bool)
    requires w.transcriber.Some? && !IsCached(w, model)
    ensures var finished := FinishLoad(w, model, pipeline(model));
      var previous := Outcome(transcribe(w.transcriber.value, audio, BuildOptions(language, timestamps)).result);
      var rs := PipelinedReplies(w, model, audio, language, timestamps, pipeline, transcribe, runSettlesFirst).1;
      && PipelinedReplies(w, model, audio, language, timestamps, pipeline, transcribe, runSettlesFirst).0 == finished.0
      && |rs| >= 3
      && CountTerminals(rs) == 1 + CountTerminals(finished.1)
      && previous in rs && finished.1[|finished.1| - 1] in rs
      && rs[|rs| - 1] == (if runSettlesFirst then finished.1[|finished.1| - 1] else previous)
  {
    var finished := FinishLoad(w, model, pipeline(model));
    var ran := RunStep(w, audio, language, timestamps, transcribe);
    RunReplies(w, audio, language, timestamps, transcribe);
    var loading := [Loading(LoadingText)];
    if runSettlesFirst {
      var rs := loading + ran + finished.1;
      LoadingFirst(ran);
      CountTerminalsAppend(loading + ran, finished.1);
      assert rs[|ran|] == ran[|ran| - 1];
      assert rs[|rs| - 1] == finished.1[|finished.1| - 1];
    } else {
      var rs := loading + finished.1 + ran;
      LoadingFirst(finished.1);
      CountTerminalsAppend(loading + finished.1, ran);
      assert rs[|finished.1|] == finished.1[|finished.1| - 1];
      assert rs[|rs| - 1] == ran[|ran| - 1];
    }
  }

  /**
   * As written, a job whose model is cached posts `ready` and then the run's
   * replies, whatever settles when: exactly one terminal message, the guard
   * released, the worker unchanged, and the page showing what the cached
   * engine returned for the request's options.
   */
  lemma CachedJobCompletes(c: ControllerState, w: WorkerState, audio: Samples, settings: Settings,
                           pipeline: Pipeline, transcribe: Transcribe, runSettlesFirst: bool)
    requires !c.isProcessing && IsCached(w, settings.model)
    ensures var (c', w', rs) := AsWrittenJob(c, w, Ok(audio), settings, pipeline, transcribe, runSettlesFirst);
      var last := Outcome(transcribe(w.transcriber.value, audio, BuildOptions(settings.language, settings.timestamps)).result);
      && w' == w && rs[0] == Ready
      && CountTerminals(rs) == 1 && !c'.isProcessing
      && rs[|rs| - 1] == last && c'.view == TerminalView(last)
  {
    AdmittedJob(c, w, audio, settings, pipeline, transcribe, runSettlesFirst);
    var ran := RunStep(w, audio, settings.language, settings.timestamps, transcribe);
    RunReplies(w, audio, settings.language, settings.timestamps, transcribe);
    var rs := [Ready] + ran;
    CountTerminalsAppend([Ready], ran);
    assert [Ready][..0] == [];
    assert rs[|rs| - 1] == ran[|ran| - 1];
    PageAfterReplies(SubmitStep(c, Ok(audio), settings).0, rs);
  }

  /**
   * As written, a job that finds no engine loaded (the first job after the
   * page opens) never finishes when its model loads: the `run` is handled
   * while `transcriber` is still null and is dropped, the load ends with
   * `ready`, no terminal message comes, the guard stays set with "processing"
   * shown, and every later submission is a no-op.
   */
  lemma FirstJobNeverFinishes(c: ControllerState, w: WorkerState, audio: Samples, settings: Settings,
                              pipeline: Pipeline, transcribe: Transcribe, runSettlesFirst: bool)
    requires !c.isProcessing && w.transcriber.None?
    requires pipeline(settings.model).result.Loaded?
    ensures var (c', w', rs) := AsWrittenJob(c, w, Ok(audio), settings, pipeline, transcribe, runSettlesFirst);
      && RunStep(w, audio, settings.language, settings.timestamps, transcribe) == []
      && IsCached(w', settings.model)
      && CountTerminals(rs) == 0 && rs[|rs| - 1] == Ready
      && c'.isProcessing && c'.view == TextContent(WorkingText)
      && (forall d, s :: SubmitStep(c', d, s) == (c', []))
  {
    AdmittedJob(c, w, audio, settings, pipeline, transcribe, runSettlesFirst);
    NoEngineReplies(w, settings.model, audio, settings.language, settings.timestamps, pipeline, transcribe, runSettlesFirst);
    var rs := [Loading(LoadingText)] + FinishLoad(w, settings.model, pipeline(settings.model)).1;
    PageAfterReplies(SubmitStep(c, Ok(audio), settings).0, rs);
  }

  /**
   * As written, a job that finds no engine loaded and whose load fails ends
   * with exactly one `error`: the `run` is dropped, the guard is released and
   * the worker is unchanged.
   */
  lemma NoEngineLoadFails(c: ControllerState, w: WorkerState, audio: Samples, settings: Settings,
                          pipeline: Pipeline, transcribe: Transcribe, runSettlesFirst: bool)
    requires !c.isProcessing && w.transcriber.None?
    requires pipeline(settings.model).result.LoadFailed?
    ensures var (c', w', rs) := AsWrittenJob(c, w, Ok(audio), settings, pipeline, transcribe, runSettlesFirst);
      var message := pipeline(settings.model).result.message;
      && w' == w && CountTerminals(rs) == 1 && !c'.isProcessing
      && rs[|rs| - 1] == Error(message)
      && c'.view == TextContent(ErrorPrefix + message)
  {
    AdmittedJob(c, w, audio, settings, pipeline, transcribe, runSettlesFirst);
    NoEngineReplies(w, settings.model, audio, settings.language, settings.timestamps, pipeline, transcribe, runSettlesFirst);
    var rs := [Loading(LoadingText)] + FinishLoad(w, settings.model, pipeline(settings.model)).1;
    PageAfterReplies(SubmitStep(c, Ok(audio), settings).0, rs);
  }

  /** The worker's side of a failed switch: state unchanged, two terminal messages, a terminal one last. */
  lemma FailedSwitchReplies(c: ControllerState, w: WorkerState, audio: Samples, settings: Settings,
                            pipeline: Pipeline, transcribe: Transcribe, runSettlesFirst: bool)
    requires !c.isProcessing && w.transcriber.Some? && !IsCached(w, settings.model)
    requires pipeline(settings.model).result.LoadFailed?
    ensures var (c', w', rs) := AsWrittenJob(c, w, Ok(audio), settings, pipeline, transcribe, runSettlesFirst);
      var previous := Outcome(transcribe(w.transcriber.value, audio, BuildOptions(settings.language, settings.timestamps)).result);
      && w' == w && |rs| >= 1
      && CountTerminals(rs) == 2 && IsTerminal(rs[|rs| - 1])
      && Error(pipeline(settings.model).result.message) in rs && previous in rs
  {
    AdmittedJob(c, w, audio, settings, pipeline, transcribe, runSettlesFirst);
    SwitchReplies(w, settings.model, audio, settings.language, settings.timestamps, pipeline, transcribe, runSettlesFirst);
  }

  /**
   * As written, switching to a model whose load fails while another engine
   * is loaded: the `run` is transcribed by the previously loaded engine, the
   * page receives two terminal messages (`error` and the run's outcome, in
   * either order), and the guard is already released before the second one
   * arrives, so a new job could be admitted in between.
   */
  lemma FailedSwitchRunsPreviousModel(c: ControllerState, w: WorkerState, audio: Samples, settings: Settings,
                                      pipeline: Pipeline, transcribe: Transcribe, runSettlesFirst: bool)
    requires !c.isProcessing && w.transcriber.Some? && !IsCached(w, settings.model)
    requires pipeline(settings.model).result.LoadFailed?
    ensures var (c', w', rs) := AsWrittenJob(c, w, Ok(audio), settings, pipeline, transcribe, runSettlesFirst);
      var previous := Outcome(transcribe(w.transcriber.value, audio, BuildOptions(settings.language, settings.timestamps)).result);
      && w' == w
      && CountTerminals(rs) == 2
      && Error(pipeline(settings.model).result.message) in rs && previous in rs
      && IsTerminal(rs[|rs| - 1])
      && !ReceiveAll(SubmitStep(c, Ok(audio), settings).0, rs[..|rs| - 1]).isProcessing
  {
    FailedSwitchReplies(c, w, audio, settings, pipeline, transcribe, runSettlesFirst);
    var rs := AsWrittenJob(c, w, Ok(audio), settings, pipeline, transcribe, runSettlesFirst).2;
    assert CountTerminals(rs[..|rs| - 1]) == 1;
    ReceiveAllGuard(SubmitStep(c, Ok(audio), settings).0, rs[..|rs| - 1]);
  }

  /** The worker's side of a successful switch: the new engine installed, one terminal message from the old one. */
  lemma SuccessfulSwitchReplies(c: ControllerState, w: WorkerState, audio: Samples, settings: Settings,
                                pipeline: Pipeline, transcribe: Transcribe, runSettlesFirst: bool)
    requires !c.isProcessing && w.transcriber.Some? && !IsCached(w, settings.model)
    requires pipeline(settings.model).result.Loaded?
    ensures var (c', w', rs) := AsWrittenJob(c, w, Ok(audio), settings, pipeline, transcribe, runSettlesFirst);
      var previous := Outcome(transcribe(w.transcriber.value, audio, BuildOptions(settings.language, settings.timestamps)).result);
      && IsCached(w', settings.model) && w'.transcriber == Some(pipeline(settings.model).result.engine)
      && |rs| >= 1 && CountTerminals(rs) == 1 && previous in rs
      && rs[|rs| - 1] == (if runSettlesFirst then Ready else previous)
  {
    AdmittedJob(c, w, audio, settings, pipeline, transcribe, runSettlesFirst);
    SwitchReplies(w, settings.model, audio, settings.language, settings.timestamps, pipeline, transcribe, runSettlesFirst);
  }

  /**
   * As written, switching to a model that loads successfully while another
   * engine is loaded: the new engine is installed for the selected model, but
   * the `run` was already handled and is transcribed by the previously loaded
   * engine, which is what the page receives. If the run settles first, the
   * later `ready` then replaces that result with the "processing" text.
   */
  lemma SuccessfulSwitchRunsPreviousModel(c: ControllerState, w: WorkerState, audio: Samples, settings: Settings,
                                          pipeline: Pipeline, transcribe: Transcribe, runSettlesFirst: bool)
    requires !c.isProcessing && w.transcriber.Some? && !IsCached(w, settings.model)
    requires pipeline(settings.model).result.Loaded?
    ensures var (c', w', rs) := AsWrittenJob(c, w, Ok(audio), settings, pipeline, transcribe, runSettlesFirst);
      var previous := Outcome(transcribe(w.transcriber.value, audio, BuildOptions(settings.language, settings.timestamps)).result);
      && IsCached(w', settings.model) && w'.transcriber == Some(pipeline(settings.model).result.engine)
      && CountTerminals(rs) == 1 && previous in rs && !c'.isProcessing
      && (runSettlesFirst ==> rs[|rs| - 1] == Ready && c'.view == TextContent(WorkingText))
      && (!runSettlesFirst ==> rs[|rs| - 1] == previous && c'.view == TerminalView(previous))
  {
    SuccessfulSwitchReplies(c, w, audio, settings, pipeline, transcribe, runSettlesFirst);
    AdmittedJob(c, w, audio, settings, pipeline, transcribe, runSettlesFirst);
    var rs := AsWrittenJob(c, w, Ok(audio), settings, pipeline, transcribe, runSettlesFirst).2;
    PageAfterReplies(SubmitStep(c, Ok(audio), settings).0, rs);
  }

  /** A sequence of later submissions, each with its own decode outcome and settings. */
  function SubmitAll(c: ControllerState, jobs: seq<(Result<Samples>, Settings)>): (ControllerState, seq<Request>)
    decreases |jobs|
  {
    if jobs == [] then (c, [])
    else
      var first := SubmitStep(c, jobs[0].0, jobs[0].1);
      var rest := SubmitAll(first.0, jobs[1..]);
      (rest.0, first.1 + rest.1)
  }

  lemma {:induction false} SubmitAllWhileBusy(c: ControllerState, jobs: seq<(Result<Samples>, Settings)>)
    requires c.isProcessing
    ensures SubmitAll(c, jobs) == (c, [])
    decreases |jobs|
  {
    if jobs != [] {
      assert SubmitStep(c, jobs[0].0, jobs[0].1) == (c, []);
      SubmitAllWhileBusy(c, jobs[1..]);
      var none: seq<Request> := [];
      assert none + none == none;
    }
  }

  /**
   * As written, a file that fails to decode leaves the guard set with nothing
   * posted, so no reply can ever clear it: every later submission, however
   * many, posts nothing and changes nothing.
   */
  lemma DecodeFailureLocksPage(c: ControllerState, message: string, settings: Settings,
                               later: seq<(Result<Samples>, Settings)>)
    requires !c.isProcessing
    ensures var (c1, posted) := SubmitStep(c, Failure(message), settings);
      && posted == [] && c1.isProcessing && c1.view == TextContent(InitText)
      && SubmitAll(c1, later) == (c1, [])
  {
    SubmitAllWhileBusy(SubmitStep(c, Failure(message), settings).0, later);
  }

  // ---------------------------------------------------------------------------
  // The corrected protocol: the page keeps `run` until the worker is ready,
  // drops it when loading fails, and releases the guard when decoding fails.
  // Since nothing else is in flight while `load` runs, handling `load` to
  // completion (LoadStep) is exact under this protocol.
  // ---------------------------------------------------------------------------

  /** The page's state under the corrected protocol: the `run` waiting for `ready`. */
  datatype FixedState = FixedState(page: ControllerState, pending: Option<Request>)

  /** Corrected `processFile`: post only `load`; keep `run` pending; a decode failure ends the job. */
  function FixedSubmit(f: FixedState, decoded: Result<Samples>, settings: Settings): (FixedState, seq<Request>) {
    if f.page.isProcessing then (f, [])
    else
      match decoded
      case Failure(message) =>
        (FixedState(f.page.(view := TextContent(ErrorPrefix + message)), None), [])
      case Ok(audio) =>
        (FixedState(f.page.(isProcessing := true, view := TextContent(InitText)),
                    Some(Run(audio, settings.language, settings.timestamps))),
         [Load(settings.model)])
  }

  /** Corrected listener: on `ready` post the pending `run`; on `error` drop it. */
  function FixedReceive(f: FixedState, r: Reply): (FixedState, seq<Request>) {
    var page := ReceiveStep(f.page, r);
    match r
    case Ready => (FixedState(page, None), if f.pending.Some? then [f.pending.value] else [])
    case Error(_) => (FixedState(page, None), [])
    case _ => (FixedState(page, f.pending), [])
  }

  function FixedReceiveAll(f: FixedState, rs: seq<Reply>): (FixedState, seq<Request>) {
    if rs == [] then (f, [])
    else
      var before := FixedReceiveAll(f, rs[..|rs| - 1]);
      var step := FixedReceive(before.0, rs[|rs| - 1]);
      (step.0, before.1 + step.1)
  }

  /** A reply that neither starts the run nor ends the job. */
  predicate Quiet(r: Reply) {
    !r.Ready? && !IsTerminal(r)
  }

  lemma {:induction false} FixedReceiveQuiet(f: FixedState, rs: seq<Reply>)
    requires forall i :: 0 <= i < |rs| ==> Quiet(rs[i])
    ensures FixedReceiveAll(f, rs).1 == []
    ensures FixedReceiveAll(f, rs).0.pending == f.pending
    ensures FixedReceiveAll(f, rs).0.page.isProcessing == f.page.isProcessing
    decreases |rs|
  {
    if rs != [] {
      FixedReceiveQuiet(f, rs[..|rs| - 1]);
    }
  }

  /** Receiving replies whose last one is `r` and whose others are quiet. */
  lemma FixedReceiveQuietThen(f: FixedState, rs: seq<Reply>)
    requires |rs| >= 1
    requires forall i :: 0 <= i < |rs| - 1 ==> Quiet(rs[i])
    ensures FixedReceiveAll(f, rs) ==
      FixedReceive(FixedState(FixedReceiveAll(f, rs[..|rs| - 1]).0.page, f.pending), rs[|rs| - 1])
    ensures FixedReceiveAll(f, rs[..|rs| - 1]).0.page.isProcessing == f.page.isProcessing
  {
    var init := rs[..|rs| - 1];
    FixedReceiveQuiet(f, init);
    var before := FixedReceiveAll(f, init);
    assert before.0 == FixedState(before.0.page, f.pending);
    assert [] + FixedReceive(before.0, rs[|rs| - 1]).1 == FixedReceive(before.0, rs[|rs| - 1]).1;
  }

  /** A job under the corrected protocol: load, then the page's answer to the load's replies, then the run. */
  function FixedJob(f: FixedState, w: WorkerState, decoded: Result<Samples>, settings: Settings,
                    pipeline: Pipeline, transcribe: Transcribe): (FixedState, WorkerState, seq<Reply>)
  {
    var submitted := FixedSubmit(f, decoded, settings);
    var loaded := HandleAll(w, submitted.1, pipeline, transcribe);
    var answered := FixedReceiveAll(submitted.0, loaded.1);
    var ran := HandleAll(loaded.0, answered.1, pipeline, transcribe);
    var finished := FixedReceiveAll(answered.0, ran.1);
    (finished.0, ran.0, loaded.1 + ran.1)
  }

  lemma HandleOne(w: WorkerState, req: Request, pipeline: Pipeline, transcribe: Transcribe)
    ensures HandleAll(w, [req], pipeline, transcribe) == HandleRequest(w, req, pipeline, transcribe)
  {
    var h := HandleRequest(w, req, pipeline, transcribe);
    assert [req][1..] == [];
    assert h.1 + [] == h.1;
  }

  /** The worker's replies to a `load`: quiet ones, then `ready` or `error`. */
  lemma LoadRepliesShape(w: WorkerState, model: string, a: LoadAttempt)
    ensures var (w', rs) := LoadStep(w, model, a);
      && |rs| >= 1
      && (forall i :: 0 <= i < |rs| - 1 ==> Quiet(rs[i]))
      && (IsCached(w, model) || a.result.Loaded? ==> rs[|rs| - 1] == Ready && IsCached(w', model))
      && (!IsCached(w, model) && a.result.LoadFailed? ==> rs[|rs| - 1] == Error(a.result.message) && w' == w)
  {
    if !IsCached(w, model) {
      if a.result.Loaded? {
        LoadSuccess(w, model, a);
      } else {
        LoadFailure(w, model, a);
      }
    }
  }

  /** Replies that are quiet up to a final `ready` or `error`, received under the corrected protocol. */
  lemma FixedReceiveUpTo(f1: FixedState, rs: seq<Reply>)
    requires f1.page.isProcessing && |rs| >= 1
    requires forall i :: 0 <= i < |rs| - 1 ==> Quiet(rs[i])
    requires rs[|rs| - 1].Ready? || rs[|rs| - 1].Error?
    ensures FixedReceiveAll(f1, rs).0.pending.None?
    ensures rs[|rs| - 1].Ready? ==>
      && FixedReceiveAll(f1, rs).1 == (if f1.pending.Some? then [f1.pending.value] else [])
      && FixedReceiveAll(f1, rs).0.page.isProcessing
      && CountTerminals(rs) == 0
    ensures rs[|rs| - 1].Error? ==>
      && FixedReceiveAll(f1, rs).1 == []
      && !FixedReceiveAll(f1, rs).0.page.isProcessing
      && CountTerminals(rs) == 1
  {
    var init, last := rs[..|rs| - 1], rs[|rs| - 1];
    assert rs == init + [last];
    CountTerminalsZero(init);
    CountTerminalsAppend(init, [last]);
    assert [last][..0] == [];
    FixedReceiveQuietThen(f1, rs);
  }

  /**
   * Under the corrected protocol, the page's answer to the worker's replies to
   * `load`: on `ready` it posts the pending `run` and keeps the guard; on
   * `error` it posts nothing and releases the guard.
   */
  lemma FixedAnswerToLoad(f1: FixedState, w: WorkerState, model: string, a: LoadAttempt)
    requires f1.page.isProcessing && f1.pending.Some?
    ensures var (w1, rs1) := LoadStep(w, model, a);
      var (f2, reqs2) := FixedReceiveAll(f1, rs1);
      && |rs1| >= 1 && f2.pending.None?
      && (IsCached(w, model) || a.result.Loaded? ==>
            reqs2 == [f1.pending.value] && f2.page.isProcessing && IsCached(w1, model) && CountTerminals(rs1) == 0)
      && (!IsCached(w, model) && a.result.LoadFailed? ==>
            reqs2 == [] && !f2.page.isProcessing && w1 == w && CountTerminals(rs1) == 1)
  {
    LoadRepliesShape(w, model, a);
    FixedReceiveUpTo(f1, LoadStep(w, model, a).1);
  }

  /** Under the corrected protocol, the page's answer to the replies of a `run` on a loaded engine. */
  lemma FixedAnswerToRun(f2: FixedState, w1: WorkerState, audio: Samples, language: string, timestamps: bool,
                         transcribe: Transcribe)
    requires f2.pending.None? && w1.transcriber.Some?
    ensures var rs2 := RunStep(w1, audio, language, timestamps, transcribe);
      var (f3, reqs3) := FixedReceiveAll(f2, rs2);
      && !f3.page.isProcessing && f3.pending.None? && reqs3 == []
      && CountTerminals(rs2) == 1 && |rs2| >= 1
      && rs2[|rs2| - 1] == Outcome(transcribe(w1.transcriber.value, audio, BuildOptions(language, timestamps)).result)
  {
    var rs2 := RunStep(w1, audio, language, timestamps, transcribe);
    RunReplies(w1, audio, language, timestamps, transcribe);
    assert forall i :: 0 <= i < |rs2| - 1 ==> Quiet(rs2[i]);
    FixedReceiveQuietThen(f2, rs2);
  }

  /**
   * Under the corrected protocol every job ends with the guard released and
   * nothing pending, after exactly one terminal message when the audio
   * decoded (none when it did not); the worker's invariant is kept; and a job
   * whose model is cached or loads is transcribed by the engine loaded for the
   * selected model, with the options built from the request.
   */
  lemma FixedJobEndsOnce(f: FixedState, w: WorkerState, decoded: Result<Samples>, settings: Settings,
                         pipeline: Pipeline, transcribe: Transcribe)
    requires !f.page.isProcessing && f.pending.None? && Consistent(w)
    ensures var (f', w', rs) := FixedJob(f, w, decoded, settings, pipeline, transcribe);
      && !f'.page.isProcessing && f'.pending.None? && Consistent(w')
      && CountTerminals(rs) == (if decoded.Ok? then 1 else 0)
      && (decoded.Ok? && (IsCached(w, settings.model) || pipeline(settings.model).result.Loaded?) ==>
            && IsCached(w', settings.model)
            && rs[|rs| - 1] == Outcome(transcribe(w'.transcriber.value, decoded.value,
                                                  BuildOptions(settings.language, settings.timestamps)).result))
  {
    var model := settings.model;
    var (f1, reqs1) := FixedSubmit(f, decoded, settings);
    if decoded.Failure? {
      assert FixedJob(f, w, decoded, settings, pipeline, transcribe) == (f1, w, []);
      return;
    }
    var audio := decoded.value;
    var run := Run(audio, settings.language, settings.timestamps);
    HandleOne(w, Load(model), pipeline, transcribe);
    var (w1, rs1) := LoadStep(w, model, pipeline(model));
    FixedAnswerToLoad(f1, w, model, pipeline(model));
    var (f2, reqs2) := FixedReceiveAll(f1, rs1);
    if IsCached(w, model) || pipeline(model).result.Loaded? {
      HandleOne(w1, run, pipeline, transcribe);
      var rs2 := RunStep(w1, audio, settings.language, settings.timestamps, transcribe);
      FixedAnswerToRun(f2, w1, audio, settings.language, settings.timestamps, transcribe);
      CountTerminalsAppend(rs1, rs2);
      var rs := rs1 + rs2;
      assert rs[|rs| - 1] == rs2[|rs2| - 1];
    } else {
      assert HandleAll(w1, reqs2, pipeline, transcribe) == (w1, []);
      assert FixedReceiveAll(f2, []) == (f2, []);
      assert rs1 + [] == rs1;
    }
  }
}
