/**
 * worker.js: the inference worker. Its module-level state is the loaded
 * engine (`transcriber`) and the model id it was loaded for (`currentModel`);
 * one message listener handles `load` and `run` and answers through
 * `self.postMessage`. The speech engine is a parameter: `pipeline(model)`
 * yields the progress callbacks it makes and then an engine or a thrown
 * message, and `transcribe(engine, audio, options)` yields the partial texts
 * it reports and then an output or a thrown message.
 */
module InferenceWorker {
  import opened Wrappers
  import opened Messages

  /** An opaque handle to a loaded speech-recognition pipeline. */
  datatype Engine = Engine(handle: nat)

  /** The argument of one `progress_callback` call. */
  datatype EngineEvent = EngineEvent(status: string, file: string, progress: int)

  datatype LoadResult = Loaded(engine: Engine) | LoadFailed(message: string)

  /** One call of `pipeline(...)`: the callbacks it made, then how it settled. */
  datatype LoadAttempt = LoadAttempt(events: seq<EngineEvent>, result: LoadResult)

  /** The options record passed to the engine for a `run`. */
  datatype Options = Options(
    chunkLengthS: nat,
    strideLengthS: nat,
    language: Option<string>,
    task: string,
    returnTimestamps: bool)

  datatype RunResult = Transcribed(output: Output) | RunFailed(message: string)

  /** One call of `transcriber(audio, options)`: the partial texts it reported, then how it settled. */
  datatype RunAttempt = RunAttempt(partials: seq<string>, result: RunResult)

  type Pipeline = string -> LoadAttempt
  type Transcribe = (Engine, Samples, Options) -> RunAttempt

  /** The two module-level variables of the worker. */
  datatype WorkerState = WorkerState(transcriber: Option<Engine>, currentModel: Option<string>)

  const InitialWorker: WorkerState := WorkerState(None, None)
  const LoadingText: string := "Загрузка модели..."

  /** The worker's invariant: an engine is loaded exactly when a model id is recorded. */
  predicate Consistent(w: WorkerState) {
    w.transcriber.None? <==> w.currentModel.None?
  }

  /** The reload-avoidance test: the cache key is the model id alone. */
  predicate IsCached(w: WorkerState, model: string) {
    w.transcriber.Some? && w.currentModel == Some(model)
  }

  /** The options record of a `run`: fixed chunking and task, "auto" meaning no language. */
  function BuildOptions(language: string, timestamps: bool): (o: Options)
    ensures o.chunkLengthS == 30 && o.strideLengthS == 5 && o.task == "transcribe"
    ensures o.returnTimestamps == timestamps
    ensures o.language.None? <==> language == "auto"
    ensures o.language.Some? ==> o.language.value == language
  {
    Options(30, 5, if language == "auto" then None else Some(language), "transcribe", timestamps)
  }

  /** What one progress callback posts: a `progress` message, only for status "progress". */
  function ProgressMessages(e: EngineEvent): seq<Reply> {
    if e.status == "progress" then [Progress(e.file, e.progress)] else []
  }

  /** The messages the progress callbacks post, in call order: only `progress`, at most one per callback. */
  function Forwarded(events: seq<EngineEvent>): (r: seq<Reply>)
    ensures |r| <= |events|
    ensures forall i :: 0 <= i < |r| ==> r[i].Progress?
  {
    if events == [] then []
    else Forwarded(events[..|events| - 1]) + ProgressMessages(events[|events| - 1])
  }

  /** What the `callback_function` posts: one `partial` message per partial text. */
  function PartialMessages(partials: seq<string>): seq<Reply> {
    if partials == [] then []
    else PartialMessages(partials[..|partials| - 1]) + [Partial(partials[|partials| - 1])]
  }

  /** The message that ends a `run`: the engine's output untouched, or the exception's message. */
  function Outcome(r: RunResult): Reply {
    match r
    case Transcribed(output) => Complete(output)
    case RunFailed(message) => Error(message)
  }

  /**
   * The part of `load` after `loading` is posted: progress while loading,
   * then `ready` with the new engine recorded for the model, or `error` with
   * nothing changed. Exactly one terminal message exactly when loading fails.
   */
  function FinishLoad(w: WorkerState, model: string, a: LoadAttempt): (r: (WorkerState, seq<Reply>))
    ensures |r.1| >= 1
    ensures r.1[|r.1| - 1].Ready? <==> a.result.Loaded?
    ensures r.1[|r.1| - 1].Error? <==> a.result.LoadFailed?
    ensures a.result.Loaded? ==> IsCached(r.0, model) && r.0.transcriber == Some(a.result.engine)
    ensures a.result.LoadFailed? ==> r.0 == w
    ensures CountTerminals(r.1) == if a.result.Loaded? then 0 else 1
  {
    var forwarded := Forwarded(a.events);
    CountTerminalsZero(forwarded);
    match a.result
    case Loaded(engine) =>
      CountTerminalsAppend(forwarded, [Ready]);
      assert [Ready][..0] == [];
      (WorkerState(Some(engine), Some(model)), forwarded + [Ready])
    case LoadFailed(message) =>
      CountTerminalsAppend(forwarded, [Error(message)]);
      assert [Error(message)][..0] == [];
      (w, forwarded + [Error(message)])
  }

  /**
   * The `load` branch: the new state and the messages posted. The state
   * changes only to record the engine just loaded for the requested model, so
   * the invariant is kept; the last message is `ready` or `error`.
   */
  function LoadStep(w: WorkerState, model: string, a: LoadAttempt): (r: (WorkerState, seq<Reply>))
    ensures r.0 != w ==> a.result.Loaded? && r.0 == WorkerState(Some(a.result.engine), Some(model))
    ensures Consistent(w) ==> Consistent(r.0)
    ensures |r.1| >= 1 && (r.1[|r.1| - 1].Ready? || r.1[|r.1| - 1].Error?)
  {
    if IsCached(w, model) then (w, [Ready])
    else
      var finished := FinishLoad(w, model, a);
      (finished.0, [Loading(LoadingText)] + finished.1)
  }

  /**
   * The `run` branch: the messages posted (the state does not change).
   * Nothing is posted exactly when no engine is loaded; otherwise exactly one
   * terminal message is.
   */
  function RunStep(w: WorkerState, audio: Samples, language: string, timestamps: bool, transcribe: Transcribe): (r: seq<Reply>)
    ensures r == [] <==> w.transcriber.None?
    ensures CountTerminals(r) == if w.transcriber.None? then 0 else 1
  {
    match w.transcriber
    case None => []
    case Some(engine) =>
      var attempt := transcribe(engine, audio, BuildOptions(language, timestamps));
      var partials := PartialMessages(attempt.partials);
      PartialMessagesAreNotTerminal(attempt.partials);
      CountTerminalsZero(partials);
      CountTerminalsAppend(partials, [Outcome(attempt.result)]);
      assert [Outcome(attempt.result)][..0] == [];
      partials + [Outcome(attempt.result)]
  }

  /**
   * The message listener, with the message handled to completion. A `run`
   * never changes the state, and no message breaks the invariant.
   */
  function HandleRequest(w: WorkerState, req: Request, pipeline: Pipeline, transcribe: Transcribe): (r: (WorkerState, seq<Reply>))
    ensures req.Run? ==> r.0 == w
    ensures Consistent(w) ==> Consistent(r.0)
  {
    match req
    case Load(model) => LoadStep(w, model, pipeline(model))
    case Run(audio, language, timestamps) => (w, RunStep(w, audio, language, timestamps, transcribe))
  }

  lemma {:induction false} ForwardedAppend(a: seq<EngineEvent>, b: seq<EngineEvent>)
    ensures Forwarded(a + b) == Forwarded(a) + Forwarded(b)
    decreases |b|
  {
    if b == [] {
      assert a + b == a;
    } else {
      assert (a + b)[..|a + b| - 1] == a + b[..|b| - 1];
      ForwardedAppend(a, b[..|b| - 1]);
    }
  }

  /**
   * A message is forwarded exactly when some callback had status "progress"
   * and carried that file and that progress value unchanged.
   */
  lemma {:induction false} ForwardedExactly(events: seq<EngineEvent>, r: Reply)
    ensures r in Forwarded(events) <==>
      exists e :: e in events && e.status == "progress" && r == Progress(e.file, e.progress)
    decreases |events|
  {
    if events != [] {
      var init, last := events[..|events| - 1], events[|events| - 1];
      ForwardedExactly(init, r);
      assert events == init + [last];
      if r in Forwarded(events) && r !in Forwarded(init) {
        assert r in ProgressMessages(last);
      }
    }
  }

  lemma {:induction false} PartialMessagesAreNotTerminal(partials: seq<string>)
    ensures |PartialMessages(partials)| == |partials|
    ensures forall i :: 0 <= i < |partials| ==> PartialMessages(partials)[i] == Partial(partials[i])
    decreases |partials|
  {
    if partials != [] {
      PartialMessagesAreNotTerminal(partials[..|partials| - 1]);
    }
  }

  /** Before its last message, the rest of a `load` posts exactly what the progress callbacks forward. */
  lemma FinishLoadForwards(w: WorkerState, model: string, a: LoadAttempt)
    ensures var r := FinishLoad(w, model, a);
      r.1[..|r.1| - 1] == Forwarded(a.events)
  {
  }

  /** A `load` for the model already loaded posts only `ready` and changes nothing. */
  lemma LoadCacheHit(w: WorkerState, model: string, a: LoadAttempt)
    requires IsCached(w, model)
    ensures LoadStep(w, model, a) == (w, [Ready])
  {
  }

  /**
   * A fresh `load` that succeeds posts `loading`, then exactly the forwarded
   * `progress` messages, then one `ready`, and records the engine for that model.
   */
  lemma LoadSuccess(w: WorkerState, model: string, a: LoadAttempt)
    requires !IsCached(w, model) && a.result.Loaded?
    ensures var (w', rs) := LoadStep(w, model, a);
      && w' == WorkerState(Some(a.result.engine), Some(model))
      && |rs| >= 2 && rs[0] == Loading(LoadingText) && rs[|rs| - 1] == Ready
      && rs[1..|rs| - 1] == Forwarded(a.events)
      && (forall i :: 0 < i < |rs| - 1 ==> rs[i].Progress?)
      && CountTerminals(rs) == 0
  {
    var f := Forwarded(a.events);
    var rs := [Loading(LoadingText)] + (f + [Ready]);
    assert LoadStep(w, model, a) == (WorkerState(Some(a.result.engine), Some(model)), rs);
    assert rs[1..|rs| - 1] == f;
    assert forall i :: 0 < i < |rs| - 1 ==> rs[i] == f[i - 1];
    CountTerminalsZero(rs);
  }

  /**
   * A fresh `load` that fails posts `loading`, the forwarded `progress` messages, and
   * exactly one `error` carrying the failure message; both variables keep
   * their previous values.
   */
  lemma LoadFailure(w: WorkerState, model: string, a: LoadAttempt)
    requires !IsCached(w, model) && a.result.LoadFailed?
    ensures var (w', rs) := LoadStep(w, model, a);
      && w' == w
      && |rs| >= 2 && rs[0] == Loading(LoadingText) && rs[|rs| - 1] == Error(a.result.message)
      && rs[1..|rs| - 1] == Forwarded(a.events)
      && (forall i :: 0 < i < |rs| - 1 ==> rs[i].Progress?)
      && CountTerminals(rs) == 1 && Ready !in rs
  {
    var f := Forwarded(a.events);
    var rs := [Loading(LoadingText)] + (f + [Error(a.result.message)]);
    assert LoadStep(w, model, a) == (w, rs);
    assert rs[1..|rs| - 1] == f;
    assert forall i :: 0 < i < |rs| - 1 ==> rs[i] == f[i - 1];
    assert CountTerminals(rs) == 1 by {
      var loading := [Loading(LoadingText)];
      assert loading[..0] == [];
      CountTerminalsAppend(loading, f + [Error(a.result.message)]);
    }
  }

  /** After a `load` that succeeded (or hit the cache), the next `load` of the same model is a cache hit. */
  lemma ReloadAvoided(w: WorkerState, model: string, a: LoadAttempt, b: LoadAttempt)
    requires IsCached(w, model) || a.result.Loaded?
    ensures IsCached(LoadStep(w, model, a).0, model)
    ensures LoadStep(LoadStep(w, model, a).0, model, b) == (LoadStep(w, model, a).0, [Ready])
  {
  }

  /**
   * A `run` with no engine posts nothing; with an engine it posts the partial
   * texts and then the terminal message, which carries the engine's output
   * unmodified (or its exception message) for the options built from the
   * request. (RunStep's own contract says there is exactly one terminal.)
   */
  lemma RunReplies(w: WorkerState, audio: Samples, language: string, timestamps: bool, transcribe: Transcribe)
    ensures w.transcriber.None? ==> RunStep(w, audio, language, timestamps, transcribe) == []
    ensures w.transcriber.Some? ==>
      var attempt := transcribe(w.transcriber.value, audio, BuildOptions(language, timestamps));
      var rs := RunStep(w, audio, language, timestamps, transcribe);
      && |rs| == |attempt.partials| + 1
      && (forall i :: 0 <= i < |rs| - 1 ==> rs[i] == Partial(attempt.partials[i]))
      && rs[|rs| - 1] == Outcome(attempt.result)
  {
    if w.transcriber.Some? {
      var attempt := transcribe(w.transcriber.value, audio, BuildOptions(language, timestamps));
      PartialMessagesAreNotTerminal(attempt.partials);
    }
  }

  /** The worker's state as the script holds it. */
  class Worker {
    var transcriber: Option<Engine>
    var currentModel: Option<string>
    /** Every message posted with `self.postMessage`, in order. */
    var outbox: seq<Reply>

    function State(): WorkerState
      reads this
    {
      WorkerState(transcriber, currentModel)
    }

    ghost predicate Valid()
      reads this
    {
      Consistent(State())
    }

    constructor ()
      ensures State() == InitialWorker && outbox == [] && Valid()
    {
      transcriber := None;
      currentModel := None;
      outbox := [];
    }

    method PostMessage(r: Reply)
      modifies this`outbox
      ensures outbox == old(outbox) + [r]
    {
      outbox := outbox + [r];
    }

    /** The `progress_callback`, called once per event while the pipeline loads. */
    method OnProgressEvents(events: seq<EngineEvent>)
      modifies this`outbox
      ensures outbox == old(outbox) + Forwarded(events)
    {
      var i := 0;
      while i < |events|
        invariant 0 <= i <= |events|
        invariant outbox == old(outbox) + Forwarded(events[..i])
      {
        var e := events[i];
        if e.status == "progress" {
          PostMessage(Progress(e.file, e.progress));
        }
        assert events[..i + 1][..i] == events[..i];
        i := i + 1;
      }
      assert events[..i] == events;
    }

    /** The `callback_function`, called once per partial result while the engine runs. */
    method OnPartials(partials: seq<string>)
      modifies this`outbox
      ensures outbox == old(outbox) + PartialMessages(partials)
    {
      var i := 0;
      while i < |partials|
        invariant 0 <= i <= |partials|
        invariant outbox == old(outbox) + PartialMessages(partials[..i])
      {
        PostMessage(Partial(partials[i]));
        assert partials[..i + 1][..i] == partials[..i];
        i := i + 1;
      }
      assert partials[..i] == partials;
    }

    /** The `load` branch after `await pipeline(...)`: forward progress, then install the engine or report. */
    method FinishLoading(model: string, attempt: LoadAttempt)
      modifies this
      ensures State() == FinishLoad(old(State()), model, attempt).0
      ensures outbox == old(outbox) + FinishLoad(old(State()), model, attempt).1
    {
      OnProgressEvents(attempt.events);
      match attempt.result {
        case Loaded(engine) =>
          transcriber := Some(engine);
          currentModel := Some(model);
          PostMessage(Ready);
        case LoadFailed(message) =>
          PostMessage(Error(message));
      }
    }

    /** The `load` branch of the listener. */
    method OnLoad(model: string, pipeline: Pipeline)
      requires Valid()
      modifies this
      ensures Valid()
      ensures State() == LoadStep(old(State()), model, pipeline(model)).0
      ensures outbox == old(outbox) + LoadStep(old(State()), model, pipeline(model)).1
    {
      if transcriber.Some? && currentModel == Some(model) {
        PostMessage(Ready);
        return;
      }
      PostMessage(Loading(LoadingText));
      FinishLoading(model, pipeline(model));
    }

    /** The `run` branch of the listener. */
    method OnRun(audio: Samples, language: string, timestamps: bool, transcribe: Transcribe)
      modifies this`outbox
      ensures State() == old(State())
      ensures outbox == old(outbox) + RunStep(old(State()), audio, language, timestamps, transcribe)
    {
      if transcriber.None? {
        return;
      }
      var options := BuildOptions(language, timestamps);
      var attempt := transcribe(transcriber.value, audio, options);
      OnPartials(attempt.partials);
      match attempt.result {
        case Transcribed(output) => PostMessage(Complete(output));
        case RunFailed(message) => PostMessage(Error(message));
      }
    }

    /**
     * The message listener with one message handled to completion. The
     * script's listener is `async`, so a `run` can be handled while a `load`
     * awaits the pipeline; module Session models that interleaving.
     */
    method OnMessage(req: Request, pipeline: Pipeline, transcribe: Transcribe)
      requires Valid()
      modifies this
      ensures Valid()
      ensures State() == HandleRequest(old(State()), req, pipeline, transcribe).0
      ensures outbox == old(outbox) + HandleRequest(old(State()), req, pipeline, transcribe).1
    {
      match req {
        case Load(model) => OnLoad(model, pipeline);
        case Run(audio, language, timestamps) => OnRun(audio, language, timestamps, transcribe);
      }
    }
  }
}
