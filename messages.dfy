/**
 * The messages exchanged between the page (main.js) and the inference worker
 * (worker.js). Every payload is an immutable value: the channel copies it.
 */
module Messages {
  import opened Wrappers

  /** Decoded PCM samples (a Float32Array in the page). */
  type Samples = seq<real>

  /** Page -> worker: `{type: 'load', model}` and `{type: 'run', audio, language, timestamps}`. */
  datatype Request =
    | Load(model: string)
    | Run(audio: Samples, language: string, timestamps: bool)

  /**
   * One timestamped chunk of a transcription: `{timestamp: [start, end], text}`.
   * A timestamp is a whole number of seconds, or None for null / undefined / NaN.
   */
  datatype Chunk = Chunk(start: Option<int>, end: Option<int>, text: string)

  /** The three shapes the engine's output takes: a string, an array of chunks, an object with `.text`. */
  datatype Output =
    | Plain(text: string)
    | Chunks(chunks: seq<Chunk>)
    | Record(text: string)

  /** Worker -> page: `{status: ..., data / file / progress}`. */
  datatype Reply =
    | Loading(data: string)
    | Progress(file: string, progress: int)
    | Ready
    | Partial(data: string)
    | Complete(output: Output)
    | Error(data: string)

  /** The two statuses that end a job on the page. */
  predicate IsTerminal(r: Reply) {
    r.Complete? || r.Error?
  }

  /** How many terminal messages `rs` holds. */
  function CountTerminals(rs: seq<Reply>): nat {
    if rs == [] then 0
    else CountTerminals(rs[..|rs| - 1]) + (if IsTerminal(rs[|rs| - 1]) then 1 else 0)
  }

  lemma {:induction false} CountTerminalsAppend(a: seq<Reply>, b: seq<Reply>)
    ensures CountTerminals(a + b) == CountTerminals(a) + CountTerminals(b)
    decreases |b|
  {
    if b != [] {
      assert (a + b)[..|a + b| - 1] == a + b[..|b| - 1];
      CountTerminalsAppend(a, b[..|b| - 1]);
    } else {
      assert a + b == a;
    }
  }

  /** A sequence holds no terminal message exactly when its count is zero. */
  lemma {:induction false} CountTerminalsZero(rs: seq<Reply>)
    ensures CountTerminals(rs) == 0 <==> forall i :: 0 <= i < |rs| ==> !IsTerminal(rs[i])
    decreases |rs|
  {
    if rs != [] {
      var init := rs[..|rs| - 1];
      CountTerminalsZero(init);
      assert forall i :: 0 <= i < |init| ==> init[i] == rs[i];
    }
  }
}
