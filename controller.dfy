/**
 * main.js: the page. It holds the single-flight flag `isProcessing`, posts
 * `load` and `run` to the worker for an admitted file, and reacts to the
 * worker's status messages. Only the rendered strings are modelled: the
 * output element (text or markup) and the status bar (hidden or its text).
 * Decoding the file (`readAudio`) is a parameter: samples, or the message it
 * threw. The settings are the values of the three form controls.
 */
module SessionController {
  import opened Wrappers
  import opened Messages
  import opened Decimal
  import opened Rendering

  /** The model, language and timestamps controls, as read for a job. */
  datatype Settings = Settings(model: string, language: string, timestamps: bool)

  /** The page's state: the guard, the output element, the status bar (None when hidden). */
  datatype ControllerState = ControllerState(isProcessing: bool, view: View, statusLine: Option<string>)

  const InitialController: ControllerState := ControllerState(false, TextContent(""), None)
  const InitText: string := "Инициализация..."
  const WorkingText: string := "Обработка аудио..."
  const ErrorPrefix: string := "Ошибка: "

  const ProgressPrefix: string := "Загрузка "

  /**
   * The status bar while weights download: the prefix, the file name, a
   * colon and a space, then the progress value in decimal, then a percent sign.
   */
  function ProgressText(file: string, progress: int): (r: string)
    ensures var lead := ProgressPrefix + file + ": ";
      && |lead| < |r| - 1 && r[..|lead|] == lead && r[|r| - 1] == '%'
      && r[|lead|..|r| - 1] == IntToString(progress)
  {
    ProgressPrefix + file + ": " + IntToString(progress) + "%"
  }

  /**
   * `processFile`: the new state and the requests posted to the worker. The
   * guard is always set afterwards; something is posted only when the page was
   * idle and the audio decoded; the status bar is never touched.
   */
  function SubmitStep(c: ControllerState, decoded: Result<Samples>, settings: Settings): (r: (ControllerState, seq<Request>))
    ensures r.0.isProcessing
    ensures r.1 != [] ==> !c.isProcessing && decoded.Ok?
    ensures r.0.statusLine == c.statusLine
  {
    if c.isProcessing then (c, [])
    else
      var admitted := c.(isProcessing := true, view := TextContent(InitText));
      match decoded
      case Failure(_) => (admitted, [])
      case Ok(audio) => (admitted, [Load(settings.model), Run(audio, settings.language, settings.timestamps)])
  }

  /**
   * The worker `message` listener. Only `complete` and `error` clear the
   * guard, and no message sets it; `loading` and `partial` change nothing.
   */
  function ReceiveStep(c: ControllerState, r: Reply): (c': ControllerState)
    ensures c'.isProcessing <==> c.isProcessing && !IsTerminal(r)
    ensures r.Loading? || r.Partial? ==> c' == c
  {
    match r
    case Progress(file, progress) => c.(statusLine := Some(ProgressText(file, progress)))
    case Ready => c.(statusLine := None, view := TextContent(WorkingText))
    case Complete(output) => c.(isProcessing := false, view := Normalise(output))
    case Error(message) => c.(isProcessing := false, view := TextContent(ErrorPrefix + message))
    case Loading(_) => c
    case Partial(_) => c
  }

  /** The listener applied to each reply in arrival order. */
  function ReceiveAll(c: ControllerState, rs: seq<Reply>): ControllerState {
    if rs == [] then c else ReceiveStep(ReceiveAll(c, rs[..|rs| - 1]), rs[|rs| - 1])
  }

  /** A submission while a job is in flight posts nothing and changes nothing. */
  lemma SubmitWhileBusy(c: ControllerState, decoded: Result<Samples>, settings: Settings)
    requires c.isProcessing
    ensures SubmitStep(c, decoded, settings) == (c, [])
  {
  }

  /**
   * An admitted submission sets the guard; with decoded audio it posts exactly
   * `load` with the selected model and then `run` with the same audio,
   * language and timestamps; when decoding throws it posts nothing.
   */
  lemma SubmitAdmitted(c: ControllerState, decoded: Result<Samples>, settings: Settings)
    requires !c.isProcessing
    ensures var (c', posted) := SubmitStep(c, decoded, settings);
      && c'.isProcessing && c'.view == TextContent(InitText) && c'.statusLine == c.statusLine
      && (decoded.Failure? ==> posted == [])
      && (decoded.Ok? ==>
            |posted| == 2
            && posted[0].Load? && posted[0].model == settings.model
            && posted[1].Run? && posted[1].audio == decoded.value
            && posted[1].language == settings.language && posted[1].timestamps == settings.timestamps)
  {
  }

  /** After a run of replies the guard is still set exactly when it was set and no terminal message came. */
  lemma {:induction false} ReceiveAllGuard(c: ControllerState, rs: seq<Reply>)
    ensures ReceiveAll(c, rs).isProcessing <==> c.isProcessing && CountTerminals(rs) == 0
    decreases |rs|
  {
    if rs != [] {
      ReceiveAllGuard(c, rs[..|rs| - 1]);
    }
  }

  /** What the page shows after a terminal message: the normalised output, or the error text. */
  lemma ReceiveTerminalView(c: ControllerState, r: Reply)
    requires IsTerminal(r)
    ensures ReceiveStep(c, r).view ==
      if r.Complete? then Normalise(r.output) else TextContent(ErrorPrefix + r.data)
    ensures !ReceiveStep(c, r).isProcessing
  {
  }

  /** The page's state as the script holds it. */
  class Controller {
    var isProcessing: bool
    var view: View
    var statusLine: Option<string>
    /** Every request posted with `worker.postMessage`, in order. */
    var posted: seq<Request>

    function State(): ControllerState
      reads this
    {
      ControllerState(isProcessing, view, statusLine)
    }

    constructor ()
      ensures State() == InitialController && posted == []
    {
      isProcessing := false;
      view := TextContent("");
      statusLine := None;
      posted := [];
    }

    /** `processFile(file)`, where `decoded` is what `readAudio(file)` settled to. */
    method ProcessFile(decoded: Result<Samples>, settings: Settings)
      modifies this
      ensures State() == SubmitStep(old(State()), decoded, settings).0
      ensures posted == old(posted) + SubmitStep(old(State()), decoded, settings).1
    {
      if isProcessing {
        return;
      }
      view := TextContent(InitText);
      isProcessing := true;
      match decoded {
        case Failure(_) =>
          // the awaited decode rejects: nothing further runs
          return;
        case Ok(audio) =>
          posted := posted + [Load(settings.model)];
          posted := posted + [Run(audio, settings.language, settings.timestamps)];
      }
    }

    /** The worker `message` listener. */
    method OnWorkerMessage(r: Reply)
      modifies this
      ensures State() == ReceiveStep(old(State()), r)
      ensures posted == old(posted)
    {
      match r {
        case Progress(file, progress) =>
          statusLine := Some(ProgressText(file, progress));
        case Ready =>
          statusLine := None;
          view := TextContent(WorkingText);
        case Partial(_) =>
        case Complete(output) =>
          isProcessing := false;
          view := Normalise(output);
        case Error(message) =>
          isProcessing := false;
          view := TextContent(ErrorPrefix + message);
        case Loading(_) =>
      }
    }
  }
}
