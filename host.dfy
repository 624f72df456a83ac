/** The outside world as the Rust code sees it through the Tauri `AppHandle`:
    the OS clipboard (read and written through the clipboard plugin), the
    keyboard input stream that synthetic key events go to, the event channel
    to the overlay window, and the translation provider. The model is a fake
    of that handle: it holds the clipboard's text and records, in order, every
    interaction that took effect. */
module Host {
  import opened Wrappers

  datatype Key = Meta | Control | Unicode(c: char)

  datatype Direction = Press | Release

  /** `TranslationResult` of src-tauri/src/commands.rs, the payload of `show-translation`. */
  datatype TranslationResult = TranslationResult(
    original: string,
    translated: string,
    sourceLang: string,
    targetLang: string)

  /** The two events the backend emits to the overlay. */
  datatype Event =
    | TranslationLoading(active: bool)
    | ShowTranslation(result: TranslationResult)

  /** One interaction that took effect. */
  datatype Op =
    | ReadText                                // a clipboard read, successful or not
    | WriteText(text: string)                 // a clipboard write that succeeded
    | KeyEvent(key: Key, direction: Direction) // a synthetic key event the OS accepted
    | Emit(event: Event)                      // an event delivered to the overlay
    | Request(text: string, targetLang: string) // a call to the translation provider

  /** The clipboard holds text (`Some`) or nothing readable as text (`None`:
      empty, or an image), in which case `read_text` fails with `readError`.
      Writes fail with `writeError` when that is `Some`. Both faults are fixed
      properties of the host. */
  datatype World = World(
    clipboard: Option<string>,
    log: seq<Op>,
    readError: string,
    writeError: Option<string>)

  /** The result of one interaction and the host afterwards. */
  datatype Step<+T> = Step(result: Result<T>, world: World)

  /** `clipboard().read_text()` */
  function Read(w: World): (s: Step<string>)
    ensures s.result.Ok? <==> w.clipboard.Some?
    ensures s.result.Ok? ==> s.result.value == w.clipboard.value
    ensures s.world == w.(log := w.log + [ReadText])
  {
    Step(if w.clipboard.Some? then Ok(w.clipboard.value) else Err(w.readError),
         w.(log := w.log + [ReadText]))
  }

  /** `clipboard().write_text(text)` */
  function Write(w: World, text: string): (s: Step<()>)
    ensures s.result.Ok? <==> w.writeError.None?
    ensures s.result.Ok? ==> s.world == w.(clipboard := Some(text), log := w.log + [WriteText(text)])
    ensures s.result.Err? ==> s.world == w
  {
    match w.writeError
    case None => Step(Ok(()), w.(clipboard := Some(text), log := w.log + [WriteText(text)]))
    case Some(e) => Step(Err(e), w)
  }

  /** `enigo.key(key, direction)`, which the OS accepts unless `fault` names an error. */
  function SendKey(w: World, key: Key, direction: Direction, fault: Option<string>): (s: Step<()>)
    ensures s.result.Ok? <==> fault.None?
    ensures s.world == if fault.None? then w.(log := w.log + [KeyEvent(key, direction)]) else w
  {
    match fault
    case None => Step(Ok(()), w.(log := w.log + [KeyEvent(key, direction)]))
    case Some(e) => Step(Err(e), w)
  }

  /** What the foreground application does with a copy chord: nothing, copy
      text, or copy something that is not text (an image, a file). */
  datatype Reaction = LeavesClipboard | CopiesText(text: string) | CopiesNonText

  /** The foreground application handling a copy chord. */
  function ApplicationCopies(w: World, reaction: Reaction): (w': World)
    ensures w'.log == w.log && w'.readError == w.readError && w'.writeError == w.writeError
    ensures reaction.LeavesClipboard? ==> w'.clipboard == w.clipboard
    ensures reaction.CopiesText? ==> w'.clipboard == Some(reaction.text)
    ensures reaction.CopiesNonText? ==> w'.clipboard.None?
  {
    match reaction
    case LeavesClipboard => w
    case CopiesText(text) => w.(clipboard := Some(text))
    case CopiesNonText => w.(clipboard := None)
  }

  /** `app.emit(event)`, which is delivered unless `outcome` is an error. */
  function EmitEvent(w: World, event: Event, outcome: Result<()>): (s: Step<()>)
    ensures s.result == outcome
    ensures s.world == if outcome.Ok? then w.(log := w.log + [Emit(event)]) else w
  {
    Step(outcome, if outcome.Ok? then w.(log := w.log + [Emit(event)]) else w)
  }

  /** The fake `AppHandle` itself: the state above as fields that its methods update. */
  class Host {
    var clipboard: Option<string>
    var log: seq<Op>
    const readError: string
    const writeError: Option<string>

    function State(): World
      reads this
    {
      World(clipboard, log, readError, writeError)
    }

    constructor (clipboard: Option<string>, readError: string, writeError: Option<string>)
      ensures State() == World(clipboard, [], readError, writeError)
    {
      this.clipboard := clipboard;
      this.log := [];
      this.readError := readError;
      this.writeError := writeError;
    }

    method ReadText() returns (r: Result<string>)
      modifies this
      ensures Step(r, State()) == Read(old(State()))
    {
      log := log + [Op.ReadText];
      if clipboard.Some? {
        r := Ok(clipboard.value);
      } else {
        r := Err(readError);
      }
    }

    method WriteText(text: string) returns (r: Result<()>)
      modifies this
      ensures Step(r, State()) == Write(old(State()), text)
    {
      if writeError.Some? {
        return Err(writeError.value);
      }
      clipboard := Some(text);
      log := log + [Op.WriteText(text)];
      r := Ok(());
    }

    method Key(key: Key, direction: Direction, fault: Option<string>) returns (r: Result<()>)
      modifies this
      ensures Step(r, State()) == SendKey(old(State()), key, direction, fault)
    {
      if fault.Some? {
        return Err(fault.value);
      }
      log := log + [Op.KeyEvent(key, direction)];
      r := Ok(());
    }

    method ForegroundCopy(reaction: Reaction)
      modifies this
      ensures State() == ApplicationCopies(old(State()), reaction)
    {
      match reaction {
        case LeavesClipboard =>
        case CopiesText(text) => clipboard := Some(text);
        case CopiesNonText => clipboard := None;
      }
    }

    method Emit(event: Event, outcome: Result<()>) returns (r: Result<()>)
      modifies this
      ensures Step(r, State()) == EmitEvent(old(State()), event, outcome)
    {
      r := outcome;
      if outcome.Ok? {
        log := log + [Op.Emit(event)];
      }
    }

    method Request(text: string, targetLang: string)
      modifies this
      ensures State() == old(State()).(log := old(log) + [Op.Request(text, targetLang)])
    {
      log := log + [Op.Request(text, targetLang)];
    }
  }
}
