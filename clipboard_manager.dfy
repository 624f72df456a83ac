/** `SmartClipboard` of src-tauri/src/clipboard_manager.rs: the one-slot
    clipboard snapshot, the synthetic copy chord, and the two-attempt capture
    heuristic with its fallback to the clipboard's earlier content.

    Each operation is first given as a function from the host before to its
    result and the host after (`...Outcome`); the class's methods perform the
    same steps on a `Host` object and are proved to agree with those functions. */
module ClipboardManager {
  import opened Wrappers
  import opened Text
  import opened Host

  /** The two `#[cfg(target_os)]` branches of `copy_selection`. */
  datatype Platform = MacOS | OtherOS

  type KeyIndex = i: nat | i < 4

  /** How `run_on_main_thread` treats the injection closure: it is queued and
      runs; it is refused (the main thread is gone); or it is queued but dropped
      unrun, so that the completion channel closes without a reply. */
  datatype Dispatch = Queued | Refused(error: string) | Dropped

  /** The first key event of the chord that the OS rejects, and its error. */
  datatype Rejection = Rejection(index: KeyIndex, error: string)

  /** Everything about one synthetic copy that the program does not decide:
      the dispatch, whether `Enigo::new` succeeds, which key event (if any) the
      OS rejects, and what the foreground application does when it sees the
      chord. */
  datatype Injection = Injection(
    dispatch: Dispatch,
    enigo: Result<()>,
    rejection: Option<Rejection>,
    reaction: Reaction)

  const DispatchPrefix := "Failed to dispatch to main thread: "
  const ReceivePrefix := "Main thread operation failed: "
  /** Display text of `std::sync::mpsc::RecvError`. */
  const ClosedChannel := "receiving on a closed channel"
  const EnigoPrefix := "Failed to create Enigo: "
  const ReadPrefix := "Failed to read clipboard: "
  const WritePrefix := "Failed to write clipboard: "
  const NoTextSelected := "No text selected. Please select text before pressing Cmd+J."
  /** The fallback accepts the earlier clipboard when its trimmed text is longer than this many bytes. */
  const FallbackMinBytes := 5

  function Modifier(p: Platform): Key {
    if p == MacOS then Meta else Control
  }

  function ModifierName(p: Platform): string {
    if p == MacOS then "Cmd" else "Ctrl"
  }

  /** The copy chord: modifier down, `c` down, `c` up, modifier up. */
  function Chord(p: Platform): seq<Op> {
    [KeyEvent(Modifier(p), Press), KeyEvent(Unicode('c'), Press),
     KeyEvent(Unicode('c'), Release), KeyEvent(Modifier(p), Release)]
  }

  /** The message `copy_selection` puts before the OS's error for each key event. */
  function ChordErrorPrefix(p: Platform, i: KeyIndex): string {
    match i
    case 0 => "Failed to press " + ModifierName(p) + ": "
    case 1 => "Failed to press C: "
    case 2 => "Failed to release C: "
    case 3 => "Failed to release " + ModifierName(p) + ": "
  }

  function Fault(inj: Injection, i: KeyIndex): Option<string> {
    if inj.rejection.Some? && inj.rejection.value.index == i then Some(inj.rejection.value.error) else None
  }

  /** Reference definition: how many key events of the chord the OS accepts. */
  function Delivered(inj: Injection): (n: nat)
    ensures n <= 4
  {
    if !inj.dispatch.Queued? || inj.enigo.Err? then 0
    else if inj.rejection.Some? then inj.rejection.value.index
    else 4
  }

  /** The error `copy_selection` reports, by cause. */
  function CopyError(p: Platform, inj: Injection): string {
    match inj.dispatch
    case Refused(e) => DispatchPrefix + e
    case Dropped => ReceivePrefix + ClosedChannel
    case Queued =>
      if inj.enigo.Err? then EnigoPrefix + inj.enigo.error
      else if inj.rejection.Some? then ChordErrorPrefix(p, inj.rejection.value.index) + inj.rejection.value.error
      else ""
  }

  /** `copy_selection`, stated by its effect: it sends a prefix of the chord, in
      order, stopping at the first rejected event (none when the dispatch or
      `Enigo::new` fails); it succeeds exactly when the whole chord went out;
      and the application's copy lands once the modifier and `c` are both down. */
  function CopyOutcome(w: World, p: Platform, inj: Injection): Step<()> {
    var n := Delivered(inj);
    var sent := w.(log := w.log + Chord(p)[..n]);
    Step(if n == 4 then Ok(()) else Err(CopyError(p, inj)),
         if n >= 2 then ApplicationCopies(sent, inj.reaction) else sent)
  }

  /** A dispatch failure is told apart from every failure of the closure itself:
      only it carries the dispatch prefix. */
  lemma DispatchFailureIsDistinct(w: World, p: Platform, inj: Injection)
    requires CopyOutcome(w, p, inj).result.Err?
    ensures StartsWith(CopyOutcome(w, p, inj).result.error, DispatchPrefix) <==> inj.dispatch.Refused?
  {
    var e := CopyOutcome(w, p, inj).result.error;
    if !inj.dispatch.Refused? && |e| >= |DispatchPrefix| {
      // Every other message differs from the dispatch prefix at its 1st or 11th character.
      if inj.dispatch.Dropped? {
        assert e[0] == 'M';
      } else if inj.enigo.Err? {
        assert e[10] == 'c';
      } else {
        var i := inj.rejection.value.index;
        assert e[..|ChordErrorPrefix(p, i)|] == ChordErrorPrefix(p, i);
        assert e[10] == ChordErrorPrefix(p, i)[10];
        assert e[10] == 'p' || e[10] == 'r';
      }
      assert e[..|DispatchPrefix|] != DispatchPrefix by {
        assert DispatchPrefix[0] == 'F' && DispatchPrefix[10] == 'd';
      }
    }
  }

  /** `read_clipboard` */
  function ReadOutcome(w: World): Step<string> {
    var r := Read(w);
    Step(if r.result.Ok? then r.result else Err(ReadPrefix + r.result.error), r.world)
  }

  /** `write_clipboard` */
  function WriteOutcome(w: World, text: string): Step<()> {
    var r := Write(w, text);
    Step(if r.result.Ok? then r.result else Err(WritePrefix + r.result.error), r.world)
  }

  /** The snapshot `save_clipboard` keeps for a given raw read of the clipboard. */
  function SavedFrom(read: Result<string>): (saved: Option<string>)
    ensures saved.None? <==> read.Err? || read.value == []
    ensures saved.Some? ==> saved.value == read.value
  {
    match read
    case Ok(t) => if t == [] then None else Some(t)
    case Err(_) => None
  }

  /** `restore_clipboard` with snapshot `saved`. */
  function RestoreOutcome(w: World, saved: Option<string>): Step<()> {
    if saved.Some? then WriteOutcome(w, saved.value) else Step(Ok(()), w)
  }

  /** Without a snapshot, restore is a no-op that succeeds; with one, it writes
      the snapshot back, so that the clipboard then reads it, or fails and
      leaves the host as it was. */
  lemma RestorePutsSnapshotBack(w: World, saved: Option<string>)
    ensures saved.None? ==> RestoreOutcome(w, saved) == Step(Ok(()), w)
    ensures saved.Some? && w.writeError.None? ==>
      RestoreOutcome(w, saved).result.Ok? && ReadOutcome(RestoreOutcome(w, saved).world).result == Ok(saved.value)
    ensures saved.Some? && w.writeError.Some? ==>
      RestoreOutcome(w, saved) == Step(Err(WritePrefix + w.writeError.value), w)
  {
  }

  /** Restoring twice leaves the clipboard as restoring once, with the same result. */
  lemma RestoreIdempotent(w: World, saved: Option<string>)
    ensures var once := RestoreOutcome(w, saved);
      var twice := RestoreOutcome(once.world, saved);
      twice.result == once.result && twice.world.clipboard == once.world.clipboard
  {
  }

  /** The "new text" test of `copy_with_fallback`: not blank, and not what the
      clipboard held before. */
  predicate IsNew(text: string, before: Option<string>) {
    Trim(text) != [] && before != Some(text)
  }

  /** The decision of `copy_with_fallback` from the clipboard before and what the
      two attempts read back (an `Err` when the copy or the read failed). */
  function Decide(before: Option<string>, first: Result<string>, second: Result<string>): Result<string> {
    if first.Err? || IsNew(first.value, before) then first
    else if second.Err? || IsNew(second.value, before) then second
    else if before.Some? && Utf8Len(Trim(before.value)) > FallbackMinBytes then Ok(before.value)
    else Err(NoTextSelected)
  }

  /** The second attempt runs only when the first one read back text that is not new. */
  predicate SecondAttemptRuns(before: Option<string>, first: Result<string>) {
    first.Ok? && !IsNew(first.value, before)
  }

  /** One attempt: `copy_selection()?` followed by `read_clipboard()?`. */
  function AttemptOutcome(w: World, p: Platform, inj: Injection): Step<string> {
    var copy := CopyOutcome(w, p, inj);
    if copy.result.Err? then Step(Err(copy.result.error), copy.world) else ReadOutcome(copy.world)
  }

  /** `clipboard_before` of `copy_with_fallback`. */
  function Before(w: World): Option<string> {
    ReadOutcome(w).result.ToOption()
  }

  function FirstAttempt(w: World, p: Platform, first: Injection): Step<string> {
    AttemptOutcome(ReadOutcome(w).world, p, first)
  }

  function SecondAttempt(w: World, p: Platform, first: Injection, second: Injection): Step<string> {
    AttemptOutcome(FirstAttempt(w, p, first).world, p, second)
  }

  /** `copy_with_fallback` */
  function CaptureOutcome(w: World, p: Platform, first: Injection, second: Injection): Step<string> {
    var one := FirstAttempt(w, p, first);
    var two := SecondAttempt(w, p, first, second);
    Step(Decide(Before(w), one.result, two.result),
         if SecondAttemptRuns(Before(w), one.result) then two.world else one.world)
  }

  // The decision table of copy_with_fallback.

  /** Attempt 1 wins with new text, whatever attempt 2 would have read. */
  lemma FirstAttemptWins(before: Option<string>, text: string, second: Result<string>)
    requires IsNew(text, before)
    ensures Decide(before, Ok(text), second) == Ok(text)
    ensures !SecondAttemptRuns(before, Ok(text))
  {
  }

  /** Otherwise attempt 2 wins with new text under the same test. */
  lemma SecondAttemptWins(before: Option<string>, first: string, second: string)
    requires !IsNew(first, before) && IsNew(second, before)
    ensures Decide(before, Ok(first), Ok(second)) == Ok(second)
  {
  }

  /** A failure aborts at once with its own error. */
  lemma FailureAborts(before: Option<string>, first: Result<string>, second: Result<string>)
    ensures first.Err? ==> Decide(before, first, second) == first && !SecondAttemptRuns(before, first)
    ensures SecondAttemptRuns(before, first) && second.Err? ==> Decide(before, first, second) == second
  {
  }

  /** With no new text from either attempt, the earlier clipboard is used when
      its trimmed text is longer than 5 bytes, and otherwise nothing is selected. */
  lemma FallbackOrNothing(before: Option<string>, first: string, second: string)
    requires !IsNew(first, before) && !IsNew(second, before)
    ensures Decide(before, Ok(first), Ok(second))
         == if before.Some? && Utf8Len(Trim(before.value)) > FallbackMinBytes then Ok(before.value)
            else Err(NoTextSelected)
  {
  }

  /** Every text the capture accepts is either new or the long-enough earlier
      clipboard, and in both cases it is not blank. */
  lemma AcceptedTextIsNotBlank(before: Option<string>, first: Result<string>, second: Result<string>)
    requires Decide(before, first, second).Ok?
    ensures IsNew(Decide(before, first, second).value, before)
         || (before == Some(Decide(before, first, second).value)
             && Utf8Len(Trim(Decide(before, first, second).value)) > FallbackMinBytes)
    ensures Trim(Decide(before, first, second).value) != []
    ensures !AllWhitespace(Decide(before, first, second).value)
  {
    var t := Decide(before, first, second).value;
    assert Trim(t) != [];
    TrimEmptyIff(t);
  }

  /** The threshold counts UTF-8 bytes: two kanji (six bytes) pass it although
      they are only two characters. */
  lemma FallbackCountsBytes()
    ensures Trim("日本") == "日本" && |Trim("日本")| == 2 && Utf8Len(Trim("日本")) == 6
    ensures Decide(Some("日本"), Ok("日本"), Ok("日本")) == Ok("日本")
  {
    assert TrimStart("日本") == "日本";
    assert TrimEnd("日本") == "日本";
    assert Utf8Len("日本") == Utf8Width('日') + Utf8Len("本");
    assert Utf8Len("本") == Utf8Width('本') + Utf8Len("");
  }

  // How the capture drives the host.

  /** When attempt 1 fails or finds new text, no second chord is sent and
      the host is as attempt 1 left it. */
  lemma NoSecondAttemptAfterFirstDecides(w: World, p: Platform, first: Injection, second: Injection)
    requires FirstAttempt(w, p, first).result.Err? || IsNew(FirstAttempt(w, p, first).result.value, Before(w))
    ensures CaptureOutcome(w, p, first, second) == FirstAttempt(w, p, first)
  {
  }

  predicate CaptureOps(ops: seq<Op>) {
    forall i :: 0 <= i < |ops| ==> ops[i].ReadText? || ops[i].KeyEvent?
  }

  /** The capture only reads the clipboard and sends key events: it never
      writes the clipboard itself, and the host's faults stay as they were. */
  lemma CaptureOnlyReadsAndSendsKeys(w: World, p: Platform, first: Injection, second: Injection)
    ensures var c := CaptureOutcome(w, p, first, second).world;
      && |w.log| <= |c.log| && c.log[..|w.log|] == w.log && CaptureOps(c.log[|w.log|..])
      && c.readError == w.readError && c.writeError == w.writeError
  {
    var r := ReadOutcome(w).world;
    AttemptOnlyReadsAndSendsKeys(r, p, first);
    var one := FirstAttempt(w, p, first).world;
    AttemptOnlyReadsAndSendsKeys(one, p, second);
    var two := SecondAttempt(w, p, first, second).world;
    assert r.log == w.log + [ReadText];
    assert CaptureOps(one.log[|w.log|..]) by {
      assert one.log[|w.log|..] == [ReadText] + one.log[|r.log|..];
    }
    assert CaptureOps(two.log[|w.log|..]) by {
      assert two.log[|w.log|..] == one.log[|w.log|..] + two.log[|one.log|..];
    }
  }

  lemma AttemptOnlyReadsAndSendsKeys(w: World, p: Platform, inj: Injection)
    ensures var a := AttemptOutcome(w, p, inj).world;
      && |w.log| <= |a.log| && a.log[..|w.log|] == w.log && CaptureOps(a.log[|w.log|..])
      && a.readError == w.readError && a.writeError == w.writeError
  {
    var c := CopyOutcome(w, p, inj).world;
    var a := AttemptOutcome(w, p, inj).world;
    assert c.log[|w.log|..] == Chord(p)[..Delivered(inj)];
    assert CaptureOps(a.log[|w.log|..]) by {
      if a != c {
        assert a.log[|w.log|..] == c.log[|w.log|..] + [ReadText];
      }
    }
  }

  /** The capture-and-restore object. `saved` is the snapshot that outlives a
      single call: `save_clipboard` overwrites it and `restore_clipboard` reads it. */
  class SmartClipboard {
    var saved: Option<string>

    /** `SmartClipboard::new` */
    constructor ()
      ensures saved == None
    {
      saved := None;
    }

    /** `save_clipboard`: always `Ok`; keeps the clipboard's text unless the read
        fails or the text is empty, overwriting any earlier snapshot. */
    method SaveClipboard(host: Host) returns (r: Result<()>)
      modifies this, host
      ensures r == Ok(())
      ensures saved == SavedFrom(Read(old(host.State())).result)
      ensures saved == if old(host.clipboard).Some? && old(host.clipboard).value != [] then old(host.clipboard) else None
      ensures host.State() == Read(old(host.State())).world
    {
      var text := host.ReadText();
      saved := match text
        case Ok(t) => if t == [] then None else Some(t)
        case Err(_) => None;
      r := Ok(());
    }

    /** `read_clipboard` */
    method ReadClipboard(host: Host) returns (r: Result<string>)
      modifies host
      ensures Step(r, host.State()) == ReadOutcome(old(host.State()))
    {
      r := host.ReadText();
      if r.Err? {
        r := Err(ReadPrefix + r.error);
      }
    }

    /** `write_clipboard` */
    method WriteClipboard(host: Host, text: string) returns (r: Result<()>)
      modifies host
      ensures Step(r, host.State()) == WriteOutcome(old(host.State()), text)
    {
      r := host.WriteText(text);
      if r.Err? {
        r := Err(WritePrefix + r.error);
      }
    }

    /** `restore_clipboard`; it reads the snapshot and never changes it. */
    method RestoreClipboard(host: Host) returns (r: Result<()>)
      modifies host
      ensures Step(r, host.State()) == RestoreOutcome(old(host.State()), saved)
    {
      if saved.Some? {
        r := WriteClipboard(host, saved.value);
        if r.Err? {
          return;
        }
      }
      r := Ok(());
    }

    /** One `enigo.key(...).map_err(...)?` of the chord. */
    method ChordKey(host: Host, p: Platform, inj: Injection, i: KeyIndex) returns (r: Result<()>)
      modifies host
      ensures Fault(inj, i).None? ==>
        r == Ok(()) && host.State() == old(host.State()).(log := old(host.log) + [Chord(p)[i]])
      ensures Fault(inj, i).Some? ==>
        r == Err(ChordErrorPrefix(p, i) + Fault(inj, i).value) && host.State() == old(host.State())
    {
      var event := Chord(p)[i];
      r := host.Key(event.key, event.direction, Fault(inj, i));
      if r.Err? {
        r := Err(ChordErrorPrefix(p, i) + r.error);
      }
    }

    /** The closure `copy_selection` runs on the main thread. */
    method SendChord(host: Host, p: Platform, inj: Injection) returns (r: Result<()>)
      requires inj.dispatch.Queued?
      modifies host
      ensures Step(r, host.State()) == CopyOutcome(old(host.State()), p, inj)
    {
      ghost var w := host.State();
      ghost var c := Chord(p);
      if inj.enigo.Err? {
        return Err(EnigoPrefix + inj.enigo.error);
      }
      assert c[..0] == [];
      r := ChordKey(host, p, inj, 0);
      if r.Err? {
        return;
      }
      assert host.log == w.log + c[..1];
      r := ChordKey(host, p, inj, 1);
      if r.Err? {
        return;
      }
      assert host.log == w.log + c[..2] by {
        assert w.log + c[..1] + [c[1]] == w.log + c[..2];
      }
      host.ForegroundCopy(inj.reaction);
      r := ChordKey(host, p, inj, 2);
      if r.Err? {
        return;
      }
      assert host.log == w.log + c[..3] by {
        assert w.log + c[..2] + [c[2]] == w.log + c[..3];
      }
      r := ChordKey(host, p, inj, 3);
      if r.Ok? {
        assert host.log == w.log + c[..4] by {
          assert w.log + c[..3] + [c[3]] == w.log + c[..4];
        }
      }
    }

    /** `copy_selection` */
    method CopySelection(host: Host, p: Platform, inj: Injection) returns (r: Result<()>)
      modifies host
      ensures Step(r, host.State()) == CopyOutcome(old(host.State()), p, inj)
    {
      match inj.dispatch {
        case Refused(e) =>
          r := Err(DispatchPrefix + e);
          assert host.log == host.log + Chord(p)[..0];
        case Dropped =>
          r := Err(ReceivePrefix + ClosedChannel);
          assert host.log == host.log + Chord(p)[..0];
        case Queued =>
          r := SendChord(host, p, inj);
      }
    }

    /** One attempt of `copy_with_fallback`: `copy_selection()?`, then `read_clipboard()?`. */
    method Attempt(host: Host, p: Platform, inj: Injection) returns (r: Result<string>)
      modifies host
      ensures Step(r, host.State()) == AttemptOutcome(old(host.State()), p, inj)
    {
      var copied := CopySelection(host, p, inj);
      if copied.Err? {
        return Err(copied.error);
      }
      r := ReadClipboard(host);
    }

    /** `copy_with_fallback` */
    method CopyWithFallback(host: Host, p: Platform, first: Injection, second: Injection) returns (r: Result<string>)
      modifies host
      ensures Step(r, host.State()) == CaptureOutcome(old(host.State()), p, first, second)
    {
      ghost var w := host.State();
      var read := ReadClipboard(host);
      var before := read.ToOption();
      assert before == Before(w);

      var text := Attempt(host, p, first);
      assert Step(text, host.State()) == FirstAttempt(w, p, first);
      if text.Err? || IsNew(text.value, before) {
        return text;
      }

      var retry := Attempt(host, p, second);
      assert Step(retry, host.State()) == SecondAttempt(w, p, first, second);
      if retry.Err? || IsNew(retry.value, before) {
        return retry;
      }

      if before.Some? && Utf8Len(Trim(before.value)) > FallbackMinBytes {
        return Ok(before.value);
      }
      r := Err(NoTextSelected);
    }
  }
}
