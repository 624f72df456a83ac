/** `translate_selection` of src-tauri/src/commands.rs: announce loading,
    snapshot the clipboard, capture the selection, detect its language,
    translate it, restore the clipboard, show the result.

    `Transaction` gives a run as a function of the host before, the snapshot
    the `SmartClipboard` held, and everything the program does not decide
    (`Environment`); the method `TranslateSelection` performs the run on a
    `Host` object and a `SmartClipboard` and is proved to agree with it. The
    clipboard mutex of `AppState` only serialises runs; a run here is one
    call, so locking is a no-op. */
module Commands {
  import opened Wrappers
  import opened Text
  import opened Host
  import opened ClipboardManager
  import opened Translation

  /** What one run meets in the outside world: the platform, whether each of
      the two emits is delivered, the two synthetic copies, and what the HTTP
      exchange with the provider produced. */
  datatype Environment = Environment(
    platform: Platform,
    loadingEmit: Result<()>,
    first: Injection,
    second: Injection,
    reply: ProviderReply,
    resultEmit: Result<()>)

  /** The command's result, the host afterwards, and the snapshot left in the
      `SmartClipboard` for later runs. */
  datatype Outcome = Outcome(result: Result<TranslationResult>, world: World, saved: Option<string>)

  const LoadingPrefix := "Failed to emit loading event: "
  const CopyPrefix := "Failed to copy text: "
  const NothingSelected := "No text selected"
  const TranslationPrefix := "Translation failed: "
  const RestorePrefix := "Failed to restore clipboard: "
  const EmitPrefix := "Failed to emit event: "

  /** The host once `translation-loading` has been emitted. */
  function AfterLoading(w: World, env: Environment): World {
    EmitEvent(w, TranslationLoading(true), env.loadingEmit).world
  }

  /** The snapshot `save_clipboard` takes at the start of the run. */
  function Snapshot(w: World, env: Environment): Option<string> {
    SavedFrom(Read(AfterLoading(w, env)).result)
  }

  /** What `copy_with_fallback` returns within the run, and the host after it. */
  function Captured(w: World, env: Environment): Step<string> {
    CaptureOutcome(Read(AfterLoading(w, env)).world, env.platform, env.first, env.second)
  }

  /** `translate_selection` */
  function Transaction(w: World, saved: Option<string>, env: Environment): Outcome {
    if env.loadingEmit.Err? then Outcome(Err(LoadingPrefix + env.loadingEmit.error), w, saved)
    else
      var capture := Captured(w, env);
      if capture.result.Err? then Outcome(Err(CopyPrefix + capture.result.error), capture.world, Snapshot(w, env))
      else Deliver(capture.result.value, capture.world, Snapshot(w, env), env)
  }

  /** The part of `translate_selection` after the capture. Its test that the
      trimmed text is empty is written as `AllWhitespace`, which is the same
      condition (`Text.TrimEmptyIff`). */
  function Deliver(text: string, w: World, saved: Option<string>, env: Environment): Outcome {
    if AllWhitespace(text) then Outcome(Err(NothingSelected), RestoreOutcome(w, saved).world, saved)
    else Respond(text, DetectLanguage(text), Ask(text, w), saved, Translate(env.reply), env.resultEmit)
  }

  /** The host once the provider has been asked to translate `text` into the
      target of its detected language. */
  function Ask(text: string, w: World): World {
    w.(log := w.log + [Request(text, TargetLanguage(DetectLanguage(text)))])
  }

  /** What follows the provider's answer: restore, then show the result. */
  function Respond(text: string, source: string, w: World, saved: Option<string>,
                   translation: Result<string>, resultEmit: Result<()>): Outcome {
    if translation.Err? then
      Outcome(Err(TranslationPrefix + translation.error), RestoreOutcome(w, saved).world, saved)
    else
      var restore := RestoreOutcome(w, saved);
      if restore.result.Err? then Outcome(Err(RestorePrefix + restore.result.error), restore.world, saved)
      else Publish(TranslationResult(text, translation.value, source, TargetLanguage(source)),
                   restore.world, saved, resultEmit)
  }

  /** Emitting `show-translation` with the finished result. */
  function Publish(result: TranslationResult, w: World, saved: Option<string>, resultEmit: Result<()>): Outcome {
    var show := EmitEvent(w, ShowTranslation(result), resultEmit);
    if show.result.Err? then Outcome(Err(EmitPrefix + show.result.error), show.world, saved)
    else Outcome(Ok(result), show.world, saved)
  }

  /** The clipboard writes restoring `saved` puts in the log. */
  function RestoreOps(saved: Option<string>): seq<Op> {
    if saved.Some? then [WriteText(saved.value)] else []
  }

  predicate ShowsResult(ops: seq<Op>) {
    exists i :: 0 <= i < |ops| && ops[i].Emit? && ops[i].event.ShowTranslation?
  }

  // How a run unfolds.

  lemma CaptureExtendsLoading(w: World, env: Environment)
    requires env.loadingEmit.Ok?
    ensures var c := Captured(w, env).world;
      && |w.log| + 2 <= |c.log|
      && c.log == w.log + [Emit(TranslationLoading(true)), ReadText] + c.log[|w.log| + 2..]
      && CaptureOps(c.log[|w.log| + 2..])
      && c.writeError == w.writeError
  {
    var start := Read(AfterLoading(w, env)).world;
    assert start.log == w.log + [Emit(TranslationLoading(true)), ReadText];
    CaptureOnlyReadsAndSendsKeys(start, env.platform, env.first, env.second);
    var c := Captured(w, env).world;
    assert c.log == start.log + c.log[|start.log|..];
  }

  lemma DeliverOnlyAppends(text: string, w: World, saved: Option<string>, env: Environment)
    ensures var log := Deliver(text, w, saved, env).world.log;
      |w.log| <= |log| && log[..|w.log|] == w.log
  {
    if !AllWhitespace(text) {
      var asked := Ask(text, w);
      assert Deliver(text, w, saved, env) == Respond(text, DetectLanguage(text), asked, saved, Translate(env.reply), env.resultEmit);
      RespondOnlyAppends(text, DetectLanguage(text), asked, saved, Translate(env.reply), env.resultEmit);
      assert asked.log[..|w.log|] == w.log;
    } else {
      assert Deliver(text, w, saved, env).world == RestoreOutcome(w, saved).world;
    }
  }

  lemma RespondOnlyAppends(text: string, source: string, w: World, saved: Option<string>,
                           translation: Result<string>, resultEmit: Result<()>)
    ensures var log := Respond(text, source, w, saved, translation, resultEmit).world.log;
      |w.log| <= |log| && log[..|w.log|] == w.log
  {
  }

  /** Every error after the provider's answer starts with its own prefix. */
  lemma RespondErrorsArePrefixed(text: string, source: string, w: World, saved: Option<string>,
                                 translation: Result<string>, resultEmit: Result<()>)
    requires Respond(text, source, w, saved, translation, resultEmit).result.Err?
    ensures var e := Respond(text, source, w, saved, translation, resultEmit).result.error;
      StartsWith(e, TranslationPrefix) || StartsWith(e, RestorePrefix) || StartsWith(e, EmitPrefix)
  {
    var e := Respond(text, source, w, saved, translation, resultEmit).result.error;
    if translation.Err? {
      assert e == TranslationPrefix + translation.error;
      assert e[..|TranslationPrefix|] == TranslationPrefix;
    } else if RestoreOutcome(w, saved).result.Err? {
      assert e == RestorePrefix + RestoreOutcome(w, saved).result.error;
      assert e[..|RestorePrefix|] == RestorePrefix;
    } else {
      var show := EmitEvent(RestoreOutcome(w, saved).world,
        ShowTranslation(TranslationResult(text, translation.value, source, TargetLanguage(source))), resultEmit);
      assert e == EmitPrefix + show.result.error;
      assert e[..|EmitPrefix|] == EmitPrefix;
    }
  }

  /** A run succeeds only through the whole path: loading delivered, text
      captured, and everything after it succeeding. */
  lemma SuccessUnfolds(w: World, saved: Option<string>, env: Environment)
    requires Transaction(w, saved, env).result.Ok?
    ensures env.loadingEmit.Ok? && Captured(w, env).result.Ok?
    ensures var text := Captured(w, env).result.value;
      && !AllWhitespace(text)
      && Transaction(w, saved, env) == Respond(text, DetectLanguage(text), Ask(text, Captured(w, env).world),
                                               Snapshot(w, env), Translate(env.reply), env.resultEmit)
  {
    var c := Captured(w, env);
    assert Transaction(w, saved, env) == Deliver(c.result.value, c.world, Snapshot(w, env), env);
    assert !AllWhitespace(c.result.value);
  }

  /** What the stage after the provider's answer does when it succeeds. */
  lemma RespondSucceeds(text: string, source: string, w: World, saved: Option<string>,
                        translation: Result<string>, resultEmit: Result<()>)
    requires Respond(text, source, w, saved, translation, resultEmit).result.Ok?
    ensures var o := Respond(text, source, w, saved, translation, resultEmit);
      && translation.Ok?
      && o.result == Ok(TranslationResult(text, translation.value, source, TargetLanguage(source)))
      && o.world.log == w.log + RestoreOps(saved) + [Emit(ShowTranslation(o.result.value))]
      && o.world.clipboard == (if saved.Some? then saved else w.clipboard)
      && o.saved == saved
  {
  }

  // Properties of a run.

  /** When `translation-loading` cannot be emitted, nothing else happens. */
  lemma LoadingFailureDoesNothing(w: World, saved: Option<string>, env: Environment)
    requires env.loadingEmit.Err?
    ensures Transaction(w, saved, env) == Outcome(Err(LoadingPrefix + env.loadingEmit.error), w, saved)
  {
  }

  /** Otherwise `translation-loading` is the first thing the run does, and the
      snapshot's read comes straight after it, before any capture work. */
  lemma LoadingComesFirst(w: World, saved: Option<string>, env: Environment)
    requires env.loadingEmit.Ok?
    ensures var log := Transaction(w, saved, env).world.log;
      |w.log| + 2 <= |log| && log[..|w.log|] == w.log
      && log[|w.log|] == Emit(TranslationLoading(true)) && log[|w.log| + 1] == ReadText
  {
    CaptureExtendsLoading(w, env);
    var c := Captured(w, env);
    var o := Transaction(w, saved, env);
    if c.result.Ok? {
      assert o == Deliver(c.result.value, c.world, Snapshot(w, env), env);
      DeliverOnlyAppends(c.result.value, c.world, Snapshot(w, env), env);
    } else {
      assert o.world == c.world;
    }
    assert o.world.log[..|c.world.log|] == c.world.log;
    assert o.world.log[|w.log|] == c.world.log[|w.log|];
    assert o.world.log[|w.log| + 1] == c.world.log[|w.log| + 1];
    assert o.world.log[..|w.log|] == c.world.log[..|w.log|];
  }

  /** When the capture fails, the command fails with the capture's error, does
      not restore the clipboard and shows nothing: after the loading event, the
      log holds only the capture's reads and key events. */
  lemma CopyFailureSkipsRestore(w: World, saved: Option<string>, env: Environment)
    requires env.loadingEmit.Ok? && Captured(w, env).result.Err?
    ensures var o := Transaction(w, saved, env);
      && o.result == Err(CopyPrefix + Captured(w, env).result.error)
      && o.world == Captured(w, env).world
      && o.saved == Snapshot(w, env)
      && |w.log| + 1 <= |o.world.log|
      && CaptureOps(o.world.log[|w.log| + 1..])
      && !ShowsResult(o.world.log[|w.log|..])
  {
    CaptureExtendsLoading(w, env);
    var log := Captured(w, env).world.log;
    var ops := log[|w.log| + 2..];
    assert log[|w.log| + 1..] == [ReadText] + ops;
    assert log[|w.log|..] == [Emit(TranslationLoading(true)), ReadText] + ops;
  }

  /** The capture never hands back blank text, so the "No text selected" branch
      of `translate_selection` is dead: no run returns that error. */
  lemma NothingSelectedIsUnreachable(w: World, saved: Option<string>, env: Environment)
    ensures Captured(w, env).result.Ok? ==> !AllWhitespace(Captured(w, env).result.value)
    ensures Transaction(w, saved, env).result != Err(NothingSelected)
  {
    var start := Read(AfterLoading(w, env)).world;
    var c := Captured(w, env);
    if c.result.Ok? {
      AcceptedTextIsNotBlank(Before(start), FirstAttempt(start, env.platform, env.first).result,
                             SecondAttempt(start, env.platform, env.first, env.second).result);
    }
    var o := Transaction(w, saved, env);
    if o.result.Err? {
      assert NothingSelected[0] == 'N';
      if env.loadingEmit.Err? {
        assert o.result.error == LoadingPrefix + env.loadingEmit.error;
        assert o.result.error[0] == 'F';
      } else if c.result.Err? {
        assert o.result.error == CopyPrefix + c.result.error;
        assert o.result.error[0] == 'F';
      } else {
        var text := c.result.value;
        assert o == Deliver(text, c.world, Snapshot(w, env), env);
        assert o == Respond(text, DetectLanguage(text), Ask(text, c.world), Snapshot(w, env), Translate(env.reply), env.resultEmit);
        RespondErrorsArePrefixed(text, DetectLanguage(text), Ask(text, c.world), Snapshot(w, env), Translate(env.reply), env.resultEmit);
        assert o.result.error[0] == 'T' || o.result.error[0] == 'F' by {
          assert TranslationPrefix[0] == 'T' && RestorePrefix[0] == 'F' && EmitPrefix[0] == 'F';
        }
      }
    }
  }

  /** A run that returns a result used the captured text, its detected
      language and that language's target, and the provider's translation; it
      restored the snapshot (or, without a snapshot, left the clipboard as the
      capture did) and, last of all, showed exactly that result. */
  lemma SuccessRestoresThenShows(w: World, saved: Option<string>, env: Environment)
    requires Transaction(w, saved, env).result.Ok?
    ensures var o := Transaction(w, saved, env);
      var res := o.result.value;
      var snapshot := Snapshot(w, env);
      && Captured(w, env).result == Ok(res.original)
      && res.sourceLang == DetectLanguage(res.original)
      && res.targetLang == TargetLanguage(res.sourceLang)
      && Translate(env.reply) == Ok(res.translated)
      && o.world.clipboard == (if snapshot.Some? then snapshot else Captured(w, env).world.clipboard)
      && |o.world.log| > 0 && o.world.log[|o.world.log| - 1] == Emit(ShowTranslation(res))
  {
    SuccessUnfolds(w, saved, env);
    var c := Captured(w, env);
    var text := c.result.value;
    RespondSucceeds(text, DetectLanguage(text), Ask(text, c.world), Snapshot(w, env), Translate(env.reply), env.resultEmit);
  }

  /** A successful run's log, in order: the loading event, the snapshot's
      read, the capture's reads and key events, the provider request for the
      captured text and its target language, the restore write, the result. */
  lemma SuccessOrder(w: World, saved: Option<string>, env: Environment)
    requires Transaction(w, saved, env).result.Ok?
    ensures var o := Transaction(w, saved, env);
      var res := o.result.value;
      exists ops :: CaptureOps(ops) &&
        o.world.log == w.log + [Emit(TranslationLoading(true)), ReadText] + ops
          + [Request(res.original, res.targetLang)] + RestoreOps(o.saved) + [Emit(ShowTranslation(res))]
  {
    SuccessUnfolds(w, saved, env);
    CaptureExtendsLoading(w, env);
    var c := Captured(w, env);
    var text := c.result.value;
    RespondSucceeds(text, DetectLanguage(text), Ask(text, c.world), Snapshot(w, env), Translate(env.reply), env.resultEmit);
    var o := Transaction(w, saved, env);
    var res := o.result.value;
    var ops := c.world.log[|w.log| + 2..];
    assert o.world.log == w.log + [Emit(TranslationLoading(true)), ReadText] + ops
          + [Request(res.original, res.targetLang)] + RestoreOps(o.saved) + [Emit(ShowTranslation(res))];
  }

  /** When the provider fails, restore is still attempted and its own failure
      is ignored; the error is the provider's, prefixed, and nothing is shown. */
  lemma TranslationFailureRestores(w: World, saved: Option<string>, env: Environment)
    requires env.loadingEmit.Ok? && Captured(w, env).result.Ok? && Translate(env.reply).Err?
    ensures var o := Transaction(w, saved, env);
      var snapshot := Snapshot(w, env);
      && o.result == Err(TranslationPrefix + Translate(env.reply).error)
      && o.world.clipboard == (if snapshot.Some? && w.writeError.None? then snapshot else Captured(w, env).world.clipboard)
      && o.world.log == Captured(w, env).world.log
           + [Request(Captured(w, env).result.value, TargetLanguage(DetectLanguage(Captured(w, env).result.value)))]
           + RestoreOps(if w.writeError.None? then snapshot else None)
      && !ShowsResult(o.world.log[|Captured(w, env).world.log|..])
  {
    CaptureExtendsLoading(w, env);
    AfterCapture(w, saved, env);
    var c := Captured(w, env);
    var text := c.result.value;
    var asked := Ask(text, c.world);
    var snapshot := Snapshot(w, env);
    var o := Transaction(w, saved, env);
    assert o == Outcome(Err(TranslationPrefix + Translate(env.reply).error), RestoreOutcome(asked, snapshot).world, snapshot);
    var written := if w.writeError.None? then snapshot else None;
    var tail := [Request(text, TargetLanguage(DetectLanguage(text)))] + RestoreOps(written);
    assert o.world.log == c.world.log + tail;
    assert o.world.log[|c.world.log|..] == tail;
  }

  /** After a successful translation, a failing restore aborts the run: the
      error is the write's, prefixed twice, and nothing is shown. */
  lemma RestoreFailureAborts(w: World, saved: Option<string>, env: Environment)
    requires env.loadingEmit.Ok? && Captured(w, env).result.Ok? && Translate(env.reply).Ok?
    requires Snapshot(w, env).Some? && w.writeError.Some?
    ensures var o := Transaction(w, saved, env);
      && o.result == Err(RestorePrefix + WritePrefix + w.writeError.value)
      && !ShowsResult(o.world.log[|Captured(w, env).world.log|..])
  {
    CaptureExtendsLoading(w, env);
    AfterCapture(w, saved, env);
    var c := Captured(w, env);
    var text := c.result.value;
    var asked := Ask(text, c.world);
    var o := Transaction(w, saved, env);
    assert o.world == asked;
    assert o.world.log[|c.world.log|..] == [Request(text, TargetLanguage(DetectLanguage(text)))];
  }

  /** Once text has been captured, the run continues with the request for it. */
  lemma AfterCapture(w: World, saved: Option<string>, env: Environment)
    requires env.loadingEmit.Ok? && Captured(w, env).result.Ok?
    ensures var text := Captured(w, env).result.value;
      Transaction(w, saved, env) == Respond(text, DetectLanguage(text), Ask(text, Captured(w, env).world),
                                            Snapshot(w, env), Translate(env.reply), env.resultEmit)
  {
    NothingSelectedIsUnreachable(w, saved, env);
    var c := Captured(w, env);
    assert Transaction(w, saved, env) == Deliver(c.result.value, c.world, Snapshot(w, env), env);
  }

  /** `translate_selection` on the host and the app's `SmartClipboard`. */
  method TranslateSelection(host: Host, state: SmartClipboard, env: Environment) returns (r: Result<TranslationResult>)
    modifies host, state
    ensures var o := Transaction(old(host.State()), old(state.saved), env);
      r == o.result && host.State() == o.world && state.saved == o.saved
  {
    ghost var w := host.State();
    var loading := host.Emit(TranslationLoading(true), env.loadingEmit);
    if loading.Err? {
      return Err(LoadingPrefix + loading.error);
    }
    // save_clipboard always returns Ok, so its error mapping never applies.
    var _ := state.SaveClipboard(host);
    r := CaptureAndTranslate(host, state, env, w);
  }

  /** `translate_selection` from the capture on, once the snapshot is taken. */
  method CaptureAndTranslate(host: Host, state: SmartClipboard, env: Environment, ghost w: World)
      returns (r: Result<TranslationResult>)
    requires env.loadingEmit.Ok?
    requires host.State() == Read(AfterLoading(w, env)).world && state.saved == Snapshot(w, env)
    modifies host
    ensures var o := Transaction(w, old(state.saved), env);
      r == o.result && host.State() == o.world && state.saved == o.saved
  {
    var captured := state.CopyWithFallback(host, env.platform, env.first, env.second);
    TransactionStages(w, state.saved, env);
    if captured.Err? {
      return Err(CopyPrefix + captured.error);
    }
    r := Finish(host, state, captured.value, env);
  }

  /** `Transaction` stage by stage, with the capture left folded. */
  lemma TransactionStages(w: World, saved: Option<string>, env: Environment)
    ensures env.loadingEmit.Ok? && Captured(w, env).result.Err? ==>
      Transaction(w, saved, env) == Outcome(Err(CopyPrefix + Captured(w, env).result.error), Captured(w, env).world, Snapshot(w, env))
    ensures env.loadingEmit.Ok? && Captured(w, env).result.Ok? ==>
      Transaction(w, saved, env) == Deliver(Captured(w, env).result.value, Captured(w, env).world, Snapshot(w, env), env)
  {
  }

  /** The rest of `translate_selection`, after the capture. */
  method Finish(host: Host, state: SmartClipboard, text: string, env: Environment) returns (r: Result<TranslationResult>)
    modifies host
    ensures var o := Deliver(text, old(host.State()), state.saved, env);
      r == o.result && host.State() == o.world
  {
    var trimmed := Trim(text);
    TrimEmptyIff(text);
    if trimmed == [] {
      var _ := state.RestoreClipboard(host);
      return Err(NothingSelected);
    }
    var source := DetectLanguage(text);
    var target := TargetLanguage(source);
    host.Request(text, target);
    var translation := Translate(env.reply);
    if translation.Err? {
      var _ := state.RestoreClipboard(host);
      return Err(TranslationPrefix + translation.error);
    }
    var restored := state.RestoreClipboard(host);
    if restored.Err? {
      return Err(RestorePrefix + restored.error);
    }
    var result := TranslationResult(text, translation.value, source, target);
    var shown := host.Emit(ShowTranslation(result), env.resultEmit);
    if shown.Err? {
      return Err(EmitPrefix + shown.error);
    }
    r := Ok(result);
  }

  // The capture-failure exit.

  /** As written, a run whose capture fails returns through `?` before the
      restore: a selection of whitespace over a clipboard holding "hi" (too
      short for the fallback) leaves " " on the clipboard for good, although
      the snapshot holds "hi". */
  lemma WhitespaceSelectionOverwritesClipboard()
    ensures var w := World(Some("hi"), [], "", None);
      var copies := Injection(Queued, Ok(()), None, CopiesText(" "));
      var env := Environment(MacOS, Ok(()), copies, copies, TransportFailure(""), Ok(()));
      && Snapshot(w, env) == Some("hi")
      && Transaction(w, None, env).result == Err(CopyPrefix + NoTextSelected)
      && Transaction(w, None, env).world.clipboard == Some(" ")
  {
    var w := World(Some("hi"), [], "", None);
    var copies := Injection(Queued, Ok(()), None, CopiesText(" "));
    var env := Environment(MacOS, Ok(()), copies, copies, TransportFailure(""), Ok(()));
    var start := Read(AfterLoading(w, env)).world;
    assert start.clipboard == Some("hi");
    assert Before(start) == Some("hi");
    var one := FirstAttempt(start, MacOS, copies);
    assert one.world.clipboard == Some(" ") && one.result == Ok(" ");
    var two := SecondAttempt(start, MacOS, copies, copies);
    assert two.world.clipboard == Some(" ") && two.result == Ok(" ");
    assert Trim(" ") == [] by { TrimEmptyIff(" "); }
    assert Trim("hi") == "hi" by {
      assert TrimStart("hi") == "hi";
      assert TrimEnd("hi") == "hi";
    }
    assert Utf8Len("hi") == 2;
    assert Captured(w, env) == Step(Err(NoTextSelected), two.world);
  }

  /** `Transaction` with the snapshot put back on every exit after it was
      taken, the capture's failure included, which is what the trim-empty and
      translation-error branches of `translate_selection` evidently intend. */
  function TransactionRestoring(w: World, saved: Option<string>, env: Environment): Outcome {
    if env.loadingEmit.Err? then Outcome(Err(LoadingPrefix + env.loadingEmit.error), w, saved)
    else
      var capture := Captured(w, env);
      if capture.result.Err? then
        Outcome(Err(CopyPrefix + capture.result.error), RestoreOutcome(capture.world, Snapshot(w, env)).world, Snapshot(w, env))
      else Deliver(capture.result.value, capture.world, Snapshot(w, env), env)
  }

  /** While the clipboard accepts writes, every exit of the corrected run puts
      the snapshot back; the command's result is unchanged. */
  lemma RestoringTransactionRestores(w: World, saved: Option<string>, env: Environment)
    requires env.loadingEmit.Ok? && w.writeError.None?
    ensures Snapshot(w, env).Some? ==> TransactionRestoring(w, saved, env).world.clipboard == Snapshot(w, env)
    ensures TransactionRestoring(w, saved, env).result == Transaction(w, saved, env).result
  {
    CaptureExtendsLoading(w, env);
    var c := Captured(w, env);
    if c.result.Ok? {
      AfterCapture(w, saved, env);
      var text := c.result.value;
      assert TransactionRestoring(w, saved, env) == Transaction(w, saved, env);
      RespondRestores(text, DetectLanguage(text), Ask(text, c.world), Snapshot(w, env), Translate(env.reply), env.resultEmit);
    }
  }

  /** With a writable clipboard, every exit after the provider's answer has
      put the snapshot back. */
  lemma RespondRestores(text: string, source: string, w: World, saved: Option<string>,
                        translation: Result<string>, resultEmit: Result<()>)
    requires w.writeError.None?
    ensures saved.Some? ==> Respond(text, source, w, saved, translation, resultEmit).world.clipboard == saved
  {
  }

  /** The corrected run with a whitespace selection over "hi" leaves "hi". */
  lemma WhitespaceSelectionKeepsClipboard()
    ensures var w := World(Some("hi"), [], "", None);
      var copies := Injection(Queued, Ok(()), None, CopiesText(" "));
      var env := Environment(MacOS, Ok(()), copies, copies, TransportFailure(""), Ok(()));
      TransactionRestoring(w, None, env).world.clipboard == Some("hi")
  {
    var w := World(Some("hi"), [], "", None);
    var copies := Injection(Queued, Ok(()), None, CopiesText(" "));
    var env := Environment(MacOS, Ok(()), copies, copies, TransportFailure(""), Ok(()));
    assert Snapshot(w, env) == Some("hi");
    RestoringTransactionRestores(w, None, env);
  }

  /** `translate_selection` with the corrected capture-failure exit. */
  method TranslateSelectionRestoring(host: Host, state: SmartClipboard, env: Environment)
      returns (r: Result<TranslationResult>)
    modifies host, state
    ensures var o := TransactionRestoring(old(host.State()), old(state.saved), env);
      r == o.result && host.State() == o.world && state.saved == o.saved
  {
    ghost var w := host.State();
    var loading := host.Emit(TranslationLoading(true), env.loadingEmit);
    if loading.Err? {
      return Err(LoadingPrefix + loading.error);
    }
    var _ := state.SaveClipboard(host);
    r := CaptureRestoringAndTranslate(host, state, env, w);
  }

  method CaptureRestoringAndTranslate(host: Host, state: SmartClipboard, env: Environment, ghost w: World)
      returns (r: Result<TranslationResult>)
    requires env.loadingEmit.Ok?
    requires host.State() == Read(AfterLoading(w, env)).world && state.saved == Snapshot(w, env)
    modifies host
    ensures var o := TransactionRestoring(w, old(state.saved), env);
      r == o.result && host.State() == o.world && state.saved == o.saved
  {
    var captured := state.CopyWithFallback(host, env.platform, env.first, env.second);
    TransactionStages(w, state.saved, env);
    if captured.Err? {
      var _ := state.RestoreClipboard(host);
      return Err(CopyPrefix + captured.error);
    }
    r := Finish(host, state, captured.value, env);
  }

  // Worked runs.

  /** The nothing-copied environment: both chords are delivered and the
      foreground application copies nothing. */
  function NoSelection(reply: ProviderReply): Environment {
    var copies := Injection(Queued, Ok(()), None, LeavesClipboard);
    Environment(MacOS, Ok(()), copies, copies, reply, Ok(()))
  }

  /** An empty clipboard and a Japanese selection: attempt 1 captures it, it
      is detected as Japanese, and the target is English. */
  lemma JapaneseSelectionIsCaptured(reply: ProviderReply)
    ensures var copies := Injection(Queued, Ok(()), None, CopiesText("こんにちは"));
      var env := Environment(OtherOS, Ok(()), copies, copies, reply, Ok(()));
      var w := World(None, [], "empty", None);
      && Captured(w, env).result == Ok("こんにちは")
      && DetectLanguage("こんにちは") == "ja" && TargetLanguage(DetectLanguage("こんにちは")) == "en"
  {
    var copies := Injection(Queued, Ok(()), None, CopiesText("こんにちは"));
    var env := Environment(OtherOS, Ok(()), copies, copies, reply, Ok(()));
    var w := World(None, [], "empty", None);
    var start := Read(AfterLoading(w, env)).world;
    assert Before(start) == None;
    assert FirstAttempt(start, OtherOS, copies).result == Ok("こんにちは");
    assert Trim("こんにちは") != [] by {
      TrimEmptyIff("こんにちは");
      assert !IsWhitespace("こんにちは"[0]);
    }
    AllJapaneseIsJapanese("こんにちは");
  }

  /** A clipboard holding "old-value" and nothing copied: the fallback takes
      the earlier clipboard, which is nine bytes long. */
  lemma LongClipboardIsTheFallback(reply: ProviderReply)
    ensures Captured(World(Some("old-value"), [], "", None), NoSelection(reply)).result == Ok("old-value")
  {
    var w := World(Some("old-value"), [], "", None);
    var env := NoSelection(reply);
    var start := Read(AfterLoading(w, env)).world;
    assert Before(start) == Some("old-value");
    assert FirstAttempt(start, MacOS, env.first).result == Ok("old-value");
    assert SecondAttempt(start, MacOS, env.first, env.second).result == Ok("old-value");
    assert Trim("old-value") == "old-value" by {
      assert TrimStart("old-value") == "old-value";
      assert TrimEnd("old-value") == "old-value";
    }
    assert Utf8Len("e") == 1;
    assert Utf8Len("old-value") == 9;
  }

  /** A clipboard holding "hi" and nothing copied: nothing is selected, the
      command fails, and the clipboard still holds "hi" since nothing wrote it. */
  lemma ShortClipboardIsNoSelection(reply: ProviderReply)
    ensures var w := World(Some("hi"), [], "", None);
      && Transaction(w, None, NoSelection(reply)).result == Err(CopyPrefix + NoTextSelected)
      && Transaction(w, None, NoSelection(reply)).world.clipboard == Some("hi")
  {
    var w := World(Some("hi"), [], "", None);
    var env := NoSelection(reply);
    var start := Read(AfterLoading(w, env)).world;
    assert Before(start) == Some("hi");
    assert FirstAttempt(start, MacOS, env.first).result == Ok("hi");
    assert SecondAttempt(start, MacOS, env.first, env.second).world.clipboard == Some("hi");
    assert Trim("hi") == "hi" by {
      assert TrimStart("hi") == "hi";
      assert TrimEnd("hi") == "hi";
    }
    assert Utf8Len("hi") == 2;
    assert Captured(w, env).result == Err(NoTextSelected);
  }

  /** A rate-limited provider: the command fails with the rate-limit message,
      the snapshot is restored when the clipboard accepts the write, and no
      result is shown. */
  lemma RateLimitRestores(w: World, saved: Option<string>, env: Environment, body: ResponseBody)
    requires env.loadingEmit.Ok? && Captured(w, env).result.Ok?
    requires env.reply == Responded(TooManyRequests, body) && w.writeError.None?
    ensures var o := Transaction(w, saved, env);
      && o.result == Err(TranslationPrefix + RateLimitMessage)
      && (Snapshot(w, env).Some? ==> o.world.clipboard == Snapshot(w, env))
      && !ShowsResult(o.world.log[|Captured(w, env).world.log|..])
  {
    TranslationFailureRestores(w, saved, env);
  }

  /** An empty clipboard and nothing copied: the read after attempt 1 fails
      first, so the run ends with the read error, not with "No text selected". */
  lemma EmptyClipboardFailsTheRead(reply: ProviderReply)
    ensures Captured(World(None, [], "empty", None), NoSelection(reply)).result == Err(ReadPrefix + "empty")
    ensures Transaction(World(None, [], "empty", None), None, NoSelection(reply)).result
         == Err(CopyPrefix + ReadPrefix + "empty")
  {
  }

  /** An application that copies something other than text makes the read
      after the chord fail, although the read before it succeeded. */
  lemma NonTextCopyFailsTheRead(reply: ProviderReply)
    ensures var copies := Injection(Queued, Ok(()), None, CopiesNonText);
      var env := Environment(MacOS, Ok(()), copies, copies, reply, Ok(()));
      var w := World(Some("hi"), [], "image", None);
      && Before(Read(AfterLoading(w, env)).world) == Some("hi")
      && Captured(w, env).result == Err(ReadPrefix + "image")
  {
  }
}
