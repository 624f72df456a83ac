# Selection capture and translation, modelled in Dafny

This project models the backend core of a desktop Japanese/English translator
(a Tauri application written in Rust). When the user presses the hotkey, the
command `translate_selection` runs these steps:

1. It announces that a translation is loading.
2. It snapshots the clipboard.
3. It makes the foreground application copy its selection, by sending a
   synthetic Cmd+C (macOS) or Ctrl+C (other systems) chord.
4. It decides whether that produced new text. If not, it retries once, and
   then falls back to the earlier clipboard when that holds more than five
   bytes of trimmed text.
5. It detects the language of the text and asks a translation provider for
   the other language.
6. It puts the snapshot back on the clipboard.
7. It shows the result in an overlay.

The model has six modules:

- `Wrappers`: `Option` and `Result`, where `Result`'s error is a string, as in Rust's `Result<T, String>`.
- `Text`: Unicode whitespace, `str::trim` and the UTF-8 byte length `str::len`.
- `Host`: a fake of the Tauri `AppHandle`. It is written once as a value (`World`) and once as a class whose methods update it (`Host`).
  - It holds the clipboard's text and the host's fixed read and write faults.
  - It keeps a log, in order, of every interaction that took effect: clipboard reads, successful writes, accepted key events, delivered events and provider requests.
- `ClipboardManager`: the `SmartClipboard` class of `clipboard_manager.rs`, with its `saved` snapshot field.
  - Its methods are proved equal to functions on `World`: `CopyOutcome`, `CaptureOutcome`, `RestoreOutcome` and others.
  - Lemmas about those functions state the decision table of `copy_with_fallback` and what the capture may do to the host.
- `Translation`: `detect_language`, `get_target_language`, and the checks `translate` applies to the provider's response.
- `Commands`: `translate_selection`.
  - `Transaction` is the whole run as a function of the host before and of an `Environment`. The environment holds what the program does not decide: the platform, event delivery, the foreground application's reaction to each chord, and the provider's reply.
  - The method `TranslateSelection` runs the command on a `Host` object and a `SmartClipboard` and is proved equal to `Transaction`.

Things the program does not decide are parameters of the model:

- **Synthetic key events.**
  - An `Injection` says whether the closure reached the main thread, whether `Enigo` could be created, and which key event, if any, the OS rejects.
  - It also says how the foreground application reacts: it leaves the clipboard alone, copies text, or copies something that is not text. It reacts once the modifier press and the `c` press have both been accepted.
- **The HTTP exchange.** A `ProviderReply` holds either a transport failure, already turned into its message, or a status code and what the body decodes to.
- **Clipboard reads and writes.** A read fails exactly when the clipboard holds no text. A write fails when the host's `writeError` is set.

Where the documented behaviour and the code disagree, the model follows the code:

- The fallback threshold counts UTF-8 bytes (`str::len`), not characters. `ClipboardManager.FallbackCountsBytes` shows two kanji passing it.
- A run whose capture fails does not restore the clipboard (see Findings).
- An empty clipboard with no selection does not end with "No text selected". The read after attempt 1 fails first, so the run fails with the read error (`Commands.EmptyClipboardFailsTheRead`).

## Model

| member | source | states |
|---|---|---|
| Text.IsWhitespace | src-tauri/src/translation.rs:42 | Unicode's White_Space property, which `char::is_whitespace` and `str::trim` test |
| Text.TrimStart | src-tauri/src/clipboard_manager.rs:112 | the string without its leading whitespace |
| Text.TrimEnd | src-tauri/src/clipboard_manager.rs:112 | the string without its trailing whitespace |
| Text.Trim | src-tauri/src/clipboard_manager.rs:112 | `str::trim`: both ends' whitespace removed |
| Text.Utf8Len | src-tauri/src/clipboard_manager.rs:137 | `str::len`: the number of bytes of the UTF-8 encoding, summing one to four per character |
| Text.TrimStartKeepsSuffix | src-tauri/src/clipboard_manager.rs:112 | trimming the start keeps a suffix, drops only whitespace before it, and what is kept does not start with whitespace |
| Text.TrimEndKeepsPrefix | src-tauri/src/clipboard_manager.rs:112 | trimming the end keeps a prefix, drops only whitespace after it, and what is kept does not end with whitespace |
| Text.TrimKeepsInfix | src-tauri/src/clipboard_manager.rs:137 | `trim` keeps one contiguous piece of its input and removes only whitespace on both sides; what it keeps neither starts nor ends with whitespace |
| Text.TrimEmptyIff | src-tauri/src/commands.rs:66 | `s.trim().is_empty()` holds exactly when every character of `s` is whitespace |
| Text.TrimIdempotent | src-tauri/src/translation.rs:111 | trimming an already trimmed string changes nothing |
| Text.Utf8LenBounds | src-tauri/src/clipboard_manager.rs:137 | the byte length `len` lies between the character count and four times it, and equals the character count exactly on ASCII text |
| ClipboardManager.CopyOutcome | src-tauri/src/clipboard_manager.rs:33-96 | `copy_selection`: the log gains the chord's key events up to the first one not delivered; the application's reaction takes effect once the first two are accepted; the result is `Ok` only when all four are, and otherwise the error of the step that failed |
| ClipboardManager.ReadOutcome | src-tauri/src/clipboard_manager.rs:148-152 | `read_clipboard`: the host's read, with "Failed to read clipboard: " before its error |
| ClipboardManager.WriteOutcome | src-tauri/src/clipboard_manager.rs:155-159 | `write_clipboard`: the host's write, with "Failed to write clipboard: " before its error |
| ClipboardManager.RestoreOutcome | src-tauri/src/clipboard_manager.rs:162-167 | `restore_clipboard`: a write of the snapshot when there is one, otherwise `Ok` with the host untouched |
| ClipboardManager.IsNew | src-tauri/src/clipboard_manager.rs:112-113 | the new-text test: not blank once trimmed and not equal to the clipboard before |
| ClipboardManager.Decide | src-tauri/src/clipboard_manager.rs:100-145 | the result of `copy_with_fallback` from the clipboard before and the two attempts' results: attempt 1's failure or new text, else attempt 2's, else the long-enough clipboard before, else "No text selected…" |
| ClipboardManager.SecondAttemptRuns | src-tauri/src/clipboard_manager.rs:115-122 | attempt 2 runs exactly when attempt 1 read text back that is not new |
| ClipboardManager.AttemptOutcome | src-tauri/src/clipboard_manager.rs:107-109 | one attempt: the copy's error, or the read that follows it |
| ClipboardManager.CaptureOutcome | src-tauri/src/clipboard_manager.rs:100-145 | `copy_with_fallback`: the decided result, with the host as attempt 2 left it when attempt 2 ran and as attempt 1 left it otherwise |
| ClipboardManager.SavedFrom | src-tauri/src/clipboard_manager.rs:22-29 | the snapshot is absent exactly when the read failed or read empty text, and otherwise is the text read |
| ClipboardManager.DispatchFailureIsDistinct | src-tauri/src/clipboard_manager.rs:40-93 | a failed copy's error carries the "Failed to dispatch to main thread: " prefix exactly when dispatch itself was refused, so no closure, key or channel error is mistaken for it |
| ClipboardManager.RestorePutsSnapshotBack | src-tauri/src/clipboard_manager.rs:162-167 | with no snapshot, restore succeeds and changes nothing; with one and a writable clipboard, the clipboard then reads the snapshot; with a failing write, restore returns the prefixed write error and changes nothing |
| ClipboardManager.RestoreIdempotent | src-tauri/src/clipboard_manager.rs:162-167 | restoring twice gives the same result and clipboard as restoring once |
| ClipboardManager.FirstAttemptWins | src-tauri/src/clipboard_manager.rs:105-118 | new text from attempt 1 (non-blank and different from the clipboard before) is returned whatever attempt 2 would read, and attempt 2 does not run |
| ClipboardManager.SecondAttemptWins | src-tauri/src/clipboard_manager.rs:120-132 | when attempt 1 read nothing new and attempt 2 reads new text, attempt 2's text is returned |
| ClipboardManager.FailureAborts | src-tauri/src/clipboard_manager.rs:107-124 | a failed copy or read in attempt 1 ends the capture with its error before attempt 2; a failure in attempt 2, when it runs, ends it with that error |
| ClipboardManager.FallbackOrNothing | src-tauri/src/clipboard_manager.rs:134-144 | with nothing new from either attempt, the clipboard before is used exactly when it exists and its trimmed text is longer than 5 bytes; otherwise the "No text selected" error is returned |
| ClipboardManager.AcceptedTextIsNotBlank | src-tauri/src/clipboard_manager.rs:100-145 | every text the capture accepts is either new or the long-enough clipboard before, and it is never blank |
| ClipboardManager.FallbackCountsBytes | src-tauri/src/clipboard_manager.rs:137 | the threshold counts bytes: "日本" (two characters, six bytes) is taken as the fallback |
| ClipboardManager.NoSecondAttemptAfterFirstDecides | src-tauri/src/clipboard_manager.rs:105-118 | when attempt 1 fails or finds new text, no second chord is sent and the host is exactly as attempt 1 left it |
| ClipboardManager.CaptureOnlyReadsAndSendsKeys | src-tauri/src/clipboard_manager.rs:100-145 | the capture only appends clipboard reads and key events to the log, never writes the clipboard itself, and leaves the host's faults alone |
| ClipboardManager.AttemptOnlyReadsAndSendsKeys | src-tauri/src/clipboard_manager.rs:107-109 | one attempt (copy, then read) only appends key events and a read to the log |
| ClipboardManager.SmartClipboard.constructor | src-tauri/src/clipboard_manager.rs:15-19 | a new `SmartClipboard` holds no snapshot |
| ClipboardManager.SmartClipboard.SaveClipboard | src-tauri/src/clipboard_manager.rs:22-29 | always returns `Ok`; the snapshot becomes the clipboard's text when there is some and it is non-empty, and otherwise nothing, replacing any earlier snapshot; the host only logs the read |
| ClipboardManager.SmartClipboard.ReadClipboard | src-tauri/src/clipboard_manager.rs:148-152 | the clipboard's text, or the read error with the "Failed to read clipboard: " prefix |
| ClipboardManager.SmartClipboard.WriteClipboard | src-tauri/src/clipboard_manager.rs:155-159 | the clipboard now holds the text, or the write error with the "Failed to write clipboard: " prefix and nothing changed |
| ClipboardManager.SmartClipboard.RestoreClipboard | src-tauri/src/clipboard_manager.rs:162-167 | writes the snapshot back when there is one, and otherwise succeeds without touching the host; the snapshot itself is unchanged |
| ClipboardManager.SmartClipboard.ChordKey | src-tauri/src/clipboard_manager.rs:48-60 | one key event of the chord: logged when the OS accepts it; otherwise the error carries the key's own prefix (such as "Failed to press Cmd: ") and nothing changes |
| ClipboardManager.SmartClipboard.SendChord | src-tauri/src/clipboard_manager.rs:41-85 | an `Enigo` creation failure sends nothing; otherwise the chord's key events are sent in order up to the first rejected one, and the application copies once the first two are accepted |
| ClipboardManager.SmartClipboard.CopySelection | src-tauri/src/clipboard_manager.rs:33-96 | a refused dispatch and a dropped channel fail with their own prefixed errors and send nothing; otherwise the result is the closure's result |
| ClipboardManager.SmartClipboard.Attempt | src-tauri/src/clipboard_manager.rs:107-109 | one attempt: the copy's error, or else the text read back |
| ClipboardManager.SmartClipboard.CopyWithFallback | src-tauri/src/clipboard_manager.rs:100-145 | the result and the host afterwards are those of the capture: first read, up to two attempts, then the fallback |
| Translation.IsJapanese | src-tauri/src/translation.rs:32-40 | the four code-point ranges detection counts: Hiragana, Katakana, CJK Unified Ideographs to U+9FAF and CJK Extension A |
| Translation.JapaneseCount | src-tauri/src/translation.rs:32-40 | the number of characters in those ranges |
| Translation.NonWhitespaceCount | src-tauri/src/translation.rs:42 | the number of characters that are not whitespace |
| Translation.TargetLanguage | src-tauri/src/translation.rs:53-58 | `get_target_language`: "en" for "ja" and "ja" for anything else |
| Translation.Classify | src-tauri/src/translation.rs:87-117 | the checks on a received response, in the source's order: 429, then any other non-2xx status, then a body that does not decode, then a translation that trims to nothing, else the trimmed translation |
| Translation.Translate | src-tauri/src/translation.rs:61-118 | `translate`: a transport failure's message, or the classification of the response |
| Translation.DetectLanguage | src-tauri/src/translation.rs:31-50 | the detected language is "ja" or "en" |
| Translation.CountsBounded | src-tauri/src/translation.rs:32-42 | the Japanese count is at most the non-whitespace count, which is at most the length |
| Translation.DetectJapaneseIff | src-tauri/src/translation.rs:44-49 | "ja" exactly when some character is not whitespace and ten times the Japanese count exceeds the non-whitespace count |
| Translation.BlankTextIsEnglish | src-tauri/src/translation.rs:42-48 | text with no non-whitespace character is detected as "en" |
| Translation.NoJapaneseIsEnglish | src-tauri/src/translation.rs:31-49 | text with no character in the four Japanese ranges, such as any ASCII text, is detected as "en" |
| Translation.AllJapaneseIsJapanese | src-tauri/src/translation.rs:31-49 | non-empty text made only of Japanese characters is detected as "ja" |
| Translation.TargetDiffersFromSource | src-tauri/src/translation.rs:53-58 | "ja" goes to "en", every other code goes to "ja", so the target never equals the detected language |
| Translation.RateLimitExactlyOn429 | src-tauri/src/translation.rs:89-92 | status 429, and no other status, gives the rate-limit message |
| Translation.OtherFailingStatusIsServerError | src-tauri/src/translation.rs:94-104 | every other non-2xx status fails with a "Translation error: " message |
| Translation.SuccessIsTrimmedTranslation | src-tauri/src/translation.rs:106-117 | a response is accepted exactly when its status is 2xx, it decodes, and its translation is not all whitespace; the accepted value is that translation trimmed, non-empty and already trimmed; an all-whitespace translation gives "Empty translation response" |
| Commands.AfterLoading | src-tauri/src/commands.rs:37-39 | the host once `translation-loading` has been emitted |
| Commands.Snapshot | src-tauri/src/commands.rs:48-52 | the snapshot `save_clipboard` takes after the loading event |
| Commands.Captured | src-tauri/src/commands.rs:54-57 | what `copy_with_fallback` returns in the run, and the host after it |
| Commands.Transaction | src-tauri/src/commands.rs:30-121 | `translate_selection`: the result, host and snapshot of a whole run; a failed loading emit changes nothing, a failed capture returns its prefixed error, otherwise `Deliver` |
| Commands.Deliver | src-tauri/src/commands.rs:64-121 | the run after the capture: a blank text restores and fails with "No text selected", otherwise the provider is asked for the detected language's target and `Respond` follows |
| Commands.Ask | src-tauri/src/commands.rs:72-80 | the host once the provider has been asked for the text in the target of its detected language |
| Commands.Respond | src-tauri/src/commands.rs:79-117 | after the provider's answer: a failed translation restores, ignoring the restore's result, and fails; otherwise a failed restore fails; otherwise `Publish` |
| Commands.Publish | src-tauri/src/commands.rs:106-120 | emits `show-translation` with the result, which is returned unless the emit fails |
| Commands.TransactionRestoring | src-tauri/src/commands.rs:54-57 | `Transaction` with a restore added on the capture-failure exit |
| Host.Read | src-tauri/src/clipboard_manager.rs:149-150 | the plugin's `read_text` in the fake host: the clipboard's text, or the host's read error when it holds no text |
| Host.Write | src-tauri/src/clipboard_manager.rs:156-157 | the plugin's `write_text`: the clipboard holds the text and the write is logged, or the host's write error with nothing changed |
| Host.SendKey | src-tauri/src/clipboard_manager.rs:48-60 | one `enigo.key` call: the key event is logged unless the OS rejects it |
| Host.ApplicationCopies | src-tauri/src/clipboard_manager.rs:49-53 | the foreground application's reaction to the chord: the clipboard unchanged, holding the copied text, or holding something that is not text |
| Host.EmitEvent | src-tauri/src/commands.rs:38 | `app.emit`: the event is logged when it is delivered, and nothing changes otherwise |
| Commands.LoadingFailureDoesNothing | src-tauri/src/commands.rs:37-39 | when the loading event cannot be emitted, the command fails with its prefixed error and nothing else happens |
| Commands.LoadingComesFirst | src-tauri/src/commands.rs:37-52 | otherwise the loading event is the run's first effect and the snapshot's read comes straight after it; the run only appends to the log |
| Commands.CopyFailureSkipsRestore | src-tauri/src/commands.rs:54-57 | when the capture fails, the command fails with "Failed to copy text: " and the capture's error, leaves the host as the capture did, and after the loading event logs only reads and key events: no restore and no result |
| Commands.NothingSelectedIsUnreachable | src-tauri/src/commands.rs:66-70 | captured text is never blank, so no run returns "No text selected" |
| Commands.RespondErrorsArePrefixed | src-tauri/src/commands.rs:79-117 | every failure after the capture carries the prefix of the step that failed: translation, restore, or the result emit |
| Commands.RespondSucceeds | src-tauri/src/commands.rs:91-120 | after the provider answers, success means: the translation succeeded, the result is built from the text, translation and languages, the log gains the restore write and then the result event, and the clipboard holds the snapshot |
| Commands.SuccessRestoresThenShows | src-tauri/src/commands.rs:72-120 | a successful result holds the captured text, its detected language, that language's target and the provider's translation; the clipboard holds the snapshot (or, without one, what the capture left); the last effect is showing that result |
| Commands.SuccessOrder | src-tauri/src/commands.rs:37-120 | a successful run's log is, in order: the loading event, the snapshot's read, the capture's reads and key events, the request for the captured text and its target, the restore write, the result event |
| Commands.TranslationFailureRestores | src-tauri/src/commands.rs:77-87 | when the provider fails, the error is "Translation failed: " and the provider's message; after the capture the log holds the provider request and then the restore write, the write is absent when it failed and its failure is ignored; the clipboard holds the snapshot when writes succeed; nothing is shown |
| Commands.RestoreFailureAborts | src-tauri/src/commands.rs:91-104 | after a successful translation, a failed restore ends the run with "Failed to restore clipboard: " and the write error, and nothing is shown |
| Commands.TranslateSelection | src-tauri/src/commands.rs:30-121 | the command's result, the host afterwards and the snapshot left behind are those of `Transaction` |
| Commands.CaptureAndTranslate | src-tauri/src/commands.rs:54-121 | the run from the capture on agrees with `Transaction` |
| Commands.Finish | src-tauri/src/commands.rs:64-121 | the run after the capture agrees with `Deliver`: blank check, language detection, request, restore, result event |
| Commands.WhitespaceSelectionOverwritesClipboard | src-tauri/src/commands.rs:54-57 | as written, selecting whitespace over a clipboard holding "hi" fails with "Failed to copy text: No text selected…" and leaves " " on the clipboard, although the snapshot is "hi" |
| Commands.RestoringTransactionRestores | src-tauri/src/commands.rs:54-70 | in the corrected run, every exit after the snapshot leaves the snapshot on the clipboard while writes succeed, and the command's result is unchanged |
| Commands.RespondRestores | src-tauri/src/commands.rs:77-117 | with a writable clipboard, every exit after the provider's answer has put the snapshot back |
| Commands.WhitespaceSelectionKeepsClipboard | src-tauri/src/commands.rs:54-57 | the corrected run with the same whitespace selection leaves "hi" on the clipboard |
| Commands.TranslateSelectionRestoring | src-tauri/src/commands.rs:30-121 | the corrected command agrees with `TransactionRestoring` |
| Commands.CaptureRestoringAndTranslate | src-tauri/src/commands.rs:54-121 | the corrected run from the capture on restores on a capture failure and otherwise agrees with `Deliver` |
| Commands.JapaneseSelectionIsCaptured | src-tauri/src/clipboard_manager.rs:105-118 | an empty clipboard and a selection "こんにちは": attempt 1 captures it, it is detected as "ja", and the target is "en" |
| Commands.LongClipboardIsTheFallback | src-tauri/src/clipboard_manager.rs:134-140 | a clipboard holding "old-value" with nothing newly copied: the capture takes "old-value" (9 bytes) |
| Commands.ShortClipboardIsNoSelection | src-tauri/src/clipboard_manager.rs:134-144 | a clipboard holding "hi" with nothing newly copied: no text is selected, the command fails, and the clipboard still holds "hi" |
| Commands.EmptyClipboardFailsTheRead | src-tauri/src/clipboard_manager.rs:102-109 | an empty clipboard with nothing copied: the read after attempt 1 fails first, so the capture fails with "Failed to read clipboard: " and the read error, and the command with that error prefixed again, not with "No text selected" |
| Commands.NonTextCopyFailsTheRead | src-tauri/src/clipboard_manager.rs:102-109 | an application that copies something other than text makes the read after the chord fail although the read before it succeeded |
| Commands.RateLimitRestores | src-tauri/src/commands.rs:77-87 | a 429 reply makes the command fail with the rate-limit message; the snapshot is back on the clipboard and nothing is shown |

## Left out

- `println!` debug output and every `thread::sleep` delay: they have no effect on the result.
- The `Mutex` in `AppState` and its "Failed to lock clipboard" errors. A run is modelled as one sequential call, so interleaving runs and lock poisoning are not modelled.
- `run_on_main_thread` and the `mpsc` channel hand-off. They are represented by the `Dispatch` outcome of an `Injection`: queued, refused, or a dropped channel.
- `enigo` and the clipboard plugin themselves. Their outcomes are parameters: `Injection` and the host's faults.
  - A read fails only when the clipboard holds no text.
  - A write's failure is a fixed property of the host.
- What the foreground application does with the chord. It is a parameter (`Reaction`): it leaves the clipboard alone, copies text, or copies something that is not text. The reaction takes effect once the modifier and `c` presses are accepted.
- The HTTP request in `translate`: building the client, serialising the request, timeouts and decoding JSON. A `ProviderReply` carries their outcome.
  - Connection, timeout and other transport failures arrive as their final message.
  - A body arrives as what it decodes to.
- Translation.Classify: a status shown in "HTTP error: {}" is given as its decimal code only. `reqwest` also appends the reason phrase.
- Translation.DetectLanguage: the ratio is compared exactly. The source divides two `f32` values, which can differ from the exact comparison only when counts exceed 2^24 characters.
- `CopyResult` is modelled as the captured string it wraps.
- `check_ollama_status` (src-tauri/src/commands.rs:21-28). It calls a function that is not present in translation.rs, so it is not part of this model.
- config.rs, lib.rs, tray.rs and the React components are not part of this model.
- `save_clipboard` returns `Ok` on every path. Its "Failed to save clipboard" mapping in commands.rs therefore never applies, and the model has no such exit.

## Findings

| source | as written | input that shows it | evidently intended | confidence | as-written member | corrected member |
|---|---|---|---|---|---|---|
| src-tauri/src/commands.rs:55-57 | The `?` on `copy_with_fallback` returns "Failed to copy text: …" before any restore, so the capture's failures, including "No text selected", leave on the clipboard whatever the synthetic copy put there. | The clipboard holds "hi". The user selects a single space. Both chords are delivered, and the application copies " " each time. Neither attempt is new, and "hi" is too short for the fallback. The run fails with the clipboard left holding " " instead of "hi". | Every exit after the snapshot restores the clipboard, as the trim-empty branch (lines 66-70) and the translation-error branch (lines 81-87) already do. | not executed | Commands.WhitespaceSelectionOverwritesClipboard | Commands.RestoringTransactionRestores |
