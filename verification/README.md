# UtterType AI — a Dafny model of its core

UtterType AI is a push-to-talk dictation tool. Holding a hotkey starts
recording from the microphone. Releasing it stops the recording and sends the
audio to a speech-to-text service. The returned text is shown in a console
table and typed into the focused window. The settings come from environment
variables, but the loaded `UTTERTYPE_VAD_ENABLED` setting never decides
whether voice activity detection is used: `get_summary` only reports it
(config.py:321) and `to_env_file` only writes it out (config.py:362).
`main.py` asks about voice activity detection in a yes/no dialog and hands the
answer to `WhisperAPITranscriber.create` (main.py:75-78). That factory drops
its arguments (transcriber.py:157-161), so every transcriber is built with the
default `use_vad=True` (transcriber.py:29) and the answer has no effect.

This project models five parts of that program and proves properties of each:

- **Hold-to-talk key handling** (`key_listener.dfy`).
  - `HoldGlobeKey` is the macOS globe-key toggle.
  - `HoldHotKey` is the chord-based hold detector, built over pynput's `HotKey`.
  - `create_keylistener` chooses between the two.
  - The press and release handlers are the pure steps `KeyListener.GlobeStep` (`HoldGlobeKey`) and `KeyListener.ChordStep` (`HoldHotKey`). The classes run them on their fields.
  - Fired callbacks are recorded as a log of `Activate`/`Deactivate` signals.
  - The proofs show that this log strictly alternates. The proofs also show that activations match deactivations once the hold ends.
- **The recording buffer of `AudioTranscriber`** (`transcriber.dfy`).
  - Starting a recording, the capture loop, stopping and finalising, and the payload handed to the WAV writer.
  - The post-processing of the service's answer: the prompt is removed, the text is stripped, and a failure gives `""`.
  - What `_finish_transcription` queues is the function `Transcriber.FinalTranscription`.
  - In this sequential model `is_processing` is never set between calls, so the guard in `stop_recording` never skips a call. Two stops in a row therefore end with an empty queue: the second drains the item the first queued (`Transcriber.StopTwice`). This relies on the model's put being immediate: in the program the put is scheduled on the event loop with `call_soon_threadsafe` (transcriber.py:104), so whether the second drain (transcriber.py:82) sees it is a race. The key handlers never issue two stops in a row anyway, since their callbacks alternate (`KeyListener.GlobeRunAlternates`, `KeyListener.ChordRunInv`).
  - The speech-to-text service is a function parameter.
- **`transcription_concat`** (`utils.dfy`), modelled by `Utils.TranscriptionConcat`. Each transcription is stripped, and the results are joined with single spaces.
- **Configuration** (`config.dfy`, `numerals.dfy`).
  - Loading `UtterTypeConfig` from an environment map, in Python's evaluation order. The field reads of `from_env` are the function `Config.LoadSettings`.
  - Python's `int()` on strings (`Numerals.ParseInt`), with the whitespace `int` itself skips. That set is narrower than `str.strip`'s.
  - The `validate` rule table: hard errors versus warnings.
  - The hotkey-format heuristic, the logging summary, and the cached `get_config`/`reset_config`.
- **Display rows of `ConsoleTable`** (`table_interface.dfy`). Truncation to `max_display_text_length` plus `"..."`, and appending one row per `insert`.

Supporting modules:

- `wrappers.dfy`: `Option`/`Result`/`Outcome`.
- `env.dfy`: `os.getenv`.
- `text.dfy`: Python's `str.strip`, `lower`, `upper`, `startswith`, `in` and `replace(p, "")`. `strip` uses Python's full whitespace set. Case mapping is ASCII-only.

Modelling choices:

- **Callbacks.** They are appended to a `log` field. `Activate` is the user's `on_activate` (`start_recording`). `Deactivate` is `on_deactivate` (`stop_recording`).
- **pynput's `HotKey` base class.** It is not part of this repository. The model assumes it behaves as follows:
  - a press of a chord key not yet pressed adds the key to `_state`;
  - when `_state` then equals the chord, the press fires activate;
  - a release removes the key from `_state`.
- **Threads, the stop `Event` and the asyncio queue.** These become sequential method calls on one object. The queue is a `seq` field, and "put" appends to it.
- **Exceptions.** `ConfigurationError` becomes a `ConfigError` value in a `Result`. A failed service call (an exception inside `transcribe_audio`) is the service function returning `None`.
- **Warnings.** Their messages become `Warning` values that carry the values the message shows.
- **Floats.** Temperatures, the debounce time, the refresh delay and costs are `real`. Turning a string into a float is a parameter `parseFloat`.
- **Two different default hotkeys.** The `UtterTypeConfig` default record hotkey is `<ctrl>+<alt>+q` (config.py:46). `create_keylistener` instead reads the variable itself and falls back to `<ctrl>+<alt>+v` (key_listener.py:59). Both are modelled as written: `Config.DefaultSettings` and `KeyListener.FALLBACK_HOTKEY`.

## Model

| member | source | states |
|---|---|---|
| Env.GetEnvSetWins | key_listener.py:51 | a set variable gives its own value even when that value is empty, and the default then makes no difference |
| Env.GetEnvUnset | key_listener.py:51 | an unset variable gives the default, whatever else is set |
| Text.Strip | transcriber.py:175 | the result has no whitespace at either end, is no longer than the input, and is empty exactly when the input is all whitespace |
| Text.StripIsSlice | utils.py:43 | what strip keeps is one contiguous slice of the input, and all it drops on either side is whitespace |
| Text.StripIdempotent | utils.py:43 | stripping twice is stripping once |
| Text.StripPadded | transcriber.py:175 | whitespace padding around a string with no whitespace at its ends is exactly what strip removes |
| Text.LowerSpec | config.py:189 | a lower-cased string has no ASCII capital left, and only ASCII capitals were changed |
| Text.LowerIdempotent | config.py:189 | a lower-cased string is unchanged by lower-casing again |
| Text.LowerOfUpper | config.py:303 | lower-casing forgets an earlier upper-casing, so the checks on lowered text ignore letter case |
| Text.UpperIdempotent | config.py:122 | upper-casing twice is upper-casing once |
| Text.ContainsIff | config.py:304 | the `in` test on strings holds exactly when the pattern occurs at some offset |
| Text.RemoveAll | transcriber.py:175 | removing every occurrence never lengthens the text, leaves it unchanged when there is nothing to remove, and otherwise shortens it by at least the pattern's length |
| Text.RemoveAllAfter | transcriber.py:175 | the scan runs from the left: text before the first occurrence is kept as it is, that occurrence is dropped, and removal goes on in what follows |
| Numerals.TrimInt | config.py:148 | what `int` trims has none of its whitespace at either end, is no longer than the input, and is empty exactly when the input is all such whitespace |
| Numerals.ParseInt | config.py:148 | a string that is all whitespace, as `int` counts it, is never a number |
| Numerals.ParseIntRoundTrip | config.py:148 | parsing the decimal spelling of any integer gives that integer back |
| Numerals.ParseIntIgnoresPadding | config.py:176 | whitespace `int` skips, around a string that has none at its ends, the empty string included, does not change what it parses to |
| Numerals.ParsePaddedInt | config.py:148 | the spelling of any integer, with whitespace around it, parses back to that integer, and the empty string does not parse |
| Numerals.ParseIntRejectsSeparators | config.py:148 | a value starting with one of U+001C to U+001F does not parse, though `strip` counts that character as whitespace |
| Numerals.ParseIntNeedsDigit | config.py:148-152 | a value without any ASCII digit is rejected |
| KeyListener.AlternatingCounts | key_listener.py:39-43 | in an alternating log, activations exceed deactivations by one exactly when the log has odd length, and equal them otherwise |
| KeyListener.GlobeRunAlternates | key_listener.py:33-47 | from `held = False`, any mix of presses and releases fires exactly one callback per globe event; the callbacks alternate starting with activate; `held` holds exactly when activations exceed deactivations by one |
| KeyListener.HoldGlobeKey.constructor | key_listener.py:32-35 | a new toggle is not held and has fired nothing |
| KeyListener.HoldGlobeKey.Press | key_listener.py:37-43 | a key other than `vk == 63` changes nothing; the globe key fires deactivate if held and activate if not, then flips `held`; alternation is kept |
| KeyListener.HoldGlobeKey.Release | key_listener.py:45-47 | a release has exactly the effect of a press |
| KeyListener.ChordStepPreserves | key_listener.py:10-24 | every press or release keeps the detector's invariant: the pressed set stays within the chord, an active hold has the whole chord down, callbacks alternate, and the hold is active exactly after an activate |
| KeyListener.ChordRunInv | key_listener.py:6-24 | any sequence of events from the idle detector reaches a state satisfying that invariant |
| KeyListener.ChordBalanced | key_listener.py:21-24 | once the chord is no longer fully pressed, every activation has been matched by exactly one deactivation |
| KeyListener.AnyChordKeyReleaseEndsHold | key_listener.py:21-24 | releasing any chord key during an active hold fires deactivate once and clears `active` |
| KeyListener.ReleasesAloneAreSilent | key_listener.py:14-16 | after a deactivation, releases alone fire nothing and never reactivate the hold |
| KeyListener.HoldHotKey.constructor | key_listener.py:7-19 | a new detector has nothing pressed, is inactive and has fired nothing |
| KeyListener.HoldHotKey.Press | key_listener.py:10-12 | a chord key joins the pressed set; the press that completes the chord sets `active` and fires activate; the invariant is kept |
| KeyListener.HoldHotKey.Release | key_listener.py:21-24 | the key leaves the pressed set; deactivate fires exactly when the hold was active and the set now differs from the chord, and then `active` is cleared; the invariant is kept |
| KeyListener.CreateKeyListener | key_listener.py:50-65 | the globe toggle is chosen exactly on darwin with the setting unset, empty or `<globe>`; otherwise a chord detector for the setting, or for `<ctrl>+<alt>+v` when it is unset or empty, never for an empty string |
| KeyListener.ChordListenerOffMac | key_listener.py:53-59 | off macOS the listener is always a chord detector |
| Transcriber.ChunkSize | transcriber.py:20-22 | a frame is 480 samples, exactly 30 ms at 16 kHz, with no remainder |
| Transcriber.ConcatAppend | transcriber.py:96 | joining frames distributes over concatenation, so later frames come later in the payload |
| Transcriber.ConcatSize | transcriber.py:96 | the payload of `n` frames of equal size `k` bytes has `n * k` bytes |
| Transcriber.TranscribeResponse | transcriber.py:163-179 | the result never has whitespace at either end and is never longer than the response; a failed call gives the empty string |
| Transcriber.ResponseWithoutPrompt | transcriber.py:175 | a response that does not contain the prompt is only stripped |
| Transcriber.ResponseAroundPrompt | transcriber.py:175 | a response with the prompt echoed once inside it gives the text on both sides of the prompt, joined and stripped |
| Transcriber.ResponseOnlyPrompt | transcriber.py:175 | a response that is only the prompt, padded with any whitespace, gives the empty string |
| Transcriber.FinalTranscriptionSpec | transcriber.py:88-107 | exactly one item is enqueued iff frames were captured and post-processing left non-empty text; that item is the text itself, already stripped, with the duration |
| Transcriber.FailedTranscriptionEnqueuesNothing | transcriber.py:103 | a failed service call, or a recording without frames, enqueues nothing |
| Transcriber.AudioTranscriber.constructor | transcriber.py:29-44 | a new transcriber is stopped and not processing, with empty buffers, zero duration and an empty queue |
| Transcriber.AudioTranscriber.StartRecording | transcriber.py:46-61 | starting clears the processing flag and the stop flag and empties the buffers, leaving the queue alone |
| Transcriber.AudioTranscriber.RecordStep | transcriber.py:63-74 | a step records only while not stopped; it appends exactly the frame read and adds 30 ms, so duration stays 30 ms per frame and `frames` equals `all_frames` |
| Transcriber.AudioTranscriber.Record | transcriber.py:63-74 | the capture loop appends every frame read, in order, unless already stopped |
| Transcriber.AudioTranscriber.FinishTranscription | transcriber.py:78-107 | the queue is emptied, then holds just the final transcription of the whole recording, if there is one |
| Transcriber.AudioTranscriber.StopRecording | transcriber.py:109-121 | a no-op while processing; otherwise every buffer ends empty, the duration zero, the flags reset, and the queue holds at most one item, with duration 30 ms per frame captured |
| Transcriber.StopTwice | transcriber.py:109-121 | a second stop straight after a first is not skipped, and leaves the queue and the recording empty |
| Transcriber.AudioTranscriber.FramesToWav | transcriber.py:123-133 | the payload written is the whole recording in capture order |
| Utils.JoinLength | utils.py:43 | a space-join of one or more parts is as long as the parts plus one space between each pair |
| Utils.ConcatEmpty | utils.py:43 | no transcriptions give the empty string |
| Utils.ConcatSingle | utils.py:43 | a single transcription comes back stripped |
| Utils.ConcatSnoc | utils.py:43 | appending a transcription appends one space and its stripped text |
| Utils.ConcatLength | utils.py:43 | for `n >= 1` items the length is the total stripped length plus `n - 1` |
| Utils.ConcatAt | utils.py:43 | every stripped transcription appears whole at its offset |
| Utils.ConcatGap | utils.py:43 | each transcription but the last is followed by exactly one space and then by the next, so order is kept |
| Config.ParseIntVarCases | config.py:140-152 | an unset variable gives the default; a set but empty one is an error naming the variable, not the default; a number with whitespace around it gives that number |
| Config.ParseOptionalIntVarCases | config.py:168-180 | an unset variable gives no value; a set but empty one is an error naming the variable; a number with whitespace around it gives that number |
| Config.ParseFloatVarCases | config.py:154-166 | an unset variable gives the default; a set one is read by the float parser alone, whatever the default; a value the parser rejects is an error naming the variable and the raw value |
| Config.BoolWord | config.py:190-193 | true exactly for the five true words, false exactly for the five false words |
| Config.ParseOptionalBoolVar | config.py:183-187 | an unset variable gives no value |
| Config.ParseOptionalBoolSpec | config.py:182-198 | a set variable reads true exactly for the true words and false exactly for the false words, after lower-casing; any other value is an error that shows the lower-cased value |
| Config.ParseOptionalBoolCaseInsensitive | config.py:189 | upper-casing the value does not change how it reads |
| Config.LoadMissingKey | config.py:89-94 | loading fails with the missing-key error exactly when `OPENAI_API_KEY` is unset or empty |
| Config.LoadDefaults | config.py:97-129 | with only the key set, every field takes its dataclass default and the optional ones are unset |
| Config.LoadedFields | config.py:97-129 | a successful load took the key from its variable, every other string from its variable or default, upper-cased the log level, and took each integer, float and boolean from its variable as parsed, or from the default |
| Config.BadIntegerFails | config.py:141-152 | a set integer variable that does not parse makes loading fail, whatever else is set |
| Config.LoadedLogLevelIsUpper | config.py:122 | the loaded log level is upper case |
| Config.ValidationError | config.py:216-254 | when no hard error is reported, the URL scheme, log level, temperature ranges and positivity rules all hold |
| Config.ValidationErrorIff | config.py:216-254 | a hard error is reported exactly when one of those rules fails |
| Config.KeyWarnings | config.py:210-214 | at most the single key-format warning |
| Config.KeyWarningIff | config.py:211 | the key warning fires exactly when the key does not start with `sk-`; the `sk-proj-` alternative adds nothing |
| Config.HotkeyWarning | config.py:262-266 | a hotkey gets a warning exactly when its format check fails |
| Config.PerformanceWarnings | config.py:268-277 | the high-temperature warning fires exactly above 1.0, the high-tokens warning exactly above 2000, and nothing else is recorded here |
| Config.WarningsSpec | config.py:208-277 | a passing validation leaves at most six warnings, each present exactly when its rule fires |
| Config.IsValidHotkeyFormat | config.py:287-291 | the empty string never passes |
| Config.HotkeyFormatSimplified | config.py:293-304 | passing means non-empty and, lower-cased, containing `<ctrl>+`, `<alt>+`, `<shift>+` or one of `f1`-`f9`, or starting with `f`; the longer patterns add nothing |
| Config.DefaultHotkeysValid | config.py:46-48 | the three default hotkeys pass the format check |
| Config.DefaultsValidate | config.py:39-66 | the dataclass defaults raise no validation error and leave at most the key warning |
| Config.UtterTypeConfig.constructor | config.py:68-70 | a new configuration is not validated and has no warnings |
| Config.UtterTypeConfig.Validate | config.py:200-284 | on a hard error, that error is raised, the warnings are just the key warning, and the flag is untouched; otherwise the warnings are all that fire, in order, and the flag is set; the result never depends on an earlier call |
| Config.UtterTypeConfig.AppendHotkeyWarnings | config.py:256-266 | the loop appends one warning per failing hotkey, in the order record, ai, email |
| Config.UtterTypeConfig.AppendPerformanceWarnings | config.py:268-277 | appends the performance warnings that fire |
| Config.UtterTypeConfig.GetSummary | config.py:306-325 | the summary reports whether a key is set, the warning count and the validated flag |
| Config.SummaryHidesKey | config.py:306-325 | two configurations differing only in their non-empty keys give identical summaries, so the summary is safe to log |
| Config.FromEnvMissingKey | config.py:89-94 | a missing or empty key fails `from_env`, validating or not |
| Config.FromEnvDefaults | config.py:72-138 | with only the key set, `from_env` succeeds with the defaults, validating or not |
| Config.FromEnvWithoutValidation | config.py:131-132 | without validation, `from_env` fails only where loading does |
| Config.FromEnv | config.py:72-138 | the result fails exactly as loading, and then validation when asked, would; on success a fresh configuration holds the loaded settings, is validated exactly when asked, and has the warnings of that validation |
| Config.ConfigCache.constructor | config.py:378 | the cache starts empty |
| Config.ConfigCache.GetConfig | config.py:381-403 | a cached instance is returned unless a reload is asked for; otherwise a fresh validated load, which is cached only on success, and on failure the error is raised and the cache left as it was |
| Config.ConfigCache.ResetConfig | config.py:424-427 | the cache is cleared |
| TableInterface.PrefixSlice | table_interface.py:75 | a prefix of the text whose length follows Python's slice rules, including a negative limit |
| TableInterface.DisplayText | table_interface.py:73-78 | with a non-negative limit the shown text is at most three characters over the limit |
| TableInterface.ShortTextUnchanged | table_interface.py:77-78 | a transcription within the limit is shown unchanged |
| TableInterface.LongTextTruncated | table_interface.py:74-75 | a longer transcription shows its first `limit` characters and then `...` |
| TableInterface.DisplayIsPrefix | table_interface.py:73-78 | for any limit, the shown text is the transcription, or a prefix of it followed by `...` |
| TableInterface.ConsoleTable.constructor | table_interface.py:14-22 | a new table has no rows and a zero total |
| TableInterface.ConsoleTable.Insert | table_interface.py:69-81 | exactly one row is appended after the unchanged earlier rows, and the cost is added to the total; the total stays the sum of the rows' costs and every shown text stays within the limit plus three |

## Left out

- Audio hardware: the `pyaudio` stream, device selection and `list_audio_devices.py`. A frame is a byte sequence handed to `RecordStep` and `Record`.
- WAV container encoding: only the PCM payload given to `writeframes` is modelled.
- The OpenAI client calls. The speech-to-text service is a function parameter. `WhisperAPITranscriber.create`/`__init__` only build the client.
- The non-`str` return branch of `transcribe_audio` (transcriber.py:176). The service is modelled as returning text.
- Threads, the stop `Event`, `call_soon_threadsafe` and the async generator `get_transcriptions`. Calls are sequential. The capture thread is therefore assumed to stop before `stop_recording` finalises.
- Transcriber.AudioTranscriber.Record: in non-VAD mode `frames` and `all_frames` are one shared list in the source. The model keeps them as two equal values, so the aliasing itself is not modelled.
- The module constant `MIN_TRANSCRIPTION_SIZE_MS` (transcriber.py:23-25), which nothing reads; the VAD detector, which is built but never consulted; and the rolling lists, which are only ever reset.
- Timestamps (`start_time`, `datetime.now()`) and date formatting. The formatted date is a parameter of `Insert`.
- pynput's `HotKey.parse`, `GlobalHotKeys` and listener wiring. A chord is given as a set of keys.
- Numerals.ParseInt: ASCII digits only. Python's `int` also accepts other Unicode decimal digits. The model also has no length limit, but since Python 3.11 `int()` raises `ValueError` for a string of more than 4300 digits. So `Numerals.ParseIntRoundTrip` and `Numerals.ParsePaddedInt` hold in Python only for integers of at most 4300 digits.
- Text.Lower, Text.Upper: ASCII letters only. Python's full Unicode case mapping is not modelled.
- Config.ParseOptionalBoolCaseInsensitive, Text.LowerOfUpper: these hold in Python only for ASCII values. Python upper-cases some non-ASCII letters to ASCII ones, for example U+017F to `S` and U+0131 to `I`. So `"yeſ".upper()` reads as true although `"yeſ"` is an error.
- Config.ParseFloatVar: the syntax Python's `float` accepts is a parameter, not modelled.
- Config.ParseFloatVar, Config.ValidationError: floats are exact reals, so NaN and the infinities are not modelled. In Python, `float("nan")` as the debounce time passes the `< 0` check at config.py:251, since every comparison with NaN is false. A NaN temperature fails the range check at config.py:230-237 rather than parsing. Both cases are outside the model. What `Config.ValidationErrorIff` proves after a clean validation, such as a non-negative debounce time, holds only for finite values.
- Config.ConfigCache.GetConfig: the rewrap of unexpected exceptions into `ConfigurationError` (config.py:399-401) has no counterpart, since nothing else can fail in the model.
- Logging of every kind, `.env` loading, `to_env_file` and `validate_environment`.
- TableInterface.ConsoleTable.Insert: costs add as exact reals. The float rounding of the footer and the `$` formatting of the cost cell are not modelled. The `rich` rendering is left out.
- `main.py`, `validate_config.py`, `logging_config.py`, and the clipboard and typing helpers in `utils.py`.
