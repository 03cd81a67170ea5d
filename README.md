# MoFA text-to-speech and voice cloning, modelled in Dafny

This project models the text-to-speech core of the MoFA Studio applications:

- **mofa-tts `dora_integration`**. The UI talks to a background worker over two bounded
  queues. The worker owns the Dora dataflow dispatcher. It starts and stops the
  dataflow and sends prompts to the TTS bridge with up to twenty retries. Every two
  seconds, once a ten-second grace period has passed, it checks whether the dataflow
  is still running.
- **mofa-tts screen**. The application screen handles:
  - lazy creation of the supervisor;
  - `generate_speech` and the `VOICE:<id>|<text>` prompt;
  - storing audio chunks from the timer poll;
  - the playback status machine and the log panel;
  - the 44-byte WAV file written by `write_wav_file`.
- **mofa-tts voice selector**. The voice list: it loads once, selects the first voice,
  and a click on an item selects that item.
- **mofa-tts and mofa-primespeech `voice_data`**. The built-in voice catalogues, the
  voice categories and the default `TTSStatus`.
- **mofa-primespeech voice clone modal**. The clone form and its checks: name, text, a
  validated file of 3 to 10 seconds. Then:
  - the cloning status progression through copy and save;
  - microphone recording: its duration limits, the ten-second trim and the hand-over of
    the processed WAV;
  - the mapping of the ASR script's output to a recording status, in `transcribe_audio`, which
    nothing in the application reaches (see "## Left out").
- **mofa-friend voice clone modal**. The same form with lighter checks. A successful
  save closes the modal.
- **`transcribe_audio.py`**. The ASR helper script: FunASR for Chinese, Whisper for
  English, and automatic detection with a FunASR re-run for Chinese. It also models the
  error dictionary built when every engine fails, and the script's exit codes.

State that the source updates in place is modelled as Dafny classes:
- the supervisor and its worker;
- the screen;
- the voice selector;
- both modals.

Each class's methods are proved against pure specification functions. Examples are
`ApplyCommand`, `ApplyAll` and `HealthCheck` for the worker, `CloneProgression` and
`FormError` for the modals, and `WavHeader` and `DataBytes` for the WAV file. Lemmas
state the properties of those functions. Foreign calls are parameters of the methods
that make them, so their outcomes are arbitrary inputs. These include:
- the Dora controller, the bridges and the status query;
- `voice_persistence`, the file dialog and the audio devices;
- the ASR engines and the subprocess;
- the clock.

## Model

| member | source | states |
|---|---|---|
| TtsVoiceData.DefaultStatus | apps/mofa-tts/src/voice_data.rs:140-144 | the default TTS status is Idle |
| TtsVoiceData.AsStrInjective | apps/mofa-tts/src/voice_data.rs:28-37 | distinct voice categories have distinct display names |
| TtsVoiceData.BuiltinVoices | apps/mofa-tts/src/voice_data.rs:39-128 | the catalogue holds twelve voices and the first is zm_yunjian; the voices carry no language field |
| TtsVoiceData.VoiceCategory.AsStr | apps/mofa-tts/src/voice_data.rs:29-35 | the display name is one of Male, Female, Character; AsStrInjective shows it tells categories apart |
| TtsVoiceData.BuiltinIdsDistinct | apps/mofa-tts/src/voice_data.rs:39-128 | no two built-in voices share an id and none has a preview file |
| PrimeSpeechVoiceData.DefaultStatus | apps/mofa-primespeech/src/voice_data.rs:179-183 | the default TTS status is Idle |
| PrimeSpeechVoiceData.AsStrInjective | apps/mofa-primespeech/src/voice_data.rs:30-40 | distinct voice categories have distinct display names |
| PrimeSpeechVoiceData.VoiceCategory.AsStr | apps/mofa-primespeech/src/voice_data.rs:31-37 | the display name is one of Male, Female, Character |
| PrimeSpeechVoiceData.BuiltinVoices | apps/mofa-primespeech/src/voice_data.rs:42-167 | fifteen built-in voices with their ids, names and languages |
| PrimeSpeechVoiceData.BuiltinLanguages | apps/mofa-primespeech/src/voice_data.rs:42-167 | the first ten voices are Chinese and the last five English |
| PrimeSpeechVoiceData.BuiltinIdsDistinct | apps/mofa-primespeech/src/voice_data.rs:42-167 | no two built-in voices share an id |
| TtsVoiceSelector.FindById | apps/mofa-tts/src/voice_selector.rs:402-410 | a voice is found exactly when one has the id, and the one found is the first with that id |
| TtsVoiceSelector.FindByIdOfDistinct | apps/mofa-tts/src/voice_selector.rs:402-410 | with distinct ids, looking up item i's id gives item i |
| TtsVoiceSelector.VoiceSelector.EnsureInitialized | apps/mofa-tts/src/voice_selector.rs:297-304 | the first call loads the built-in voices and selects the first; later calls change nothing |
| TtsVoiceSelector.VoiceSelector.HandleItemClick | apps/mofa-tts/src/voice_selector.rs:314-331 | a click on an existing item selects that voice and emits VoiceSelected with its id; other clicks emit nothing |
| TtsVoiceSelector.VoiceSelector.IsDrawnSelected | apps/mofa-tts/src/voice_selector.rs:363 | an item is highlighted exactly when its id is the selected id |
| TtsVoiceSelector.VoiceSelector.SelectedVoice | apps/mofa-tts/src/voice_selector.rs:402-410 | the selected voice is a loaded voice with the selected id, and none without a selection |
| TtsVoiceSelector.VoiceSelector.SelectedVoiceId | apps/mofa-tts/src/voice_selector.rs:412-415 | in a valid selector the id is present exactly when a voice is selected, and it is that voice's id |
| TtsVoiceSelector.VoiceSelector.ClickedItemIsSelected | apps/mofa-tts/src/voice_selector.rs:314-331 | after a click on item i, item i is the selected voice and the only item drawn highlighted |
| TtsDoraIntegration.RetryResultSpec | apps/mofa-tts/src/dora_integration.rs:221-238 | the retried send succeeds exactly when one of the twenty attempts succeeds, and otherwise reports the twentieth attempt's error |
| TtsDoraIntegration.RetryResult | apps/mofa-tts/src/dora_integration.rs:221-238 | the closure's result is a success exactly when some attempt 1..20 succeeds, and otherwise the twentieth attempt's error |
| TtsDoraIntegration.SendWithRetry | apps/mofa-tts/src/dora_integration.rs:221-238 | the loop stops at the first success or after twenty attempts, and every attempt before the last failed |
| TtsDoraIntegration.PromptBridge | apps/mofa-tts/src/dora_integration.rs:240-243 | the TTS bridge is preferred, then the generic bridge; none when neither exists |
| TtsDoraIntegration.ApplyCommand | apps/mofa-tts/src/dora_integration.rs:160-258 | one command appends exactly its own events, leaves the check time alone, and only a prompt adds a delivery, at most one |
| TtsDoraIntegration.StartEffect | apps/mofa-tts/src/dora_integration.rs:162-206 | a successful start sets the flag and the start time, holds the new dispatcher and emits DataflowStarted; a failed one emits one error and changes nothing else |
| TtsDoraIntegration.StopEffect | apps/mofa-tts/src/dora_integration.rs:207-217 | a stop calls stop on the held dispatcher, clears the dispatcher, the flag and the start time, and emits DataflowStopped |
| TtsDoraIntegration.SendPromptEffect | apps/mofa-tts/src/dora_integration.rs:219-256 | a prompt emits nothing and is delivered once to the preferred bridge exactly when a bridge exists and an attempt succeeds |
| TtsDoraIntegration.ApplyCommandKeepsInv | apps/mofa-tts/src/dora_integration.rs:160-258 | every command keeps the worker invariant: the flag is set exactly when a start time is recorded, and only while a dispatcher is held |
| TtsDoraIntegration.ApplyAllEvents | apps/mofa-tts/src/dora_integration.rs:160-258 | draining commands emits exactly their events, in command order |
| TtsDoraIntegration.DrainEventCount | apps/mofa-tts/src/dora_integration.rs:160-258 | each start or stop emits exactly one event and each prompt none |
| TtsDoraIntegration.LifecycleCountSnoc | apps/mofa-tts/src/dora_integration.rs:160-258 | one more command adds one lifecycle event unless it is a prompt |
| TtsDoraIntegration.ApplyAllKeepsInv | apps/mofa-tts/src/dora_integration.rs:160-258 | draining any commands keeps the worker invariant |
| TtsDoraIntegration.LastLifecycleCommandDecides | apps/mofa-tts/src/dora_integration.rs:160-217 | the last stop or successful start of a drain decides the running flag |
| TtsDoraIntegration.HealthCheck | apps/mofa-tts/src/dora_integration.rs:262-288 | the check keeps the dispatcher, its stop calls and deliveries, never sets the flag, and emits nothing or one DataflowStopped when it clears the flag |
| TtsDoraIntegration.Shutdown | apps/mofa-tts/src/dora_integration.rs:293-297 | leaving the loop drops the dispatcher, adding one stop call for the dispatcher it held if any, and keeps the flag, the events and the deliveries |
| TtsDoraIntegration.HealthCheckGate | apps/mofa-tts/src/dora_integration.rs:262-267 | the status check runs only after the ten-second grace period and two seconds after the previous check |
| TtsDoraIntegration.HealthCheckEffect | apps/mofa-tts/src/dora_integration.rs:262-288 | the check clears the flag and emits DataflowStopped exactly when the flag was set and the status says not running; it never drops the dispatcher |
| TtsDoraIntegration.HealthCheckKeepsInv | apps/mofa-tts/src/dora_integration.rs:262-288 | the status check keeps the worker invariant |
| TtsDoraIntegration.DispatcherOutlivesUnexpectedStop | apps/mofa-tts/src/dora_integration.rs:276-281 | after the check sees the dataflow die, the flag is clear while the dead dispatcher is still held |
| TtsDoraIntegration.RestartOrphansDispatcher | apps/mofa-tts/src/dora_integration.rs:162-206 | a second successful start replaces the held dispatcher without stopping it |
| TtsDoraIntegration.StartSendStopScenario | apps/mofa-tts/src/dora_integration.rs:160-258 | start, an undeliverable prompt and stop emit Started then Stopped, deliver nothing and stop the dispatcher once |
| TtsDoraIntegration.DoraIntegration.constructor | apps/mofa-tts/src/dora_integration.rs:59-91 | empty queues, flag clear, worker at its initial state |
| TtsDoraIntegration.DoraIntegration.SendCommand | apps/mofa-tts/src/dora_integration.rs:98-100 | a command is queued exactly when fewer than 100 are waiting, and otherwise dropped |
| TtsDoraIntegration.DoraIntegration.StartDataflowAt | apps/mofa-tts/src/dora_integration.rs:103-108 | queues a start with an empty environment under the same capacity rule |
| TtsDoraIntegration.DoraIntegration.RequestStop | apps/mofa-tts/src/dora_integration.rs:111-113 | queues a stop under the same capacity rule |
| TtsDoraIntegration.DoraIntegration.SendPromptText | apps/mofa-tts/src/dora_integration.rs:116-120 | queues a prompt under the same capacity rule |
| TtsDoraIntegration.DoraIntegration.PollEvents | apps/mofa-tts/src/dora_integration.rs:123-129 | returns every queued event, oldest first, and empties the queue |
| TtsDoraIntegration.DoraIntegration.IsRunning | apps/mofa-tts/src/dora_integration.rs:132-134 | while the worker runs, the flag is set exactly when a start time is recorded, and only while a dispatcher is held |
| TtsDoraIntegration.DoraIntegration.ProcessCommand | apps/mofa-tts/src/dora_integration.rs:161-257 | the worker state after one command is ApplyCommand of the old state |
| TtsDoraIntegration.DoraIntegration.DrainCommands | apps/mofa-tts/src/dora_integration.rs:160-258 | every queued command is processed in order and the queue ends empty |
| TtsDoraIntegration.DoraIntegration.CheckStatus | apps/mofa-tts/src/dora_integration.rs:262-288 | the worker state after the check is HealthCheck of the old state |
| TtsDoraIntegration.DoraIntegration.ExitWorker | apps/mofa-tts/src/dora_integration.rs:293-297 | leaving the loop stops the dispatcher still held and ends the worker |
| TtsDoraIntegration.DoraIntegration.RunIteration | apps/mofa-tts/src/dora_integration.rs:153-291 | the stop signal ends the worker with the queued commands unprocessed; otherwise all commands are drained, then the health check runs |
| TtsDoraIntegration.DoraIntegration.Close | apps/mofa-tts/src/dora_integration.rs:301-310 | drop sends the stop signal and the worker's exit stops the held dispatcher |
| TtsScreen.StatusText | apps/mofa-tts/src/screen.rs:1143-1152 | the status label: four fixed texts, and an error's own message |
| TtsScreen.StatusTextDistinct | apps/mofa-tts/src/screen.rs:1143-1152 | the four fixed labels tell their statuses apart |
| TtsScreen.VoiceDisplayName | apps/mofa-tts/src/screen.rs:1104-1115 | every voice id has a display name |
| TtsScreen.NamedVoicesDistinct | apps/mofa-tts/src/screen.rs:1104-1115 | the six named ids get six different names, each different from its id; any other id is shown as itself |
| TtsScreen.DefaultVoiceNamed | apps/mofa-tts/src/screen.rs:1104-1115 | the default voice zm_yunjian is shown by its display name |
| TtsScreen.PromptForLayout | apps/mofa-tts/src/screen.rs:1408 | the prompt is VOICE:, the voice id, a bar and the text, at those positions; ParsePrompt inverts it |
| TtsScreen.ParsePrompt | apps/mofa-tts/src/screen.rs:1408 | a prompt splits at the first bar after the VOICE: prefix |
| TtsScreen.PromptRoundTrip | apps/mofa-tts/src/screen.rs:1408 | a voice id without a bar and the full text are both recovered from the prompt |
| TtsScreen.BuiltinIdsFitPrompt | apps/mofa-tts/src/screen.rs:1408 | every built-in voice id survives the prompt format |
| TtsScreen.VoiceIdOrDefault | apps/mofa-tts/src/screen.rs:1387-1397 | the selected voice id, else zm_yunjian |
| TtsScreen.ChunkSamplesAppend | apps/mofa-tts/src/screen.rs:884-911 | storing chunks in two batches gives the same samples as one batch |
| TtsScreen.ChunkSamplesLength | apps/mofa-tts/src/screen.rs:884-911 | the stored sample count is the sum of the chunk lengths |
| TtsScreen.LogDisplayText | apps/mofa-tts/src/screen.rs:1191-1212 | the placeholder when the log is empty, else the entries separated by blank lines |
| TtsScreen.LogDisplayAppend | apps/mofa-tts/src/screen.rs:1191-1212 | a new entry appears at the end of the panel, after a blank line |
| TtsScreen.TtsScreen.constructor | apps/mofa-tts/src/screen.rs:845-878 | fields at their defaults and no supervisor |
| TtsScreen.TtsScreen.InitializeOnEvent | apps/mofa-tts/src/screen.rs:854-877 | the log is set up once with its start-up lines and the supervisor is created on first use; the log panel's state and the playback idle count stay as they were |
| TtsScreen.TtsScreen.AddLog | apps/mofa-tts/src/screen.rs:1099-1102 | appends the entry to the log |
| TtsScreen.TtsScreen.GenerateSpeech | apps/mofa-tts/src/screen.rs:1346-1428 | without a running bridge or with empty text only a warning is logged; then it panics, with nothing changed, exactly when byte 50 of a longer text falls inside a character; otherwise it logs the as-written preview, clears the audio, enters Generating and queues the prompt, or an error status if the queue refuses; the voice name, the log set-up flag, the log panel and the idle count are kept, and so are the supervisor's dataflow state, stop signal and worker-exit flag |
| TtsScreen.TtsScreen.SubmitPrompt | apps/mofa-tts/src/screen.rs:1381-1428 | logs the given preview and the voice, clears stored audio and queues the VOICE prompt for the chosen voice |
| TtsScreen.TtsScreen.TogglePlayback | apps/mofa-tts/src/screen.rs:1430-1450 | pause when playing, else play the stored audio when there is some |
| TtsScreen.TtsScreen.StopPlayback | apps/mofa-tts/src/screen.rs:1452-1467 | the player stops and only a Playing status changes, to Ready |
| TtsScreen.TtsScreen.StoreChunks | apps/mofa-tts/src/screen.rs:884-911 | the stored samples grow by the chunks' samples in order; the last chunk's rate is kept |
| TtsScreen.TtsScreen.PollTick | apps/mofa-tts/src/screen.rs:881-935 | drained audio is stored and turns Generating into Ready; an idle player turns Playing into Ready on the sixth tick; bridge logs are appended |
| TtsScreen.TtsScreen.HandleVoiceSelectorAction | apps/mofa-tts/src/screen.rs:954-982 | a selection updates the shown voice name; selections and preview requests are logged |
| TtsScreen.TtsScreen.ClearLogs | apps/mofa-tts/src/screen.rs:1058-1064 | the log becomes empty |
| TtsScreen.TtsScreen.ToggleLogPanel | apps/mofa-tts/src/screen.rs:1215-1252 | flips the collapsed flag; a width never set becomes 320 |
| TtsScreen.TtsScreen.StartDora | apps/mofa-tts/src/screen.rs:1270-1317 | only with a supervisor whose dataflow is not running: a missing dataflow file is logged, otherwise a start is queued; the supervisor's dataflow state, stop signal and worker-exit flag are unchanged |
| TtsScreen.TtsScreen.StopDora | apps/mofa-tts/src/screen.rs:1319-1344 | with a supervisor, queues a stop between two log lines; the supervisor's dataflow state, stop signal and worker-exit flag are unchanged |
| TtsScreen.TtsScreen.WriteWavFile | apps/mofa-tts/src/screen.rs:1508-1548 | the bytes written are the WAV header for the stored samples and rate, then the samples as 16-bit words |
| TtsWav.LE16 | apps/mofa-tts/src/screen.rs:1527-1534 | two bytes; LE16RoundTrip reads them back |
| TtsWav.LE32 | apps/mofa-tts/src/screen.rs:1522-1538 | four bytes; LE32RoundTrip reads them back |
| TtsWav.LE16RoundTrip | apps/mofa-tts/src/screen.rs:1527-1534 | reading a 16-bit little-endian field gives the value written |
| TtsWav.LE32RoundTrip | apps/mofa-tts/src/screen.rs:1522-1538 | reading a 32-bit little-endian field gives the value written |
| TtsWav.RiffDescriptor | apps/mofa-tts/src/screen.rs:1521-1524 | twelve bytes: RIFF, the file size, WAVE |
| TtsWav.FmtChunk | apps/mofa-tts/src/screen.rs:1526-1534 | twenty-four bytes: the fmt tag and its fields |
| TtsWav.DataChunkHeader | apps/mofa-tts/src/screen.rs:1536-1538 | eight bytes: the data tag and the data size |
| TtsWav.WavHeader | apps/mofa-tts/src/screen.rs:1511-1538 | the header is 44 bytes |
| TtsWav.RiffDescriptorFields | apps/mofa-tts/src/screen.rs:1521-1524 | where the RIFF fields sit |
| TtsWav.FmtChunkFields | apps/mofa-tts/src/screen.rs:1526-1534 | where the fmt fields sit |
| TtsWav.WavHeaderFields | apps/mofa-tts/src/screen.rs:1511-1538 | where every header field sits |
| TtsWav.WavSizesExact | apps/mofa-tts/src/screen.rs:1511-1517 | without wrap-around: byte rate 2r, data size 2n, RIFF size 36 + 2n |
| TtsWav.WavHeaderRoundTrip | apps/mofa-tts/src/screen.rs:1511-1538 | reading the header back gives a mono 16-bit PCM format at the given rate, block align 2 and the size fields |
| TtsWav.ToPcm16 | apps/mofa-tts/src/screen.rs:1541-1544 | the 16-bit sample lies in -32767..32767 and keeps the sign of the input |
| TtsWav.PcmBytes | apps/mofa-tts/src/screen.rs:1544 | two bytes per sample; PcmRoundTrip decodes them |
| TtsWav.DataBytes | apps/mofa-tts/src/screen.rs:1541-1545 | two bytes per sample |
| TtsWav.DataBytesAt | apps/mofa-tts/src/screen.rs:1541-1545 | sample i sits at bytes 2i and 2i+1 |
| TtsWav.PcmRoundTrip | apps/mofa-tts/src/screen.rs:1541-1545 | decoding each two-byte word gives back the 16-bit sample |
| TtsWav.WriteWavFile | apps/mofa-tts/src/screen.rs:1508-1548 | the bytes written, in order: the header, then each sample as a word |
| TtsLogPreview.Utf8Len | apps/mofa-tts/src/screen.rs:1376 | a character takes one to four bytes, one exactly for ASCII |
| TtsLogPreview.ByteLenAppend | apps/mofa-tts/src/screen.rs:1376 | byte length adds over concatenation |
| TtsLogPreview.ByteLenPrefix | apps/mofa-tts/src/screen.rs:1376-1377 | a prefix has no more bytes than the whole and each character adds at least one |
| TtsLogPreview.PrefixAtByte | apps/mofa-tts/src/screen.rs:1377 | the prefix ending exactly at byte k, whose byte length is k |
| TtsLogPreview.PrefixAtByteNoneIff | apps/mofa-tts/src/screen.rs:1377 | the slice fails exactly when no prefix ends at byte k |
| TtsLogPreview.FloorPrefixSpec | apps/mofa-tts/src/screen.rs:1376-1380 | the longest prefix within k bytes: the next character would not fit |
| TtsLogPreview.PrefixAtByteIsFloor | apps/mofa-tts/src/screen.rs:1377 | where the exact cut exists it is the floor cut |
| TtsLogPreview.LogPreviewAsWritten | apps/mofa-tts/src/screen.rs:1376-1380 | text within 50 bytes is kept; longer text is cut after exactly 50 bytes plus ...; it panics exactly when byte 50 is not a character boundary |
| TtsLogPreview.LogPreviewSpec | apps/mofa-tts/src/screen.rs:1376-1380 | the whole text when it fits in 50 bytes, otherwise the longest prefix of at most 50 bytes followed by ... |
| TtsLogPreview.LogPreviewAgrees | apps/mofa-tts/src/screen.rs:1376-1380 | wherever the code as written does not panic it gives the corrected preview |
| TtsLogPreview.AsciiNeverPanics | apps/mofa-tts/src/screen.rs:1376-1380 | on ASCII text the code as written never panics |
| TtsLogPreview.ThreeByteNoBoundary | apps/mofa-tts/src/screen.rs:1377 | in text of three-byte characters only multiples of three are boundaries |
| TtsLogPreview.CjkPreviewPanics | apps/mofa-tts/src/screen.rs:1376-1380 | seventeen CJK characters make the code as written panic; the corrected preview keeps sixteen |
| Text.TrimIsInnerPiece | apps/mofa-friend/src/voice_clone_modal.rs:942-945 | a trimmed string is a contiguous piece of the original that neither starts nor ends with white space, and all that was cut is white space |
| Text.TrimEmptyIff | apps/mofa-friend/src/voice_clone_modal.rs:895 | a string trims to empty exactly when it is all white space |
| Text.TrimIdempotent | apps/mofa-friend/src/voice_clone_modal.rs:942-945 | trimming twice trims nothing more |
| Text.Join | apps/mofa-primespeech/scripts/transcribe_audio.py:192 | joining nothing gives the empty string and one part gives that part |
| Text.JoinSnoc | apps/mofa-primespeech/scripts/transcribe_audio.py:192 | joining one more part appends the separator and that part |
| Text.DecimalStringDigits | apps/mofa-friend/src/voice_clone_modal.rs:732-735 | decimal rendering is digits only, with no leading zero |
| Text.DecimalRoundTrip | apps/mofa-friend/src/voice_clone_modal.rs:732-735 | reading a decimal rendering back gives the number |
| Text.RoundedTenths | apps/mofa-friend/src/voice_clone_modal.rs:732-735 | the number of tenths is within half a tenth of the value |
| Text.Fixed1ReadsBack | apps/mofa-friend/src/voice_clone_modal.rs:732-735 | a one-decimal rendering reads back within 0.05 of the value |
| CloneTypes.FormError | apps/mofa-friend/src/voice_clone_modal.rs:889-915 | the first failing check's message, or none when name and text are not blank and a file is selected |
| CloneTypes.FormErrorOrder | apps/mofa-friend/src/voice_clone_modal.rs:889-915 | a blank name is reported first, then a blank text, and a missing file only when both have text |
| CloneTypes.FileSelectionLogs | apps/mofa-friend/src/voice_clone_modal.rs:719-766 | the validating line first in both cases; then the audio line and exactly one line per warning, in order, or a single error line |
| CloneTypes.WarningLogs | apps/mofa-friend/src/voice_clone_modal.rs:737-739 | one WARN line per warning, in order |
| CloneTypes.FileSelection | apps/mofa-friend/src/voice_clone_modal.rs:741-763 | the file and its information are set together on success and cleared together on failure |
| CloneTypes.EffectiveLanguage | apps/mofa-friend/src/voice_clone_modal.rs:627-630 | zh until a language is chosen, otherwise the choice |
| CloneTypes.NewVoice | apps/mofa-friend/src/voice_clone_modal.rs:940-946 | the new voice carries the id, the trimmed name and text, the language and the copied file |
| CloneTypes.NewVoiceNotBlank | apps/mofa-friend/src/voice_clone_modal.rs:889-946 | a voice created from a form that passed the checks has a name and text that are not blank |
| CloneTypes.WarningLogsSnoc | apps/mofa-friend/src/voice_clone_modal.rs:737-739 | one more warning appends its line |
| CloneTypes.CloneProgression | apps/mofa-friend/src/voice_clone_modal.rs:917-970 | three or four statuses, starting ValidatingAudio, CopyingFiles, ending Completed exactly when the copy and the save succeed |
| CloneTypes.CreationLogs | apps/mofa-friend/src/voice_clone_modal.rs:917-970 | the start, voice id and copy lines, then the copy error, or the copied and saving lines followed by the completion lines or the save error |
| CloneTypes.CloneProgressionSpec | apps/mofa-friend/src/voice_clone_modal.rs:917-972 | a clone completes exactly when the copy and the save succeed; otherwise it ends in the failing step's error; SavingConfig is reached exactly when the copy succeeded |
| PrimeSpeechCloneModal.LangArg | apps/mofa-primespeech/src/voice_clone_modal.rs:1818-1822 | the argument is zh or en when that is the language chosen, otherwise auto |
| PrimeSpeechCloneModal.SaveRejection | apps/mofa-primespeech/src/voice_clone_modal.rs:1226-1286 | a form error is logged alone; a rejection has one or two lines; an unvalidated file is always rejected |
| PrimeSpeechCloneModal.SaveRejectionSpec | apps/mofa-primespeech/src/voice_clone_modal.rs:1226-1286 | a save goes ahead exactly when name and text are not blank and a validated file of 3 to 10 seconds is selected; a form error is the only line logged; a rejection has one or two lines |
| PrimeSpeechCloneModal.TrimToMax | apps/mofa-primespeech/src/voice_clone_modal.rs:1638-1643 | exactly min(length, 160000) samples, the recording's prefix of that length, so the whole recording when it is shorter |
| PrimeSpeechCloneModal.AsrStatus | apps/mofa-primespeech/src/voice_clone_modal.rs:1852-1921 | a spawn failure is Error("ASR unavailable"), a failed exit Error("ASR failed"), unparsable output Error("Parse error"), and JSON with an error and no text that error; Completed and leaving the status alone both need a successful run with parsed JSON |
| PrimeSpeechCloneModal.AsrStatusSpec | apps/mofa-primespeech/src/voice_clone_modal.rs:1852-1921 | Completed exactly for a successful run printing non-blank text; text takes precedence over error; the status stays only for JSON with neither field |
| PrimeSpeechCloneModal.RecordingDuration | apps/mofa-primespeech/src/voice_clone_modal.rs:1567-1570 | seconds since the start; 0 when none started or the clock reads earlier; never negative |
| PrimeSpeechCloneModal.VoiceCloneModal.constructor | apps/mofa-primespeech/src/voice_clone_modal.rs:680-732 | every field at its default |
| PrimeSpeechCloneModal.VoiceCloneModal.AddLog | apps/mofa-primespeech/src/voice_clone_modal.rs:915-930 | appends the message to the log |
| PrimeSpeechCloneModal.VoiceCloneModal.AddLogs | apps/mofa-primespeech/src/voice_clone_modal.rs:915-930 | appends the messages in order |
| PrimeSpeechCloneModal.VoiceCloneModal.ClearLog | apps/mofa-primespeech/src/voice_clone_modal.rs:932-946 | the log becomes empty |
| PrimeSpeechCloneModal.VoiceCloneModal.SelectLanguage | apps/mofa-primespeech/src/voice_clone_modal.rs:855-880 | the chosen language becomes zh or en |
| PrimeSpeechCloneModal.VoiceCloneModal.HandleFileSelected | apps/mofa-primespeech/src/voice_clone_modal.rs:960-1046 | logs the validation lines and sets or clears the file and its information together |
| PrimeSpeechCloneModal.VoiceCloneModal.LogWarnings | apps/mofa-primespeech/src/voice_clone_modal.rs:960-1046 | appends one warning line per warning |
| PrimeSpeechCloneModal.VoiceCloneModal.SaveVoice | apps/mofa-primespeech/src/voice_clone_modal.rs:1213-1353 | a rejected save only logs its errors; otherwise the status follows CloneProgression, the log gains exactly CreationLogs and a success emits the new voice |
| PrimeSpeechCloneModal.VoiceCloneModal.CreateVoice | apps/mofa-primespeech/src/voice_clone_modal.rs:1289-1352 | the statuses follow CloneProgression and the log gains exactly CreationLogs with the three completion lines; a success emits the new voice and keeps the modal open |
| PrimeSpeechCloneModal.VoiceCloneModal.Close | apps/mofa-primespeech/src/voice_clone_modal.rs:1355-1441 | stops recording and preview, clears the form except the language, resets both statuses, hides the modal and emits Closed |
| PrimeSpeechCloneModal.VoiceCloneModal.StartRecording | apps/mofa-primespeech/src/voice_clone_modal.rs:1451-1470 | recording starts at the given time with the status Recording, and the start is logged |
| PrimeSpeechCloneModal.VoiceCloneModal.StopRecording | apps/mofa-primespeech/src/voice_clone_modal.rs:1563-1600 | under three seconds is an error and nothing is processed; otherwise Transcribing, with a warning past ten seconds |
| PrimeSpeechCloneModal.VoiceCloneModal.FinishProcessing | apps/mofa-primespeech/src/voice_clone_modal.rs:1601-1669 | nothing is handed over without audio or when the WAV cannot be written; otherwise the 16 kHz audio cut to ten seconds |
| PrimeSpeechCloneModal.VoiceCloneModal.PickUpRecording | apps/mofa-primespeech/src/voice_clone_modal.rs:739-758 | the language defaults to zh and a finished recording becomes the reference file, with the recording Completed; the name, the prompt text and the recorder's other fields are kept |
| PrimeSpeechCloneModal.VoiceCloneModal.TranscribeAudio | apps/mofa-primespeech/src/voice_clone_modal.rs:1810-1924 | the status becomes AsrStatus of the output; a completed run fills the text; the recording becomes the reference file as AsrKeepsRecording says |
| FriendCloneModal.StricterInPrimeSpeech | apps/mofa-primespeech/src/voice_clone_modal.rs:1226-1286 | every form PrimeSpeech accepts passes the Friend checks, and a form without a validated file shows the converse fails |
| FriendCloneModal.VoiceCloneModal.constructor | apps/mofa-friend/src/voice_clone_modal.rs:593-621 | every field at its default |
| FriendCloneModal.VoiceCloneModal.AddLog | apps/mofa-friend/src/voice_clone_modal.rs:692-698 | appends the message to the log |
| FriendCloneModal.VoiceCloneModal.ClearLog | apps/mofa-friend/src/voice_clone_modal.rs:700-705 | the log becomes empty |
| FriendCloneModal.VoiceCloneModal.DefaultLanguage | apps/mofa-friend/src/voice_clone_modal.rs:627-630 | an unset language becomes zh |
| FriendCloneModal.VoiceCloneModal.SelectLanguage | apps/mofa-friend/src/voice_clone_modal.rs:656-663 | the chosen language becomes zh or en |
| FriendCloneModal.VoiceCloneModal.HandleFileSelected | apps/mofa-friend/src/voice_clone_modal.rs:719-766 | logs the validation lines and sets or clears the file and its information together |
| FriendCloneModal.VoiceCloneModal.LogWarnings | apps/mofa-friend/src/voice_clone_modal.rs:737-739 | appends one warning line per warning |
| FriendCloneModal.VoiceCloneModal.SaveVoice | apps/mofa-friend/src/voice_clone_modal.rs:889-972 | a form error is logged and nothing else changes; otherwise the statuses follow CloneProgression, and a failure leaves the log extended by exactly CreationLogs, with the form, visibility and preview state kept; a success emits the new voice then Closed and resets the form except the language |
| FriendCloneModal.VoiceCloneModal.CreateVoice | apps/mofa-friend/src/voice_clone_modal.rs:917-970 | the statuses follow CloneProgression and the log gains exactly CreationLogs with the success line; a success emits the new voice |
| FriendCloneModal.VoiceCloneModal.Close | apps/mofa-friend/src/voice_clone_modal.rs:974-1010 | stops the preview, clears the form except the language, resets the status, hides the modal and emits Closed |
| TranscribeAudio.FunAsrResult | apps/mofa-primespeech/scripts/transcribe_audio.py:67-100 | the first result's text under the given language, empty when there is none; or an empty text with the error |
| TranscribeAudio.WhisperResult | apps/mofa-primespeech/scripts/transcribe_audio.py:103-129 | the stripped text under the detected language, or the given one; or an empty text with the error |
| TranscribeAudio.AllFailed | apps/mofa-primespeech/scripts/transcribe_audio.py:190-192 | an error-only result whose message extends No ASR engine available |
| TranscribeAudio.TranscribeResult | apps/mofa-primespeech/scripts/transcribe_audio.py:132-194 | the dict `transcribe` returns has a text or an error, and is never the bare No ASR engine available |
| TranscribeAudio.TranscribeCalls | apps/mofa-primespeech/scripts/transcribe_audio.py:132-194 | no engine after a failed load, each engine at most once, and FunASR only for zh or a recording Whisper hears as Chinese |
| TranscribeAudio.Transcribe | apps/mofa-primespeech/scripts/transcribe_audio.py:132-194 | a load error alone; zh tries FunASR then Whisper; en only Whisper; auto tries Whisper and re-runs FunASR on Chinese; if all fail, the joined errors; always a text or an error; the result and the calls are TranscribeResult and TranscribeCalls |
| TranscribeAudio.EmptyFunAsrTextNotAnError | apps/mofa-primespeech/scripts/transcribe_audio.py:152-164 | an empty FunASR text with no error adds nothing to the joined message when Whisper then fails |
| TranscribeAudio.ScriptMain | apps/mofa-primespeech/scripts/transcribe_audio.py:197-223 | exit 1 without numpy, without the file or when the output file cannot be opened (then with no JSON), 2 for usage errors, otherwise 0; with the arguments accepted, the engines called are TranscribeCalls and a 0 exit writes exactly TranscribeResult, under the given language or auto when none is given; the JSON goes to the output file when one is given |
| TranscribeAudio.LangArgAccepted | apps/mofa-primespeech/scripts/transcribe_audio.py:200-202 | the language argument the modal passes is always one the script accepts |
| TranscribeAudio.PrintedResultMovesStatus | apps/mofa-primespeech/scripts/transcribe_audio.py:132-194 | every printed result has a text or an error, so the modal never keeps its status for it |

## Left out

- Threads, channels and atomics are modelled as sequential steps. The two crossbeam channels become sequences in the supervisor. The worker's loop is one `RunIteration` per pass. The 10 ms sleep at the end of each pass, the 150 ms sleep between send attempts and the join are not modelled.
- The event queue is unbounded in the model. The source's event channel holds 100 events and the worker sends with a blocking `send`, so with a full queue the worker waits until the UI polls, and teardown's join waits with it. That waiting is not represented.
- TtsDoraIntegration.DoraIntegration.RunIteration: one clock reading serves every start and the health check of a pass. In the source time passes within the pass, for example 150 ms per failed send attempt, so a check can fall outside the ten-second grace period where the model has it inside.
- `std::env::set_var` for the dataflow environment is not modelled; the environment map is carried in the start command.
- Dora's `DoraController`, dispatcher and bridges are foreign. Their outcomes are parameters: start results, per-attempt send results and the status query.
- Floating-point formatting: `{:.1}` is modelled on reals (`Text.Fixed1`), rounding half away from zero. Rust rounds the exact binary value of an f32, so ties can differ. Where the screen formats an f32 duration, the rendered text is an input.
- TtsWav.ToPcm16: computed on reals, so it does not model f32 rounding before the truncating cast.
- Resampling to 16 kHz is an input to `FinishProcessing`. It is a foreign numeric routine.
- Audio devices (cpal capture, the TTS player, hound writing) are left out. The audio player is the log of calls made on it (`playerCalls`) and, per timer tick, whether it still plays (an input to `PollTick`). `FinishProcessing` takes the success of its WAV write as an input.
- TtsScreen.TtsScreen.WriteWavFile: states the bytes `write_wav_file` writes, not its I/O errors. A failing `File::create` or `write_all` is left out, together with `download_audio`, which reports them.
- `voice_persistence` (validating audio, generating the voice id, copying the file, saving the config) is foreign. Its results are parameters. `CloningStatus`, `AudioInfo` and `Voice::new_custom` are modelled from their uses.
- The native file dialog is left out; the chosen path is an input.
- Parsing the ASR script's stdout as JSON is an input: the parsed object or a parse failure.
- Polling the Dora log bridge is left out; its lines are an input to `PollTick`.
- `download_audio` is left out. It is a save dialog followed by `write_wav_file`, which is modelled.
- The preview player and `load_wav_for_preview` in the modals are left out beyond the playing flag.
- Debug-build overflow panics are not modelled; u32 arithmetic in the WAV header wraps as in release builds.
- `resize_log_panel`, widget drawing, layout and the character counter are left out; they are UI rendering.
- PrimeSpeechCloneModal.VoiceCloneModal.TranscribeAudio: this models `transcribe_audio`, which only `process_recorded_audio` calls, and nothing calls `process_recorded_audio`; the member describes code the application never reaches. `process_recorded_audio` itself is not modelled.
- PrimeSpeechCloneModal.VoiceCloneModal.StopRecording: when no audio is captured, or the WAV cannot be written, the status stays Transcribing. The model keeps that behaviour and does not state a later recovery.
- PrimeSpeechCloneModal.VoiceCloneModal.TranscribeAudio: its contract states the status, the text, the kept recording and the first log line, not the complete log of each outcome.
- TranscribeAudio.WhisperResult: Python's `str.strip` also removes the separators U+001C to U+001F, which `Text.Trim` (Rust's `trim`) keeps. The model uses `Trim` for both.
- The numerics of `load_audio` (soundfile, mono mixing, librosa resampling) are left out; the load outcome is an input.
- The ASR engines' internals (model loading and the `MOFA_MODELS_DIR` and `WHISPER_MODEL` variables) are foreign; each run's outcome is an input.
- argparse's usage text on stderr is not modelled; a usage error is exit code 2 with no JSON.
- `lib.rs` and the application registration are left out; they are wiring.

## Findings

| source | as written | input that shows it | evidently intended | confidence | as-written member | corrected member |
|---|---|---|---|---|---|---|
| apps/mofa-tts/src/screen.rs:1376-1380 | the log preview slices the text at byte 50 with `&text[..50]`, which panics when byte 50 falls inside a multi-byte character | seventeen copies of a three-byte CJK character (51 bytes) | cut at the last character boundary not after byte 50 | not executed | TtsLogPreview.CjkPreviewPanics | TtsLogPreview.LogPreviewSpec |
