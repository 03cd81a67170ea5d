/**
 * The PrimeSpeech voice-clone modal (apps/mofa-primespeech/src/voice_clone_modal.rs):
 * a form (voice name, reference text, reference audio, language) whose
 * save runs a chain of checks and then the cloning steps; a microphone
 * recording whose audio is processed in the background and picked up by
 * the next event; and the mapping of an ASR run to a recording status.
 *
 * Widgets are reduced to the form's contents and a visibility flag; the
 * microphone, the background threads, resampling, the WAV writer, the ASR
 * process and the persistence layer are inputs.
 */
module PrimeSpeechCloneModal {
  import opened Wrappers
  import opened Text
  import opened CloneTypes

  const MinReferenceSecs: real := 3.0
  const MaxReferenceSecs: real := 10.0
  const TargetSampleRate: nat := 16000
  /** Ten seconds at 16 kHz. */
  const MaxRecordedSamples: nat := 10 * 16000

  const NotValidatedLog: string := "[ERROR] Audio file not validated. Please re-select the file."

  /** The recording's progress. */
  datatype RecordingStatus = Idle | Recording | Transcribing | Completed | Error(message: string)

  /**
   * The recording state: its status, whether the microphone is capturing,
   * when capture started (seconds), the recorded file, and what the
   * processing thread hands over to the next event (a completion flag and
   * the written file).
   */
  datatype Recorder = Recorder(status: RecordingStatus, isRecording: bool, startTime: Option<real>,
                               recordedAudioPath: Option<string>, processingComplete: bool,
                               tempAudioFile: Option<string>)

  /** The fields of the ASR script's JSON output that hold strings. */
  datatype AsrJson = AsrJson(text: Option<string>, error: Option<string>)

  /** How running the ASR script went: no interpreter could be spawned, or it exited. */
  datatype AsrRun =
    | SpawnFailed(error: string)
    | Exited(success: bool, stdout: string, stderr: string, parsed: Option<AsrJson>)

  /** The `-l` argument passed to the ASR script: the chosen language when it is zh or en, else "auto". */
  function LangArg(selectedLanguage: string): (arg: string)
    ensures arg in {"zh", "en", "auto"}
    ensures selectedLanguage in {"zh", "en"} ==> arg == selectedLanguage
    ensures selectedLanguage !in {"zh", "en"} ==> arg == "auto"
  {
    match selectedLanguage
    case "zh" => "zh"
    case "en" => "en"
    case _ => "auto"
  }

  /**
   * The error lines `save_voice` logs before any status change, or None
   * when every check passes: the form checks, then a validated file whose
   * duration lies in [3, 10] seconds.
   */
  function SaveRejection(form: CloneForm): (r: Option<seq<string>>)
    ensures FormError(form.name, form.prompt, form.selectedFile).Some? ==>
      r == Some([FormError(form.name, form.prompt, form.selectedFile).value])
    ensures r.Some? ==> |r.value| in {1, 2}
    ensures form.audioInfo.None? ==> r.Some?
  {
    match FormError(form.name, form.prompt, form.selectedFile)
    case Some(e) => Some([e])
    case None =>
      match form.audioInfo
      case None => Some([NotValidatedLog])
      case Some(info) =>
        if info.durationSecs < MinReferenceSecs then
          Some(["[ERROR] Audio too short (" + Fixed1(info.durationSecs) + "s). GPT-SoVITS requires 3-10 seconds.",
                "[ERROR] Please select a longer audio file."])
        else if info.durationSecs > MaxReferenceSecs then
          Some(["[ERROR] Audio too long (" + Fixed1(info.durationSecs) + "s). GPT-SoVITS requires 3-10 seconds.",
                "[ERROR] Please select a shorter audio file or trim it."])
        else None
  }

  /**
   * A save goes ahead exactly when name and text are not blank, a file is
   * selected and validated, and it lasts 3 to 10 seconds; a form error is
   * the only line logged when there is one.
   */
  lemma SaveRejectionSpec(form: CloneForm)
    ensures SaveRejection(form).None? <==>
      && !AllWhitespace(form.name) && !AllWhitespace(form.prompt) && form.selectedFile.Some?
      && form.audioInfo.Some? && MinReferenceSecs <= form.audioInfo.value.durationSecs <= MaxReferenceSecs
    ensures FormError(form.name, form.prompt, form.selectedFile).Some? ==>
      SaveRejection(form) == Some([FormError(form.name, form.prompt, form.selectedFile).value])
    ensures SaveRejection(form).Some? ==> |SaveRejection(form).value| in {1, 2}
  {
    TrimEmptyIff(form.name);
    TrimEmptyIff(form.prompt);
  }

  /** The processed recording: at most ten seconds at 16 kHz, from the start. */
  function TrimToMax(samples: seq<real>): (r: seq<real>)
    ensures |r| == (if |samples| > MaxRecordedSamples then MaxRecordedSamples else |samples|)
    ensures r == samples[..|r|]
    ensures |samples| <= MaxRecordedSamples ==> r == samples
  {
    if |samples| > MaxRecordedSamples then samples[..MaxRecordedSamples] else samples
  }

  /**
   * The recording status an ASR run leads to, or None when the output is
   * JSON with neither a string "text" nor a string "error" (the status is
   * then left as it was).
   */
  function AsrStatus(run: AsrRun): (r: Option<RecordingStatus>)
    ensures run.SpawnFailed? ==> r == Some(RecordingStatus.Error("ASR unavailable"))
    ensures run.Exited? && !run.success ==> r == Some(RecordingStatus.Error("ASR failed"))
    ensures run.Exited? && run.success && run.parsed.None? ==> r == Some(RecordingStatus.Error("Parse error"))
    ensures run.Exited? && run.success && run.parsed.Some? && run.parsed.value.text.None? && run.parsed.value.error.Some? ==>
      r == Some(RecordingStatus.Error(run.parsed.value.error.value))
    ensures r == Some(RecordingStatus.Completed) ==> run.Exited? && run.success && run.parsed.Some?
    ensures r.None? ==> run.Exited? && run.success && run.parsed.Some?
  {
    match run
    case SpawnFailed(_) => Some(RecordingStatus.Error("ASR unavailable"))
    case Exited(success, _, _, parsed) =>
      if !success then Some(RecordingStatus.Error("ASR failed"))
      else if parsed.None? then Some(RecordingStatus.Error("Parse error"))
      else if parsed.value.text.Some? then
        if Trim(parsed.value.text.value) != [] then Some(RecordingStatus.Completed)
        else Some(RecordingStatus.Error("Empty transcription"))
      else if parsed.value.error.Some? then Some(RecordingStatus.Error(parsed.value.error.value))
      else None
  }

  /**
   * A run completes exactly when the script succeeded and printed JSON
   * whose "text" has non-blank content; a "text" field takes precedence
   * over an "error" field; the status is left alone only for JSON with
   * neither.
   */
  lemma AsrStatusSpec(run: AsrRun)
    ensures AsrStatus(run) == Some(RecordingStatus.Completed) <==>
      run.Exited? && run.success && run.parsed.Some? && run.parsed.value.text.Some?
      && !AllWhitespace(run.parsed.value.text.value)
    ensures run.Exited? && run.success && run.parsed.Some? && run.parsed.value.text.Some? ==>
      AsrStatus(run) in {Some(RecordingStatus.Completed), Some(RecordingStatus.Error("Empty transcription"))}
    ensures AsrStatus(run).None? <==>
      run.Exited? && run.success && run.parsed.Some? && run.parsed.value == AsrJson(None, None)
  {
    if run.Exited? && run.success && run.parsed.Some? && run.parsed.value.text.Some? {
      TrimEmptyIff(run.parsed.value.text.value);
    }
  }

  /**
   * The recorded audio becomes the reference file after a completed
   * transcription and whenever the script failed to run or exited with
   * failure; not after a parse error, an empty text or a reported error.
   */
  predicate AsrKeepsRecording(run: AsrRun)
  {
    AsrStatus(run) == Some(RecordingStatus.Completed) || run.SpawnFailed? || (run.Exited? && !run.success)
  }

  /** The seconds since the recording started, or 0 when none started; never negative. */
  function RecordingDuration(start: Option<real>, now: real): (d: real)
    ensures d >= 0.0
    ensures start.Some? && now >= start.value ==> d == now - start.value
    ensures start.None? || now < start.value ==> d == 0.0
  {
    match start
    case None => 0.0
    case Some(t) => if now >= t then now - t else 0.0
  }

  /** Log lines the modal writes. */
  const StartRecordingLog: string := "[INFO] Starting microphone recording..."
  const SpeakHintLog: string := "[INFO] Speak clearly for 3-10 seconds"
  const RecordingTooShortLog: string := "[ERROR] Recording too short. Please record at least 3 seconds."
  const TrimWarningLog: string := "[WARN] Recording over 10s will be trimmed to 10s"
  const ProcessingLog: string := "[INFO] Processing recorded audio..."
  const LoadingRecordedLog: string := "[INFO] Loading recorded audio..."
  const RecordingCompleteLog: string := "[INFO] Recording complete! Please enter the reference text."
  const RunningAsrLog: string := "[INFO] Running ASR transcription..."
  const PixiHintLog: string := "[INFO] Make sure 'pixi' is in PATH and ASR dependencies are installed"
  const ManualTextLog: string := "[INFO] Audio saved. Please enter the text manually."
  const EmptyTranscriptionLog: string := "[WARN] Transcription returned empty text"
  const TranscriptionCompleteLog: string := "[INFO] Recording and transcription complete!"
  /** The lines that close a successful clone: a blank line, the success message, the hint to close. */
  const CreatedLogs: seq<string> := ["", "✓ Voice created successfully!", "You can now close this dialog."]

  class VoiceCloneModal {
    var form: CloneForm
    var cloningStatus: CloningStatus
    var logMessages: seq<string>
    var previewPlaying: bool
    var recorder: Recorder
    var visible: bool
    /** Actions emitted so far, oldest first. */
    var emitted: seq<ModalAction>

    /** The widget as created: every field at its default. */
    constructor ()
      ensures form == CloneForm([], [], None, None, [])
      ensures cloningStatus == CloningStatus.Idle && logMessages == [] && !previewPlaying
      ensures recorder == Recorder(RecordingStatus.Idle, false, None, None, false, None)
      ensures !visible && emitted == []
    {
      form := CloneForm([], [], None, None, []);
      cloningStatus := CloningStatus.Idle;
      logMessages := [];
      previewPlaying := false;
      recorder := Recorder(RecordingStatus.Idle, false, None, None, false, None);
      visible := false;
      emitted := [];
    }

    method AddLog(message: string)
      modifies this`logMessages
      ensures logMessages == old(logMessages) + [message]
    {
      logMessages := logMessages + [message];
    }

    /** Several `add_log` calls in a row. */
    method AddLogs(lines: seq<string>)
      modifies this`logMessages
      ensures logMessages == old(logMessages) + lines
    {
      var i := 0;
      while i < |lines|
        invariant 0 <= i <= |lines|
        invariant logMessages == old(logMessages) + lines[..i]
      {
        assert lines[..i + 1] == lines[..i] + [lines[i]];
        AddLog(lines[i]);
        i := i + 1;
      }
      assert lines[..i] == lines;
    }

    method ClearLog()
      modifies this`logMessages
      ensures logMessages == []
    {
      logMessages := [];
    }

    /** The zh and en buttons. */
    method SelectLanguage(zh: bool)
      modifies this`form
      ensures form == old(form).(language := if zh then "zh" else "en")
    {
      form := form.(language := if zh then "zh" else "en");
    }

    /**
     * `handle_file_selected`: logs the validation and sets the file and
     * its information together, or clears both.
     */
    method HandleFileSelected(path: string, validation: Result<AudioInfo, string>)
      modifies this`logMessages, this`form
      ensures logMessages == old(logMessages) + FileSelectionLogs(validation)
      ensures var (file, info) := FileSelection(path, validation);
        form == old(form).(selectedFile := file, audioInfo := info)
    {
      ghost var before := logMessages;
      AddLog(ValidatingLog);
      match validation {
        case Ok(info) =>
          AddLog(AudioOkLog(info));
          LogWarnings(info.warnings);
          AppendRegroup(before, ValidatingLog, AudioOkLog(info), WarningLogs(info.warnings));
          form := form.(selectedFile := Some(path), audioInfo := Some(info));
        case Err(e) =>
          AddLog("[ERROR] " + e);
          form := form.(selectedFile := None, audioInfo := None);
      }
    }

    /** One "[WARN]" line per warning of a validated file. */
    method LogWarnings(warnings: seq<string>)
      modifies this`logMessages
      ensures logMessages == old(logMessages) + WarningLogs(warnings)
    {
      var i := 0;
      while i < |warnings|
        invariant 0 <= i <= |warnings|
        invariant logMessages == old(logMessages) + WarningLogs(warnings[..i])
      {
        assert warnings[..i + 1] == warnings[..i] + [warnings[i]];
        WarningLogsSnoc(warnings[..i], warnings[i]);
        AddLog("[WARN] " + warnings[i]);
        i := i + 1;
      }
      assert warnings[..i] == warnings;
    }

    /**
     * `save_voice`: the checks of `SaveRejection` log and return with the
     * status untouched; otherwise ValidatingAudio, CopyingFiles, then the
     * copy's error, or SavingConfig followed by Completed (emitting the new
     * voice, the modal staying open) or the save's error. `progression`
     * lists the statuses taken, in order.
     */
    method SaveVoice(voiceId: string, copyResult: Result<string, string>, saveError: Option<string>)
      returns (progression: seq<CloningStatus>)
      modifies this`logMessages, this`cloningStatus, this`emitted
      ensures SaveRejection(old(form)).Some? ==>
        && progression == [] && cloningStatus == old(cloningStatus) && emitted == old(emitted)
        && logMessages == old(logMessages) + SaveRejection(old(form)).value
      ensures SaveRejection(old(form)).None? ==> progression == CloneProgression(copyResult, saveError)
      ensures SaveRejection(old(form)).None? && copyResult.Ok? && saveError.None? ==>
        emitted == old(emitted) + [VoiceCreated(NewVoice(voiceId, old(form), copyResult.value))]
      ensures SaveRejection(old(form)).None? ==>
        logMessages == old(logMessages) + CreationLogs(voiceId, copyResult, saveError, CreatedLogs)
      ensures !(copyResult.Ok? && saveError.None?) ==> emitted == old(emitted)
      ensures progression != [] ==> cloningStatus == progression[|progression| - 1]
    {
      var rejection := SaveRejection(form);
      if rejection.Some? {
        AddLogs(rejection.value);
        return [];
      }
      progression := CreateVoice(voiceId, copyResult, saveError);
    }

    /**
     * The steps of `save_voice` once its checks pass: ValidatingAudio,
     * CopyingFiles, then the copy's error, or SavingConfig followed by
     * Completed (emitting the new voice, the modal staying open) or the
     * save's error.
     */
    method CreateVoice(voiceId: string, copyResult: Result<string, string>, saveError: Option<string>)
      returns (progression: seq<CloningStatus>)
      modifies this`logMessages, this`cloningStatus, this`emitted
      ensures progression == CloneProgression(copyResult, saveError)
      ensures cloningStatus == progression[|progression| - 1]
      ensures copyResult.Ok? && saveError.None? ==>
        emitted == old(emitted) + [VoiceCreated(NewVoice(voiceId, form, copyResult.value))]
      ensures logMessages == old(logMessages) + CreationLogs(voiceId, copyResult, saveError, CreatedLogs)
      ensures !(copyResult.Ok? && saveError.None?) ==> emitted == old(emitted)
    {
      cloningStatus := ValidatingAudio;
      var lines := [StartingCreationLog];
      lines := lines + ["[INFO] Voice ID: " + voiceId];
      cloningStatus := CopyingFiles;
      lines := lines + [CopyingLog];
      if copyResult.Err? {
        lines := lines + ["[ERROR] " + copyResult.error];
        cloningStatus := CloningStatus.Error(copyResult.error);
        progression := [ValidatingAudio, CopyingFiles, cloningStatus];
        AddLogs(lines);
        return;
      }
      lines := lines + [CopiedLog];
      var voice := NewVoice(voiceId, form, copyResult.value);
      cloningStatus := SavingConfig;
      lines := lines + [SavingConfigLog];
      if saveError.None? {
        lines := lines + CreatedLogs;
        cloningStatus := CloningStatus.Completed;
        emitted := emitted + [VoiceCreated(voice)];
      } else {
        lines := lines + ["[ERROR] Failed to save: " + saveError.value];
        cloningStatus := CloningStatus.Error(saveError.value);
      }
      AddLogs(lines);
      progression := [ValidatingAudio, CopyingFiles, SavingConfig, cloningStatus];
    }

    /**
     * `close`: stops recording and preview, clears the file, its audio
     * information, the recorded path, the log and both inputs, resets both
     * statuses, hides the modal and emits Closed. The chosen language and
     * the processing hand-over are kept.
     */
    method Close()
      modifies this
      ensures form == old(form).(name := [], prompt := [], selectedFile := None, audioInfo := None)
      ensures recorder == old(recorder).(status := RecordingStatus.Idle, isRecording := false, recordedAudioPath := None)
      ensures cloningStatus == CloningStatus.Idle && logMessages == [] && !previewPlaying && !visible
      ensures emitted == old(emitted) + [Closed]
    {
      recorder := recorder.(isRecording := false, status := RecordingStatus.Idle);
      previewPlaying := false;
      form := form.(selectedFile := None, audioInfo := None);
      cloningStatus := CloningStatus.Idle;
      recorder := recorder.(recordedAudioPath := None);
      ClearLog();
      form := form.(name := [], prompt := []);
      visible := false;
      emitted := emitted + [Closed];
    }

    /** `start_recording`, up to spawning the capture thread. */
    method StartRecording(now: real)
      modifies this`logMessages, this`recorder
      ensures recorder == old(recorder).(isRecording := true, startTime := Some(now), status := Recording)
      ensures logMessages == old(logMessages) + [StartRecordingLog,
                                                 SpeakHintLog]
    {
      AddLog(StartRecordingLog);
      AddLog(SpeakHintLog);
      recorder := recorder.(isRecording := true, startTime := Some(now), status := Recording);
    }

    /**
     * `stop_recording`, up to spawning the processing thread: a recording
     * under three seconds is an error and is not processed; otherwise the
     * status becomes Transcribing, with a warning past ten seconds. The
     * result says whether processing starts.
     */
    method StopRecording(now: real) returns (processing: bool)
      modifies this`logMessages, this`recorder
      ensures var duration := RecordingDuration(old(recorder.startTime), now);
        && (processing <==> duration >= MinReferenceSecs)
        && recorder == old(recorder).(isRecording := false,
             status := if processing then Transcribing else RecordingStatus.Error("Recording too short"))
        && logMessages == old(logMessages) + ["[INFO] Recording stopped (" + Fixed1(duration) + "s)"]
           + (if !processing then [RecordingTooShortLog]
              else (if duration > MaxReferenceSecs then [TrimWarningLog] else [])
                   + [ProcessingLog])
    {
      recorder := recorder.(isRecording := false);
      var duration := RecordingDuration(recorder.startTime, now);
      AddLog("[INFO] Recording stopped (" + Fixed1(duration) + "s)");
      if duration < MinReferenceSecs {
        AddLog(RecordingTooShortLog);
        recorder := recorder.(status := RecordingStatus.Error("Recording too short"));
        return false;
      }
      if duration > MaxReferenceSecs {
        AddLog(TrimWarningLog);
      }
      recorder := recorder.(status := Transcribing);
      AddLog(ProcessingLog);
      processing := true;
    }

    /**
     * The processing thread: nothing is handed over when no audio was
     * captured or the WAV file cannot be written; otherwise the audio,
     * resampled to 16 kHz when captured at another rate and cut to ten
     * seconds, is saved and its path handed to the next event. `saved` is
     * that prepared audio, returned whether or not it was handed over.
     */
    method FinishProcessing(samples: seq<real>, sourceRate: nat, resampled: seq<real>,
                            saveOk: bool, tempPath: string) returns (saved: seq<real>)
      modifies this`recorder
      ensures saved == TrimToMax(if sourceRate != TargetSampleRate then resampled else samples)
      ensures samples == [] || !saveOk ==> recorder == old(recorder)
      ensures samples != [] && saveOk ==>
        recorder == old(recorder).(tempAudioFile := Some(tempPath), processingComplete := true)
    {
      var audio := if sourceRate != TargetSampleRate then resampled else samples;
      saved := TrimToMax(audio);
      if samples == [] || !saveOk {
        return;
      }
      recorder := recorder.(tempAudioFile := Some(tempPath));
      recorder := recorder.(processingComplete := true);
    }

    /**
     * The start of `handle_event`: the language defaults to "zh"; a
     * finished recording is taken over as the reference file and the
     * recording is Completed.
     */
    method PickUpRecording(validation: Result<AudioInfo, string>)
      modifies this`form, this`recorder, this`logMessages
      ensures form.language == EffectiveLanguage(old(form.language))
      ensures !recorder.processingComplete
      ensures old(recorder.processingComplete) ==> recorder.tempAudioFile.None?
      ensures !old(recorder.processingComplete) ==> recorder == old(recorder)
      ensures old(recorder.processingComplete) && old(recorder.tempAudioFile).Some? ==>
        && recorder.status == RecordingStatus.Completed
        && (form.selectedFile, form.audioInfo) == FileSelection(old(recorder.tempAudioFile).value, validation)
        && logMessages == old(logMessages) + [LoadingRecordedLog] + FileSelectionLogs(validation)
                          + [RecordingCompleteLog]
      ensures !(old(recorder.processingComplete) && old(recorder.tempAudioFile).Some?) ==>
        && recorder.status == old(recorder.status) && logMessages == old(logMessages)
        && form == old(form).(language := form.language)
      ensures old(recorder.processingComplete) ==>
        recorder == old(recorder).(processingComplete := false, tempAudioFile := None, status := recorder.status)
      ensures form.name == old(form.name) && form.prompt == old(form.prompt)
    {
      if form.language == [] {
        form := form.(language := "zh");
      }
      if recorder.processingComplete {
        var path := recorder.tempAudioFile;
        recorder := recorder.(processingComplete := false, tempAudioFile := None);
        if path.Some? {
          AddLog(LoadingRecordedLog);
          HandleFileSelected(path.value, validation);
          recorder := recorder.(status := RecordingStatus.Completed);
          AddLog(RecordingCompleteLog);
        }
      }
    }

    /**
     * `transcribe_audio`: runs the ASR script with `LangArg` and moves the
     * recording to `AsrStatus`; a completed transcription fills the
     * reference-text input, and the recorded audio becomes the reference
     * file exactly in the outcomes `AsrKeepsRecording` names.
     */
    method TranscribeAudio(audioPath: string, run: AsrRun, validation: Result<AudioInfo, string>)
      returns (langArg: string)
      modifies this`logMessages, this`recorder, this`form
      ensures langArg == LangArg(form.language)
      ensures recorder == old(recorder).(status := if AsrStatus(run).Some? then AsrStatus(run).value
                                                   else old(recorder.status))
      ensures form.prompt == if AsrStatus(run) == Some(RecordingStatus.Completed)
                             then Trim(run.parsed.value.text.value) else old(form.prompt)
      ensures AsrKeepsRecording(run) ==> (form.selectedFile, form.audioInfo) == FileSelection(audioPath, validation)
      ensures !AsrKeepsRecording(run) ==> form.selectedFile == old(form.selectedFile) && form.audioInfo == old(form.audioInfo)
      ensures form.name == old(form.name) && form.language == old(form.language)
      ensures |logMessages| > |old(logMessages)| && logMessages[|old(logMessages)|] == RunningAsrLog
    {
      AddLog(RunningAsrLog);
      langArg := LangArg(form.language);
      match run {
        case SpawnFailed(e) =>
          AddLog("[ERROR] Failed to run ASR: " + e);
          AddLog(PixiHintLog);
          recorder := recorder.(status := RecordingStatus.Error("ASR unavailable"));
          HandleFileSelected(audioPath, validation);
          AddLog(ManualTextLog);
        case Exited(success, stdout, stderr, parsed) =>
          if success {
            AddLog("[DEBUG] ASR output: " + Trim(stdout));
            match parsed {
              case None =>
                AddLog("[ERROR] Failed to parse ASR output: " + stdout);
                recorder := recorder.(status := RecordingStatus.Error("Parse error"));
              case Some(json) =>
                if json.text.Some? {
                  var text := Trim(json.text.value);
                  if text != [] {
                    AddLog("[INFO] Transcription: " + text);
                    form := form.(prompt := text);
                    HandleFileSelected(audioPath, validation);
                    recorder := recorder.(status := RecordingStatus.Completed);
                    AddLog(TranscriptionCompleteLog);
                  } else {
                    AddLog(EmptyTranscriptionLog);
                    recorder := recorder.(status := RecordingStatus.Error("Empty transcription"));
                  }
                } else if json.error.Some? {
                  AddLog("[ERROR] ASR error: " + json.error.value);
                  recorder := recorder.(status := RecordingStatus.Error(json.error.value));
                }
            }
          } else {
            AddLog("[ERROR] ASR failed: " + stderr);
            recorder := recorder.(status := RecordingStatus.Error("ASR failed"));
            HandleFileSelected(audioPath, validation);
            AddLog(ManualTextLog);
          }
      }
    }
  }
}
