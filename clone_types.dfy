/**
 * What the two voice-clone modals (apps/mofa-primespeech/src/voice_clone_modal.rs
 * and apps/mofa-friend/src/voice_clone_modal.rs) share: the cloning
 * status, the audio information the persistence layer returns, the voice a
 * successful clone creates, the actions a modal emits, and the form checks
 * and log lines both modals produce the same way.
 *
 * The persistence layer itself (validation, id generation, copying the
 * reference audio, saving the configuration) is not part of this model;
 * its results are inputs.
 */
module CloneTypes {
  import opened Wrappers
  import opened Text

  /** The progress of a clone; the variants are the ones the modals assign. */
  datatype CloningStatus = Idle | ValidatingAudio | CopyingFiles | SavingConfig | Completed | Error(message: string)

  /** What validating an audio file reports. */
  datatype AudioInfo = AudioInfo(durationSecs: real, sampleRate: nat, channels: nat, warnings: seq<string>)

  /** `Voice::new_custom(id, name, language, reference_audio, prompt_text)`. */
  datatype CustomVoice = CustomVoice(id: string, name: string, language: string,
                                     referenceAudio: string, promptText: string)

  /**
   * The form a modal shows: the voice-name and reference-text inputs, the
   * reference audio file with what validating it reported, and the
   * language chosen ("" until one is).
   */
  datatype CloneForm = CloneForm(name: string, prompt: string, selectedFile: Option<string>,
                                 audioInfo: Option<AudioInfo>, language: string)

  /** Actions a modal emits to its parent. */
  datatype ModalAction = Closed | VoiceCreated(voice: CustomVoice)

  const NameMissingLog: string := "[ERROR] Please enter a voice name"
  const PromptMissingLog: string := "[ERROR] Please enter the reference text"
  const FileMissingLog: string := "[ERROR] Please select a reference audio file"

  /**
   * The first three checks of `save_voice`, in order: the trimmed name,
   * the trimmed prompt, a selected file. The result is the error logged by
   * the first failing check.
   */
  function FormError(name: string, prompt: string, selectedFile: Option<string>): (e: Option<string>)
    ensures e == None <==> Trim(name) != [] && Trim(prompt) != [] && selectedFile.Some?
  {
    if Trim(name) == [] then Some(NameMissingLog)
    else if Trim(prompt) == [] then Some(PromptMissingLog)
    else if selectedFile.None? then Some(FileMissingLog)
    else None
  }

  /**
   * The name check comes first, the prompt check second, the file check
   * last: a blank name is reported whatever else is missing, and a
   * missing file only when name and prompt have text.
   */
  lemma FormErrorOrder(name: string, prompt: string, selectedFile: Option<string>)
    ensures AllWhitespace(name) ==> FormError(name, prompt, selectedFile) == Some(NameMissingLog)
    ensures !AllWhitespace(name) && AllWhitespace(prompt) ==> FormError(name, prompt, selectedFile) == Some(PromptMissingLog)
    ensures FormError(name, prompt, selectedFile) == Some(FileMissingLog) <==>
              !AllWhitespace(name) && !AllWhitespace(prompt) && selectedFile.None?
  {
    TrimEmptyIff(name);
    TrimEmptyIff(prompt);
  }

  /** The log lines `handle_file_selected` writes for a validation result. */
  function FileSelectionLogs(validation: Result<AudioInfo, string>): (logs: seq<string>)
    ensures validation.Err? ==> logs == [ValidatingLog, "[ERROR] " + validation.error]
    ensures validation.Ok? ==>
      |logs| == 2 + |validation.value.warnings| && logs[0] == ValidatingLog && logs[1] == AudioOkLog(validation.value)
    ensures validation.Ok? ==> logs[2..] == WarningLogs(validation.value.warnings)
  {
    [ValidatingLog]
    + match validation
      case Ok(info) => [AudioOkLog(info)] + WarningLogs(info.warnings)
      case Err(e) => ["[ERROR] " + e]
  }

  const ValidatingLog: string := "[INFO] Validating audio file..."

  /** The line reporting a valid file: duration to a tenth of a second, sample rate, channel count. */
  function AudioOkLog(info: AudioInfo): string
  {
    "[INFO] Audio OK: " + Fixed1(info.durationSecs) + "s, " + DecimalString(info.sampleRate)
    + "Hz, " + DecimalString(info.channels) + " channels"
  }

  /** One "[WARN]" line per warning, in order. */
  function WarningLogs(warnings: seq<string>): (logs: seq<string>)
    ensures |logs| == |warnings|
    ensures forall i :: 0 <= i < |warnings| ==> logs[i] == "[WARN] " + warnings[i]
  {
    if warnings == [] then [] else ["[WARN] " + warnings[0]] + WarningLogs(warnings[1..])
  }

  /** The selected file and its audio information after `handle_file_selected`: both set, or both cleared. */
  function FileSelection(path: string, validation: Result<AudioInfo, string>): (r: (Option<string>, Option<AudioInfo>))
    ensures r.0.Some? <==> r.1.Some?
    ensures validation.Ok? <==> r.0 == Some(path)
    ensures validation.Ok? ==> r.1 == Some(validation.value)
  {
    match validation
    case Ok(info) => (Some(path), Some(info))
    case Err(_) => (None, None)
  }

  /** The language a modal uses: "zh" until one is chosen. */
  function EffectiveLanguage(selected: string): (lang: string)
    ensures lang != []
    ensures selected != [] ==> lang == selected
  {
    if selected == [] then "zh" else selected
  }

  /** The voice a clone creates: the trimmed name and text, the chosen language, the copied file. */
  function NewVoice(voiceId: string, form: CloneForm, referenceAudio: string): (v: CustomVoice)
    ensures v.name == Trim(form.name) && v.promptText == Trim(form.prompt) && v.language == form.language
    ensures v.id == voiceId && v.referenceAudio == referenceAudio
  {
    CustomVoice(voiceId, Trim(form.name), form.language, referenceAudio, Trim(form.prompt))
  }

  /** A created voice has a name and a reference text that are not blank. */
  lemma NewVoiceNotBlank(voiceId: string, form: CloneForm, referenceAudio: string)
    requires FormError(form.name, form.prompt, form.selectedFile).None?
    ensures var v := NewVoice(voiceId, form, referenceAudio);
      v.name != [] && v.promptText != [] && !IsWhitespace(v.name[0]) && !IsWhitespace(v.promptText[0])
  {
    TrimIsInnerPiece(form.name);
    TrimIsInnerPiece(form.prompt);
  }

  /** Appending a warning appends its log line. */
  lemma {:induction false} WarningLogsSnoc(warnings: seq<string>, w: string)
    ensures WarningLogs(warnings + [w]) == WarningLogs(warnings) + ["[WARN] " + w]
  {
    assert forall i :: 0 <= i < |warnings| ==> (warnings + [w])[i] == warnings[i];
  }

  /** Log lines of the cloning steps. */
  const StartingCreationLog: string := "[INFO] Starting voice creation..."
  const CopyingLog: string := "[INFO] Copying reference audio..."
  const CopiedLog: string := "[INFO] Audio file copied successfully"
  const SavingConfigLog: string := "[INFO] Saving voice configuration..."

  /**
   * The cloning statuses a save that passed its checks goes through, in
   * order: it always validates and copies, saves only after a successful
   * copy, and ends in Completed or in the error of the step that failed.
   */
  function CloneProgression(copyResult: Result<string, string>, saveError: Option<string>): (p: seq<CloningStatus>)
    ensures |p| == (if copyResult.Ok? then 4 else 3) && p[0] == ValidatingAudio && p[1] == CopyingFiles
    ensures p[|p| - 1].Completed? <==> copyResult.Ok? && saveError.None?
  {
    if copyResult.Err? then [ValidatingAudio, CopyingFiles, CloningStatus.Error(copyResult.error)]
    else if saveError.Some? then [ValidatingAudio, CopyingFiles, SavingConfig, CloningStatus.Error(saveError.value)]
    else [ValidatingAudio, CopyingFiles, SavingConfig, CloningStatus.Completed]
  }

  /**
   * The log lines of the cloning steps, in order: the start, the voice id
   * and the copy, then the copy's error, or the copy's success, the save,
   * and `createdLines` or the save's error.
   */
  function CreationLogs(voiceId: string, copyResult: Result<string, string>, saveError: Option<string>,
                        createdLines: seq<string>): (lines: seq<string>)
    ensures |lines| >= 4 && (copyResult.Ok? ==> |lines| >= 5)
    ensures lines[..3] == [StartingCreationLog, "[INFO] Voice ID: " + voiceId, CopyingLog]
    ensures copyResult.Err? ==> lines == lines[..3] + ["[ERROR] " + copyResult.error]
    ensures copyResult.Ok? ==> lines[3..5] == [CopiedLog, SavingConfigLog]
    ensures copyResult.Ok? && saveError.None? ==> lines[5..] == createdLines
    ensures copyResult.Ok? && saveError.Some? ==> lines[5..] == ["[ERROR] Failed to save: " + saveError.value]
  {
    var copying := [StartingCreationLog] + ["[INFO] Voice ID: " + voiceId] + [CopyingLog];
    if copyResult.Err? then copying + ["[ERROR] " + copyResult.error]
    else if saveError.None? then copying + [CopiedLog] + [SavingConfigLog] + createdLines
    else copying + [CopiedLog] + [SavingConfigLog] + ["[ERROR] Failed to save: " + saveError.value]
  }

  /**
   * A clone completes exactly when both the copy and the save succeed;
   * every other outcome ends in an error carrying the failing step's
   * message, and SavingConfig is reached exactly when the copy succeeded.
   */
  lemma CloneProgressionSpec(copyResult: Result<string, string>, saveError: Option<string>)
    ensures var p := CloneProgression(copyResult, saveError);
      && p[..2] == [ValidatingAudio, CopyingFiles]
      && (p[|p| - 1] == CloningStatus.Completed <==> copyResult.Ok? && saveError.None?)
      && (SavingConfig in p <==> copyResult.Ok?)
      && (copyResult.Err? ==> p[|p| - 1] == CloningStatus.Error(copyResult.error))
      && (copyResult.Ok? && saveError.Some? ==> p[|p| - 1] == CloningStatus.Error(saveError.value))
  {
  }

  /** Regrouping two appended lines and a tail, so that log equalities need no element-wise reasoning. */
  lemma AppendRegroup<T>(a: seq<T>, x: T, y: T, w: seq<T>)
    ensures a + [x] + [y] + w == a + ([x] + ([y] + w))
  {
  }
}
