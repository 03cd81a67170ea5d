/**
 * The voice-clone modal of the Friend application
 * (apps/mofa-friend/src/voice_clone_modal.rs): the same form as the
 * PrimeSpeech modal, without microphone recording, with a save that checks
 * only the form and that closes the modal once the voice is saved.
 *
 * Widgets are reduced to the form's contents and a visibility flag; the
 * file dialog, the preview player and the persistence layer are inputs.
 */
module FriendCloneModal {
  import opened Wrappers
  import opened Text
  import opened CloneTypes
  import PrimeSpeechCloneModal

  const CreatedLog: string := "[INFO] Voice created successfully!"

  /**
   * Every form the PrimeSpeech modal lets through to the cloning steps
   * passes the Friend modal's checks; the converse fails, since the Friend
   * modal never asks for a validated file of 3 to 10 seconds.
   */
  lemma {:induction false} StricterInPrimeSpeech(form: CloneForm)
    ensures PrimeSpeechCloneModal.SaveRejection(form).None? ==> FormError(form.name, form.prompt, form.selectedFile).None?
    ensures var unvalidated := CloneForm("a", "b", Some("f.wav"), None, "zh");
      && FormError(unvalidated.name, unvalidated.prompt, unvalidated.selectedFile).None?
      && PrimeSpeechCloneModal.SaveRejection(unvalidated).Some?
  {
    var unvalidated := CloneForm("a", "b", Some("f.wav"), None, "zh");
    assert !AllWhitespace(unvalidated.name) by { assert !IsWhitespace(unvalidated.name[0]); }
    assert !AllWhitespace(unvalidated.prompt) by { assert !IsWhitespace(unvalidated.prompt[0]); }
    TrimEmptyIff(unvalidated.name);
    TrimEmptyIff(unvalidated.prompt);
  }

  class VoiceCloneModal {
    var form: CloneForm
    var cloningStatus: CloningStatus
    var logMessages: seq<string>
    var previewPlaying: bool
    var visible: bool
    /** Actions emitted so far, oldest first. */
    var emitted: seq<ModalAction>

    /** The widget as created: every field at its default. */
    constructor ()
      ensures form == CloneForm([], [], None, None, [])
      ensures cloningStatus == CloningStatus.Idle && logMessages == [] && !previewPlaying
      ensures !visible && emitted == []
    {
      form := CloneForm([], [], None, None, []);
      cloningStatus := CloningStatus.Idle;
      logMessages := [];
      previewPlaying := false;
      visible := false;
      emitted := [];
    }

    method AddLog(message: string)
      modifies this`logMessages
      ensures logMessages == old(logMessages) + [message]
    {
      logMessages := logMessages + [message];
    }

    method ClearLog()
      modifies this`logMessages
      ensures logMessages == []
    {
      logMessages := [];
    }

    /** The start of `handle_event`: the language defaults to "zh". */
    method DefaultLanguage()
      modifies this`form
      ensures form == old(form).(language := EffectiveLanguage(old(form.language)))
    {
      if form.language == [] {
        form := form.(language := "zh");
      }
    }

    /** The zh and en buttons. */
    method SelectLanguage(zh: bool)
      modifies this`form
      ensures form == old(form).(language := if zh then "zh" else "en")
    {
      form := form.(language := if zh then "zh" else "en");
    }

    /**
     * `handle_file_selected`: logs the validation and sets the file and
     * its information together, or clears both.
     */
    method HandleFileSelected(path: string, validation: Result<AudioInfo, string>)
      modifies this`logMessages, this`form
      ensures logMessages == old(logMessages) + FileSelectionLogs(validation)
      ensures var (file, info) := FileSelection(path, validation);
        form == old(form).(selectedFile := file, audioInfo := info)
    {
      ghost var before := logMessages;
      AddLog(ValidatingLog);
      match validation {
        case Ok(info) =>
          AddLog(AudioOkLog(info));
          LogWarnings(info.warnings);
          AppendRegroup(before, ValidatingLog, AudioOkLog(info), WarningLogs(info.warnings));
          form := form.(selectedFile := Some(path), audioInfo := Some(info));
        case Err(e) =>
          AddLog("[ERROR] " + e);
          form := form.(selectedFile := None, audioInfo := None);
      }
    }

    /** One "[WARN]" line per warning of a validated file. */
    method LogWarnings(warnings: seq<string>)
      modifies this`logMessages
      ensures logMessages == old(logMessages) + WarningLogs(warnings)
    {
      var i := 0;
      while i < |warnings|
        invariant 0 <= i <= |warnings|
        invariant logMessages == old(logMessages) + WarningLogs(warnings[..i])
      {
        assert warnings[..i + 1] == warnings[..i] + [warnings[i]];
        WarningLogsSnoc(warnings[..i], warnings[i]);
        AddLog("[WARN] " + warnings[i]);
        i := i + 1;
      }
      assert warnings[..i] == warnings;
    }

    /**
     * `save_voice`: a form error is logged and nothing else changes;
     * otherwise ValidatingAudio, CopyingFiles, then the copy's error, or
     * SavingConfig followed by the save's error, or by Completed, the new
     * voice emitted and the modal closed. `progression` lists the statuses
     * taken, in order.
     */
    method SaveVoice(voiceId: string, copyResult: Result<string, string>, saveError: Option<string>)
      returns (progression: seq<CloningStatus>)
      modifies this
      ensures FormError(old(form.name), old(form.prompt), old(form.selectedFile)).Some? ==>
        && progression == [] && cloningStatus == old(cloningStatus) && emitted == old(emitted)
        && form == old(form) && visible == old(visible) && previewPlaying == old(previewPlaying)
        && logMessages == old(logMessages) + [FormError(old(form.name), old(form.prompt), old(form.selectedFile)).value]
      ensures FormError(old(form.name), old(form.prompt), old(form.selectedFile)).None? ==>
        progression == CloneProgression(copyResult, saveError)
      ensures progression != [] && !(copyResult.Ok? && saveError.None?) ==>
        && cloningStatus == progression[|progression| - 1] && emitted == old(emitted)
        && form == old(form) && visible == old(visible) && previewPlaying == old(previewPlaying)
        && logMessages == old(logMessages) + CreationLogs(voiceId, copyResult, saveError, [CreatedLog])
      ensures progression != [] && copyResult.Ok? && saveError.None? ==>
        && emitted == old(emitted) + [VoiceCreated(NewVoice(voiceId, old(form), copyResult.value)), Closed]
        && cloningStatus == CloningStatus.Idle && logMessages == [] && !visible && !previewPlaying
        && form == old(form).(name := [], prompt := [], selectedFile := None, audioInfo := None)
    {
      var error := FormError(form.name, form.prompt, form.selectedFile);
      if error.Some? {
        AddLog(error.value);
        return [];
      }
      progression := CreateVoice(voiceId, copyResult, saveError);
      if cloningStatus == CloningStatus.Completed {
        Close();
      }
    }

    /**
     * The steps of `save_voice` once its checks pass, up to closing:
     * ValidatingAudio, CopyingFiles, then the copy's error, or SavingConfig
     * followed by Completed (emitting the new voice) or the save's error.
     */
    method CreateVoice(voiceId: string, copyResult: Result<string, string>, saveError: Option<string>)
      returns (progression: seq<CloningStatus>)
      modifies this`logMessages, this`cloningStatus, this`emitted
      ensures progression == CloneProgression(copyResult, saveError)
      ensures cloningStatus == progression[|progression| - 1]
      ensures copyResult.Ok? && saveError.None? ==>
        emitted == old(emitted) + [VoiceCreated(NewVoice(voiceId, form, copyResult.value))]
      ensures logMessages == old(logMessages) + CreationLogs(voiceId, copyResult, saveError, [CreatedLog])
      ensures !(copyResult.Ok? && saveError.None?) ==> emitted == old(emitted)
    {
      cloningStatus := ValidatingAudio;
      var lines := [StartingCreationLog];
      lines := lines + ["[INFO] Voice ID: " + voiceId];
      cloningStatus := CopyingFiles;
      lines := lines + [CopyingLog];
      if copyResult.Err? {
        lines := lines + ["[ERROR] " + copyResult.error];
        cloningStatus := CloningStatus.Error(copyResult.error);
        progression := [ValidatingAudio, CopyingFiles, cloningStatus];
        logMessages := logMessages + lines;
        return;
      }
      lines := lines + [CopiedLog];
      var voice := NewVoice(voiceId, form, copyResult.value);
      cloningStatus := SavingConfig;
      lines := lines + [SavingConfigLog];
      if saveError.None? {
        lines := lines + [CreatedLog];
        cloningStatus := CloningStatus.Completed;
        emitted := emitted + [VoiceCreated(voice)];
      } else {
        lines := lines + ["[ERROR] Failed to save: " + saveError.value];
        cloningStatus := CloningStatus.Error(saveError.value);
      }
      logMessages := logMessages + lines;
      progression := [ValidatingAudio, CopyingFiles, SavingConfig, cloningStatus];
    }

    /**
     * `close`: stops the preview, clears the file, its audio information,
     * the log and both inputs, resets the status, hides the modal and emits
     * Closed. The chosen language is kept.
     */
    method Close()
      modifies this
      ensures form == old(form).(name := [], prompt := [], selectedFile := None, audioInfo := None)
      ensures cloningStatus == CloningStatus.Idle && logMessages == [] && !previewPlaying && !visible
      ensures emitted == old(emitted) + [Closed]
    {
      previewPlaying := false;
      form := form.(selectedFile := None, audioInfo := None);
      cloningStatus := CloningStatus.Idle;
      ClearLog();
      form := form.(name := [], prompt := []);
      visible := false;
      emitted := emitted + [Closed];
    }
  }
}
