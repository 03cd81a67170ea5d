/**
 * The standalone transcription script of the PrimeSpeech application
 * (apps/mofa-primespeech/scripts/transcribe_audio.py): which ASR engine is
 * consulted for which language hint, which engine result is returned, the
 * error message when every engine fails, and the argument checks of `main`.
 *
 * Loading the audio and running FunASR or Whisper are inputs: each is
 * given as the outcome of its (at most one) call. A Python dict the script
 * returns is an `AsrResult` holding the keys it may carry.
 */
module TranscribeAudio {
  import opened Wrappers
  import opened Text
  import PrimeSpeechCloneModal

  /** The dict an engine or `transcribe` returns: its "text", "language" and "error" keys, each possibly absent. */
  datatype AsrResult = AsrResult(text: Option<string>, language: Option<string>, error: Option<string>)

  /**
   * What one engine call does: the engine's package is missing, the model
   * raises, or it produces a text (and, for Whisper, may report the
   * language it detected).
   */
  datatype EngineRun = NotInstalled | Raised(message: string) | Produced(text: string, detected: Option<string>)

  /** An engine call, with the language passed to it. */
  datatype EngineCall = FunAsrCall(language: string) | WhisperCall(language: string)

  const FunAsrMissing: string := "FunASR not installed. Run: pip install funasr"
  const WhisperMissing: string := "Whisper not installed. Run: pip install openai-whisper"
  const NoEngine: string := "No ASR engine available"
  const NumpyMissing: string := "numpy not installed. Run: pip install numpy"

  /** Python truthiness of an optional string: present and not empty. */
  predicate Truthy(s: Option<string>)
  {
    s.Some? && s.value != ""
  }

  /**
   * `transcribe_with_funasr`: the text of the first result ("" when there
   * is none) under the given language, or an empty text with the error.
   */
  function FunAsrResult(run: EngineRun, language: string): (r: AsrResult)
    ensures r.text.Some? && r.language == Some(language)
    ensures r.error.Some? <==> !run.Produced?
    ensures run.Produced? ==> r.text == Some(run.text)
    ensures !run.Produced? ==> r.text == Some("")
  {
    match run
    case NotInstalled => AsrResult(Some(""), Some(language), Some(FunAsrMissing))
    case Raised(m) => AsrResult(Some(""), Some(language), Some(m))
    case Produced(text, _) => AsrResult(Some(text), Some(language), None)
  }

  /**
   * `transcribe_with_whisper`: the stripped text under the detected
   * language (the given one when none is reported), or an empty text with
   * the error.
   */
  function WhisperResult(run: EngineRun, language: string): (r: AsrResult)
    ensures r.text.Some? && r.language.Some?
    ensures r.error.Some? <==> !run.Produced?
    ensures run.Produced? ==> r.text == Some(Trim(run.text))
                              && r.language == Some(if run.detected.Some? then run.detected.value else language)
    ensures !run.Produced? ==> r.text == Some("") && r.language == Some(language)
  {
    match run
    case NotInstalled => AsrResult(Some(""), Some(language), Some(WhisperMissing))
    case Raised(m) => AsrResult(Some(""), Some(language), Some(m))
    case Produced(text, detected) =>
      AsrResult(Some(Trim(text)), Some(if detected.Some? then detected.value else language), None)
  }

  /** FunASR's result is taken: it reports no error and has text. */
  predicate FunAsrAccepted(run: EngineRun)
  {
    var r := FunAsrResult(run, "zh");
    !Truthy(r.error) && Truthy(r.text)
  }

  /** An engine result is taken: it reports no error, whatever its text. */
  predicate NoError(r: AsrResult)
  {
    !Truthy(r.error)
  }

  /** The languages Whisper may report that send an auto-detected recording to FunASR. */
  predicate IsChinese(detected: string)
  {
    detected in ["zh", "chinese", "mandarin"]
  }

  /** The error dict returned when every engine consulted failed. */
  function AllFailed(errors: seq<string>): (r: AsrResult)
    ensures r.text.None? && r.language.None? && r.error.Some?
    ensures |r.error.value| > |NoEngine| && r.error.value[..|NoEngine|] == NoEngine
  {
    AsrResult(None, None, Some(NoEngine + ". " + Join(errors, "; ")))
  }

  /** The JSON fields the modal reads from the printed result. */
  function ToAsrJson(r: AsrResult): PrimeSpeechCloneModal.AsrJson
  {
    PrimeSpeechCloneModal.AsrJson(r.text, r.error)
  }

  /**
   * The dict `transcribe` returns for a load outcome, the engines' runs and
   * a language hint: the load error; with "zh", FunASR's result when it is
   * taken, else Whisper's, else an error naming both failures; with "en",
   * Whisper's result or its error; otherwise the auto-detected Whisper
   * result, replaced by FunASR's when Whisper hears Chinese and FunASR's
   * result is taken.
   */
  function TranscribeResult(load: Result<(), string>, funasr: EngineRun, whisper: EngineRun, language: string): (r: AsrResult)
    ensures r.text.Some? || r.error.Some?
    ensures r != AsrResult(None, None, Some(NoEngine))
  {
    if load.Err? then
      assert ("Failed to load audio: " + load.error)[0] != NoEngine[0];
      AsrResult(None, None, Some("Failed to load audio: " + load.error))
    else if language == "zh" then
      var w := WhisperResult(whisper, "zh");
      if FunAsrAccepted(funasr) then FunAsrResult(funasr, "zh")
      else if NoError(w) then w
      else AllFailed((if Truthy(FunAsrResult(funasr, "zh").error) then ["FunASR: " + FunAsrResult(funasr, "zh").error.value] else [])
                     + ["Whisper: " + w.error.value])
    else if language == "en" then
      var w := WhisperResult(whisper, "en");
      if NoError(w) then w else AllFailed(["Whisper: " + w.error.value])
    else
      var w := WhisperResult(whisper, "auto");
      if !NoError(w) then AllFailed(["Whisper: " + w.error.value])
      else if IsChinese(w.language.value) && FunAsrAccepted(funasr) then FunAsrResult(funasr, "zh")
      else w
  }

  /**
   * The engines `transcribe` calls, in order, for the same inputs: none
   * after a failed load, each engine at most once, and FunASR only for
   * "zh" or for a recording Whisper heard as Chinese.
   */
  function TranscribeCalls(load: Result<(), string>, funasr: EngineRun, whisper: EngineRun, language: string): (r: seq<EngineCall>)
    ensures r == [] <==> load.Err?
    ensures |r| <= 2 && (|r| == 2 ==> r[0].FunAsrCall? != r[1].FunAsrCall?)
    ensures (exists i :: 0 <= i < |r| && r[i].FunAsrCall?) ==>
      load.Ok? && (language == "zh" || (language != "en" && IsChinese(WhisperResult(whisper, "auto").language.value)))
  {
    if load.Err? then []
    else if language == "zh" then
      if FunAsrAccepted(funasr) then [FunAsrCall("zh")] else [FunAsrCall("zh"), WhisperCall("zh")]
    else if language == "en" then [WhisperCall("en")]
    else
      var w := WhisperResult(whisper, "auto");
      if NoError(w) && IsChinese(w.language.value) then [WhisperCall("auto"), FunAsrCall("zh")] else [WhisperCall("auto")]
  }

  /**
   * `transcribe`: after a failed load, only the load error and no engine;
   * with "zh", FunASR then Whisper as fallback; with "en", Whisper only;
   * otherwise Whisper with automatic detection, re-run on FunASR when it
   * hears Chinese. When every engine consulted failed, the result is one
   * error naming each failure in the order the engines were tried. The
   * bare "No ASR engine available" result is never returned, and every
   * result carries a "text" or an "error".
   */
  method Transcribe(load: Result<(), string>, funasr: EngineRun, whisper: EngineRun, language: string)
    returns (result: AsrResult, consulted: seq<EngineCall>)
    ensures load.Err? ==> result == AsrResult(None, None, Some("Failed to load audio: " + load.error)) && consulted == []
    ensures load.Ok? && language == "zh" ==>
      var w := WhisperResult(whisper, "zh");
      && (FunAsrAccepted(funasr) ==> result == FunAsrResult(funasr, "zh") && consulted == [FunAsrCall("zh")])
      && (!FunAsrAccepted(funasr) ==> consulted == [FunAsrCall("zh"), WhisperCall("zh")])
      && (!FunAsrAccepted(funasr) && NoError(w) ==> result == w)
      && (!FunAsrAccepted(funasr) && !NoError(w) ==>
            result == AllFailed((if Truthy(FunAsrResult(funasr, "zh").error)
                                 then ["FunASR: " + FunAsrResult(funasr, "zh").error.value] else [])
                                + ["Whisper: " + w.error.value]))
    ensures load.Ok? && language == "en" ==>
      var w := WhisperResult(whisper, "en");
      && consulted == [WhisperCall("en")]
      && result == (if NoError(w) then w else AllFailed(["Whisper: " + w.error.value]))
    ensures load.Ok? && language != "zh" && language != "en" ==>
      var w := WhisperResult(whisper, "auto");
      && |consulted| >= 1 && consulted[0] == WhisperCall("auto")
      && (!NoError(w) ==> result == AllFailed(["Whisper: " + w.error.value]) && consulted == [WhisperCall("auto")])
      && (NoError(w) && IsChinese(w.language.value) ==>
            consulted == [WhisperCall("auto"), FunAsrCall("zh")]
            && result == if FunAsrAccepted(funasr) then FunAsrResult(funasr, "zh") else w)
      && (NoError(w) && !IsChinese(w.language.value) ==> consulted == [WhisperCall("auto")] && result == w)
    ensures result == TranscribeResult(load, funasr, whisper, language)
    ensures consulted == TranscribeCalls(load, funasr, whisper, language)
    ensures result.text.Some? || result.error.Some?
    ensures result != AsrResult(None, None, Some(NoEngine))
  {
    if load.Err? {
      assert ("Failed to load audio: " + load.error)[0] != NoEngine[0];
      return AsrResult(None, None, Some("Failed to load audio: " + load.error)), [];
    }
    var errors: seq<string> := [];
    consulted := [];
    if language == "zh" {
      var r := FunAsrResult(funasr, language);
      consulted := consulted + [FunAsrCall(language)];
      if !Truthy(r.error) && Truthy(r.text) {
        return r, consulted;
      }
      if Truthy(r.error) {
        errors := errors + ["FunASR: " + r.error.value];
      }
      r := WhisperResult(whisper, language);
      consulted := consulted + [WhisperCall(language)];
      if !Truthy(r.error) {
        return r, consulted;
      }
      errors := errors + ["Whisper: " + r.error.value];
    } else if language == "en" {
      var r := WhisperResult(whisper, language);
      consulted := consulted + [WhisperCall(language)];
      if !Truthy(r.error) {
        return r, consulted;
      }
      errors := errors + ["Whisper: " + r.error.value];
    } else {
      var r := WhisperResult(whisper, "auto");
      consulted := consulted + [WhisperCall("auto")];
      if Truthy(r.error) {
        errors := errors + ["Whisper: " + r.error.value];
      } else {
        var detected := if r.language.Some? then r.language.value else "en";
        if IsChinese(detected) {
          var f := FunAsrResult(funasr, "zh");
          consulted := consulted + [FunAsrCall("zh")];
          if !Truthy(f.error) && Truthy(f.text) {
            return f, consulted;
          }
        }
        return r, consulted;
      }
    }
    if errors != [] {
      return AllFailed(errors), consulted;
    }
    result := AsrResult(None, None, Some(NoEngine));
  }

  /** A FunASR run that produced an empty text reports no error, so it adds nothing to the error message. */
  lemma EmptyFunAsrTextNotAnError(whisperError: string)
    requires whisperError != ""
    ensures !FunAsrAccepted(Produced("", None))
    ensures !Truthy(FunAsrResult(Produced("", None), "zh").error)
    ensures var w := WhisperResult(Raised(whisperError), "zh");
      !NoError(w) && AllFailed(["Whisper: " + w.error.value]).error == Some(NoEngine + ". Whisper: " + whisperError)
  {
    assert NoEngine + ". " + ("Whisper: " + whisperError) == NoEngine + ". Whisper: " + whisperError;
  }

  /** How the process ends: its exit code, the JSON it wrote (if any) and where. */
  datatype Destination = Stdout | OutputFile(path: string) | NoOutput
  datatype ScriptOutcome = ScriptOutcome(exitCode: nat, json: Option<AsrResult>, destination: Destination)

  /** The `--language` values `main` accepts; leaving it out means "auto". */
  predicate LanguageAccepted(language: Option<string>)
  {
    language.None? || language.value in ["zh", "en", "auto"]
  }

  /**
   * The script run end to end: without numpy, an error JSON and exit code
   * 1 before any argument is read; a missing file argument or a language
   * other than zh, en or auto is a usage error with exit code 2 and no
   * JSON; a file that does not exist gives an error JSON and exit code 1;
   * otherwise the `transcribe` result, written to the `--output` file
   * when one is named and to standard output otherwise, and exit code 0;
   * an `--output` file that cannot be opened for writing raises after the
   * transcription, so the run ends with exit code 1 and no JSON.
   */
  method ScriptMain(numpyInstalled: bool, audioFile: Option<string>, language: Option<string>,
                    output: Option<string>, outputWritable: bool, fileExists: bool,
                    load: Result<(), string>, funasr: EngineRun, whisper: EngineRun)
    returns (outcome: ScriptOutcome, consulted: seq<EngineCall>)
    ensures !numpyInstalled ==>
      outcome == ScriptOutcome(1, Some(AsrResult(None, None, Some(NumpyMissing))), Stdout) && consulted == []
    ensures numpyInstalled && (audioFile.None? || !LanguageAccepted(language)) ==>
      outcome == ScriptOutcome(2, None, NoOutput) && consulted == []
    ensures numpyInstalled && audioFile.Some? && LanguageAccepted(language) && !fileExists ==>
      outcome == ScriptOutcome(1, Some(AsrResult(None, None, Some("File not found: " + audioFile.value))), Stdout)
      && consulted == []
    ensures numpyInstalled && audioFile.Some? && LanguageAccepted(language) && fileExists
            && Truthy(output) && !outputWritable ==>
      outcome == ScriptOutcome(1, None, NoOutput)
    ensures outcome.exitCode == 0 <==>
      numpyInstalled && audioFile.Some? && LanguageAccepted(language) && fileExists && (Truthy(output) ==> outputWritable)
    ensures outcome.exitCode == 0 ==>
      && outcome.json.Some? && (outcome.json.value.text.Some? || outcome.json.value.error.Some?)
      && outcome.destination == (if Truthy(output) then OutputFile(output.value) else Stdout)
    ensures numpyInstalled && audioFile.Some? && LanguageAccepted(language) && fileExists ==>
      var lang := if language.Some? then language.value else "auto";
      && consulted == TranscribeCalls(load, funasr, whisper, lang)
      && (outcome.exitCode == 0 ==> outcome.json == Some(TranscribeResult(load, funasr, whisper, lang)))
    ensures outcome.exitCode == 0 && load.Ok? && language == Some("en") ==> consulted == [WhisperCall("en")]
    ensures outcome.exitCode == 0 && load.Err? ==>
      outcome.json == Some(AsrResult(None, None, Some("Failed to load audio: " + load.error))) && consulted == []
  {
    if !numpyInstalled {
      return ScriptOutcome(1, Some(AsrResult(None, None, Some(NumpyMissing))), Stdout), [];
    }
    if audioFile.None? || !LanguageAccepted(language) {
      return ScriptOutcome(2, None, NoOutput), [];
    }
    if !fileExists {
      return ScriptOutcome(1, Some(AsrResult(None, None, Some("File not found: " + audioFile.value))), Stdout), [];
    }
    var result;
    result, consulted := Transcribe(load, funasr, whisper, if language.Some? then language.value else "auto");
    if Truthy(output) && !outputWritable {
      return ScriptOutcome(1, None, NoOutput), consulted;
    }
    var destination := if Truthy(output) then OutputFile(output.value) else Stdout;
    outcome := ScriptOutcome(0, Some(result), destination);
  }

  /** The `-l` argument the PrimeSpeech modal passes is always one the script accepts. */
  lemma LangArgAccepted(selectedLanguage: string)
    ensures LanguageAccepted(Some(PrimeSpeechCloneModal.LangArg(selectedLanguage)))
  {
  }

  /**
   * A result the script prints always moves the modal's recording status:
   * read as the JSON of a successful run, it has a "text" or an "error",
   * so the modal never keeps its status for it.
   */
  lemma PrintedResultMovesStatus(r: AsrResult, stdout: string, stderr: string)
    requires r.text.Some? || r.error.Some?
    ensures PrimeSpeechCloneModal.AsrStatus(PrimeSpeechCloneModal.Exited(true, stdout, stderr, Some(ToAsrJson(r)))).Some?
    ensures r.text.None? ==>
      PrimeSpeechCloneModal.AsrStatus(PrimeSpeechCloneModal.Exited(true, stdout, stderr, Some(ToAsrJson(r))))
        == Some(PrimeSpeechCloneModal.RecordingStatus.Error(r.error.value))
  {
  }
}
