/**
 * The TTS screen controller (apps/mofa-tts/src/screen.rs): the status of
 * the generate/play cycle, the stored audio, the log panel, and the calls
 * it makes on the dataflow supervisor and the audio player.
 *
 * Widgets are reduced to the values the controller reads from them (the
 * text input's text, the voice selector's selected id); the audio player
 * is reduced to the log of calls made on it and, on each timer tick,
 * whether it is still playing.
 */
module TtsScreen {
  import opened Wrappers
  import opened Text
  import opened TtsVoiceData
  import opened TtsVoiceSelector
  import opened TtsLogPreview
  import TtsWav
  import Dora = TtsDoraIntegration

  const DefaultVoiceId: string := "zm_yunjian"
  const DefaultVoiceName: string := "Luo Xiang"
  const DataflowPath: string := "apps/mofa-tts/dataflow/tts.yml"
  const OutputSampleRate: int := 24000
  /** `audio_playing_time` grows by 0.1 per idle tick and must exceed 0.5: six ticks. */
  const PlaybackSettleTicks: nat := 5
  const DefaultLogPanelWidth: real := 320.0

  const NotConnectedLog: string := "[WARN] [tts] Bridge not connected. Please start MoFA first."
  const EmptyTextLog: string := "[WARN] [tts] Please enter some text to convert to speech."
  const PromptSentLog: string := "[INFO] [tts] Prompt sent to TTS engine"
  const SendFailedLog: string := "[ERROR] [tts] Failed to send prompt to Dora"
  const SendFailedStatus: string := "Failed to send prompt"

  /** A sample rate as the code stores it, a `u32`. */
  type SampleRate = x: int | 0 <= x < TtsWav.U32Mod

  /** A chunk of synthesised audio the dataflow delivered. */
  datatype AudioChunk = AudioChunk(samples: seq<real>, sampleRate: SampleRate)

  /** A call made on the audio player. */
  datatype PlayerCall = WriteAudio(samples: seq<real>) | Pause | StopPlayer

  /** The text shown in the player bar's status label. */
  function StatusText(status: TtsStatus): (text: string)
    ensures status.Error? ==> text == status.message
  {
    match status
    case Idle => "Ready"
    case Generating => "Generating..."
    case Playing => "Playing"
    case Ready => "Audio Ready"
    case Error(message) => message
  }

  /** The four fixed labels tell their statuses apart. */
  lemma StatusTextDistinct(a: TtsStatus, b: TtsStatus)
    requires !a.Error? && !b.Error?
    ensures StatusText(a) == StatusText(b) <==> a == b
  {
  }

  /** `get_voice_by_id`: the display name of a voice id. */
  function VoiceDisplayName(voiceId: string): (name: Option<string>)
    ensures name.Some?
  {
    match voiceId
    case "zm_yunjian" => Some("Luo Xiang")
    case "zf_xiaoxiao" => Some("Xiao Xiao")
    case "zf_xiaoyi" => Some("Xiao Yi")
    case "zm_yunxi" => Some("Yun Xi")
    case "zm_yunyang" => Some("Yun Yang")
    case "zf_yunxia" => Some("Yun Xia")
    case _ => Some(voiceId)
  }

  /** The ids with a display name of their own. */
  function NamedVoiceIds(): seq<string>
  {
    ["zm_yunjian", "zf_xiaoxiao", "zf_xiaoyi", "zm_yunxi", "zm_yunyang", "zf_yunxia"]
  }

  /**
   * The six named ids get six different names, each different from the
   * id itself; every other id is shown as itself.
   */
  lemma NamedVoicesDistinct(a: string, b: string)
    ensures a in NamedVoiceIds() && b in NamedVoiceIds() ==> (VoiceDisplayName(a) == VoiceDisplayName(b) <==> a == b)
    ensures a !in NamedVoiceIds() ==> VoiceDisplayName(a) == Some(a)
    ensures a in NamedVoiceIds() ==> VoiceDisplayName(a) != Some(a)
  {
  }

  /** The default voice's display name is the one shown at start-up. */
  lemma DefaultVoiceNamed()
    ensures VoiceDisplayName(DefaultVoiceId) == Some(DefaultVoiceName)
    ensures BuiltinVoices()[0].id == DefaultVoiceId
  {
  }

  /** The prompt the TTS node receives. */
  function PromptFor(voiceId: string, text: string): string
  {
    "VOICE:" + voiceId + "|" + text
  }

  /** The prompt is "VOICE:", the voice id, a bar, then the text, each at a fixed offset. */
  lemma PromptForLayout(voiceId: string, text: string)
    ensures var prompt := PromptFor(voiceId, text);
      && |prompt| == 7 + |voiceId| + |text| && prompt[..6] == "VOICE:"
      && prompt[6..6 + |voiceId|] == voiceId && prompt[6 + |voiceId|] == '|' && prompt[7 + |voiceId|..] == text
  {
  }

  /** Splits a prompt at the first '|' after the "VOICE:" prefix. */
  function ParsePrompt(prompt: string): (r: Option<(string, string)>)
    ensures r.Some? ==> prompt == PromptFor(r.value.0, r.value.1) && '|' !in r.value.0
  {
    if |prompt| < 6 || prompt[..6] != "VOICE:" then None
    else
      match SplitAtBar(prompt[6..])
      case None => None
      case Some(parts) =>
        assert prompt == prompt[..6] + prompt[6..];
        Some(parts)
  }

  function SplitAtBar(s: string): (r: Option<(string, string)>)
    ensures r.Some? ==> s == r.value.0 + "|" + r.value.1 && '|' !in r.value.0
    ensures r.None? ==> '|' !in s
  {
    if s == [] then None
    else if s[0] == '|' then
      assert s == [] + "|" + s[1..];
      Some(([], s[1..]))
    else
      match SplitAtBar(s[1..])
      case None => None
      case Some((id, text)) =>
        assert s == [s[0]] + s[1..];
        Some(([s[0]] + id, text))
  }

  /** A voice id without '|' is recovered from the prompt together with the full text. */
  lemma PromptRoundTrip(voiceId: string, text: string)
    requires '|' !in voiceId
    ensures ParsePrompt(PromptFor(voiceId, text)) == Some((voiceId, text))
  {
    var p := PromptFor(voiceId, text);
    assert p[..6] == "VOICE:";
    assert p[6..] == voiceId + "|" + text;
    SplitAtBarRoundTrip(voiceId, text);
  }

  lemma {:induction false} SplitAtBarRoundTrip(voiceId: string, text: string)
    requires '|' !in voiceId
    ensures SplitAtBar(voiceId + "|" + text) == Some((voiceId, text))
    decreases |voiceId|
  {
    var s := voiceId + "|" + text;
    if voiceId == [] {
      assert s[1..] == text;
    } else {
      assert s[0] == voiceId[0] && s[0] != '|';
      assert s[1..] == voiceId[1..] + "|" + text;
      SplitAtBarRoundTrip(voiceId[1..], text);
      assert [voiceId[0]] + voiceId[1..] == voiceId;
    }
  }

  /** Every built-in voice id survives the prompt format. */
  lemma BuiltinIdsFitPrompt(i: nat, text: string)
    requires i < |BuiltinVoices()|
    ensures ParsePrompt(PromptFor(BuiltinVoices()[i].id, text)) == Some((BuiltinVoices()[i].id, text))
  {
    var id := BuiltinVoices()[i].id;
    assert id in {"zm_yunjian", "zf_xiaoxiao", "zm_yunxi", "zm_yunyang", "zf_xiaoni", "zf_xiaoyi",
                  "af_heart", "af_bella", "am_adam", "am_michael", "bf_emma", "bm_george"};
    assert '|' !in id;
    PromptRoundTrip(id, text);
  }

  /** The voice used when the selector has none selected. */
  function VoiceIdOrDefault(selected: Option<string>): (voiceId: string)
    ensures selected.Some? ==> voiceId == selected.value
    ensures selected.None? ==> voiceId == DefaultVoiceId
  {
    match selected
    case None => DefaultVoiceId
    case Some(id) => id
  }

  /** The log line naming the text being spoken, by its preview. */
  function GeneratingLog(preview: string): string
  {
    "[INFO] [tts] Generating speech for: '" + preview + "'"
  }

  function UsingVoiceLog(voiceId: string): string
  {
    "[INFO] [tts] Using voice: " + voiceId
  }

  /** The log line when audio first arrives; the f32 duration's one-decimal rendering is an input. */
  function AudioGeneratedLog(sampleCount: nat, durationText: string): string
  {
    "[INFO] [tts] Audio generated: " + DecimalString(sampleCount) + " samples, " + durationText + "s duration"
  }

  /** All samples of the chunks, in delivery order. */
  function ChunkSamples(chunks: seq<AudioChunk>): seq<real>
  {
    if chunks == [] then [] else ChunkSamples(chunks[..|chunks| - 1]) + chunks[|chunks| - 1].samples
  }

  /** Delivering chunks in two batches stores the same samples as one batch. */
  lemma {:induction false} ChunkSamplesAppend(a: seq<AudioChunk>, b: seq<AudioChunk>)
    ensures ChunkSamples(a + b) == ChunkSamples(a) + ChunkSamples(b)
    decreases |b|
  {
    if b == [] {
      assert a + b == a;
    } else {
      var n := |b| - 1;
      assert (a + b)[..|a + b| - 1] == a + b[..n];
      ChunkSamplesAppend(a, b[..n]);
    }
  }

  /** Each chunk contributes all its samples: the total is the sum of the chunk lengths. */
  lemma {:induction false} ChunkSamplesLength(chunks: seq<AudioChunk>)
    ensures |ChunkSamples(chunks)| == SampleCount(chunks)
    decreases |chunks|
  {
    if chunks != [] {
      ChunkSamplesLength(chunks[..|chunks| - 1]);
      SampleCountSnoc(chunks[..|chunks| - 1], chunks[|chunks| - 1]);
      assert chunks[..|chunks| - 1] + [chunks[|chunks| - 1]] == chunks;
    }
  }

  function SampleCount(chunks: seq<AudioChunk>): nat
  {
    if chunks == [] then 0 else |chunks[0].samples| + SampleCount(chunks[1..])
  }

  lemma {:induction false} SampleCountSnoc(chunks: seq<AudioChunk>, c: AudioChunk)
    ensures SampleCount(chunks + [c]) == SampleCount(chunks) + |c.samples|
    decreases |chunks|
  {
    if chunks != [] {
      assert (chunks + [c])[1..] == chunks[1..] + [c];
      SampleCountSnoc(chunks[1..], c);
    }
  }

  /** The log panel's text: a placeholder, or the entries separated by blank lines. */
  function LogDisplayText(entries: seq<string>): (text: string)
    ensures entries == [] ==> text == "*No log entries*"
    ensures |entries| == 1 ==> text == entries[0]
  {
    if entries == [] then "*No log entries*" else Join(entries, "\n\n")
  }

  /** A new entry appears at the end of the panel, after a blank line. */
  lemma LogDisplayAppend(entries: seq<string>, entry: string)
    requires entries != []
    ensures LogDisplayText(entries + [entry]) == LogDisplayText(entries) + "\n\n" + entry
  {
    JoinSnoc(entries, entry, "\n\n");
  }

  const InitializedLog: string := "[INFO] [tts] MoFA TTS initialized"
  const DefaultVoiceLog: string := "[INFO] [tts] Default voice: Luo Xiang (zm_yunjian)"
  const ClickStartLog: string := "[INFO] [tts] Click 'Start' to connect to MoFA bridge"
  const PausedLog: string := "[INFO] [tts] Playback paused"
  const PlayingLog: string := "[INFO] [tts] Playing audio..."
  const NoAudioLog: string := "[WARN] [tts] No audio to play"
  const StoppedLog: string := "[INFO] [tts] Playback stopped"
  const DataflowMissingLog: string := "[ERROR] [tts] Dataflow file not found: apps/mofa-tts/dataflow/tts.yml"
  const StartingDataflowLog: string := "[INFO] [tts] Starting TTS dataflow..."
  const DataflowStartedLog: string := "[INFO] [tts] Dataflow started, connecting..."
  const ConnectedLog: string := "[INFO] [tts] Connected to MoFA bridge"
  const StoppingDataflowLog: string := "[INFO] [tts] Stopping TTS dataflow..."
  const DataflowStoppedLog: string := "[INFO] [tts] Dataflow stopped"

  class TtsScreen {
    var ttsStatus: TtsStatus
    var dora: Dora.DoraIntegration?
    var voiceSelector: VoiceSelector
    var logEntries: seq<string>
    var logsInitialized: bool
    var storedSamples: seq<real>
    var storedSampleRate: SampleRate
    var currentVoiceName: string
    var logPanelCollapsed: bool
    var logPanelWidth: real
    /** Timer ticks since playback was started on which the player was idle (`audio_playing_time`, in tenths). */
    var playbackIdleTicks: nat
    /** Calls made on the audio player, oldest first. */
    var playerCalls: seq<PlayerCall>

    /** The supervisor, once created, keeps its own invariant. */
    ghost predicate Valid()
      reads this, dora
    {
      dora != null ==> dora.Valid()
    }

    /** Whether the supervisor exists and reports a running dataflow. */
    function BridgeRunning(): bool
      reads this, dora
    {
      dora != null && dora.running
    }

    /** The commands queued on the supervisor. */
    function QueuedCommands(): seq<Dora.DoraCommand>
      reads this, dora
    {
      if dora == null then [] else dora.commandQueue
    }

    /** The widget as created: fields at their defaults, no supervisor yet. */
    constructor ()
      ensures Valid() && fresh(voiceSelector)
      ensures ttsStatus == Idle && dora == null && logEntries == [] && !logsInitialized
      ensures storedSamples == [] && storedSampleRate == 0 && currentVoiceName == ""
      ensures !logPanelCollapsed && logPanelWidth == 0.0 && playbackIdleTicks == 0 && playerCalls == []
    {
      ttsStatus := DefaultStatus();
      dora := null;
      voiceSelector := new VoiceSelector();
      logEntries := [];
      logsInitialized := false;
      storedSamples := [];
      storedSampleRate := 0;
      currentVoiceName := "";
      logPanelCollapsed := false;
      logPanelWidth := 0.0;
      playbackIdleTicks := 0;
      playerCalls := [];
    }

    /** The start of `handle_event`: one-time log set-up, then the supervisor on first use. */
    method InitializeOnEvent(now: int)
      requires Valid()
      modifies this`logsInitialized, this`storedSampleRate, this`currentVoiceName, this`logEntries, this`dora
      ensures Valid() && logsInitialized && dora != null && voiceSelector == old(voiceSelector)
      ensures !old(logsInitialized) ==>
        && storedSampleRate == OutputSampleRate && currentVoiceName == DefaultVoiceName
        && logEntries == old(logEntries) + [InitializedLog,
                                            DefaultVoiceLog,
                                            ClickStartLog]
      ensures old(logsInitialized) ==> logEntries == old(logEntries) && storedSampleRate == old(storedSampleRate)
                                       && currentVoiceName == old(currentVoiceName)
      ensures old(dora) != null ==> dora == old(dora)
      ensures old(dora) == null ==> fresh(dora) && dora.State() == Dora.InitialWorker(now) && dora.commandQueue == []
      ensures ttsStatus == old(ttsStatus) && storedSamples == old(storedSamples) && playerCalls == old(playerCalls)
      ensures logPanelCollapsed == old(logPanelCollapsed) && logPanelWidth == old(logPanelWidth)
              && playbackIdleTicks == old(playbackIdleTicks)
    {
      if !logsInitialized {
        logsInitialized := true;
        storedSampleRate := OutputSampleRate;
        currentVoiceName := DefaultVoiceName;
        logEntries := logEntries + [InitializedLog];
        logEntries := logEntries + [DefaultVoiceLog];
        logEntries := logEntries + [ClickStartLog];
      }
      if dora == null {
        dora := new Dora.DoraIntegration(now);
      }
    }

    method AddLog(message: string)
      modifies this`logEntries
      ensures logEntries == old(logEntries) + [message]
    {
      logEntries := logEntries + [message];
    }

    /**
     * `generate_speech`: needs a running bridge and non-empty text; then the
     * log preview is cut at byte 50, which panics (`panicked`) with nothing
     * changed when byte 50 falls inside a character; otherwise it logs,
     * clears the stored audio, enters Generating and queues the prompt,
     * falling to an error status when the queue refuses it.
     */
    method GenerateSpeech(text: string) returns (panicked: bool)
      requires Valid()
      modifies this`logEntries, this`storedSamples, this`storedSampleRate, this`ttsStatus, this`playerCalls,
               dora
      ensures Valid() && dora == old(dora) && voiceSelector == old(voiceSelector)
      ensures currentVoiceName == old(currentVoiceName) && logsInitialized == old(logsInitialized)
              && logPanelCollapsed == old(logPanelCollapsed) && logPanelWidth == old(logPanelWidth)
              && playbackIdleTicks == old(playbackIdleTicks)
      ensures dora != null ==>
        dora.State() == old(dora.State()) && dora.stopSignal == old(dora.stopSignal) && dora.workerExited == old(dora.workerExited)
      ensures panicked <==> old(BridgeRunning()) && text != [] && LogPreviewAsWritten(text).None?
      ensures !old(BridgeRunning()) ==>
        && logEntries == old(logEntries) + [NotConnectedLog]
        && ttsStatus == old(ttsStatus) && storedSamples == old(storedSamples)
        && QueuedCommands() == old(QueuedCommands()) && playerCalls == old(playerCalls)
      ensures old(BridgeRunning()) && text == [] ==>
        && logEntries == old(logEntries) + [EmptyTextLog]
        && ttsStatus == old(ttsStatus) && storedSamples == old(storedSamples)
        && QueuedCommands() == old(QueuedCommands()) && playerCalls == old(playerCalls)
      ensures panicked ==>
        && logEntries == old(logEntries) && ttsStatus == old(ttsStatus)
        && storedSamples == old(storedSamples) && storedSampleRate == old(storedSampleRate)
        && QueuedCommands() == old(QueuedCommands()) && playerCalls == old(playerCalls)
      ensures old(BridgeRunning()) && text != [] && !panicked ==>
        var voiceId := VoiceIdOrDefault(voiceSelector.selectedVoiceId);
        var accepted := |old(QueuedCommands())| < Dora.CommandCapacity;
        && storedSamples == [] && storedSampleRate == OutputSampleRate
        && QueuedCommands() == old(QueuedCommands()) + (if accepted then [Dora.SendPrompt(PromptFor(voiceId, text))] else [])
        && ttsStatus == (if accepted then Generating else Error(SendFailedStatus))
        && logEntries == old(logEntries) + [GeneratingLog(LogPreviewAsWritten(text).value), UsingVoiceLog(voiceId),
                                            if accepted then PromptSentLog else SendFailedLog]
        && playerCalls == old(playerCalls) + [StopPlayer]
    {
      panicked := false;
      var isRunning := dora != null && dora.running;
      if !isRunning {
        AddLog(NotConnectedLog);
        return;
      }
      if text == [] {
        AddLog(EmptyTextLog);
        return;
      }
      var preview := LogPreviewAsWritten(text);
      if preview.None? {
        return true;
      }
      SubmitPrompt(text, preview.value);
    }

    /** The part of `generate_speech` past its two checks and the preview. */
    method SubmitPrompt(text: string, preview: string)
      requires Valid() && dora != null
      modifies this`logEntries, this`storedSamples, this`storedSampleRate, this`ttsStatus, this`playerCalls,
               dora`commandQueue
      ensures Valid()
      ensures var voiceId := VoiceIdOrDefault(voiceSelector.selectedVoiceId);
        var accepted := |old(dora.commandQueue)| < Dora.CommandCapacity;
        && storedSamples == [] && storedSampleRate == OutputSampleRate
        && dora.commandQueue == old(dora.commandQueue) + (if accepted then [Dora.SendPrompt(PromptFor(voiceId, text))] else [])
        && ttsStatus == (if accepted then Generating else Error(SendFailedStatus))
        && logEntries == old(logEntries) + [GeneratingLog(preview)] + [UsingVoiceLog(voiceId)]
                         + [if accepted then PromptSentLog else SendFailedLog]
        && playerCalls == old(playerCalls) + [StopPlayer]
      ensures dora.running == old(dora.running)
    {
      logEntries := logEntries + [GeneratingLog(preview)];
      var voiceId := VoiceIdOrDefault(voiceSelector.selectedVoiceId);
      logEntries := logEntries + [UsingVoiceLog(voiceId)];
      storedSamples := [];
      storedSampleRate := OutputSampleRate;
      ttsStatus := Generating;
      var prompt := PromptFor(voiceId, text);
      var sent := dora.SendPromptText(prompt);
      if sent {
        logEntries := logEntries + [PromptSentLog];
      } else {
        logEntries := logEntries + [SendFailedLog];
        ttsStatus := Error(SendFailedStatus);
      }
      playerCalls := playerCalls + [StopPlayer];
    }

    /** `toggle_playback`: pause when playing, else play the stored audio if there is any. */
    method TogglePlayback()
      modifies this`ttsStatus, this`playerCalls, this`playbackIdleTicks, this`logEntries
      ensures old(ttsStatus) == Playing ==>
        ttsStatus == Ready && playerCalls == old(playerCalls) + [Pause]
        && logEntries == old(logEntries) + [PausedLog]
        && playbackIdleTicks == old(playbackIdleTicks)
      ensures old(ttsStatus) != Playing && storedSamples != [] ==>
        ttsStatus == Playing && playbackIdleTicks == 0
        && playerCalls == old(playerCalls) + [WriteAudio(storedSamples)]
        && logEntries == old(logEntries) + [PlayingLog]
      ensures old(ttsStatus) != Playing && storedSamples == [] ==>
        ttsStatus == old(ttsStatus) && playerCalls == old(playerCalls)
        && playbackIdleTicks == old(playbackIdleTicks)
        && logEntries == old(logEntries) + [NoAudioLog]
    {
      if ttsStatus == Playing {
        playerCalls := playerCalls + [Pause];
        ttsStatus := Ready;
        AddLog(PausedLog);
      } else if storedSamples != [] {
        playerCalls := playerCalls + [WriteAudio(storedSamples)];
        ttsStatus := Playing;
        playbackIdleTicks := 0;
        AddLog(PlayingLog);
      } else {
        AddLog(NoAudioLog);
      }
    }

    /** `stop_playback`: stops the player; only a playing status changes, to Ready. */
    method StopPlayback()
      modifies this`ttsStatus, this`playerCalls, this`logEntries
      ensures playerCalls == old(playerCalls) + [StopPlayer]
      ensures old(ttsStatus) == Playing ==>
        ttsStatus == Ready && logEntries == old(logEntries) + [StoppedLog]
      ensures old(ttsStatus) != Playing ==> ttsStatus == old(ttsStatus) && logEntries == old(logEntries)
    {
      playerCalls := playerCalls + [StopPlayer];
      if ttsStatus == Playing {
        ttsStatus := Ready;
        AddLog(StoppedLog);
      }
    }

    /** The `for audio in chunks` loop: extend the stored samples, keep the last chunk's rate. */
    method StoreChunks(chunks: seq<AudioChunk>)
      requires chunks != []
      modifies this`storedSamples, this`storedSampleRate
      ensures storedSamples == old(storedSamples) + ChunkSamples(chunks)
      ensures storedSampleRate == chunks[|chunks| - 1].sampleRate
    {
      var i := 0;
      while i < |chunks|
        invariant 0 <= i <= |chunks|
        invariant storedSamples == old(storedSamples) + ChunkSamples(chunks[..i])
        invariant i > 0 ==> storedSampleRate == chunks[i - 1].sampleRate
      {
        assert chunks[..i + 1][..i] == chunks[..i];
        storedSamples := storedSamples + chunks[i].samples;
        storedSampleRate := chunks[i].sampleRate;
        i := i + 1;
      }
      assert chunks[..i] == chunks;
    }

    /**
     * The timer branch of `handle_event`: audio drained from a running
     * dataflow is stored and turns Generating into Ready; an idle player
     * turns Playing into Ready on the sixth tick; log lines from the log
     * bridge are appended.
     */
    method PollTick(chunks: seq<AudioChunk>, durationText: string, playerIsPlaying: bool, bridgeLogs: seq<string>)
      requires Valid()
      modifies this`storedSamples, this`storedSampleRate, this`ttsStatus, this`logEntries, this`playbackIdleTicks
      ensures Valid()
      ensures var delivered := old(BridgeRunning()) && chunks != [];
        && storedSamples == old(storedSamples) + (if delivered then ChunkSamples(chunks) else [])
        && storedSampleRate == (if delivered then chunks[|chunks| - 1].sampleRate else old(storedSampleRate))
        && (old(ttsStatus) == Generating ==> ttsStatus == (if delivered then Ready else Generating))
        && logEntries == old(logEntries)
                         + (if delivered && old(ttsStatus) == Generating
                            then [AudioGeneratedLog(|storedSamples|, durationText)] else [])
                         + bridgeLogs
      ensures old(ttsStatus) == Playing ==>
        if playerIsPlaying then ttsStatus == Playing && playbackIdleTicks == old(playbackIdleTicks)
        else playbackIdleTicks == old(playbackIdleTicks) + 1
             && ttsStatus == (if playbackIdleTicks > PlaybackSettleTicks then Ready else Playing)
      ensures old(ttsStatus) != Generating && old(ttsStatus) != Playing ==>
        ttsStatus == old(ttsStatus) && playbackIdleTicks == old(playbackIdleTicks)
      ensures old(ttsStatus) == Generating ==> playbackIdleTicks == old(playbackIdleTicks)
    {
      if dora != null && dora.running && chunks != [] {
        StoreChunks(chunks);
        if ttsStatus == Generating {
          AddLog(AudioGeneratedLog(|storedSamples|, durationText));
          ttsStatus := Ready;
        }
      }
      if ttsStatus == Playing && !playerIsPlaying {
        playbackIdleTicks := playbackIdleTicks + 1;
        if playbackIdleTicks > PlaybackSettleTicks {
          ttsStatus := Ready;
        }
      }
      logEntries := logEntries + bridgeLogs;
    }

    /** A voice-selector action: a selection updates the shown voice name; both are logged. */
    method HandleVoiceSelectorAction(action: VoiceSelectorAction)
      modifies this`currentVoiceName, this`logEntries
      ensures action.VoiceSelected? ==>
        currentVoiceName == VoiceDisplayName(action.voiceId).value
        && logEntries == old(logEntries) + ["[INFO] [tts] Voice selected: " + action.voiceId]
      ensures action.PreviewRequested? ==>
        currentVoiceName == old(currentVoiceName)
        && logEntries == old(logEntries) + ["[INFO] [tts] Voice preview: " + action.voiceId]
    {
      match action {
        case VoiceSelected(voiceId) =>
          var voice := VoiceDisplayName(voiceId);
          if voice.Some? {
            currentVoiceName := voice.value;
          }
          AddLog("[INFO] [tts] Voice selected: " + voiceId);
        case PreviewRequested(voiceId) =>
          AddLog("[INFO] [tts] Voice preview: " + voiceId);
      }
    }

    /** The clear-log button. */
    method ClearLogs()
      modifies this`logEntries
      ensures logEntries == []
    {
      logEntries := [];
    }

    /** Flips the collapsed flag; a width never set becomes 320. */
    method ToggleLogPanel()
      modifies this`logPanelCollapsed, this`logPanelWidth
      ensures logPanelCollapsed == !old(logPanelCollapsed)
      ensures logPanelWidth == if old(logPanelWidth) == 0.0 then DefaultLogPanelWidth else old(logPanelWidth)
    {
      logPanelCollapsed := !logPanelCollapsed;
      if logPanelWidth == 0.0 {
        logPanelWidth := DefaultLogPanelWidth;
      }
    }

    /**
     * `start_dora`: only with a supervisor whose dataflow is not running;
     * a missing dataflow file is logged; otherwise a start is queued.
     */
    method StartDora(dataflowExists: bool)
      requires Valid()
      modifies this`logEntries, dora
      ensures Valid()
      ensures dora != null ==>
        dora.State() == old(dora.State()) && dora.stopSignal == old(dora.stopSignal) && dora.workerExited == old(dora.workerExited)
      ensures old(dora == null || dora.running) ==> logEntries == old(logEntries) && QueuedCommands() == old(QueuedCommands())
      ensures old(dora != null && !dora.running) && !dataflowExists ==>
        logEntries == old(logEntries) + [DataflowMissingLog]
        && QueuedCommands() == old(QueuedCommands())
      ensures old(dora != null && !dora.running) && dataflowExists ==>
        && logEntries == old(logEntries) + [StartingDataflowLog,
                                            DataflowStartedLog,
                                            ConnectedLog]
        && QueuedCommands() == old(QueuedCommands())
                               + (if |old(QueuedCommands())| < Dora.CommandCapacity
                                  then [Dora.StartDataflow(DataflowPath, map[])] else [])
      ensures dora != null ==> dora.running == old(dora.running)
    {
      var shouldStart := dora != null && !dora.running;
      if !shouldStart {
        return;
      }
      if !dataflowExists {
        AddLog(DataflowMissingLog);
        return;
      }
      AddLog(StartingDataflowLog);
      var _ := dora.StartDataflowAt(DataflowPath);
      AddLog(DataflowStartedLog);
      AddLog(ConnectedLog);
    }

    /** `stop_dora`: with a supervisor, queues a stop between two log lines. */
    method StopDora()
      requires Valid()
      modifies this`logEntries, dora
      ensures Valid()
      ensures dora != null ==>
        dora.State() == old(dora.State()) && dora.stopSignal == old(dora.stopSignal) && dora.workerExited == old(dora.workerExited)
      ensures dora == null ==> logEntries == old(logEntries)
      ensures dora != null ==>
        && logEntries == old(logEntries) + [StoppingDataflowLog, DataflowStoppedLog]
        && QueuedCommands() == old(QueuedCommands())
                               + (if |old(QueuedCommands())| < Dora.CommandCapacity then [Dora.StopDataflow] else [])
        && dora.running == old(dora.running)
    {
      if dora == null {
        return;
      }
      AddLog(StoppingDataflowLog);
      var _ := dora.RequestStop();
      AddLog(DataflowStoppedLog);
    }

    /** `write_wav_file`: the bytes written for the stored audio. */
    method WriteWavFile() returns (written: seq<TtsWav.byte>)
      ensures written == TtsWav.WavHeader(|storedSamples|, storedSampleRate) + TtsWav.DataBytes(storedSamples)
      ensures |written| == TtsWav.HeaderSize as int + 2 * |storedSamples|
    {
      written := TtsWav.WriteWavFile(storedSamples, storedSampleRate);
    }
  }
}
