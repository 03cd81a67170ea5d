/**
 * Built-in voice catalogue of the TTS application
 * (apps/mofa-tts/src/voice_data.rs): the voice record, its category, the
 * constant list of twelve voices and the generation status.
 */
module TtsVoiceData {
  import opened Wrappers

  /** Voice category. */
  datatype VoiceCategory = Male | Female | Character {
    /** The category's display name. */
    function AsStr(): (name: string)
      ensures name in {"Male", "Female", "Character"}
    {
      match this
      case Male => "Male"
      case Female => "Female"
      case Character => "Character"
    }
  }

  /** A voice: a unique id, a display name, a description, a category and an optional preview file. */
  datatype Voice = Voice(id: string, name: string, description: string,
                         category: VoiceCategory, previewAudio: Option<string>)

  /** TTS generation status shown by the screen. */
  datatype TtsStatus = Idle | Generating | Ready | Playing | Error(message: string)

  /** `TTSStatus::default()`. */
  function DefaultStatus(): (s: TtsStatus)
    ensures s.Idle?
  {
    Idle
  }

  /** Distinct categories have distinct display names. */
  lemma AsStrInjective(a: VoiceCategory, b: VoiceCategory)
    ensures a.AsStr() == b.AsStr() <==> a == b
  {
  }

  /** The twelve built-in voices: six Chinese, then six English. */
  function BuiltinVoices(): (vs: seq<Voice>)
    ensures |vs| == 12 && vs[0].id == "zm_yunjian"
  {
    [ Voice("zm_yunjian", "云剑 (Yunjian)", "Chinese male - wise and clear articulation", Male, None),
      Voice("zf_xiaoxiao", "小小 (Xiaoxiao)", "Chinese female - sweet and expressive", Female, None),
      Voice("zm_yunxi", "云希 (Yunxi)", "Chinese male - confident broadcaster tone", Male, None),
      Voice("zm_yunyang", "云扬 (Yunyang)", "Chinese male - young and energetic", Male, None),
      Voice("zf_xiaoni", "小妮 (Xiaoni)", "Chinese female - warm narrative voice", Female, None),
      Voice("zf_xiaoyi", "小艺 (Xiaoyi)", "Chinese female - professional and authoritative", Female, None),
      Voice("af_heart", "Heart", "American female - warm and friendly", Female, None),
      Voice("af_bella", "Bella", "American female - popular and expressive", Female, None),
      Voice("am_adam", "Adam", "American male - clear and professional", Male, None),
      Voice("am_michael", "Michael", "American male - natural and versatile", Male, None),
      Voice("bf_emma", "Emma", "British female - elegant and refined", Female, None),
      Voice("bm_george", "George", "British male - distinguished and articulate", Male, None) ]
  }

  /** No two built-in voices share an id, and none has a preview file. */
  lemma BuiltinIdsDistinct()
    ensures forall i, j :: 0 <= i < j < |BuiltinVoices()| ==> BuiltinVoices()[i].id != BuiltinVoices()[j].id
    ensures forall i :: 0 <= i < |BuiltinVoices()| ==> BuiltinVoices()[i].previewAudio == None
  {
  }
}
