/**
 * Built-in voice catalogue of the PrimeSpeech (GPT-SoVITS) application
 * (apps/mofa-primespeech/src/voice_data.rs): fifteen voices, each tagged
 * with its language.
 */
module PrimeSpeechVoiceData {
  import opened Wrappers

  /** Voice category. */
  datatype VoiceCategory = Male | Female | Character {
    /** The category's display name. */
    function AsStr(): (name: string)
      ensures name in {"Male", "Female", "Character"}
    {
      match this
      case Male => "Male"
      case Female => "Female"
      case Character => "Character"
    }
  }

  /** A voice: its id (the engine's voice name), display name, description, category, language and preview file. */
  datatype Voice = Voice(id: string, name: string, description: string, category: VoiceCategory,
                         language: string, previewAudio: Option<string>)

  /** TTS generation status. */
  datatype TtsStatus = Idle | Generating | Ready | Playing | Error(message: string)

  /** `TTSStatus::default()`. */
  function DefaultStatus(): (s: TtsStatus)
    ensures s.Idle?
  {
    Idle
  }

  /** Distinct categories have distinct display names. */
  lemma AsStrInjective(a: VoiceCategory, b: VoiceCategory)
    ensures a.AsStr() == b.AsStr() <==> a == b
  {
  }

  /** The fifteen built-in voices: ten Chinese, then five English. */
  function BuiltinVoices(): (vs: seq<Voice>)
    ensures |vs| == 15 && vs[0].id == "Doubao"
  {
    [ Voice("Doubao", "豆包 (Doubao)", "Chinese - mixed style, natural and expressive", Character, "zh", None),
      Voice("Luo Xiang", "罗翔 (Luo Xiang)", "Chinese male - law professor, articulate and thoughtful", Male, "zh", None),
      Voice("Yang Mi", "杨幂 (Yang Mi)", "Chinese female - actress, sweet and charming", Female, "zh", None),
      Voice("Zhou Jielun", "周杰伦 (Zhou Jielun)", "Chinese male - singer, unique and distinctive", Male, "zh", None),
      Voice("Ma Yun", "马云 (Ma Yun)", "Chinese male - entrepreneur, confident speaker", Male, "zh", None),
      Voice("Chen Yifan", "陈一凡 (Chen Yifan)", "Chinese male - analyst, professional tone", Male, "zh", None),
      Voice("Zhao Daniu", "赵大牛 (Zhao Daniu)", "Chinese male - podcast host, engaging narrator", Male, "zh", None),
      Voice("BYS", "BYS", "Chinese - casual and friendly", Character, "zh", None),
      Voice("Ma Baoguo", "马保国 (Ma Baoguo)", "Chinese male - martial arts master, distinctive style", Male, "zh", None),
      Voice("Shen Yi", "沈逸 (Shen Yi)", "Chinese male - professor, analytical tone", Male, "zh", None),
      Voice("Maple", "Maple", "English female - storyteller, warm and gentle", Female, "en", None),
      Voice("Cove", "Cove", "English male - commentator, clear and professional", Male, "en", None),
      Voice("Ellen", "Ellen", "English female - talk show host, energetic", Female, "en", None),
      Voice("Juniper", "Juniper", "English female - narrator, calm and soothing", Female, "en", None),
      Voice("Trump", "Trump", "English male - distinctive speaking style", Male, "en", None) ]
  }

  /** The first ten voices are Chinese and the last five English. */
  lemma BuiltinLanguages()
    ensures forall i :: 0 <= i < 10 ==> BuiltinVoices()[i].language == "zh"
    ensures forall i :: 10 <= i < 15 ==> BuiltinVoices()[i].language == "en"
  {
  }

  /** No two built-in voices share an id. */
  lemma BuiltinIdsDistinct()
    ensures forall i, j :: 0 <= i < j < |BuiltinVoices()| ==> BuiltinVoices()[i].id != BuiltinVoices()[j].id
  {
  }
}
