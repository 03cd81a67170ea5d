/**
 * The voice list widget of the TTS application
 * (apps/mofa-tts/src/voice_selector.rs): it loads the built-in voices once,
 * selects the first, lets the user pick another by clicking a list item, and
 * answers which voice is selected.
 */
module TtsVoiceSelector {
  import opened Wrappers
  import opened TtsVoiceData

  /** Widget action emitted to the screen. */
  datatype VoiceSelectorAction = VoiceSelected(voiceId: string) | PreviewRequested(voiceId: string)

  /** `iter().find(|v| v.id == id)`: the first voice with that id. */
  function FindById(voices: seq<Voice>, id: string): (r: Option<Voice>)
    ensures r.Some? <==> exists i :: 0 <= i < |voices| && voices[i].id == id
    ensures r.Some? ==> exists i :: 0 <= i < |voices| && voices[i] == r.value
                                    && r.value.id == id
                                    && forall j :: 0 <= j < i ==> voices[j].id != id
  {
    if voices == [] then None
    else if voices[0].id == id then Some(voices[0])
    else
      var r := FindById(voices[1..], id);
      assert forall j :: 1 <= j < |voices| ==> voices[j] == voices[1..][j - 1];
      r
  }

  /** With pairwise distinct ids, the voice found for the id of item i is item i itself. */
  lemma FindByIdOfDistinct(voices: seq<Voice>, i: nat)
    requires i < |voices|
    requires forall a, b :: 0 <= a < b < |voices| ==> voices[a].id != voices[b].id
    ensures FindById(voices, voices[i].id) == Some(voices[i])
  {
    var r := FindById(voices, voices[i].id);
    var k :| 0 <= k < |voices| && voices[k] == r.value && r.value.id == voices[i].id
             && forall j :: 0 <= j < k ==> voices[j].id != voices[i].id;
    if k < i {
      assert voices[k].id == voices[i].id;
    }
  }

  class VoiceSelector {
    var voices: seq<Voice>
    var selectedVoiceId: Option<string>
    var initialized: bool
    /** Actions emitted so far, oldest first. */
    var emitted: seq<VoiceSelectorAction>

    /**
     * Before initialisation nothing is loaded or selected; afterwards the
     * list is the built-in catalogue and the selected id names one of its voices.
     */
    ghost predicate Valid()
      reads this
    {
      && (!initialized ==> voices == [] && selectedVoiceId == None)
      && (initialized ==> voices == BuiltinVoices())
      && (selectedVoiceId.Some? ==> FindById(voices, selectedVoiceId.value).Some?)
    }

    constructor ()
      ensures Valid()
      ensures voices == [] && selectedVoiceId == None && !initialized && emitted == []
    {
      voices := [];
      selectedVoiceId := None;
      initialized := false;
      emitted := [];
    }

    /** The one-time initialisation that both event handling and drawing run first. */
    method EnsureInitialized()
      requires Valid()
      modifies this
      ensures Valid() && initialized
      ensures old(initialized) ==> voices == old(voices) && selectedVoiceId == old(selectedVoiceId)
      ensures !old(initialized) ==> voices == BuiltinVoices()
                                    && selectedVoiceId == Some(BuiltinVoices()[0].id)
      ensures emitted == old(emitted)
    {
      if !initialized {
        voices := BuiltinVoices();
        if |voices| > 0 {
          selectedVoiceId := Some(voices[0].id);
          assert FindById(voices, voices[0].id).Some?;
        }
        initialized := true;
      }
    }

    /** Event handling for a click on list item `itemId` (after the initialisation step). */
    method HandleItemClick(itemId: nat)
      requires Valid()
      modifies this
      ensures Valid() && initialized && voices == BuiltinVoices()
      ensures itemId < |voices| ==> selectedVoiceId == Some(voices[itemId].id)
                                    && emitted == old(emitted) + [VoiceSelected(voices[itemId].id)]
      ensures itemId >= |voices| ==> emitted == old(emitted)
                                     && (old(initialized) ==> selectedVoiceId == old(selectedVoiceId))
    {
      EnsureInitialized();
      if itemId < |voices| {
        var voiceId := voices[itemId].id;
        selectedVoiceId := Some(voiceId);
        assert FindById(voices, voiceId).Some?;
        emitted := emitted + [VoiceSelected(voiceId)];
      }
    }

    /** Whether list item `itemId` is drawn with the selection highlight. */
    function IsDrawnSelected(itemId: nat): (selected: bool)
      reads this
      requires itemId < |voices|
      ensures selected <==> selectedVoiceId == Some(voices[itemId].id)
    {
      match selectedVoiceId
      case None => false
      case Some(id) => id == voices[itemId].id
    }

    /** The selected voice: the first loaded voice whose id is the selected id. */
    function SelectedVoice(): (r: Option<Voice>)
      reads this
      ensures r.Some? ==> selectedVoiceId == Some(r.value.id) && r.value in voices
      ensures selectedVoiceId.None? ==> r.None?
    {
      match selectedVoiceId
      case None => None
      case Some(id) => FindById(voices, id)
    }

    /** The selected voice id, as stored; in a valid widget it names the selected voice. */
    function SelectedVoiceId(): (r: Option<string>)
      reads this
      ensures Valid() ==> (r.Some? <==> SelectedVoice().Some?)
      ensures Valid() && r.Some? ==> r.value == SelectedVoice().value.id
    {
      selectedVoiceId
    }

    /** After a click on item i, exactly item i is drawn selected and it is the selected voice. */
    lemma ClickedItemIsSelected(i: nat)
      requires Valid() && initialized && i < |voices|
      requires selectedVoiceId == Some(voices[i].id)
      ensures SelectedVoice() == Some(voices[i])
      ensures forall j :: 0 <= j < |voices| ==> (IsDrawnSelected(j) <==> j == i)
    {
      BuiltinIdsDistinct();
      FindByIdOfDistinct(voices, i);
    }
  }
}
