/** Voice and style selection in `speak`. Synthesis, the temporary file and
    playback are not part of this model. */
module TtsPlayer {
  import opened Wrappers
  import opened Strings

  /** The synthesis settings `speak` hands to the speech service. */
  datatype Voice = Voice(name: string, style: string)

  const DefaultVoice := "en-IN-NeerjaNeural"

  /** The fixed voice table, keyed by (language tag, upper-cased gender). */
  function VoiceMap(lang: string, gender: string): (r: Option<string>)
    // Exactly the two Indian language tags and the two genders have a voice,
    // and each voice is named after the tag it speaks.
    ensures r.Some? <==> (lang == "ta-IN" || lang == "en-IN") && (gender == "MALE" || gender == "FEMALE")
    ensures r.Some? ==> |lang| < |r.value| && r.value[..|lang|] == lang
  {
    if lang == "ta-IN" && gender == "MALE" then Some("ta-IN-ValluvarNeural")
    else if lang == "ta-IN" && gender == "FEMALE" then Some("ta-IN-PallaviNeural")
    else if lang == "en-IN" && gender == "FEMALE" then Some("en-IN-NeerjaNeural")
    else if lang == "en-IN" && gender == "MALE" then Some("en-IN-PrabhatNeural")
    else None
  }

  /** `speak(text, lang=..., gender=...)` up to synthesis: nothing for blank
      text; otherwise lang defaults to "en-IN", gender to "FEMALE" and is
      upper-cased, unknown pairs fall back to Neerja, and the style is
      "expressive" exactly when the tag contains "en-". */
  function SelectVoice(text: string, lang: Option<string>, gender: Option<string>): (v: Option<Voice>)
    ensures v.None? <==> IsBlank(text)
    ensures v.Some? ==> var l := lang.GetOr("en-IN");
                        var g := Upper(gender.GetOr("FEMALE"));
                        && v.value.name == VoiceMap(l, g).GetOr(DefaultVoice)
                        && (v.value.style == "expressive" <==> Contains(l, "en-"))
                        && (v.value.style == "expressive" || v.value.style == "default")
  {
    if Strip(text) == [] then None
    else
      var l := lang.GetOr("en-IN");
      var g := Upper(gender.GetOr("FEMALE"));
      Some(Voice(VoiceMap(l, g).GetOr(DefaultVoice), if Contains(l, "en-") then "expressive" else "default"))
  }

  /** With no options the voice is Neerja, speaking expressively. */
  lemma DefaultSelection(text: string)
    requires !IsBlank(text)
    ensures SelectVoice(text, None, None) == Some(Voice(DefaultVoice, "expressive"))
  {
    assert Upper("FEMALE") == "FEMALE";
    assert "en-IN"[0..3] == "en-";
    assert OccursAt("en-IN", "en-", 0);
  }
}
