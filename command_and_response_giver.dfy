/** The clean-up `responser` applies to the language model's reply: a
    "(Translation: ...)" aside that slips through is cut off. The model call
    itself and `get_command` are not part of this model. */
module CommandAndResponseGiver {
  import opened Strings

  const UpperMarker := "(Translation:"
  const LowerMarker := "(translation:"

  predicate HasMarker(s: string)
  {
    Contains(s, UpperMarker) || Contains(s, LowerMarker)
  }

  /** Without a marker the reply is returned untouched (not even stripped);
      with one, it is cut before the first "(Translation:", then before the
      first "(translation:", and stripped. */
  function StripTranslation(reply: string): (r: string)
    ensures !HasMarker(reply) ==> r == reply
    ensures HasMarker(reply) ==> r == Strip(Before(Before(reply, UpperMarker), LowerMarker))
    ensures !HasMarker(r)
  {
    if HasMarker(reply) then
      var cut := Before(Before(reply, UpperMarker), LowerMarker);
      var r := Strip(cut);
      CutHasNoMarker(reply);
      StripAvoids(cut, UpperMarker);
      StripAvoids(cut, LowerMarker);
      r
    else reply
  }

  /** Cutting at both markers leaves neither. */
  lemma CutHasNoMarker(reply: string)
    ensures !HasMarker(Before(Before(reply, UpperMarker), LowerMarker))
  {
    var first := Before(reply, UpperMarker);
    var cut := Before(first, LowerMarker);
    SliceAvoids(first, 0, |cut|, UpperMarker);
  }

  /** The clean-up is idempotent. */
  lemma StripTranslationIdempotent(reply: string)
    ensures StripTranslation(StripTranslation(reply)) == StripTranslation(reply)
  {
  }
}
