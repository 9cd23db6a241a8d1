/**
 * The body rule both chat boxes apply to what the player typed: an empty input
 * is sent as the placeholder glyph "(◔_◔)", anything else exactly as typed.
 */
module ChatText {

  /** The glyph posted in place of an empty message. */
  const Placeholder: string := "(◔_◔)"

  /** The body posted for the typed text `typed`. */
  function Body(typed: string): (b: string)
    ensures b != []
    ensures typed == [] ==> b == Placeholder
    ensures typed != [] ==> b == typed
  {
    if |typed| == 0 then Placeholder else typed
  }

  /**
   * The typed text can be read back from the body, except that an empty input
   * and a typed placeholder give the same body.
   */
  lemma BodyDeterminesTyped(typed1: string, typed2: string)
    ensures Body(typed1) == Body(typed2) <==>
            typed1 == typed2 || ({typed1, typed2} == {[], Placeholder})
  {
    if Body(typed1) == Body(typed2) && typed1 != typed2 {
      assert typed1 == [] || typed2 == [];
      assert Placeholder != [];
    }
  }
}
