/** How a selectable character is shown on the display. */
module DisplayUtil {

  /**
   * The text shown for a character: a blank becomes "SP" and a newline "EN",
   * because the display font has no visible glyph for either; anything else
   * is shown as it is.
   */
  function GetDisplayChar(c: string): (r: string)
    ensures r != " " && r != "\n"
    ensures r == c <==> c != " " && c != "\n"
  {
    if c == " " then "SP"
    else if c == "\n" then "EN"
    else c
  }

  /** The two replacement texts. */
  lemma DisplayCharReplacements()
    ensures GetDisplayChar(" ") == "SP"
    ensures GetDisplayChar("\n") == "EN"
  {
  }

  /** Converting twice shows the same text as converting once. */
  lemma DisplayCharIdempotent(c: string)
    ensures GetDisplayChar(GetDisplayChar(c)) == GetDisplayChar(c)
  {
  }
}
