/** Yii's "required" validator as the two models apply it to string attributes. */
module Rules {
  import opened Wrappers

  /** The characters PHP's `trim()` strips by default: space, tab, LF, CR, NUL and vertical tab. */
  predicate IsTrimmed(c: char)
  {
    c == ' ' || c == '\t' || c == '\n' || c == '\r' || c == 0 as char || c == 11 as char
  }

  /** Nothing is left of `s` once it is trimmed. */
  predicate Blank(s: string)
  {
    forall i :: 0 <= i < |s| ==> IsTrimmed(s[i])
  }

  /** "required": the attribute is present and not empty after trimming. */
  predicate Required(v: Option<string>)
  {
    v.Some? && !Blank(v.value)
  }
}
