/** What several modules share. */
module Base {
  datatype Option<+T> = None | Some(value: T)

  /** How many values a word of 32 bits has. */
  const WORD := 0x1_0000_0000

  /** Reading a C string: the terminator stands behind the last character. */
  function At(text: string, i: nat): char {
    if i < |text| then text[i] else '\0'
  }

  predicate IsHex(c: char) {
    '0' <= c <= '9' || 'A' <= c <= 'F' || 'a' <= c <= 'f'
  }

  predicate NulFree(s: string) {
    '\0' !in s
  }

  lemma Regroup(s: string, t: string, u: string)
    ensures (s + t) + u == s + (t + u)
  {
  }
}
