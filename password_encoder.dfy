/** The password encoder the registration test uses: a fixed prefix. */
module FakePasswordEncoder {

  const PREFIX: string := "ENC:"

  /** `encode(raw)`: the prefix followed by the raw password, so the raw
      password can be read back and the encoded form never equals it. */
  function Encode(raw: string): (enc: string)
    ensures |enc| == |PREFIX| + |raw|
    ensures enc[..|PREFIX|] == PREFIX && enc[|PREFIX|..] == raw
    ensures enc != raw
  {
    PREFIX + raw
  }

  /** `matches(raw, enc)`: exactly the encoded strings that are the prefix
      followed by the raw password. */
  predicate Matches(raw: string, enc: string)
    ensures Matches(raw, enc) <==> |PREFIX| <= |enc| && enc[..|PREFIX|] == PREFIX && enc[|PREFIX|..] == raw
  {
    enc == Encode(raw)
  }

  /** An encoded password matches exactly the raw password it came from. */
  lemma MatchesExactlyEncoded(raw: string, other: string)
    ensures Matches(raw, Encode(raw))
    ensures Matches(other, Encode(raw)) <==> other == raw
  {
    if Matches(other, Encode(raw)) {
      assert other == Encode(other)[|PREFIX|..] == Encode(raw)[|PREFIX|..] == raw;
    }
  }
}
