/** String.prototype.toLowerCase on the ASCII letters of addresses, hashes and calldata. */
module LowerCase {
  function LowerChar(c: char): char {
    if 'A' <= c <= 'Z' then c + 'a' - 'A' else c
  }

  function Lower(s: string): string {
    seq(|s|, i requires 0 <= i < |s| => LowerChar(s[i]))
  }

  /** The same letter, or one and the same ASCII letter in two cases. */
  predicate SameLetter(c: char, d: char) {
    c == d || ('A' <= c <= 'Z' && d == c + 32 as char) || ('A' <= d <= 'Z' && c == d + 32 as char)
  }

  /** Two texts have the same lower case exactly when they differ in the case of ASCII letters only. */
  lemma SameLowerIff(s: string, t: string)
    ensures Lower(s) == Lower(t) <==> |s| == |t| && forall i :: 0 <= i < |s| ==> SameLetter(s[i], t[i])
  {
    if Lower(s) == Lower(t) {
      assert |s| == |Lower(s)| == |Lower(t)| == |t|;
      forall i | 0 <= i < |s|
        ensures SameLetter(s[i], t[i])
      {
        assert Lower(s)[i] == LowerChar(s[i]) && Lower(t)[i] == LowerChar(t[i]);
      }
    }
  }
}
