/** Ordinal substring search, as .NET's String.Contains(string) performs it on well-formed text. */
module Text {

  /** `sub` occurs in `s` starting at position `i`. */
  predicate ContainsAt(s: string, sub: string, i: int) {
    0 <= i && i + |sub| <= |s| && s[i..i + |sub|] == sub
  }

  /** An occurrence of `sub` in `s[1..]` at `i` is one in `s` at `i + 1`, and back. */
  lemma ContainsAtShift(s: string, sub: string, i: int)
    requires |s| > 0 && 0 <= i
    ensures ContainsAt(s[1..], sub, i) <==> ContainsAt(s, sub, i + 1)
  {
  }

  /** True iff `sub` occurs somewhere in `s` (the empty string occurs everywhere). */
  function Contains(s: string, sub: string): (r: bool)
    ensures r <==> exists i :: ContainsAt(s, sub, i)
    decreases |s|
  {
    if |s| < |sub| then
      false
    else if s[..|sub|] == sub then
      assert ContainsAt(s, sub, 0);
      true
    else
      assert !ContainsAt(s, sub, 0);
      assert forall i :: i >= 0 ==> (ContainsAt(s[1..], sub, i) <==> ContainsAt(s, sub, i + 1)) by {
        forall i | i >= 0 ensures ContainsAt(s[1..], sub, i) <==> ContainsAt(s, sub, i + 1) {
          ContainsAtShift(s, sub, i);
        }
      }
      assert (exists i :: ContainsAt(s, sub, i)) ==> exists j :: ContainsAt(s[1..], sub, j) by {
        if exists i :: ContainsAt(s, sub, i) {
          var i :| ContainsAt(s, sub, i);
          assert ContainsAt(s[1..], sub, i - 1);
        }
      }
      Contains(s[1..], sub)
  }
}
