/** The shapes of commit ids and other ids, on lists of their characters. */
module Ids {
  import opened Common
  import opened SessionModel

  const DIGITS := "0123456789"
  const LOWER := "abcdefghijklmnopqrstuvwxyz"
  const UPPER := "ABCDEFGHIJKLMNOPQRSTUVWXYZ"

  lemma CharactersAre(c: char)
    ensures c in DIGITS <==> '0' <= c <= '9'
    ensures c in LOWER <==> 'a' <= c <= 'z'
    ensures c in UPPER <==> 'A' <= c <= 'Z'
  {
    Listed(DIGITS, '0', c);
    Listed(LOWER, 'a', c);
    Listed(UPPER, 'A', c);
  }

  /** A list of consecutive characters holds exactly those between its ends. */
  lemma Listed(s: string, first: char, c: char)
    requires s != "" && forall i :: 0 <= i < |s| ==> s[i] as int == first as int + i
    ensures c in s <==> first <= c <= s[|s| - 1]
  {
    if first <= c <= s[|s| - 1] {
      assert s[c as int - first as int] == c;
    }
  }

  /** The shapes of ids, on lists of their characters. */
  lemma IdsSay(s: string)
    ensures IsSha(s) <==> |s| == 40 && forall c :: c in s ==> c in DIGITS || c in "abcdef"
    ensures IsSafeId(s) <==>
              && 0 < |s| < 129 && (s[0] in DIGITS || s[0] in LOWER || s[0] in UPPER)
              && forall c :: c in s ==> c in DIGITS || c in LOWER || c in UPPER || c in "._-"
  {
    forall c ensures Hex(c) <==> c in DIGITS || c in "abcdef" {
      CharactersAre(c);
      Listed("abcdef", 'a', c);
    }
    forall c ensures LetterOrDigit(c) <==> c in DIGITS || c in LOWER || c in UPPER {
      CharactersAre(c);
    }
    hide DIGITS, LOWER, UPPER, Hex, LetterOrDigit;
    assert forall i :: 0 <= i < |s| ==> s[i] in s;
  }
}
