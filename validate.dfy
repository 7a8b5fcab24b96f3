// The character-set validators applied to serialization names
// (pkg/parse/server/validate.go).

module Validate {

  predicate IsLowerAZ(c: char) {
    'a' <= c <= 'z'
  }

  predicate IsLowerAZDashUnderscore(c: char) {
    IsLowerAZ(c) || c == '-' || c == '_'
  }

  /** The range loop over the characters, returning false at the first miss. */
  predicate AllChars(s: string, ok: char -> bool) {
    |s| == 0 || (ok(s[0]) && AllChars(s[1..], ok))
  }

  /** isAllLowerAZ: a non-empty run of the letters 'a'..'z'. */
  predicate IsAllLowerAZ(s: string)
    ensures IsAllLowerAZ(s) ==> |s| > 0 && 'a' <= s[0] <= 'z'
  {
    AllChars(s, IsLowerAZ) && |s| > 0
  }

  /** isAllLowerA_Z: a non-empty run of 'a'..'z', '-' and '_'. */
  predicate IsAllLowerAZDashUnderscore(s: string)
    ensures IsAllLowerAZDashUnderscore(s) ==> |s| > 0 && IsLowerAZDashUnderscore(s[0])
  {
    AllChars(s, IsLowerAZDashUnderscore) && |s| > 0
  }

  lemma {:induction false} AllCharsEvery(s: string, ok: char -> bool)
    ensures AllChars(s, ok) <==> forall i :: 0 <= i < |s| ==> ok(s[i])
  {
    if |s| > 0 {
      AllCharsEvery(s[1..], ok);
      assert forall i :: 0 < i < |s| ==> s[i] == s[1..][i - 1];
    }
  }

  lemma IsAllLowerAZMeaning(s: string)
    ensures IsAllLowerAZ(s) <==> |s| > 0 && forall i :: 0 <= i < |s| ==> 'a' <= s[i] <= 'z'
  {
    AllCharsEvery(s, IsLowerAZ);
  }

  lemma IsAllLowerAZDashUnderscoreMeaning(s: string)
    ensures IsAllLowerAZDashUnderscore(s) <==>
              |s| > 0 && forall i :: 0 <= i < |s| ==> 'a' <= s[i] <= 'z' || s[i] == '-' || s[i] == '_'
  {
    AllCharsEvery(s, IsLowerAZDashUnderscore);
  }

  /** The narrower validator implies the wider one. */
  lemma LowerAZImpliesDashUnderscore(s: string)
    ensures IsAllLowerAZ(s) ==> IsAllLowerAZDashUnderscore(s)
  {
    IsAllLowerAZMeaning(s);
    IsAllLowerAZDashUnderscoreMeaning(s);
  }

  /** The validators' test table: the empty string and capitals are rejected. */
  lemma ValidatorTable()
    ensures !IsAllLowerAZ("") && !IsAllLowerAZDashUnderscore("")
    ensures IsAllLowerAZDashUnderscore("a_z")
    ensures IsAllLowerAZDashUnderscore("a-z")
    ensures !IsAllLowerAZDashUnderscore("A")
    ensures IsAllLowerAZDashUnderscore("-")
    ensures IsAllLowerAZDashUnderscore("_")
    ensures !IsAllLowerAZ("a_z") && IsAllLowerAZ("az")
  {
    IsAllLowerAZDashUnderscoreMeaning("a_z");
    IsAllLowerAZDashUnderscoreMeaning("a-z");
    IsAllLowerAZMeaning("a_z");
    assert "a_z"[1] == '_';
  }
}
