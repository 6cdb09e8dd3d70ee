/** Values shared by the storage helpers and the two profile pages. */
module Common {

  /** An optional value, standing for TypeScript's `undefined`/`null`. */
  datatype Option<+T> = None | Some(value: T)

  /** A browser `File` as far as this code looks at it: its name and MIME type. */
  datatype File = File(name: string, contentType: string)

  /** JavaScript truthiness of an optional string: present and not empty. */
  predicate Truthy(s: Option<string>)
  {
    s.Some? && s.value != ""
  }

  /** The character class `[a-zA-Z0-9]` of a JavaScript regular expression. */
  predicate IsAlnum(c: char)
  {
    'a' <= c <= 'z' || 'A' <= c <= 'Z' || '0' <= c <= '9'
  }

  predicate IsDigit(c: char)
  {
    '0' <= c <= '9'
  }

  predicate AllDigits(s: string)
  {
    forall i :: 0 <= i < |s| ==> IsDigit(s[i])
  }

  /** `c` occurs at most once in `s`. */
  predicate AtMostOnce(s: string, c: char)
  {
    forall i, j :: 0 <= i < j < |s| ==> !(s[i] == c && s[j] == c)
  }

  predicate StartsWith(s: string, prefix: string)
  {
    |prefix| <= |s| && s[..|prefix|] == prefix
  }

  /** `sub` occurs in `s` starting at offset `i`. */
  predicate OccursAt(s: string, sub: string, i: int)
  {
    0 <= i <= |s| - |sub| && s[i..i + |sub|] == sub
  }

  /** Occurrences in `s` past its first character are the occurrences in `s[1..]`, shifted by one. */
  lemma OccursAtShift(s: string, sub: string, i: int)
    requires s != [] && 1 <= i
    ensures OccursAt(s, sub, i) <==> OccursAt(s[1..], sub, i - 1)
  {
    if i <= |s| - |sub| {
      var a, b := s[i..i + |sub|], s[1..][i - 1..i - 1 + |sub|];
      assert forall k :: 0 <= k < |a| ==> a[k] == b[k];
    }
  }

  /** Past a non-match at offset 0, `sub` occurs in `s` exactly when it occurs in `s[1..]`. */
  lemma IncludesStep(s: string, sub: string)
    requires |sub| < |s| && !StartsWith(s, sub)
    ensures (exists i :: OccursAt(s, sub, i)) <==> (exists i :: OccursAt(s[1..], sub, i))
  {
    if k :| OccursAt(s[1..], sub, k) {
      OccursAtShift(s, sub, k + 1);
    }
    if i :| OccursAt(s, sub, i) {
      assert i != 0;
      OccursAtShift(s, sub, i);
    }
  }

  /** `s.includes(sub)`: `sub` occurs in `s` at some offset. */
  function Includes(s: string, sub: string): (b: bool)
    ensures b <==> exists i :: OccursAt(s, sub, i)
    decreases |s|
  {
    if StartsWith(s, sub) then
      assert OccursAt(s, sub, 0);
      true
    else if |s| <= |sub| then
      false
    else
      IncludesStep(s, sub);
      Includes(s[1..], sub)
  }

  /** The index of the first occurrence of `c` in `s`. */
  function FirstIndex(s: string, c: char): (i: nat)
    requires c in s
    ensures i < |s| && s[i] == c && c !in s[..i]
  {
    if s[0] == c then 0
    else
      var j := FirstIndex(s[1..], c);
      assert s[..j + 1] == [s[0]] + s[1..][..j];
      j + 1
  }
}
