/** The few JavaScript string operations the search page relies on:
    `String.prototype.includes` and `String.prototype.toLowerCase`
    (restricted to ASCII letters). */
module JsString {

  /** `s.includes(sub)`: `sub` occurs in `s` at some position. */
  predicate Includes(s: string, sub: string)
  {
    exists i | 0 <= i <= |s| :: OccursAt(s, sub, i)
  }

  /** `sub` occurs in `s` starting at index `i`. */
  predicate OccursAt(s: string, sub: string, i: int)
  {
    0 <= i && i + |sub| <= |s| && s[i..i + |sub|] == sub
  }

  /** A string includes each of its prefixes. */
  lemma IncludesPrefix(p: string, rest: string)
    ensures Includes(p + rest, p)
  {
    assert OccursAt(p + rest, p, 0);
  }

  /** A string includes each of its infixes. */
  lemma IncludesInfix(a: string, b: string, c: string)
    ensures Includes(a + b + c, b)
  {
    assert (a + b + c)[|a|..|a| + |b|] == b;
    assert OccursAt(a + b + c, b, |a|);
  }

  /** A string that includes `sub` contains every character of `sub`. */
  lemma IncludesKeepsChars(s: string, sub: string, c: char)
    requires Includes(s, sub) && c in sub
    ensures c in s
  {
    var i :| 0 <= i <= |s| && OccursAt(s, sub, i);
    assert s[i..i + |sub|] == sub;
    var k :| 0 <= k < |sub| && sub[k] == c;
    assert s[i + k] == s[i..i + |sub|][k];
  }

  /** A character missing from `s` but present in `sub` rules out `s.includes(sub)`. */
  lemma MissingCharExcludes(s: string, sub: string, c: char)
    requires c in sub && c !in s
    ensures !Includes(s, sub)
  {
    if Includes(s, sub) {
      IncludesKeepsChars(s, sub, c);
    }
  }

  /** A character missing from three strings is missing from their concatenation. */
  lemma MissingFromConcat(a: string, b: string, c: string, ch: char)
    requires ch !in a && ch !in b && ch !in c
    ensures ch !in a + b + c
  {
    forall k | 0 <= k < |a + b + c| ensures (a + b + c)[k] != ch {
      if k < |a| { assert (a + b + c)[k] == a[k]; }
      else if k < |a| + |b| { assert (a + b + c)[k] == b[k - |a|]; }
      else { assert (a + b + c)[k] == c[k - |a| - |b|]; }
    }
  }

  /** Lower case of one character: ASCII upper-case letters move down by 32. */
  function LowerChar(c: char): (d: char)
    ensures 'A' <= c <= 'Z' ==> 'a' <= d <= 'z' && d as int == c as int + 32
    ensures !('A' <= c <= 'Z') ==> d == c
  {
    if 'A' <= c <= 'Z' then (c as int + 32) as char else c
  }

  /** `s.toLowerCase()` for ASCII text. */
  function ToLower(s: string): (r: string)
    ensures |r| == |s|
    ensures forall i | 0 <= i < |s| :: r[i] == LowerChar(s[i])
  {
    if s == [] then [] else [LowerChar(s[0])] + ToLower(s[1..])
  }
}
