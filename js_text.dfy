/** The JavaScript string and number primitives the sources rely on:
    `trim`, `toLowerCase`, `includes`, `startsWith`, `endsWith`,
    `replace(/pat/g, '')` and the truncating remainder operator `%`. */
module JsText {

  /** ECMAScript WhiteSpace and LineTerminator code points, the set `trim` removes. */
  predicate IsWhiteSpace(c: char) {
    c == ' ' || c == '\t' || c == '\n' || c == '\r' || c == '\U{000B}' || c == '\U{000C}'
    || c == '\U{00A0}' || c == '\U{1680}' || ('\U{2000}' <= c <= '\U{200A}')
    || c == '\U{2028}' || c == '\U{2029}' || c == '\U{202F}' || c == '\U{205F}'
    || c == '\U{3000}' || c == '\U{FEFF}'
  }

  /** Every character of `s` is white space (true of the empty string). */
  ghost predicate AllWhiteSpace(s: string) {
    forall i :: 0 <= i < |s| ==> IsWhiteSpace(s[i])
  }

  /** `String.prototype.trimStart`. */
  function TrimStart(s: string): (r: string)
    ensures |r| <= |s| && r == s[|s| - |r|..]
    ensures r == [] || !IsWhiteSpace(r[0])
    ensures forall i :: 0 <= i < |s| - |r| ==> IsWhiteSpace(s[i])
    decreases |s|
  {
    if s != [] && IsWhiteSpace(s[0]) then TrimStart(s[1..]) else s
  }

  /** `String.prototype.trimEnd`. */
  function TrimEnd(s: string): (r: string)
    ensures |r| <= |s| && r == s[..|r|]
    ensures r == [] || !IsWhiteSpace(r[|r| - 1])
    ensures forall i :: |r| <= i < |s| ==> IsWhiteSpace(s[i])
    decreases |s|
  {
    if s != [] && IsWhiteSpace(s[|s| - 1]) then TrimEnd(s[..|s| - 1]) else s
  }

  /** `String.prototype.trim`: `s` without its leading and trailing white space. */
  function Trim(s: string): (r: string)
    ensures |r| <= |s|
    ensures r == [] || (!IsWhiteSpace(r[0]) && !IsWhiteSpace(r[|r| - 1]))
  {
    TrimEnd(TrimStart(s))
  }

  /** Trimming keeps a contiguous part of the string, and empties exactly the
      all-white-space strings. */
  lemma TrimSpec(s: string)
    ensures Includes(s, Trim(s))
    ensures Trim(s) == [] <==> AllWhiteSpace(s)
  {
    var t := TrimStart(s);
    var r := TrimEnd(t);
    var k := |s| - |t|;
    assert OccursAt(s, r, k) by {
      assert r == t[..|r|] && t == s[k..];
    }
    assert r == [] ==> AllWhiteSpace(s) by {
      if r == [] {
        assert t[|r|..] == t;
        assert |t| == 0;
      }
    }
    assert r != [] ==> !IsWhiteSpace(s[k]) by {
      if r != [] {
        assert s[k] == t[0] == r[0];
      }
    }
  }

  /** A character that is not white space survives trimming. */
  lemma TrimNonBlank(s: string, i: int)
    requires 0 <= i < |s| && !IsWhiteSpace(s[i])
    ensures Trim(s) != []
  {
    TrimSpec(s);
  }

  /** ASCII `toLowerCase` of one character. */
  function LowerChar(c: char): char {
    if 'A' <= c <= 'Z' then (c as int + 32) as char else c
  }

  /** `String.prototype.toLowerCase`, restricted to the ASCII letters. */
  function ToLower(s: string): (r: string)
    ensures |r| == |s|
    ensures forall i :: 0 <= i < |s| ==> r[i] == LowerChar(s[i])
  {
    seq(|s|, i requires 0 <= i < |s| => LowerChar(s[i]))
  }

  /** No upper-case ASCII letter occurs in `s`. */
  ghost predicate IsLower(s: string) {
    forall i :: 0 <= i < |s| ==> !('A' <= s[i] <= 'Z')
  }

  /** Lower-casing yields a lower-case string, and lower-case strings are its fixed points. */
  lemma ToLowerIsLower(s: string)
    ensures IsLower(ToLower(s))
    ensures IsLower(s) ==> ToLower(s) == s
  {
  }

  /** Lower-casing is idempotent. */
  lemma ToLowerIdempotent(s: string)
    ensures ToLower(ToLower(s)) == ToLower(s)
  {
    ToLowerIsLower(s);
    ToLowerIsLower(ToLower(s));
  }

  /** Lower-casing distributes over concatenation. */
  lemma ToLowerConcat(a: string, b: string)
    ensures ToLower(a + b) == ToLower(a) + ToLower(b)
  {
  }

  /** `String.prototype.startsWith`. */
  predicate StartsWith(s: string, prefix: string) {
    |prefix| <= |s| && s[..|prefix|] == prefix
  }

  /** `String.prototype.endsWith`. */
  predicate EndsWith(s: string, suffix: string) {
    |suffix| <= |s| && s[|s| - |suffix|..] == suffix
  }

  /** `sub` occurs in `s` starting at index `i`. */
  predicate OccursAt(s: string, sub: string, i: int) {
    0 <= i <= |s| - |sub| && s[i..i + |sub|] == sub
  }

  /** `String.prototype.includes`: `sub` occurs in `s` as a contiguous block. */
  predicate Includes(s: string, sub: string) {
    exists i | 0 <= i <= |s| - |sub| :: OccursAt(s, sub, i)
  }

  /** A string includes every contiguous part of itself. */
  lemma IncludesInfix(a: string, b: string, c: string)
    ensures Includes(a + b + c, b)
  {
    var s := a + b + c;
    assert OccursAt(s, b, |a|) by {
      assert s[|a|..|a| + |b|] == b;
    }
  }

  /** `s.replace(/pat/g, '')`: every non-overlapping occurrence of `pat`,
      found left to right, is deleted. */
  function RemoveAll(s: string, pat: string): (r: string)
    requires pat != []
    ensures |r| <= |s|
    decreases |s|
  {
    if s == [] then []
    else if StartsWith(s, pat) then RemoveAll(s[|pat|..], pat)
    else [s[0]] + RemoveAll(s[1..], pat)
  }

  /** No two adjacent `=` characters. */
  ghost predicate NoDoubleEquals(s: string) {
    forall i :: 0 <= i < |s| - 1 ==> !(s[i] == '=' && s[i + 1] == '=')
  }

  lemma NoDoubleEqualsExcludes(s: string)
    requires NoDoubleEquals(s)
    ensures !Includes(s, "==")
  {
    forall i | 0 <= i <= |s| - 2 ensures !OccursAt(s, "==", i) {
      assert s[i..i + 2][0] == s[i] && s[i..i + 2][1] == s[i + 1];
    }
  }

  /** After `replace(/==/g, '')` no `==` is left: a `=` that survives is never
      followed by another `=`. */
  lemma {:induction false} RemoveAllDoubleEquals(s: string)
    ensures NoDoubleEquals(RemoveAll(s, "=="))
    ensures s != [] && s[0] != '=' ==> RemoveAll(s, "==") != [] && RemoveAll(s, "==")[0] == s[0]
    decreases |s|
  {
    if s != [] {
      if StartsWith(s, "==") {
        RemoveAllDoubleEquals(s[2..]);
      } else {
        RemoveAllDoubleEquals(s[1..]);
        var rest := RemoveAll(s[1..], "==");
        if s[0] == '=' && rest != [] {
          assert s[..2] == [s[0], s[1]];
          assert rest[0] == s[1];
        }
        var r := [s[0]] + rest;
        forall i | 0 <= i < |r| - 1 ensures !(r[i] == '=' && r[i + 1] == '=') {
          if i > 0 { assert r[i] == rest[i - 1] && r[i + 1] == rest[i]; }
        }
      }
    }
  }

  /** A string included in one without `==` has no `==` either. */
  lemma NoDoubleEqualsIncluded(s: string, t: string)
    requires NoDoubleEquals(s) && Includes(s, t)
    ensures NoDoubleEquals(t)
  {
    var k :| 0 <= k <= |s| - |t| && OccursAt(s, t, k);
    forall i | 0 <= i < |t| - 1 ensures !(t[i] == '=' && t[i + 1] == '=') {
      assert t[i] == s[k + i] && t[i + 1] == s[k + i + 1];
    }
  }

  function Abs(x: int): nat {
    if x < 0 then -x else x
  }

  /** The JavaScript `%` operator on integral numbers with a positive divisor:
      the remainder of the division truncated toward zero, so it takes the sign
      of the dividend. Dafny's `%` is Euclidean; the two agree when the
      dividend is not negative. */
  function JsRem(a: int, b: int): (r: int)
    requires b > 0
    ensures a >= 0 ==> r == a % b
    ensures -b < r < b
    ensures a >= 0 ==> r >= 0
    ensures a < 0 ==> r <= 0
  {
    if a >= 0 then a % b else -((-a) % b)
  }
}
