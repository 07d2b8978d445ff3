/** The parts of JavaScript string semantics that the storefront's rules depend on:
    truthiness, `String.prototype.trim`, `toLowerCase` and `includes`. */
module Text {
  import opened Wrappers

  /** A string is truthy in JavaScript exactly when it is not empty. */
  predicate Truthy(s: string) { s != "" }

  /** A field that may be absent is truthy when it is present and a non-empty string. */
  predicate Present(o: Option<string>) { o.Some? && o.value != "" }

  /** The characters `trim` removes: the ECMAScript WhiteSpace and LineTerminator code points. */
  predicate IsWhitespace(c: char) {
    c == '\t' || c == '\n' || c == '\U{000B}' || c == '\U{000C}' || c == '\r' || c == ' '
    || c == '\U{00A0}' || c == '\U{1680}' || ('\U{2000}' <= c <= '\U{200A}')
    || c == '\U{2028}' || c == '\U{2029}' || c == '\U{202F}' || c == '\U{205F}'
    || c == '\U{3000}' || c == '\U{FEFF}'
  }

  /** Leading whitespace removed: the longest suffix that does not start with whitespace. */
  function TrimStart(s: string): (r: string)
    ensures |r| <= |s| && r == s[|s| - |r|..]
    ensures forall i :: 0 <= i < |s| - |r| ==> IsWhitespace(s[i])
    ensures r != [] ==> !IsWhitespace(r[0])
  {
    if s != [] && IsWhitespace(s[0]) then TrimStart(s[1..]) else s
  }

  /** Trailing whitespace removed: the longest prefix that does not end with whitespace. */
  function TrimEnd(s: string): (r: string)
    ensures |r| <= |s| && r == s[..|r|]
    ensures forall i :: |r| <= i < |s| ==> IsWhitespace(s[i])
    ensures r != [] ==> !IsWhitespace(r[|r| - 1])
  {
    if s != [] && IsWhitespace(s[|s| - 1]) then TrimEnd(s[..|s| - 1]) else s
  }

  /** `s.trim()`. It is empty exactly when every character of `s` is whitespace. */
  function Trim(s: string): (r: string)
    ensures r == [] <==> forall i :: 0 <= i < |s| ==> IsWhitespace(s[i])
    ensures r != [] ==> !IsWhitespace(r[0]) && !IsWhitespace(r[|r| - 1])
    ensures exists a, b :: 0 <= a <= b <= |s| && r == s[a..b]
  {
    var t := TrimStart(s);
    var r := TrimEnd(t);
    assert r != [] ==> !IsWhitespace(r[0]) by {
      if r != [] { assert r[0] == t[0]; }
    }
    var a := |s| - |t|;
    assert r == s[a..a + |r|];
    r
  }

  /** The test `s.trim().length === 0` that the screens and the catalog use. */
  predicate IsBlank(s: string) { |Trim(s)| == 0 }

  /** `toLowerCase` on one character; only the ASCII letters A-Z are mapped. */
  function LowerChar(c: char): char {
    if 'A' <= c <= 'Z' then (c as int + 32) as char else c
  }

  /** `s.toLowerCase()`, character by character. */
  function ToLower(s: string): string {
    seq(|s|, i requires 0 <= i < |s| => LowerChar(s[i]))
  }

  /** `q` occurs in `s` starting at position `i`. */
  predicate OccursAt(s: string, q: string, i: int) {
    0 <= i && i + |q| <= |s| && s[i..i + |q|] == q
  }

  /** `s.includes(q)`: `q` is a prefix of `s` or of one of its suffixes. */
  predicate Includes(s: string, q: string)
    decreases |s|
  {
    (|q| <= |s| && s[..|q|] == q) || (s != [] && Includes(s[1..], q))
  }

  /** `includes` finds `q` exactly when `q` occurs somewhere in `s`. */
  lemma {:induction false} IncludesIffOccurs(s: string, q: string)
    ensures Includes(s, q) <==> exists i :: OccursAt(s, q, i)
    decreases |s|
  {
    if |q| <= |s| && s[..|q|] == q {
      assert OccursAt(s, q, 0);
    } else if s == [] {
      assert forall i :: !OccursAt(s, q, i);
    } else {
      IncludesIffOccurs(s[1..], q);
      if Includes(s[1..], q) {
        var i :| OccursAt(s[1..], q, i);
        assert s[1..][i..i + |q|] == s[i + 1..i + 1 + |q|];
        assert OccursAt(s, q, i + 1);
      } else {
        assert !OccursAt(s, q, 0);
        forall i | 1 <= i && OccursAt(s, q, i) ensures false {
          assert s[1..][i - 1..i - 1 + |q|] == s[i..i + |q|];
          assert OccursAt(s[1..], q, i - 1);
        }
      }
    }
  }

  /** A non-empty text can only be included where its first character occurs. */
  lemma {:induction false} IncludesNeedsFirstChar(s: string, q: string)
    requires q != [] && Includes(s, q)
    ensures q[0] in s
    decreases |s|
  {
    if |q| <= |s| && s[..|q|] == q {
      assert s[0] == q[0];
    } else {
      IncludesNeedsFirstChar(s[1..], q);
    }
  }
}
