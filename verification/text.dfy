/** The JavaScript string operations the components rely on: `trim`,
    `toLowerCase`/`toUpperCase`, `includes`, `startsWith` and the digit class
    `\d` of regular expressions. Strings are sequences of characters. */
module Text {

  /** ECMAScript white space and line terminators, the characters
      `String.prototype.trim` removes (section 22.1.3.32 of ECMA-262:
      TAB, VT, FF, SP, NBSP, ZWNBSP, the Zs separators, LF, CR, LS, PS). */
  predicate IsWhitespace(c: char) {
    || c == '\t' || c == '\U{B}' || c == '\U{C}' || c == ' ' || c == '\U{A0}' || c == '\U{FEFF}'
    || c == '\n' || c == '\r' || c == '\U{2028}' || c == '\U{2029}'
    || c == '\U{1680}' || ('\U{2000}' <= c <= '\U{200A}')
    || c == '\U{202F}' || c == '\U{205F}' || c == '\U{3000}'
  }

  /** `s[a..b]` is all white space. */
  predicate WhitespaceBetween(s: string, a: int, b: int) {
    0 <= a <= b <= |s| && forall k :: a <= k < b ==> IsWhitespace(s[k])
  }

  predicate AllWhitespace(s: string) {
    WhitespaceBetween(s, 0, |s|)
  }

  /** The end of the white-space run that starts at `i`. */
  function WhitespaceEnd(s: string, i: nat): (j: nat)
    requires i <= |s|
    ensures i <= j && WhitespaceBetween(s, i, j)
    ensures j == |s| || !IsWhitespace(s[j])
    decreases |s| - i
  {
    if i < |s| && IsWhitespace(s[i]) then WhitespaceEnd(s, i + 1) else i
  }

  /** The start of the white-space run that ends at `j`. */
  function WhitespaceStart(s: string, j: nat): (i: nat)
    requires j <= |s|
    ensures i <= j && WhitespaceBetween(s, i, j)
    ensures i == 0 || !IsWhitespace(s[i - 1])
  {
    if j > 0 && IsWhitespace(s[j - 1]) then WhitespaceStart(s, j - 1) else j
  }

  /** Drops the leading white space: what is dropped is all white space and
      what is kept is a suffix that starts with something else. */
  function TrimStart(s: string): (r: string)
    ensures |r| <= |s| && r == s[|s| - |r|..]
    ensures WhitespaceBetween(s, 0, |s| - |r|)
    ensures r == [] || !IsWhitespace(r[0])
  {
    s[WhitespaceEnd(s, 0)..]
  }

  /** Drops the trailing white space. */
  function TrimEnd(s: string): (r: string)
    ensures |r| <= |s| && r == s[..|r|]
    ensures WhitespaceBetween(s, |r|, |s|)
    ensures r == [] || !IsWhitespace(r[|r| - 1])
  {
    s[..WhitespaceStart(s, |s|)]
  }

  /** `s.trim()`. */
  function Trim(s: string): string {
    TrimEnd(TrimStart(s))
  }

  /** `s[a..b]` is `s` with only white space cut off either end. */
  predicate SurroundedByWhitespace(s: string, a: int, b: int) {
    0 <= a <= b <= |s| && WhitespaceBetween(s, 0, a) && WhitespaceBetween(s, b, |s|)
  }

  /** `s.trim()` is a slice of `s` surrounded only by white space, and it
      neither starts nor ends with white space. */
  lemma TrimIsCore(s: string)
    ensures exists a, b :: SurroundedByWhitespace(s, a, b) && Trim(s) == s[a..b]
    ensures Trim(s) == [] || (!IsWhitespace(Trim(s)[0]) && !IsWhitespace(Trim(s)[|Trim(s)| - 1]))
  {
    var t := TrimStart(s);
    var e := TrimEnd(t);
    var a := |s| - |t|;
    var b := a + |e|;
    assert e == s[a..b];
    forall k | b <= k < |s|
      ensures IsWhitespace(s[k])
    {
      assert s[k] == t[k - a];
    }
    assert SurroundedByWhitespace(s, a, b);
    if e != [] {
      assert e[0] == t[0];
    }
  }

  /** Trimming yields the empty string exactly when the input is all white
      space (the guard `if (!x.trim())`). */
  lemma TrimEmptyIff(s: string)
    ensures Trim(s) == [] <==> AllWhitespace(s)
  {
    TrimIsCore(s);
    var a, b :| SurroundedByWhitespace(s, a, b) && Trim(s) == s[a..b];
    if Trim(s) == [] {
      assert a == b;
      forall k | 0 <= k < |s|
        ensures IsWhitespace(s[k])
      {
        assert k < a || b <= k;
      }
    } else {
      assert s[a] == Trim(s)[0];
    }
  }

  /** A string already free of surrounding white space is its own trim, so
      trimming twice is trimming once. */
  lemma TrimIdempotent(s: string)
    ensures Trim(Trim(s)) == Trim(s)
  {
    TrimIsCore(s);
    var t := Trim(s);
    if t != [] {
      assert WhitespaceEnd(t, 0) == 0;
      assert TrimStart(t) == t;
      assert WhitespaceStart(t, |t|) == |t|;
      assert TrimEnd(t) == t;
    }
  }

  predicate IsDigit(c: char) {
    '0' <= c <= '9'
  }

  predicate AllDigits(s: string) {
    forall i :: 0 <= i < |s| ==> IsDigit(s[i])
  }

  /** `toLowerCase` on the ASCII letters. */
  function LowerChar(c: char): char {
    if 'A' <= c <= 'Z' then (c as int + 32) as char else c
  }

  /** `toUpperCase` on the ASCII letters. */
  function UpperChar(c: char): char {
    if 'a' <= c <= 'z' then (c as int - 32) as char else c
  }

  function ToLower(s: string): string {
    seq(|s|, i requires 0 <= i < |s| => LowerChar(s[i]))
  }

  function ToUpper(s: string): string {
    seq(|s|, i requires 0 <= i < |s| => UpperChar(s[i]))
  }

  /** Lower-casing is a projection: doing it twice changes nothing, and it
      forgets whether the input was upper-cased first. */
  lemma ToLowerIdempotent(s: string)
    ensures ToLower(ToLower(s)) == ToLower(s)
    ensures ToLower(ToUpper(s)) == ToLower(s)
  {
  }

  /** `s.startsWith(prefix)`. */
  predicate StartsWith(s: string, prefix: string) {
    |prefix| <= |s| && s[..|prefix|] == prefix
  }

  /** `prefix` occurs in `s` at index `i`. */
  predicate OccursAt(s: string, i: nat, sub: string) {
    i + |sub| <= |s| && s[i..i + |sub|] == sub
  }

  /** `s.includes(sub)`, and the regular-expression test `/sub/.test(s)` for
      a literal pattern. */
  predicate Contains(s: string, sub: string) {
    exists i: nat | i <= |s| :: OccursAt(s, i, sub)
  }
}
