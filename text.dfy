/** The few JavaScript string operations the storefront's rules use. */
module Text {

  /** ECMAScript WhiteSpace and LineTerminator code points: what `String.prototype.trim` strips. */
  predicate IsWhitespace(c: char) {
    c == '\t' || c == '\n' || c == '\U{0B}' || c == '\U{0C}' || c == '\r' || c == ' '
    || c == '\U{A0}' || c == '\U{1680}' || ('\U{2000}' <= c <= '\U{200A}')
    || c == '\U{2028}' || c == '\U{2029}' || c == '\U{202F}' || c == '\U{205F}'
    || c == '\U{3000}' || c == '\U{FEFF}'
  }

  /** Number of leading whitespace characters. */
  function LeadingSpace(s: string): (n: nat)
    ensures n <= |s|
    ensures forall k :: 0 <= k < n ==> IsWhitespace(s[k])
    ensures n == |s| || !IsWhitespace(s[n])
  {
    if s == [] || !IsWhitespace(s[0]) then 0 else 1 + LeadingSpace(s[1..])
  }

  /** Length of `s` once trailing whitespace is dropped. */
  function TrailingCut(s: string): (n: nat)
    ensures n <= |s|
    ensures forall k :: n <= k < |s| ==> IsWhitespace(s[k])
    ensures n == 0 || !IsWhitespace(s[n - 1])
  {
    if s == [] || !IsWhitespace(s[|s| - 1]) then |s| else TrailingCut(s[..|s| - 1])
  }

  /** `s.trim()`: the slice of `s` left after stripping whitespace at both ends. */
  function Trim(s: string): (r: string)
    ensures var a := LeadingSpace(s);
      a + |r| <= |s| && r == s[a..a + |r|]
      && forall k :: a + |r| <= k < |s| ==> IsWhitespace(s[k])
    ensures r == [] || (!IsWhitespace(r[0]) && !IsWhitespace(r[|r| - 1]))
    ensures r == [] <==> forall k :: 0 <= k < |s| ==> IsWhitespace(s[k])
  {
    var a := LeadingSpace(s);
    var b := TrailingCut(s);
    if a == |s| then
      assert s[a..a] == [];
      s[a..a]
    else
      assert !IsWhitespace(s[a]);
      assert a < b;
      s[a..b]
  }

  /** `!s.trim()`: the text is empty or all whitespace. */
  predicate IsBlank(s: string)
    ensures IsBlank(s) <==> forall i :: 0 <= i < |s| ==> IsWhitespace(s[i])
  {
    Trim(s) == []
  }

  /** ASCII letters are upper-cased; every other character is kept. */
  function UpperChar(c: char): char {
    if 'a' <= c <= 'z' then (c as int - 'a' as int + 'A' as int) as char else c
  }

  function LowerChar(c: char): char {
    if 'A' <= c <= 'Z' then (c as int - 'A' as int + 'a' as int) as char else c
  }

  /** `s.toUpperCase()` restricted to ASCII letters. */
  function ToUpper(s: string): (r: string)
    ensures |r| == |s|
    ensures forall k :: 0 <= k < |s| ==> r[k] == UpperChar(s[k])
  {
    seq(|s|, k requires 0 <= k < |s| => UpperChar(s[k]))
  }

  /** `s.toLowerCase()` restricted to ASCII letters. */
  function ToLower(s: string): (r: string)
    ensures |r| == |s|
    ensures forall k :: 0 <= k < |s| ==> r[k] == LowerChar(s[k])
  {
    seq(|s|, k requires 0 <= k < |s| => LowerChar(s[k]))
  }

  /** Upper-casing twice is upper-casing once. */
  lemma ToUpperIdempotent(s: string)
    ensures ToUpper(ToUpper(s)) == ToUpper(s)
  {
  }

  /** `t` occurs in `s` starting at position `k`. */
  predicate OccursAt(s: string, t: string, k: nat) {
    k + |t| <= |s| && s[k..k + |t|] == t
  }

  /** `s.includes(t)`: `t` occurs as a contiguous piece of `s`. */
  predicate Includes(s: string, t: string)
    decreases |s|
    ensures Includes(s, t) <==> exists k: nat :: OccursAt(s, t, k)
  {
    if t <= s then
      assert OccursAt(s, t, 0);
      true
    else if s == [] then
      false
    else
      IncludesStep(s, t);
      Includes(s[1..], t)
  }

  /** When `t` is not a prefix of `s`, it occurs in `s` exactly when it occurs in the tail. */
  lemma IncludesStep(s: string, t: string)
    requires s != [] && !(t <= s)
    ensures (exists k: nat :: OccursAt(s, t, k)) <==> (exists k: nat :: OccursAt(s[1..], t, k))
  {
    if exists k: nat :: OccursAt(s, t, k) {
      var k: nat :| OccursAt(s, t, k);
      assert k != 0;
      var a, b := s[1..][k - 1..k - 1 + |t|], s[k..k + |t|];
      assert forall j :: 0 <= j < |t| ==> a[j] == b[j];
      assert OccursAt(s[1..], t, k - 1);
    }
    if exists k: nat :: OccursAt(s[1..], t, k) {
      var k: nat :| OccursAt(s[1..], t, k);
      var a, b := s[k + 1..k + 1 + |t|], s[1..][k..k + |t|];
      assert forall j :: 0 <= j < |t| ==> a[j] == b[j];
      assert OccursAt(s, t, k + 1);
    }
  }

  /** The empty search text occurs in every string. */
  lemma IncludesEmpty(s: string)
    ensures Includes(s, "")
  {
  }

  /** Position of the first `c` in `s`, or `|s|` when there is none. */
  function IndexOf(s: string, c: char): (i: nat)
    ensures i <= |s|
    ensures c !in s[..i]
    ensures i < |s| ==> s[i] == c
    ensures c !in s <==> i == |s|
  {
    if s == [] then 0
    else if s[0] == c then 0
    else
      var i := IndexOf(s[1..], c);
      assert s[..i + 1] == [s[0]] + s[1..][..i];
      1 + i
  }

  /** `s.replace(c, "")` for a one-character pattern: drops the first occurrence of `c` only. */
  function RemoveFirst(s: string, c: char): (r: string)
    ensures c !in s ==> r == s
    ensures c in s ==> exists i :: 0 <= i < |s| && s[i] == c && c !in s[..i] && r == s[..i] + s[i + 1..]
  {
    var i := IndexOf(s, c);
    if i == |s| then s else s[..i] + s[i + 1..]
  }
}
