/** The string operations the search uses: Kotlin's `trim()`, `isBlank()`,
    `lowercase()` and `contains()`, restricted to the ASCII range. */
module Text {

  /** Kotlin's `Char.isWhitespace()` on ASCII: space, tab, line feed,
      vertical tab, form feed, carriage return and the four separators
      U+001C to U+001F. */
  predicate IsWhitespace(c: char) {
    c == ' ' || ('\t' <= c <= '\r') || ('\U{1C}' <= c <= '\U{1F}')
  }

  /** The number of whitespace characters `s` starts with. */
  function LeadingSpace(s: string): (n: nat)
    ensures n <= |s|
    ensures forall i :: 0 <= i < n ==> IsWhitespace(s[i])
    ensures n < |s| ==> !IsWhitespace(s[n])
  {
    if s == [] || !IsWhitespace(s[0]) then 0 else 1 + LeadingSpace(s[1..])
  }

  /** The number of whitespace characters `s` ends with. */
  function TrailingSpace(s: string): (n: nat)
    ensures n <= |s|
    ensures forall i :: |s| - n <= i < |s| ==> IsWhitespace(s[i])
    ensures n < |s| ==> !IsWhitespace(s[|s| - 1 - n])
  {
    if s == [] || !IsWhitespace(s[|s| - 1]) then 0 else 1 + TrailingSpace(s[..|s| - 1])
  }

  /** Kotlin's `trim()`: `s` without its leading and trailing whitespace.
      The result is the slice of `s` that starts after the leading
      whitespace; only whitespace follows it; it neither starts nor ends
      with whitespace. */
  function Trim(s: string): (r: string)
    ensures |r| <= |s|
    ensures LeadingSpace(s) + |r| <= |s| && r == s[LeadingSpace(s)..LeadingSpace(s) + |r|]
    ensures forall i :: LeadingSpace(s) + |r| <= i < |s| ==> IsWhitespace(s[i])
    ensures r == [] || (!IsWhitespace(r[0]) && !IsWhitespace(r[|r| - 1]))
  {
    var rest := s[LeadingSpace(s)..];
    rest[..|rest| - TrailingSpace(rest)]
  }

  /** Kotlin's `isBlank()`: empty or whitespace only. */
  predicate IsBlank(s: string) {
    forall i :: 0 <= i < |s| ==> IsWhitespace(s[i])
  }

  /** A string is blank exactly when trimming leaves nothing. */
  lemma BlankIffTrimEmpty(s: string)
    ensures IsBlank(s) <==> Trim(s) == []
  {
    var a := LeadingSpace(s);
    if IsBlank(s) {
      assert a == |s|;
    }
  }

  /** Trimming twice is trimming once. */
  lemma TrimIdempotent(s: string)
    ensures Trim(Trim(s)) == Trim(s)
  {
    var r := Trim(s);
    if r != [] {
      assert LeadingSpace(r) == 0;
      assert r[0..] == r;
      assert TrailingSpace(r) == 0;
    }
  }

  /** `Char.lowercaseChar()` on ASCII letters; every other character is
      left alone. */
  function ToLower(c: char): char {
    if 'A' <= c <= 'Z' then (c as int + 32) as char else c
  }

  /** Kotlin's `lowercase()`, character by character. */
  function Lowercase(s: string): (r: string)
    ensures |r| == |s|
    ensures forall i :: 0 <= i < |s| ==> r[i] == ToLower(s[i])
  {
    seq(|s|, i requires 0 <= i < |s| => ToLower(s[i]))
  }

  lemma LowercaseIdempotent(s: string)
    ensures Lowercase(Lowercase(s)) == Lowercase(s)
  {
  }

  lemma LowercaseSlice(s: string, a: nat, b: nat)
    requires a <= b <= |s|
    ensures Lowercase(s)[a..b] == Lowercase(s[a..b])
  {
  }

  lemma {:induction false} LeadingSpaceLowercase(s: string)
    ensures LeadingSpace(Lowercase(s)) == LeadingSpace(s)
    decreases |s|
  {
    if s != [] && IsWhitespace(s[0]) {
      LowercaseSlice(s, 1, |s|);
      LeadingSpaceLowercase(s[1..]);
    }
  }

  lemma {:induction false} TrailingSpaceLowercase(s: string)
    ensures TrailingSpace(Lowercase(s)) == TrailingSpace(s)
    decreases |s|
  {
    if s != [] && IsWhitespace(s[|s| - 1]) {
      LowercaseSlice(s, 0, |s| - 1);
      TrailingSpaceLowercase(s[..|s| - 1]);
    }
  }

  /** Lower-casing never turns a character into whitespace or back, so it
      commutes with trimming. */
  lemma TrimLowercase(s: string)
    ensures Trim(Lowercase(s)) == Lowercase(Trim(s))
  {
    var a := LeadingSpace(s);
    var rest := s[a..];
    var t := TrailingSpace(rest);
    LeadingSpaceLowercase(s);
    LowercaseSlice(s, a, |s|);
    assert Lowercase(s)[a..] == Lowercase(rest);
    TrailingSpaceLowercase(rest);
    LowercaseSlice(rest, 0, |rest| - t);
    assert Trim(s) == rest[..|rest| - t];
    assert Trim(Lowercase(s)) == Lowercase(rest)[..|rest| - t];
  }

  /** Kotlin's `contains()`: `q` occurs in `s` as a contiguous substring. */
  predicate Contains(s: string, q: string) {
    exists i :: 0 <= i <= |s| - |q| && OccursAt(s, q, i)
  }

  /** `q` occurs in `s` starting at position `i`. */
  predicate OccursAt(s: string, q: string, i: int) {
    0 <= i && i + |q| <= |s| && s[i..i + |q|] == q
  }

  /** Every string contains the empty string. */
  lemma ContainsEmpty(s: string)
    ensures Contains(s, [])
  {
    assert OccursAt(s, [], 0);
  }
}
