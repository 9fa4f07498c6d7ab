/**
 * The string operations of Python's `str` that the dashboard relies on:
 * `strip`, `lower`, `capitalize`, `startswith` and the `in` substring test.
 * Case mapping is modelled for ASCII letters only.
 */
module Text {

  /**
   * The characters Python's argument-less `strip()` removes, those for which
   * `str.isspace()` holds: the ASCII controls U+0009–U+000D and U+001C–U+001F,
   * the space, U+0085, the no-break space U+00A0, U+1680, U+2000–U+200A, the
   * line and paragraph separators U+2028 and U+2029, U+202F, U+205F and U+3000.
   */
  const Whitespace: set<char> := set c: char | IsSpace(c)

  /** `str.isspace()` on one character, by code point. */
  predicate IsSpace(c: char) {
    var n := c as int;
    (0x09 <= n <= 0x0D) || (0x1C <= n <= 0x20) || n == 0x85 || n == 0xA0 || n == 0x1680
    || (0x2000 <= n <= 0x200A) || n == 0x2028 || n == 0x2029 || n == 0x202F || n == 0x205F || n == 0x3000
  }

  /** Removes every leading character that is in `cs` (Python `lstrip(cs)`). */
  function TrimLeft(s: string, cs: set<char>): (r: string)
    ensures |r| <= |s| && r == s[|s| - |r|..]
    ensures forall k :: 0 <= k < |s| - |r| ==> s[k] in cs
    ensures r == [] || r[0] !in cs
  {
    if s != [] && s[0] in cs then TrimLeft(s[1..], cs) else s
  }

  /** Removes every trailing character that is in `cs` (Python `rstrip(cs)`). */
  function TrimRight(s: string, cs: set<char>): (r: string)
    ensures |r| <= |s| && r == s[..|r|]
    ensures forall k :: |r| <= k < |s| ==> s[k] in cs
    ensures r == [] || r[|r| - 1] !in cs
  {
    if s != [] && s[|s| - 1] in cs then TrimRight(s[..|s| - 1], cs) else s
  }

  /** Python `s.strip(cs)`: the result neither starts nor ends with a character of `cs`. */
  function Strip(s: string, cs: set<char>): (r: string)
    ensures r == [] || (r[0] !in cs && r[|r| - 1] !in cs)
  {
    TrimRight(TrimLeft(s, cs), cs)
  }

  /**
   * What `Strip` cuts off: the result is a contiguous slice of `s`, and
   * everything cut off on either side is in `cs`.
   */
  lemma StripIsSlice(s: string, cs: set<char>) returns (i: nat, j: nat)
    ensures i <= j <= |s| && Strip(s, cs) == s[i..j]
    ensures forall k :: 0 <= k < i ==> s[k] in cs
    ensures forall k :: j <= k < |s| ==> s[k] in cs
  {
    var left := TrimLeft(s, cs);
    var r := TrimRight(left, cs);
    i, j := |s| - |left|, |s| - |left| + |r|;
    assert left == s[i..];
    assert r == left[..|r|];
    forall k | j <= k < |s| ensures s[k] in cs {
      assert s[k] == left[k - i];
    }
    assert r == s[i..j];
  }

  /** A string with no character of `cs` at either end is left unchanged by `Strip`. */
  lemma {:induction false} StripUnchanged(s: string, cs: set<char>)
    requires s == [] || (s[0] !in cs && s[|s| - 1] !in cs)
    ensures Strip(s, cs) == s
  {
    assert TrimLeft(s, cs) == s;
    assert TrimRight(s, cs) == s;
  }

  /** `TrimLeft` stops at the first character outside `cs`. */
  lemma {:induction false} TrimLeftIs(s: string, cs: set<char>, i: nat)
    requires i <= |s|
    requires forall k :: 0 <= k < i ==> s[k] in cs
    requires i < |s| ==> s[i] !in cs
    ensures TrimLeft(s, cs) == s[i..]
  {
    if i > 0 {
      TrimLeftIs(s[1..], cs, i - 1);
      assert s[1..][i - 1..] == s[i..];
    }
  }

  /** `TrimRight` stops at the last character outside `cs`. */
  lemma {:induction false} TrimRightIs(s: string, cs: set<char>, j: nat)
    requires j <= |s|
    requires forall k :: j <= k < |s| ==> s[k] in cs
    requires j > 0 ==> s[j - 1] !in cs
    ensures TrimRight(s, cs) == s[..j]
  {
    if j < |s| {
      TrimRightIs(s[..|s| - 1], cs, j);
      assert s[..|s| - 1][..j] == s[..j];
    }
  }

  /** Stripping twice is stripping once. */
  lemma StripIdempotent(s: string, cs: set<char>)
    ensures Strip(Strip(s, cs), cs) == Strip(s, cs)
  {
    StripUnchanged(Strip(s, cs), cs);
  }

  predicate IsUpper(c: char) { 'A' <= c <= 'Z' }

  predicate IsLower(c: char) { 'a' <= c <= 'z' }

  function LowerChar(c: char): (r: char)
    ensures !IsUpper(r)
    ensures IsUpper(c) ==> r as int == c as int + 32
    ensures !IsUpper(c) ==> r == c
  {
    if IsUpper(c) then (c as int + 32) as char else c
  }

  function UpperChar(c: char): (r: char)
    ensures !IsLower(r)
    ensures IsLower(c) ==> r as int == c as int - 32
    ensures !IsLower(c) ==> r == c
  {
    if IsLower(c) then (c as int - 32) as char else c
  }

  /** Python `s.lower()`, for ASCII letters. */
  function Lower(s: string): (r: string)
    ensures |r| == |s|
    ensures forall k :: 0 <= k < |s| ==> r[k] == LowerChar(s[k])
  {
    seq(|s|, k requires 0 <= k < |s| => LowerChar(s[k]))
  }

  /** Python `s.capitalize()`: first character upper-cased, all the others lower-cased. */
  function Capitalize(s: string): (r: string)
    ensures |r| == |s|
    ensures s != [] ==> r[0] == UpperChar(s[0])
    ensures forall k :: 0 < k < |s| ==> r[k] == LowerChar(s[k])
  {
    if s == [] then [] else [UpperChar(s[0])] + Lower(s[1..])
  }

  /** Lower-casing an already lower-cased string changes nothing. */
  lemma LowerIdempotent(s: string)
    ensures Lower(Lower(s)) == Lower(s)
  {
    var l := Lower(s);
    assert forall k :: 0 <= k < |l| ==> LowerChar(l[k]) == l[k];
  }

  /** Capitalising an already capitalised string changes nothing. */
  lemma CapitalizeIdempotent(s: string)
    ensures Capitalize(Capitalize(s)) == Capitalize(s)
  {
    var c := Capitalize(s);
    assert forall k :: 0 < k < |c| ==> LowerChar(c[k]) == c[k];
    assert c != [] ==> UpperChar(c[0]) == c[0];
  }

  /** Case mapping never turns a whitespace character into a non-whitespace one, or back. */
  lemma CaseKeepsWhitespace(c: char)
    ensures (LowerChar(c) in Whitespace) == (c in Whitespace)
    ensures (UpperChar(c) in Whitespace) == (c in Whitespace)
  {
  }

  /** Python `s.startswith(p)`. */
  predicate StartsWith(s: string, p: string) {
    |p| <= |s| && s[..|p|] == p
  }

  /** Python `p in s` for strings: `p` occurs as a contiguous substring of `s`. */
  predicate Contains(s: string, p: string) {
    exists i | 0 <= i <= |s| - |p| :: OccursAt(s, p, i)
  }

  /** `p` occurs in `s` starting at index `i`. */
  predicate OccursAt(s: string, p: string, i: int)
    requires 0 <= i <= |s| - |p|
  {
    s[i..i + |p|] == p
  }

  /** Python `any(w in s for w in words)`. */
  predicate ContainsAny(s: string, words: seq<string>) {
    exists k | 0 <= k < |words| :: Contains(s, words[k])
  }

  /** Python `"\n".join(lines)`. */
  function JoinLines(lines: seq<string>): string {
    if |lines| == 0 then ""
    else if |lines| == 1 then lines[0]
    else lines[0] + "\n" + JoinLines(lines[1..])
  }

  /** Python `s.split("\n")`: the pieces between newlines, always at least one. */
  function SplitLines(s: string): (r: seq<string>)
    ensures |r| >= 1
  {
    if s == [] then [""]
    else
      var rest := SplitLines(s[1..]);
      if s[0] == '\n' then [""] + rest else [[s[0]] + rest[0]] + rest[1..]
  }

  /** A text without a newline is a single line. */
  lemma {:induction false} SplitOneLine(s: string)
    requires '\n' !in s
    ensures SplitLines(s) == [s]
  {
    if s != [] {
      assert '\n' !in s[1..];
      SplitOneLine(s[1..]);
      assert [s[0]] + s[1..] == s;
    }
  }

  /** Splitting at the first newline: the text before it is the first line. */
  lemma {:induction false} SplitFirstLine(a: string, t: string)
    requires '\n' !in a
    ensures SplitLines(a + "\n" + t) == [a] + SplitLines(t)
  {
    if a == [] {
      assert a + "\n" + t == "\n" + t;
      assert ("\n" + t)[1..] == t;
    } else {
      assert '\n' !in a[1..];
      SplitFirstLine(a[1..], t);
      assert (a + "\n" + t)[1..] == a[1..] + "\n" + t;
      assert [a[0]] + a[1..] == a;
    }
  }

  /** Joining lines that hold no newline and splitting the result gives the lines back. */
  lemma {:induction false} SplitJoinLines(lines: seq<string>)
    requires |lines| >= 1
    requires forall i :: 0 <= i < |lines| ==> '\n' !in lines[i]
    ensures SplitLines(JoinLines(lines)) == lines
  {
    if |lines| == 1 {
      SplitOneLine(lines[0]);
    } else {
      SplitFirstLine(lines[0], JoinLines(lines[1..]));
      SplitJoinLines(lines[1..]);
      assert [lines[0]] + lines[1..] == lines;
    }
  }
}
