/** Small shared vocabulary: nullable values, bytes, the Unicode tables the
    .NET runtime consults, and the string and list helpers the application
    takes from the base class library (Trim, EndsWith, IndexOf, ...). */
module Prelude {

  /** A value that may be null. */
  datatype Option<+T> = None | Some(value: T) {
    /** The C# `??` operator. */
    function GetOr(default: T): T {
      if Some? then value else default
    }
  }

  /** What a data-access call hands back to a caller that guards it with
      `?? new ...` and/or a try/catch. */
  datatype Fetched<+T> = Rows(rows: T) | NullRows | Failed

  newtype byte = x: int | 0 <= x < 256

  /** The Unicode tables behind .NET's `\w`, `\s`/`Char.IsWhiteSpace` and the
      ordinal case-insensitive comparison. They are not modelled as ASCII
      tables: every definition that needs them takes them as a parameter. */
  datatype CharTables = CharTables(isWord: char -> bool, isSpace: char -> bool, toUpper: char -> char)

  /** The facts about those tables that .NET guarantees and the email
      patterns rely on: '@' and '.' are punctuation, neither word characters
      nor white space; and '-' is not white space. */
  predicate Sane(t: CharTables) {
    && !t.isWord('@') && !t.isWord('.')
    && !t.isSpace('@') && !t.isSpace('.') && !t.isSpace('-')
  }

  /** Also guaranteed by .NET: no word character is white space. */
  predicate WordIsNotSpace(t: CharTables) {
    forall c :: t.isWord(c) ==> !t.isSpace(c)
  }

  predicate AllChars(s: string, p: char -> bool) {
    forall k :: 0 <= k < |s| ==> p(s[k])
  }

  /** `string.IsNullOrWhiteSpace` on a non-null string. */
  predicate IsBlank(t: CharTables, s: string) {
    AllChars(s, t.isSpace)
  }

  /** Index of the first element satisfying `p`, or -1 (`List.FindIndex`,
      `IndexOf`, `FirstOrDefault`). */
  function FirstIndex<T>(xs: seq<T>, p: T -> bool): (i: int)
    ensures -1 <= i < |xs|
    ensures i >= 0 ==> p(xs[i])
    ensures forall k :: 0 <= k < |xs| && (i < 0 || k < i) ==> !p(xs[k])
  {
    if xs == [] then -1
    else if p(xs[0]) then 0
    else
      var j := FirstIndex(xs[1..], p);
      if j < 0 then -1 else j + 1
  }

  /** Index of the last element satisfying `p`, or -1 (`LastIndexOf`). */
  function LastIndex<T>(xs: seq<T>, p: T -> bool): (i: int)
    ensures -1 <= i < |xs|
    ensures i >= 0 ==> p(xs[i])
    ensures forall k :: i < k < |xs| ==> !p(xs[k])
  {
    if xs == [] then -1
    else if p(xs[|xs| - 1]) then |xs| - 1
    else LastIndex(xs[..|xs| - 1], p)
  }

  /** `r` lists some of the elements of `xs`, in their order in `xs`. */
  predicate SubsequenceOf<T(==)>(r: seq<T>, xs: seq<T>)
    decreases |xs|
  {
    if r == [] then true
    else if xs == [] then false
    else if r[0] == xs[0] then SubsequenceOf(r[1..], xs[1..])
    else SubsequenceOf(r, xs[1..])
  }

  /** `Collection<T>.IndexOf` for a class type: reference equality. */
  function IndexOf<T(==)>(xs: seq<T>, x: T): (i: int)
    ensures -1 <= i < |xs|
    ensures i >= 0 <==> x in xs
    ensures i >= 0 ==> xs[i] == x && x !in xs[..i]
  {
    var i := FirstIndex(xs, y => y == x);
    assert i >= 0 ==> xs[..i] == xs[..i] && forall k :: 0 <= k < i ==> xs[..i][k] != x;
    i
  }

  /** `String.TrimStart()`: drops leading white space. */
  function TrimStart(t: CharTables, s: string): (r: string)
    ensures |r| <= |s| && r == s[|s| - |r|..]
    ensures IsBlank(t, s[..|s| - |r|])
    ensures r == [] || !t.isSpace(r[0])
  {
    if s != [] && t.isSpace(s[0]) then
      var r := TrimStart(t, s[1..]);
      assert s[1..][..|s| - 1 - |r|] == s[1..|s| - |r|];
      r
    else s
  }

  /** `String.TrimEnd()`: drops trailing white space. */
  function TrimEnd(t: CharTables, s: string): (r: string)
    ensures |r| <= |s| && r == s[..|r|]
    ensures IsBlank(t, s[|r|..])
    ensures r == [] || !t.isSpace(r[|r| - 1])
  {
    if s != [] && t.isSpace(s[|s| - 1]) then
      var r := TrimEnd(t, s[..|s| - 1]);
      assert s[..|s| - 1][|r|..] == s[|r|..|s| - 1];
      assert s[|r|..] == s[|r|..|s| - 1] + [s[|s| - 1]];
      r
    else s
  }

  /** `String.Trim()`. */
  function Trim(t: CharTables, s: string): string {
    TrimEnd(t, TrimStart(t, s))
  }

  /** A trimmed string is blank exactly when it is empty, so
      `IsNullOrWhiteSpace(x.Trim())` is `x.Trim() == ""`. */
  lemma TrimmedBlankIsEmpty(t: CharTables, s: string)
    ensures IsBlank(t, Trim(t, s)) <==> Trim(t, s) == []
  {
    var m := TrimStart(t, s);
    var r := TrimEnd(t, m);
    if r != [] {
      assert r[0] == m[0];
    }
  }

  /** `Trim()` leaves nothing exactly when the text is blank; so a text that
      passes `IsNullOrWhiteSpace` stays non-empty after trimming. */
  lemma TrimEmptyIffBlank(t: CharTables, s: string)
    ensures Trim(t, s) == [] <==> IsBlank(t, s)
  {
    var m := TrimStart(t, s);
    if Trim(t, s) == [] {
      assert IsBlank(t, m[0..]);
      assert s == s[..|s| - |m|] + m;
    }
    if IsBlank(t, s) {
      assert m == s[|s| - |m|..];
    }
  }

  /** Trimming twice is trimming once. */
  lemma TrimIdempotent(t: CharTables, s: string)
    ensures Trim(t, Trim(t, s)) == Trim(t, s)
  {
    var r := Trim(t, s);
    TrimmedBlankIsEmpty(t, s);
    if r != [] {
      assert r[0] == TrimStart(t, s)[0];
      assert TrimStart(t, r) == r;
    }
  }

  /** `String.EndsWith(suffix)`, compared character by character. */
  predicate EndsWith(s: string, suffix: string) {
    |suffix| <= |s| && s[|s| - |suffix|..] == suffix
  }

  /** The case-insensitive ordinal match of `needle` at position `i`. */
  predicate MatchesAt(t: CharTables, hay: string, needle: string, i: int)
    requires 0 <= i <= |hay| - |needle|
  {
    forall j :: 0 <= j < |needle| ==> t.toUpper(hay[i + j]) == t.toUpper(needle[j])
  }

  /** `hay.IndexOf(needle, StringComparison.OrdinalIgnoreCase) >= 0`. */
  predicate ContainsIgnoreCase(t: CharTables, hay: string, needle: string) {
    exists i :: 0 <= i <= |hay| - |needle| && MatchesAt(t, hay, needle, i)
  }

  /** Whether `c` lies outside the Basic Multilingual Plane, where UTF-16
      needs a surrogate pair. */
  predicate IsAstral(c: char) {
    c as int > 0xFFFF
  }

  /** `String.Length`: the number of UTF-16 code units, so an astral
      character counts twice. */
  function Utf16Length(s: string): (n: nat)
    ensures |s| <= n <= 2 * |s|
    ensures n == 0 <==> s == []
  {
    if s == [] then 0 else (if IsAstral(s[0]) then 2 else 1) + Utf16Length(s[1..])
  }

  /** Without astral characters, code units and characters coincide. */
  lemma {:induction false} Utf16LengthOfBmp(s: string)
    requires forall k :: 0 <= k < |s| ==> !IsAstral(s[k])
    ensures Utf16Length(s) == |s|
  {
    if s != [] {
      assert forall k :: 0 <= k < |s[1..]| ==> s[1..][k] == s[k + 1];
      Utf16LengthOfBmp(s[1..]);
    }
  }

  /** Code units add up over concatenation. */
  lemma {:induction false} Utf16LengthAppend(a: string, b: string)
    ensures Utf16Length(a + b) == Utf16Length(a) + Utf16Length(b)
  {
    if a == [] {
      assert a + b == b;
    } else {
      assert (a + b)[0] == a[0] && (a + b)[1..] == a[1..] + b;
      Utf16LengthAppend(a[1..], b);
    }
  }

  /** `(int)u` for a `uint` in C#'s default unchecked context. */
  function UIntToInt(u: nat): (r: int)
    requires u < 0x1_0000_0000
    ensures -0x8000_0000 <= r < 0x8000_0000
    ensures (r - u) % 0x1_0000_0000 == 0
    ensures r >= 0 <==> u < 0x8000_0000
  {
    if u < 0x8000_0000 then u else u - 0x1_0000_0000
  }
}
