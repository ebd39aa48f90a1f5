/** The two email regular expressions the windows use, each stated as the
    language the regex denotes and decided by a linear check that is proved to
    accept exactly that language. .NET's `$` (without the Multiline option)
    matches at the very end or just before a final '\n', and both patterns
    inherit that. */
module EmailPatterns {
  import opened Prelude

  /** Register and password-reset pattern `^[\w-\.]+@([\w-]+\.)+[\w-]{2,4}$`. */

  predicate IsDot(c: char) { c == '.' }

  predicate IsAt(c: char) { c == '@' }

  predicate LocalChar(t: CharTables, c: char) {
    t.isWord(c) || c == '-' || c == '.'
  }

  predicate LabelChar(t: CharTables, c: char) {
    t.isWord(c) || c == '-'
  }

  /** `[\w-\.]+` */
  predicate IsLocalPart(t: CharTables, s: string) {
    |s| > 0 && forall k :: 0 <= k < |s| ==> LocalChar(t, s[k])
  }

  /** `[\w-]+` */
  predicate IsLabel(t: CharTables, s: string) {
    |s| > 0 && forall k :: 0 <= k < |s| ==> LabelChar(t, s[k])
  }

  /** `[\w-]{2,4}` */
  predicate IsFinalLabel(t: CharTables, s: string) {
    2 <= |s| <= 4 && forall k :: 0 <= k < |s| ==> LabelChar(t, s[k])
  }

  /** `([\w-]+\.)+[\w-]{2,4}`: one dot-terminated label, followed either by
      the final label or by more of the same. */
  ghost predicate DomainPattern(t: CharTables, d: string)
    decreases |d|
  {
    exists i :: 0 < i < |d| && d[i] == '.' && IsLabel(t, d[..i]) &&
      (IsFinalLabel(t, d[i + 1..]) || DomainPattern(t, d[i + 1..]))
  }

  ghost predicate RegisterCore(t: CharTables, s: string) {
    exists i :: 0 < i < |s| && s[i] == '@' && IsLocalPart(t, s[..i]) && DomainPattern(t, s[i + 1..])
  }

  /** The strings `Regex.IsMatch` accepts for the register pattern. */
  ghost predicate RegisterRegexMatches(t: CharTables, s: string) {
    RegisterCore(t, s) || (|s| > 0 && s[|s| - 1] == '\n' && RegisterCore(t, s[..|s| - 1]))
  }

  /** Linear decision for the domain: a label cannot contain '.', so each
      label ends at the first dot. */
  function DomainAccepts(t: CharTables, d: string): bool
    decreases |d|
  {
    var i := FirstIndex(d, IsDot);
    i > 0 && IsLabel(t, d[..i]) && (IsFinalLabel(t, d[i + 1..]) || DomainAccepts(t, d[i + 1..]))
  }

  function RegisterCoreAccepts(t: CharTables, s: string): bool {
    var i := FirstIndex(s, IsAt);
    i > 0 && IsLocalPart(t, s[..i]) && DomainAccepts(t, s[i + 1..])
  }

  /** `IsValidEmail` of the register and password-reset windows. */
  function IsValidRegisterEmail(t: CharTables, s: string): bool {
    RegisterCoreAccepts(t, s) || (|s| > 0 && s[|s| - 1] == '\n' && RegisterCoreAccepts(t, s[..|s| - 1]))
  }

  /** A label holds no dot, so the dot after it is the first one. */
  lemma LabelEndsAtFirstDot(t: CharTables, d: string, i: int)
    requires Sane(t)
    requires 0 < i < |d| && d[i] == '.' && IsLabel(t, d[..i])
    ensures FirstIndex(d, IsDot) == i
  {
    forall k | 0 <= k < i ensures !IsDot(d[k]) {
      assert d[..i][k] == d[k];
    }
  }

  lemma {:induction false} DomainAcceptsExactly(t: CharTables, d: string)
    requires Sane(t)
    ensures DomainAccepts(t, d) <==> DomainPattern(t, d)
    decreases |d|
  {
    if DomainAccepts(t, d) {
      var f := FirstIndex(d, IsDot);
      if !IsFinalLabel(t, d[f + 1..]) {
        DomainAcceptsExactly(t, d[f + 1..]);
      }
      assert 0 < f < |d| && d[f] == '.' && IsLabel(t, d[..f]);
    }
    if DomainPattern(t, d) {
      var i :| 0 < i < |d| && d[i] == '.' && IsLabel(t, d[..i]) &&
        (IsFinalLabel(t, d[i + 1..]) || DomainPattern(t, d[i + 1..]));
      LabelEndsAtFirstDot(t, d, i);
      if !IsFinalLabel(t, d[i + 1..]) {
        DomainAcceptsExactly(t, d[i + 1..]);
      }
    }
  }

  /** A local part holds no '@', so the '@' after it is the first one. */
  lemma LocalEndsAtFirstAt(t: CharTables, s: string, i: int)
    requires Sane(t)
    requires 0 < i < |s| && s[i] == '@' && IsLocalPart(t, s[..i])
    ensures FirstIndex(s, IsAt) == i
  {
    forall k | 0 <= k < i ensures !IsAt(s[k]) {
      assert s[..i][k] == s[k];
    }
  }

  lemma RegisterCoreAcceptsExactly(t: CharTables, s: string)
    requires Sane(t)
    ensures RegisterCoreAccepts(t, s) <==> RegisterCore(t, s)
  {
    if RegisterCoreAccepts(t, s) {
      var f := FirstIndex(s, IsAt);
      DomainAcceptsExactly(t, s[f + 1..]);
      assert 0 < f < |s| && s[f] == '@';
    }
    if RegisterCore(t, s) {
      var i :| 0 < i < |s| && s[i] == '@' && IsLocalPart(t, s[..i]) && DomainPattern(t, s[i + 1..]);
      LocalEndsAtFirstAt(t, s, i);
      DomainAcceptsExactly(t, s[i + 1..]);
    }
  }

  /** The register check accepts exactly the language of its regex. */
  lemma RegisterEmailExactly(t: CharTables, s: string)
    requires Sane(t)
    ensures IsValidRegisterEmail(t, s) <==> RegisterRegexMatches(t, s)
  {
    RegisterCoreAcceptsExactly(t, s);
    if |s| > 0 {
      RegisterCoreAcceptsExactly(t, s[..|s| - 1]);
    }
  }

  /** Every character of a matched domain is a label character or a dot. */
  lemma {:induction false} DomainChars(t: CharTables, d: string, k: int)
    requires DomainPattern(t, d) && 0 <= k < |d|
    ensures LabelChar(t, d[k]) || d[k] == '.'
    decreases |d|
  {
    var i :| 0 < i < |d| && d[i] == '.' && IsLabel(t, d[..i]) &&
      (IsFinalLabel(t, d[i + 1..]) || DomainPattern(t, d[i + 1..]));
    if k < i {
      assert d[..i][k] == d[k];
    } else if k > i {
      if IsFinalLabel(t, d[i + 1..]) {
        assert d[i + 1..][k - i - 1] == d[k];
      } else {
        DomainChars(t, d[i + 1..], k - i - 1);
      }
    }
  }

  /** A matched address has a single '@': neither the local part nor the
      domain may contain one. */
  lemma RegisterCoreSingleAt(t: CharTables, s: string, i: int)
    requires Sane(t)
    requires 0 < i < |s| && s[i] == '@' && IsLocalPart(t, s[..i]) && DomainPattern(t, s[i + 1..])
    ensures forall k :: 0 <= k < |s| && s[k] == '@' ==> k == i
  {
    forall k | 0 <= k < |s| && k != i ensures s[k] != '@' {
      if k < i {
        assert s[..i][k] == s[k];
      } else {
        DomainChars(t, s[i + 1..], k - i - 1);
      }
    }
  }

  /** The empty string never matches, so an empty address is reported as a
      bad format; so does one without a final label of two to four
      characters. */
  lemma RegisterRejectsEmpty(t: CharTables)
    ensures !RegisterRegexMatches(t, "")
  {
  }

  /** Profile pattern `^[^@\s]+@[^@\s]+\.[^@\s]+$`. */

  predicate ProfileChar(t: CharTables, c: char) {
    c != '@' && !t.isSpace(c)
  }

  /** `[^@\s]+` */
  predicate IsProfileRun(t: CharTables, s: string) {
    |s| > 0 && forall k :: 0 <= k < |s| ==> ProfileChar(t, s[k])
  }

  predicate ProfileSplit(t: CharTables, s: string, i: int, k: int) {
    0 < i && i + 1 < k < |s| - 1 && s[i] == '@' && s[k] == '.' &&
    IsProfileRun(t, s[..i]) && IsProfileRun(t, s[i + 1..k]) && IsProfileRun(t, s[k + 1..])
  }

  ghost predicate ProfileCore(t: CharTables, s: string) {
    exists i, k :: ProfileSplit(t, s, i, k)
  }

  /** The strings `Regex.IsMatch` accepts for the profile pattern. */
  ghost predicate ProfileRegexMatches(t: CharTables, s: string) {
    ProfileCore(t, s) || (|s| > 0 && s[|s| - 1] == '\n' && ProfileCore(t, s[..|s| - 1]))
  }

  /** The shape the profile pattern describes, said directly: no white space,
      exactly one '@' with something before it, and after it a '.' with at
      least one character on each side. */
  predicate ProfileShape(t: CharTables, s: string) {
    var i := FirstIndex(s, IsAt);
    && (forall j :: 0 <= j < |s| ==> !t.isSpace(s[j]))
    && i > 0
    && (forall j :: i < j < |s| ==> s[j] != '@')
    && (exists k :: i + 1 < k < |s| - 1 && s[k] == '.')
  }

  /** `IsValidEmail` of the profile window: not empty, and the regex matches. */
  function IsValidProfileEmail(t: CharTables, s: string): bool {
    |s| > 0 && (ProfileShape(t, s) || (s[|s| - 1] == '\n' && ProfileShape(t, s[..|s| - 1])))
  }

  lemma RunOfSlice(t: CharTables, s: string, lo: int, hi: int)
    requires 0 <= lo < hi <= |s|
    requires forall j :: lo <= j < hi ==> ProfileChar(t, s[j])
    ensures IsProfileRun(t, s[lo..hi])
  {
    forall j | 0 <= j < hi - lo ensures ProfileChar(t, s[lo..hi][j]) {
      assert s[lo..hi][j] == s[lo + j];
    }
  }

  lemma ProfileShapeExactly(t: CharTables, s: string)
    requires Sane(t)
    ensures ProfileShape(t, s) <==> ProfileCore(t, s)
  {
    var f := FirstIndex(s, IsAt);
    if ProfileCore(t, s) {
      var i, k :| ProfileSplit(t, s, i, k);
      forall j | 0 <= j < |s| ensures !t.isSpace(s[j]) && (j != i ==> s[j] != '@') {
        if j < i {
          assert s[..i][j] == s[j];
        } else if i < j < k {
          assert s[i + 1..k][j - i - 1] == s[j];
        } else if j > k {
          assert s[k + 1..][j - k - 1] == s[j];
        }
      }
      assert f == i;
    }
    if ProfileShape(t, s) {
      var k :| f + 1 < k < |s| - 1 && s[k] == '.';
      assert s[f] == '@';
      RunOfSlice(t, s, 0, f);
      assert s[..f] == s[0..f];
      RunOfSlice(t, s, f + 1, k);
      RunOfSlice(t, s, k + 1, |s|);
      assert s[k + 1..] == s[k + 1..|s|];
      assert ProfileSplit(t, s, f, k);
    }
  }

  /** The profile check accepts exactly the non-empty strings the regex
      matches. */
  lemma ProfileEmailExactly(t: CharTables, s: string)
    requires Sane(t)
    ensures IsValidProfileEmail(t, s) <==> |s| > 0 && ProfileRegexMatches(t, s)
  {
    ProfileShapeExactly(t, s);
    if |s| > 0 {
      ProfileShapeExactly(t, s[..|s| - 1]);
    }
  }

  /** Outside the '@', a matched register address holds only characters the
      profile pattern allows. */
  lemma RegisterCharsAreProfileChars(t: CharTables, s: string, i: int)
    requires Sane(t) && WordIsNotSpace(t)
    requires 0 < i < |s| && s[i] == '@' && IsLocalPart(t, s[..i]) && DomainPattern(t, s[i + 1..])
    ensures forall m :: 0 <= m < |s| && m != i ==> ProfileChar(t, s[m])
  {
    forall m | 0 <= m < |s| && m != i ensures ProfileChar(t, s[m]) {
      if m < i {
        assert s[..i][m] == s[m];
        assert LocalChar(t, s[m]);
      } else {
        DomainChars(t, s[i + 1..], m - i - 1);
        assert s[i + 1..][m - i - 1] == s[m];
      }
    }
  }

  /** A matched register address has its '@' at some `i` and, after at
      least one label character, a dot at some `k` before the last character. */
  lemma RegisterDots(t: CharTables, s: string) returns (i: int, k: int)
    requires RegisterCore(t, s)
    ensures 0 < i && i + 1 < k < |s| - 1 && s[i] == '@' && s[k] == '.'
    ensures IsLocalPart(t, s[..i]) && DomainPattern(t, s[i + 1..])
  {
    i :| 0 < i < |s| && s[i] == '@' && IsLocalPart(t, s[..i]) && DomainPattern(t, s[i + 1..]);
    var j := DomainDot(t, s[i + 1..]);
    k := i + 1 + j;
  }

  /** A matched domain has a dot after its first character and before its
      last. */
  lemma DomainDot(t: CharTables, d: string) returns (j: int)
    requires DomainPattern(t, d)
    ensures 0 < j < |d| - 1 && d[j] == '.'
  {
    j :| 0 < j < |d| && d[j] == '.' && IsLabel(t, d[..j]) &&
      (IsFinalLabel(t, d[j + 1..]) || DomainPattern(t, d[j + 1..]));
    if !IsFinalLabel(t, d[j + 1..]) {
      var e := d[j + 1..];
      var m :| 0 < m < |e| && e[m] == '.' && IsLabel(t, e[..m]) &&
        (IsFinalLabel(t, e[m + 1..]) || DomainPattern(t, e[m + 1..]));
    }
  }

  /** Every address the register pattern accepts, the profile pattern accepts
      too: the local part and the labels hold neither '@' nor white space. */
  lemma RegisterCoreIsProfileCore(t: CharTables, s: string)
    requires Sane(t) && WordIsNotSpace(t)
    requires RegisterCore(t, s)
    ensures ProfileCore(t, s)
  {
    var i, k := RegisterDots(t, s);
    RegisterCharsAreProfileChars(t, s, i);
    RunOfSlice(t, s, 0, i);
    assert s[..i] == s[0..i];
    RunOfSlice(t, s, i + 1, k);
    RunOfSlice(t, s, k + 1, |s|);
    assert s[k + 1..] == s[k + 1..|s|];
    assert ProfileSplit(t, s, i, k);
  }
}
