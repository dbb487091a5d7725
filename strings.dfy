/** The parts of `java.lang.String` the contact record relies on: `trim` and ASCII digits. */
module Strings {

  /** `String.trim` removes every leading and trailing char whose code is at most U+0020. */
  predicate IsTrimmable(c: char) {
    c <= ' '
  }

  predicate AllTrimmable(s: string) {
    forall i :: 0 <= i < |s| ==> IsTrimmable(s[i])
  }

  /** The class `\d` of a Java regular expression, which is ASCII-only by default. */
  predicate IsAsciiDigit(c: char) {
    '0' <= c <= '9'
  }

  predicate AllDigits(s: string) {
    forall i :: 0 <= i < |s| ==> IsAsciiDigit(s[i])
  }

  /** `s` with its leading trimmable chars removed. */
  function TrimStart(s: string): string {
    if s != [] && IsTrimmable(s[0]) then TrimStart(s[1..]) else s
  }

  /** `s` with its trailing trimmable chars removed. */
  function TrimEnd(s: string): string {
    if s != [] && IsTrimmable(s[|s| - 1]) then TrimEnd(s[..|s| - 1]) else s
  }

  /**
   * Java's `String.trim`: first skip the trimmable chars at the front, then those at
   * the back of what remains.
   */
  function Trim(s: string): string {
    TrimEnd(TrimStart(s))
  }

  /** `TrimStart` keeps a suffix of `s`, drops only trimmable chars, and stops at a char it must keep. */
  lemma {:induction false} TrimStartSpec(s: string)
    ensures |TrimStart(s)| <= |s| && TrimStart(s) == s[|s| - |TrimStart(s)|..]
    ensures AllTrimmable(s[..|s| - |TrimStart(s)|])
    ensures TrimStart(s) == [] || !IsTrimmable(TrimStart(s)[0])
  {
    if s != [] && IsTrimmable(s[0]) {
      TrimStartSpec(s[1..]);
      var r := TrimStart(s);
      assert s[..|s| - |r|] == [s[0]] + s[1..][..|s| - 1 - |r|];
    }
  }

  /** `TrimEnd` keeps a prefix of `s`, drops only trimmable chars, and stops at a char it must keep. */
  lemma {:induction false} TrimEndSpec(s: string)
    ensures |TrimEnd(s)| <= |s| && TrimEnd(s) == s[..|TrimEnd(s)|]
    ensures AllTrimmable(s[|TrimEnd(s)|..])
    ensures TrimEnd(s) == [] || !IsTrimmable(TrimEnd(s)[|TrimEnd(s)| - 1])
  {
    if s != [] && IsTrimmable(s[|s| - 1]) {
      var p := s[..|s| - 1];
      TrimEndSpec(p);
      var r := TrimEnd(s);
      assert s[|r|..] == p[|r|..] + [s[|s| - 1]];
    }
  }

  /**
   * What `trim` keeps: the slice of `s` left once a trimmable prefix and a trimmable
   * suffix are cut off, which neither starts nor ends with a trimmable char.
   */
  lemma TrimSpec(s: string)
    ensures |Trim(s)| <= |s|
    ensures Trim(s) == [] || (!IsTrimmable(Trim(s)[0]) && !IsTrimmable(Trim(s)[|Trim(s)| - 1]))
    ensures exists i :: 0 <= i <= |s| - |Trim(s)| && AllTrimmable(s[..i])
                        && Trim(s) == s[i..i + |Trim(s)|] && AllTrimmable(s[i + |Trim(s)|..])
  {
    var t := TrimStart(s);
    var r := TrimEnd(t);
    TrimStartSpec(s);
    TrimEndSpec(t);
    var i := |s| - |t|;
    assert t == s[i..];
    assert r == s[i..i + |r|];
    assert s[i + |r|..] == t[|r|..];
    if r != [] {
      assert r[0] == t[0];
    }
  }

  /**
   * Java's blankness test `s.trim().isEmpty()` holds exactly of the strings made only of
   * trimmable chars, so the field rules state blankness as `AllTrimmable`.
   */
  lemma BlankIffTrimEmpty(s: string)
    ensures AllTrimmable(s) <==> Trim(s) == []
  {
    TrimSpec(s);
    var r := Trim(s);
    var i :| 0 <= i <= |s| - |r| && AllTrimmable(s[..i]) && r == s[i..i + |r|]
             && AllTrimmable(s[i + |r|..]);
  }

  /** A string that neither starts nor ends with a trimmable char is its own trim. */
  lemma TrimOfTrimmed(s: string)
    requires s == [] || (!IsTrimmable(s[0]) && !IsTrimmable(s[|s| - 1]))
    ensures Trim(s) == s
  {
  }

  /** Trimming twice is trimming once, so re-trimming a stored trimmed value changes nothing. */
  lemma TrimIdempotent(s: string)
    ensures Trim(Trim(s)) == Trim(s)
  {
    TrimSpec(s);
    TrimOfTrimmed(Trim(s));
  }

  /** Surrounding blanks go and inner blanks stay: `"   789 Oak Lane   "` trims to `"789 Oak Lane"`. */
  lemma TrimExample()
    ensures Trim("   789 Oak Lane   ") == "789 Oak Lane"
  {
    assert TrimStart("789 Oak Lane   ") == "789 Oak Lane   ";
    assert TrimStart(" 789 Oak Lane   ") == "789 Oak Lane   ";
    assert TrimStart("   789 Oak Lane   ") == "789 Oak Lane   ";
    assert "789 Oak Lane "[..12] == "789 Oak Lane";
    assert TrimEnd("789 Oak Lane ") == "789 Oak Lane";
    assert "789 Oak Lane  "[..13] == "789 Oak Lane ";
    assert TrimEnd("789 Oak Lane  ") == "789 Oak Lane";
    assert "789 Oak Lane   "[..14] == "789 Oak Lane  ";
  }
}
