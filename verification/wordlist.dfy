/**
 * Candidate extraction from the wordlist: every line is stripped of leading
 * and trailing whitespace and kept, in file order, when something remains.
 * Duplicates are kept; nothing else is filtered.
 */
module Wordlist {

  /** The characters Python's `str.isspace` accepts, which `str.strip()`
      removes from both ends of a line. */
  predicate IsSpace(c: char) {
    || c == ' ' || c == '\t' || c == '\n' || c == '\r'
    || c == '\U{000B}' || c == '\U{000C}'
    || ('\U{001C}' <= c <= '\U{001F}')
    || c == '\U{0085}' || c == '\U{00A0}' || c == '\U{1680}'
    || ('\U{2000}' <= c <= '\U{200A}')
    || c == '\U{2028}' || c == '\U{2029}' || c == '\U{202F}' || c == '\U{205F}'
    || c == '\U{3000}'
  }

  ghost predicate AllSpace(s: string) {
    forall i :: 0 <= i < |s| ==> IsSpace(s[i])
  }

  /** `s` with its leading whitespace removed. */
  function TrimStart(s: string): string {
    if s != [] && IsSpace(s[0]) then TrimStart(s[1..]) else s
  }

  /** `s` with its trailing whitespace removed. */
  function TrimEnd(s: string): string {
    if s != [] && IsSpace(s[|s| - 1]) then TrimEnd(s[..|s| - 1]) else s
  }

  /** Trimming the start removes exactly a whitespace prefix, up to the
      first other character. */
  lemma {:induction false} TrimStartSpec(s: string)
    ensures var r := TrimStart(s);
            && |r| <= |s| && r == s[|s| - |r|..]
            && AllSpace(s[..|s| - |r|])
            && (r == [] || !IsSpace(r[0]))
    decreases |s|
  {
    if s != [] && IsSpace(s[0]) {
      TrimStartSpec(s[1..]);
      var r := TrimStart(s);
      assert s[..|s| - |r|] == [s[0]] + s[1..][..|s| - 1 - |r|];
    }
  }

  /** Trimming the end removes exactly a whitespace suffix, back to the last
      other character. */
  lemma {:induction false} TrimEndSpec(s: string)
    ensures var r := TrimEnd(s);
            && |r| <= |s| && r == s[..|r|]
            && AllSpace(s[|r|..])
            && (r == [] || !IsSpace(r[|r| - 1]))
    decreases |s|
  {
    if s != [] && IsSpace(s[|s| - 1]) {
      TrimEndSpec(s[..|s| - 1]);
      var r := TrimEnd(s);
      assert s[|r|..] == s[..|s| - 1][|r|..] + [s[|s| - 1]];
    }
  }

  /** The ends of a stripped infix `s[i..j]`: only whitespace outside it,
      and neither of its end characters is whitespace. */
  ghost predicate StripsAt(s: string, i: int, j: int) {
    && 0 <= i <= j <= |s| && AllSpace(s[..i]) && AllSpace(s[j..])
    && (i < j ==> !IsSpace(s[i]) && !IsSpace(s[j - 1]))
  }

  /** The independent description of stripping: `r` is the infix of `s` left
      after removing whitespace-only ends, and neither end of `r` is whitespace. */
  ghost predicate IsStripOf(s: string, r: string) {
    exists i, j :: StripsAt(s, i, j) && r == s[i..j]
  }

  /** `str.strip()` with no arguments. */
  function Strip(s: string): string {
    TrimEnd(TrimStart(s))
  }

  /** Stripping never lengthens a line, yields nothing exactly for a
      whitespace-only line, and leaves no whitespace at either end. */
  lemma StripSpec(s: string)
    ensures var r := Strip(s);
            && |r| <= |s|
            && (r == [] <==> AllSpace(s))
            && (r != [] ==> !IsSpace(r[0]) && !IsSpace(r[|r| - 1]))
  {
    var t := TrimStart(s);
    TrimStartSpec(s);
    TrimEndSpec(t);
    var r := TrimEnd(t);
    if r == [] {
      assert s == s[..|s| - |t|] + t;
    } else {
      assert r[0] == t[0];
    }
  }

  lemma {:induction false} StripMeetsDescription(s: string)
    ensures IsStripOf(s, Strip(s))
  {
    var t := TrimStart(s);
    TrimStartSpec(s);
    TrimEndSpec(t);
    StripSpec(s);
    var r := Strip(s);
    var i := |s| - |t|;
    var j := i + |r|;
    assert r == t[..|r|];
    assert r == s[i..j];
    assert t[|r|..] == s[j..];
    assert AllSpace(s[..i]) && AllSpace(s[j..]);
    if i < j {
      assert s[i] == r[0] && s[j - 1] == r[|r| - 1];
    }
    assert StripsAt(s, i, j);
  }

  lemma PrefixSpaces(s: string, i: nat)
    requires i <= |s| && AllSpace(s[..i])
    ensures forall m :: 0 <= m < i ==> IsSpace(s[m])
  {
    forall m | 0 <= m < i ensures IsSpace(s[m]) {
      assert s[..i][m] == s[m];
    }
  }

  lemma SuffixSpaces(s: string, j: nat)
    requires j <= |s| && AllSpace(s[j..])
    ensures forall m :: j <= m < |s| ==> IsSpace(s[m])
  {
    forall m | j <= m < |s| ensures IsSpace(s[m]) {
      assert s[j..][m - j] == s[m];
    }
  }

  lemma StripsAtUnique(s: string, i1: int, j1: int, i2: int, j2: int)
    requires StripsAt(s, i1, j1) && StripsAt(s, i2, j2)
    ensures s[i1..j1] == s[i2..j2]
  {
    PrefixSpaces(s, i1);
    PrefixSpaces(s, i2);
    SuffixSpaces(s, j1);
    SuffixSpaces(s, j2);
  }

  lemma {:induction false} StripDescriptionUnique(s: string, r1: string, r2: string)
    requires IsStripOf(s, r1) && IsStripOf(s, r2)
    ensures r1 == r2
  {
    var i1, j1 :| StripsAt(s, i1, j1) && r1 == s[i1..j1];
    var i2, j2 :| StripsAt(s, i2, j2) && r2 == s[i2..j2];
    StripsAtUnique(s, i1, j1, i2, j2);
  }

  lemma StripIdempotent(s: string)
    ensures Strip(Strip(s)) == Strip(s)
  {
    var r := Strip(s);
    StripSpec(s);
    StripMeetsDescription(r);
    assert IsStripOf(r, r) by {
      assert r == r[0..|r|] && r[..0] == [] && r[|r|..] == [];
      assert StripsAt(r, 0, |r|);
    }
    StripDescriptionUnique(r, r, Strip(r));
  }

  /** What one wordlist line contributes: its stripped form when non-empty. */
  function Keep(line: string): seq<string> {
    var name := Strip(line);
    if name == [] then [] else [name]
  }

  /** The candidates of a wordlist, in file order. */
  function Candidates(lines: seq<string>): (cs: seq<string>)
    ensures |cs| <= |lines|
  {
    if lines == [] then [] else Candidates(lines[..|lines| - 1]) + Keep(lines[|lines| - 1])
  }

  /** What a line contributes is non-empty and already stripped. */
  lemma KeepStripped(line: string)
    ensures forall c :: c in Keep(line) ==> c != [] && Strip(c) == c
  {
    StripIdempotent(line);
  }

  /** Every candidate is non-empty and already stripped. */
  lemma {:induction false} CandidatesAreStripped(lines: seq<string>)
    ensures forall c :: c in Candidates(lines) ==> c != [] && Strip(c) == c
    decreases |lines|
  {
    if lines != [] {
      var init := lines[..|lines| - 1];
      var last := lines[|lines| - 1];
      CandidatesAreStripped(init);
      KeepStripped(last);
      assert Candidates(lines) == Candidates(init) + Keep(last);
    }
  }

  /** Reading one more line adds what that line contributes. */
  lemma CandidatesSnoc(init: seq<string>, last: string)
    ensures Candidates(init + [last]) == Candidates(init) + Keep(last)
  {
    assert (init + [last])[..|init|] == init;
  }

  /** Reading a wordlist in two parts gives the candidates of the parts, in order. */
  lemma {:induction false} CandidatesAppend(a: seq<string>, b: seq<string>)
    ensures Candidates(a + b) == Candidates(a) + Candidates(b)
    decreases |b|
  {
    if b == [] {
      assert a + b == a;
    } else {
      var b' := b[..|b| - 1];
      assert (a + b)[..|a + b| - 1] == a + b';
      CandidatesAppend(a, b');
    }
  }

  /** A single line contributes exactly its stripped form, or nothing when it is
      blank or whitespace-only. */
  lemma SingleLine(line: string)
    ensures AllSpace(line) ==> Candidates([line]) == []
    ensures !AllSpace(line) ==> Candidates([line]) == [Strip(line)]
  {
    assert [line][..0] == [];
    StripSpec(line);
  }

  /** Every line of the wordlist, stripped. */
  function StrippedLines(lines: seq<string>): (r: seq<string>)
    ensures |r| == |lines|
    ensures forall i :: 0 <= i < |lines| ==> r[i] == Strip(lines[i])
  {
    seq(|lines|, i requires 0 <= i < |lines| => Strip(lines[i]))
  }

  lemma StrippedLinesSnoc(init: seq<string>, last: string)
    ensures StrippedLines(init + [last]) == StrippedLines(init) + [Strip(last)]
  {
    var lines := init + [last];
    assert forall i :: 0 <= i < |init| ==> lines[i] == init[i];
  }

  /** A name is a candidate exactly when it is non-empty and some line strips to it. */
  lemma {:induction false} CandidateMembership(lines: seq<string>, name: string)
    ensures name in Candidates(lines) <==> name != [] && name in StrippedLines(lines)
    decreases |lines|
  {
    if lines != [] {
      var init := lines[..|lines| - 1];
      var last := lines[|lines| - 1];
      assert lines == init + [last];
      CandidateMembership(init, name);
      StrippedLinesSnoc(init, last);
      assert Candidates(lines) == Candidates(init) + Keep(last);
    }
  }
}
