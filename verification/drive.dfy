/** The archive step's file name: the subject filtered to safe characters,
    stripped, cut to 50 characters, with ".html" appended. The Unicode-aware
    `str.isalnum` is a parameter. */
module Drive {
  import opened Seqs

  /** At most this many characters of the cleaned subject are kept. */
  const MaxSubjectLength: nat := 50

  const HtmlSuffix: string := ".html"

  /** A character that survives the filter. */
  predicate Permitted(isAlnum: char -> bool, c: char) {
    isAlnum(c) || c == ' ' || c == '-' || c == '_'
  }

  /** Python's `str.isspace`: the characters `str.strip()` removes. */
  predicate IsSpace(c: char) {
    c == ' ' || '\t' <= c <= '\r' || '\U{1C}' <= c <= '\U{1F}' || c == '\U{85}' || c == '\U{A0}'
    || c == '\U{1680}' || '\U{2000}' <= c <= '\U{200A}' || c == '\U{2028}' || c == '\U{2029}'
    || c == '\U{202F}' || c == '\U{205F}' || c == '\U{3000}'
  }

  /** `"".join(c for c in s if c.isalnum() or c in (' ', '-', '_'))`. */
  function KeepPermitted(isAlnum: char -> bool, s: string): (r: string)
    ensures forall i :: 0 <= i < |r| ==> Permitted(isAlnum, r[i])
    ensures forall i :: 0 <= i < |s| && Permitted(isAlnum, s[i]) ==> s[i] in r
    ensures |r| <= |s|
  {
    if s == [] then []
    else (if Permitted(isAlnum, s[0]) then [s[0]] else []) + KeepPermitted(isAlnum, s[1..])
  }

  /** The filter works character by character: filtering a concatenation
      filters each part, and a single character is kept exactly when it is
      permitted. So the kept characters are the permitted ones, in their
      original order. */
  lemma {:induction false} KeepPermittedDistributes(isAlnum: char -> bool, a: string, b: string, c: char)
    ensures KeepPermitted(isAlnum, a + b) == KeepPermitted(isAlnum, a) + KeepPermitted(isAlnum, b)
    ensures KeepPermitted(isAlnum, [c]) == if Permitted(isAlnum, c) then [c] else []
  {
    if a != [] {
      assert (a + b)[1..] == a[1..] + b;
      KeepPermittedDistributes(isAlnum, a[1..], b, c);
    } else {
      assert a + b == b;
    }
  }

  /** `s.lstrip()`: `s` without its leading whitespace. */
  function StripStart(s: string): (r: string)
    ensures |r| <= |s| && r == s[|s| - |r|..]
    ensures forall i :: 0 <= i < |s| - |r| ==> IsSpace(s[i])
    ensures r == [] || !IsSpace(r[0])
  {
    if s != [] && IsSpace(s[0]) then StripStart(s[1..]) else s
  }

  /** `s.rstrip()`: `s` without its trailing whitespace. */
  function StripEnd(s: string): (r: string)
    ensures |r| <= |s| && r == s[..|r|]
    ensures forall i :: |r| <= i < |s| ==> IsSpace(s[i])
    ensures r == [] || !IsSpace(r[|r| - 1])
  {
    if s != [] && IsSpace(s[|s| - 1]) then StripEnd(s[..|s| - 1]) else s
  }

  /** `s.strip()`. */
  function Strip(s: string): string {
    StripEnd(StripStart(s))
  }

  /** Stripping leaves a contiguous slice of `s` that neither starts nor ends
      with whitespace, and everything it removes is whitespace. */
  lemma StripIsTrimmedSlice(s: string)
    ensures var r := Strip(s);
            var i := |s| - |StripStart(s)|;
            && i + |r| <= |s|
            && r == s[i..i + |r|]
            && (forall j :: 0 <= j < i ==> IsSpace(s[j]))
            && (forall j :: i + |r| <= j < |s| ==> IsSpace(s[j]))
            && (r == [] || (!IsSpace(r[0]) && !IsSpace(r[|r| - 1])))
  {
    var l := StripStart(s);
    var r := StripEnd(l);
    var i := |s| - |l|;
    assert l == s[i..];
    assert r == l[..|r|];
    assert r == s[i..i + |r|];
    forall j | i + |r| <= j < |s|
      ensures IsSpace(s[j])
    {
      assert s[j] == l[j - i];
    }
  }

  /** The subject part of the file name: filtered, stripped, then cut. */
  function SafeSubject(isAlnum: char -> bool, subject: string): (safe: string)
    ensures |safe| <= MaxSubjectLength && |safe| <= |Strip(KeepPermitted(isAlnum, subject))|
    ensures safe == Strip(KeepPermitted(isAlnum, subject))[..|safe|]
    ensures |safe| == MaxSubjectLength || safe == Strip(KeepPermitted(isAlnum, subject))
    ensures forall i :: 0 <= i < |safe| ==> Permitted(isAlnum, safe[i])
    ensures safe == [] || !IsSpace(safe[0])
  {
    Take(Strip(KeepPermitted(isAlnum, subject)), MaxSubjectLength)
  }

  /** The name of the archived file. */
  function FileName(isAlnum: char -> bool, subject: string): (name: string)
    ensures |HtmlSuffix| <= |name| <= MaxSubjectLength + |HtmlSuffix|
    ensures name[|name| - |HtmlSuffix|..] == HtmlSuffix
    ensures name[..|name| - |HtmlSuffix|] == SafeSubject(isAlnum, subject)
  {
    SafeSubject(isAlnum, subject) + HtmlSuffix
  }

  /** A subject with no permitted character other than whitespace gives the
      bare ".html". */
  lemma {:induction false} NoPermittedCharacterGivesBareSuffix(isAlnum: char -> bool, subject: string)
    requires forall i :: 0 <= i < |subject| ==> !Permitted(isAlnum, subject[i]) || IsSpace(subject[i])
    ensures FileName(isAlnum, subject) == HtmlSuffix
  {
    OnlySpacesStripToEmpty(isAlnum, subject);
  }

  /** A subject whose permitted characters are all whitespace filters down
      to whitespace, which `strip` removes entirely. */
  lemma OnlySpacesStripToEmpty(isAlnum: char -> bool, subject: string)
    requires forall i :: 0 <= i < |subject| ==> !Permitted(isAlnum, subject[i]) || IsSpace(subject[i])
    ensures Strip(KeepPermitted(isAlnum, subject)) == []
  {
    KeptAreSpaces(isAlnum, subject);
  }

  /** When every permitted character of `s` is whitespace, so is everything
      the filter keeps. */
  lemma {:induction false} KeptAreSpaces(isAlnum: char -> bool, s: string)
    requires forall i :: 0 <= i < |s| ==> !Permitted(isAlnum, s[i]) || IsSpace(s[i])
    ensures forall j :: 0 <= j < |KeepPermitted(isAlnum, s)| ==> IsSpace(KeepPermitted(isAlnum, s)[j])
  {
    if s != [] {
      KeptAreSpaces(isAlnum, s[1..]);
    }
  }

  /** A subject made only of permitted characters passes the filter whole. */
  lemma {:induction false} KeepPermittedKeepsAll(isAlnum: char -> bool, s: string)
    requires forall i :: 0 <= i < |s| ==> Permitted(isAlnum, s[i])
    ensures KeepPermitted(isAlnum, s) == s
  {
    if s != [] {
      KeepPermittedKeepsAll(isAlnum, s[1..]);
    }
  }

  /** An ASCII stand-in for `str.isalnum`, used only to exhibit the example
      below; the model itself takes `isAlnum` as a parameter. */
  predicate AsciiAlnum(c: char) {
    'a' <= c <= 'z' || 'A' <= c <= 'Z' || '0' <= c <= '9'
  }

  /** Cutting happens after stripping and there is no second strip, so a
      space can end the safe subject: 49 letters, a space and one more letter
      give a safe subject whose 50th character is the space. */
  lemma TrailingSpaceCanSurvive()
    ensures var subject := seq(49, _ => 'a') + " b";
            var safe := SafeSubject(AsciiAlnum, subject);
            |safe| == MaxSubjectLength && safe[MaxSubjectLength - 1] == ' '
  {
    var letters := seq(49, _ => 'a');
    var subject := letters + " b";
    forall i | 0 <= i < |subject|
      ensures Permitted(AsciiAlnum, subject[i])
    {
      if i < 49 {
        assert subject[i] == letters[i] == 'a';
      }
    }
    KeepPermittedKeepsAll(AsciiAlnum, subject);
    assert subject[0] == 'a' && !IsSpace('a');
    assert StripStart(subject) == subject;
    assert subject[|subject| - 1] == 'b' && !IsSpace('b');
    assert StripEnd(subject) == subject;
    assert subject[MaxSubjectLength - 1] == ' ';
  }
}
