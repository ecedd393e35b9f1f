/** Strings as the Go library treats them. */
module Text {

  // ----- the order of strings -----

  /** Go's order on strings: by the first character that differs, a prefix before what it starts. */
  predicate StringBefore(a: string, b: string) {
    if b == "" then false
    else if a == "" then true
    else a[0] < b[0] || (a[0] == b[0] && StringBefore(a[1..], b[1..]))
  }

  lemma {:induction false} StringsConnected(a: string, b: string)
    ensures a == b || StringBefore(a, b) || StringBefore(b, a)
  {
    if a != "" && b != "" && a[0] == b[0] {
      StringsConnected(a[1..], b[1..]);
    }
  }

  lemma {:induction false} StringsAsymmetric(a: string, b: string)
    ensures !(StringBefore(a, b) && StringBefore(b, a))
  {
    if a != "" && b != "" && a[0] == b[0] {
      StringsAsymmetric(a[1..], b[1..]);
    }
  }

  lemma {:induction false} StringsTransitive(a: string, b: string, c: string)
    requires StringBefore(a, b) && StringBefore(b, c)
    ensures StringBefore(a, c)
  {
    if a != "" && a[0] == b[0] && b[0] == c[0] {
      StringsTransitive(a[1..], b[1..], c[1..]);
    }
  }

  lemma NothingBeforeItself(s: string)
    ensures !StringBefore(s, s)
  {
    StringsAsymmetric(s, s);
  }

  // ----- white space -----

  /** unicode.IsSpace. */
  predicate IsSpace(c: char) {
    || c == ' ' || '\t' <= c <= '\r' || c == '\U{85}' || c == '\U{A0}' || c == '\U{1680}'
    || '\U{2000}' <= c <= '\U{200A}' || c == '\U{2028}' || c == '\U{2029}' || c == '\U{202F}'
    || c == '\U{205F}' || c == '\U{3000}'
  }

  function TrimLeft(s: string): string {
    if s != "" && IsSpace(s[0]) then TrimLeft(s[1..]) else s
  }

  function TrimRight(s: string): string {
    if s != "" && IsSpace(s[|s| - 1]) then TrimRight(s[..|s| - 1]) else s
  }

  /** strings.TrimSpace. */
  function TrimSpace(s: string): string {
    TrimRight(TrimLeft(s))
  }

  predicate Blank(s: string) {
    TrimSpace(s) == ""
  }

  lemma {:induction false} TrimLeftTrims(s: string)
    ensures TrimLeft(s) != "" ==> !IsSpace(TrimLeft(s)[0])
  {
    if s != "" && IsSpace(s[0]) {
      TrimLeftTrims(s[1..]);
    }
  }

  lemma {:induction false} TrimRightTrims(s: string)
    ensures var r := TrimRight(s); r != "" ==> !IsSpace(r[|r| - 1]) && r[0] == s[0]
  {
    if s != "" && IsSpace(s[|s| - 1]) {
      TrimRightTrims(s[..|s| - 1]);
    }
  }

  /** What has been trimmed has nothing more to trim. */
  lemma TrimmedIsTrimmed(s: string)
    ensures TrimSpace(TrimSpace(s)) == TrimSpace(s)
  {
    TrimLeftTrims(s);
    TrimRightTrims(TrimLeft(s));
    hide IsSpace;
  }

  ghost predicate AllSpace(s: string) {
    forall i :: 0 <= i < |s| ==> IsSpace(s[i])
  }

  lemma {:induction false} TrimLeftCuts(s: string)
    ensures |TrimLeft(s)| <= |s| && s[|s| - |TrimLeft(s)|..] == TrimLeft(s) && AllSpace(s[..|s| - |TrimLeft(s)|])
  {
    if s != "" && IsSpace(s[0]) {
      TrimLeftCuts(s[1..]);
    }
  }

  lemma {:induction false} TrimRightCuts(s: string)
    ensures |TrimRight(s)| <= |s| && s[..|TrimRight(s)|] == TrimRight(s) && AllSpace(s[|TrimRight(s)|..])
  {
    if s != "" && IsSpace(s[|s| - 1]) {
      TrimRightCuts(s[..|s| - 1]);
    }
  }

  /** Trimming takes the white space at both ends, and nothing else. */
  lemma TrimSpaceMeans(s: string) returns (before: string, after: string)
    ensures s == before + TrimSpace(s) + after && AllSpace(before) && AllSpace(after)
    ensures TrimSpace(s) != "" ==> !IsSpace(TrimSpace(s)[0]) && !IsSpace(TrimSpace(s)[|TrimSpace(s)| - 1])
  {
    var rest := TrimLeft(s);
    TrimLeftCuts(s);
    TrimRightCuts(rest);
    TrimLeftTrims(s);
    TrimRightTrims(rest);
    before, after := s[..|s| - |rest|], rest[|TrimRight(rest)|..];
    hide IsSpace, TrimLeft, TrimRight;
    assert rest == TrimRight(rest) + after;
  }

  /** Of the first 256 characters six are white space in ASCII, and two beyond. */
  lemma SpacesOfLatin1(c: char)
    requires c <= '\U{FF}'
    ensures IsSpace(c) <==> c in "\t\n\U{B}\U{C}\r \U{85}\U{A0}"
  {
  }

  /** Strings are ordered by their first difference. */
  lemma {:induction false} FirstDifferenceDecides(common: string, a: string, b: string)
    requires a != "" && b != "" && a[0] < b[0]
    ensures StringBefore(common + a, common + b) && !StringBefore(common + b, common + a)
  {
    if common != "" {
      FirstDifferenceDecides(common[1..], a, b);
      assert (common + a)[1..] == common[1..] + a && (common + b)[1..] == common[1..] + b;
    } else {
      assert common + a == a && common + b == b;
    }
  }

  lemma {:induction false} BeginningIsBefore(a: string, b: string)
    requires a < b
    ensures StringBefore(a, b)
  {
    if a != "" {
      BeginningIsBefore(a[1..], b[1..]);
    }
  }
}
