/** Python's whitespace test and `str.strip()` without arguments, as the
    classifier uses them to reject blank input. */
module Whitespace {

  /** `c.isspace()` in Python 3: the characters whose bidirectional type is
      WS, B or S, or whose general category is Zs. */
  predicate IsSpace(c: char) {
    ('\t' <= c <= '\r')                     // U+0009 .. U+000D
    || ('\U{001C}' <= c <= '\U{001F}')      // file, group, record, unit separators
    || c == ' '
    || c == '\U{0085}'                      // next line
    || c == '\U{00A0}'                      // no-break space
    || c == '\U{1680}'                      // ogham space mark
    || ('\U{2000}' <= c <= '\U{200A}')      // en quad .. hair space
    || c == '\U{2028}' || c == '\U{2029}'   // line and paragraph separators
    || c == '\U{202F}' || c == '\U{205F}' || c == '\U{3000}'
  }

  predicate AllSpace(s: string) {
    forall i :: 0 <= i < |s| ==> IsSpace(s[i])
  }

  /** Number of whitespace characters at the front of `s`. */
  function LeadingSpaces(s: string): (k: nat)
    ensures k <= |s|
    ensures forall i :: 0 <= i < k ==> IsSpace(s[i])
    ensures k == |s| || !IsSpace(s[k])
  {
    if |s| == 0 || !IsSpace(s[0]) then 0
    else
      var k := LeadingSpaces(s[1..]);
      assert forall i :: 1 <= i < k + 1 ==> s[i] == s[1..][i - 1];
      k + 1
  }

  /** Number of whitespace characters at the back of `s`. */
  function TrailingSpaces(s: string): (k: nat)
    ensures k <= |s|
    ensures forall i :: |s| - k <= i < |s| ==> IsSpace(s[i])
    ensures k == |s| || !IsSpace(s[|s| - 1 - k])
  {
    if |s| == 0 || !IsSpace(s[|s| - 1]) then 0
    else
      var k := TrailingSpaces(s[..|s| - 1]);
      assert forall i :: 0 <= i < |s| - 1 ==> s[i] == s[..|s| - 1][i];
      k + 1
  }

  /** `s.strip()`: `s` with leading and trailing whitespace removed. The
      result is the slice of `s` that starts at its first non-whitespace
      character and ends at its last one; everything outside it is
      whitespace. */
  function Strip(s: string): (r: string)
    ensures LeadingSpaces(s) + |r| <= |s|
    ensures r == s[LeadingSpaces(s) .. LeadingSpaces(s) + |r|]
    ensures forall i :: 0 <= i < |s| && !(LeadingSpaces(s) <= i < LeadingSpaces(s) + |r|) ==> IsSpace(s[i])
    ensures r == [] || (!IsSpace(r[0]) && !IsSpace(r[|r| - 1]))
  {
    var rest := s[LeadingSpaces(s)..];
    rest[..|rest| - TrailingSpaces(rest)]
  }

  /** `not text or not text.strip()`: the classifier's blank-input test. The
      `not text` half adds nothing, since stripping the empty text leaves it
      empty. */
  predicate IsBlank(text: string)
    ensures IsBlank(text) <==> Strip(text) == []
  {
    |text| == 0 || Strip(text) == []
  }

  /** Text is blank exactly when every one of its characters is whitespace;
      in particular the empty text is blank. */
  lemma BlankIffAllSpace(text: string)
    ensures IsBlank(text) <==> AllSpace(text)
  {
  }
}
