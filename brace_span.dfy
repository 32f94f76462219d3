/** The extraction of a candidate JSON object from raw model output:
    `re.search(r'\{.*\}', raw, re.DOTALL)` followed by `match.group(0)`.

    The pattern is modelled twice. `ReSearch` follows the regular-expression
    engine: it tries start positions from left to right, and at a `{` lets the
    greedy `.*` (which, under DOTALL, matches any character) take as much as it
    can before backing off to the last `}`. `BraceSpan` is the index search the
    pattern amounts to: from the first `{` to the last `}`. `ReSearchIsBraceSpan`
    proves them equal. The match is greedy; a comment beside the call calls it
    non-greedy, but the pattern has no `?` after `.*`. */
module BraceSpan {
  import opened JsonValue

  /** Index of the first occurrence of `c` in `s`. */
  function FirstIndex(s: string, c: char): (r: Option<nat>)
    ensures r.Some? ==> r.value < |s| && s[r.value] == c
    ensures r.Some? ==> forall m :: 0 <= m < r.value ==> s[m] != c
    ensures r.None? <==> c !in s
  {
    if |s| == 0 then None
    else if s[0] == c then Some(0)
    else
      match FirstIndex(s[1..], c)
      case None => None
      case Some(k) =>
        assert forall m :: 1 <= m < k + 1 ==> s[m] == s[1..][m - 1];
        Some(k + 1)
  }

  /** Index of the last occurrence of `c` in `s`. */
  function LastIndex(s: string, c: char): (r: Option<nat>)
    ensures r.Some? ==> r.value < |s| && s[r.value] == c
    ensures r.Some? ==> forall m :: r.value < m < |s| ==> s[m] != c
    ensures r.None? <==> c !in s
  {
    if |s| == 0 then None
    else if s[|s| - 1] == c then Some(|s| - 1)
    else
      var r := LastIndex(s[..|s| - 1], c);
      assert s == s[..|s| - 1] + [s[|s| - 1]];
      r
  }

  /** Some `{` in `s` has a `}` somewhere after it. */
  predicate HasBracePair(s: string) {
    exists i, j :: 0 <= i < j < |s| && s[i] == '{' && s[j] == '}'
  }

  /** Inclusive bounds of the matched text in the raw output. */
  datatype Span = Span(start: nat, end: nat)

  /** The span from the first `{` to the last `}`, when the last `}` comes
      after the first `{`. It exists exactly when some `{` precedes some `}`,
      and it encloses every such pair. */
  function BraceSpan(s: string): (r: Option<Span>)
    ensures r.Some? <==> HasBracePair(s)
    ensures r.Some? ==> r.value.start < r.value.end < |s|
    ensures r.Some? ==> s[r.value.start] == '{' && s[r.value.end] == '}'
    ensures r.Some? ==> forall m :: 0 <= m < r.value.start ==> s[m] != '{'
    ensures r.Some? ==> forall m :: r.value.end < m < |s| ==> s[m] != '}'
  {
    match (FirstIndex(s, '{'), LastIndex(s, '}'))
    case (Some(i), Some(j)) => if i < j then Some(Span(i, j)) else None
    case _ => None
  }

  /** `match.group(0)`, or no match. */
  function ExtractSpan(s: string): (r: Option<string>)
    ensures r.Some? <==> HasBracePair(s)
    ensures r.Some? ==> |r.value| >= 2 && r.value[0] == '{' && r.value[|r.value| - 1] == '}'
  {
    match BraceSpan(s)
    case None => None
    case Some(sp) => Some(s[sp.start .. sp.end + 1])
  }

  // ----- The regular-expression engine's view -----

  /** The greedy `.*\}` once `{` has matched: `.*` first runs to the end of
      the text and then gives characters back one at a time until `\}`
      matches at position `k`, trying `k` from `hi` down to `lo`. */
  function BackOffToClose(s: string, lo: nat, hi: int): (r: Option<nat>)
    requires hi < |s|
    decreases hi - lo
  {
    if hi < lo then None
    else if s[hi] == '}' then Some(hi)
    else BackOffToClose(s, lo, hi - 1)
  }

  /** `re.search`: the first start position, from `from` on, at which the
      whole pattern matches; the result gives the inclusive bounds of the
      match. */
  function SearchFrom(s: string, from: nat): (r: Option<Span>)
    ensures r.Some? ==> from <= r.value.start < r.value.end < |s|
    ensures r.Some? ==> s[r.value.start] == '{' && s[r.value.end] == '}'
    decreases |s| - from
  {
    if from >= |s| then None
    else
      BackOffFindsLast(s, from + 1, |s| - 1);
      if s[from] == '{' && BackOffToClose(s, from + 1, |s| - 1).Some? then
        Some(Span(from, BackOffToClose(s, from + 1, |s| - 1).value))
      else SearchFrom(s, from + 1)
  }

  /** `re.search(r'\{.*\}', s, re.DOTALL)` and its `group(0)`: the matched
      text begins with `{` and ends with `}`, as the pattern demands. */
  function ReSearch(s: string): (r: Option<string>)
    ensures r.Some? ==> |r.value| >= 2 && r.value[0] == '{' && r.value[|r.value| - 1] == '}'
  {
    match SearchFrom(s, 0)
    case None => None
    case Some(sp) => Some(s[sp.start .. sp.end + 1])
  }

  /** Backing off finds the last `}` in `s[lo..hi]`. */
  lemma {:induction false} BackOffFindsLast(s: string, lo: nat, hi: int)
    requires hi < |s|
    ensures BackOffToClose(s, lo, hi).Some? <==> exists m :: lo <= m <= hi && s[m] == '}'
    ensures BackOffToClose(s, lo, hi).Some? ==>
              var k := BackOffToClose(s, lo, hi).value;
              lo <= k <= hi && s[k] == '}' && forall m :: k < m <= hi ==> s[m] != '}'
    decreases hi - lo
  {
    if hi < lo {
    } else if s[hi] == '}' {
    } else {
      BackOffFindsLast(s, lo, hi - 1);
      if exists m :: lo <= m <= hi && s[m] == '}' {
        var m :| lo <= m <= hi && s[m] == '}';
        assert m != hi;
      }
    }
  }

  /** Searching from before the first `{` skips to it; from there the match
      either ends at the last `}` or there is none anywhere. */
  lemma {:induction false} SearchFromMatchesSpan(s: string, from: nat)
    requires forall m :: 0 <= m < from && m < |s| ==> s[m] != '{'
    ensures SearchFrom(s, from) == BraceSpan(s)
    decreases |s| - from
  {
    var first := FirstIndex(s, '{');
    var last := LastIndex(s, '}');
    if from >= |s| {
      assert first.None?;
    } else {
      BackOffFindsLast(s, from + 1, |s| - 1);
      if s[from] == '{' {
        assert first == Some(from);
        if BackOffToClose(s, from + 1, |s| - 1).Some? {
          var k := BackOffToClose(s, from + 1, |s| - 1).value;
          assert last == Some(k);
        } else {
          assert last.None? || last.value <= from;
          NoMatchAfterLastClose(s, from + 1);
        }
      } else {
        SearchFromMatchesSpan(s, from + 1);
      }
    }
  }

  /** Once no `}` lies at `from` or later, no start position from `from` on
      matches. */
  lemma {:induction false} NoMatchAfterLastClose(s: string, from: nat)
    requires forall m :: from <= m < |s| ==> s[m] != '}'
    ensures SearchFrom(s, from).None?
    decreases |s| - from
  {
    if from < |s| {
      BackOffFindsLast(s, from + 1, |s| - 1);
      NoMatchAfterLastClose(s, from + 1);
    }
  }

  /** The regular-expression search and the first-`{`/last-`}` index search
      agree on every input. */
  lemma ReSearchIsBraceSpan(s: string)
    ensures ReSearch(s) == ExtractSpan(s)
  {
    SearchFromMatchesSpan(s, 0);
  }

  /** Model output that wraps a brace-delimited text in prose with no `{`
      before it and no `}` after it yields exactly that text. */
  lemma {:induction false} SpanOfWrapped(prefix: string, body: string, suffix: string)
    requires '{' !in prefix && '}' !in suffix
    requires |body| >= 2 && body[0] == '{' && body[|body| - 1] == '}'
    ensures ExtractSpan(prefix + body + suffix) == Some(body)
  {
    var s := prefix + body + suffix;
    var i, j := |prefix|, |prefix| + |body| - 1;
    assert s[i] == '{' && s[j] == '}';
    assert HasBracePair(s);
    var sp := BraceSpan(s).value;
    assert sp.start <= i && j <= sp.end;
    assert sp.start == i && sp.end == j;
    assert s[i .. j + 1] == body;
  }

  /** Conversely, whatever is extracted sits in the raw text between a prefix
      without `{` and a suffix without `}`. */
  lemma {:induction false} WrappedOfSpan(s: string, body: string) returns (prefix: string, suffix: string)
    requires ExtractSpan(s) == Some(body)
    ensures s == prefix + body + suffix
    ensures '{' !in prefix && '}' !in suffix
  {
    var sp := BraceSpan(s).value;
    prefix, suffix := s[..sp.start], s[sp.end + 1..];
    assert '{' !in prefix by {
      forall m | 0 <= m < |prefix| ensures prefix[m] != '{' {
        assert prefix[m] == s[m];
      }
    }
    assert '}' !in suffix by {
      forall m | 0 <= m < |suffix| ensures suffix[m] != '}' {
        assert suffix[m] == s[sp.end + 1 + m];
      }
    }
    assert s == s[..sp.start] + s[sp.start .. sp.end + 1] + s[sp.end + 1..];
  }
}
