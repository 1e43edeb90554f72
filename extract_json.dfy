/** The page's `extractJSON` helper: `text.match(/\{[\s\S]*\}/)` followed by
    `match ? match[0] : null`, written as two explicit index searches.

    `[\s\S]` matches every character, newlines included, so a match of the
    pattern is any span that opens with `{` and closes with a later `}`. A
    JavaScript regular expression without the `g` flag reports the leftmost
    match, and the greedy `*` makes it the longest one starting there. */
module ExtractJson {
  import opened Wrappers

  /** The span `text[start..last + 1]` of one match; `last` is the index of its
      closing brace. */
  datatype Span = Span(start: nat, last: nat)

  /** `text[i..j + 1]` is a match of `\{[\s\S]*\}`. */
  ghost predicate IsMatch(text: string, i: int, j: int)
  {
    0 <= i < j < |text| && text[i] == '{' && text[j] == '}'
  }

  /** Text in which the pattern matches nowhere. */
  ghost predicate NoMatch(text: string)
  {
    forall i, j :: !IsMatch(text, i, j)
  }

  /** Index of the first occurrence of `c` in `s`, if any. */
  function FirstIndexOf(s: string, c: char): (r: Option<nat>)
    ensures r.None? <==> forall k :: 0 <= k < |s| ==> s[k] != c
    ensures r.Some? ==> r.value < |s| && s[r.value] == c
    ensures r.Some? ==> forall k :: 0 <= k < r.value ==> s[k] != c
  {
    if |s| == 0 then None
    else if s[0] == c then Some(0)
    else match FirstIndexOf(s[1..], c)
      case None => None
      case Some(k) => Some(k + 1)
  }

  /** Index of the last occurrence of `c` in `s`, if any. */
  function LastIndexOf(s: string, c: char): (r: Option<nat>)
    ensures r.None? <==> forall k :: 0 <= k < |s| ==> s[k] != c
    ensures r.Some? ==> r.value < |s| && s[r.value] == c
    ensures r.Some? ==> forall k :: r.value < k < |s| ==> s[k] != c
  {
    if |s| == 0 then None
    else if s[|s| - 1] == c then Some(|s| - 1)
    else LastIndexOf(s[..|s| - 1], c)
  }

  /** `text.match(/\{[\s\S]*\}/)`: the leftmost, and among those the longest,
      match of the pattern, or `None` when it matches nowhere. */
  function RegexMatch(text: string): (m: Option<Span>)
    ensures m.None? <==> NoMatch(text)
    ensures m.Some? ==> IsMatch(text, m.value.start, m.value.last)
    ensures m.Some? ==> forall i, j :: IsMatch(text, i, j) ==> m.value.start <= i && j <= m.value.last
  {
    match FirstIndexOf(text, '{')
    case None => None
    case Some(i) =>
      match LastIndexOf(text, '}')
      case None => None
      case Some(j) =>
        if i < j then
          assert IsMatch(text, i, j);
          Some(Span(i, j))
        else
          None
  }

  /** A span that opens at the first `{` of `text` and closes at its last `}`. */
  ghost predicate FirstOpenToLastClose(text: string, i: int, j: int)
  {
    IsMatch(text, i, j) &&
    (forall k :: 0 <= k < i ==> text[k] != '{') &&
    (forall k :: j < k < |text| ==> text[k] != '}')
  }

  /** `extractJSON(text)`: `null` exactly when the pattern matches nowhere, that
      is, when no `}` follows any `{`; otherwise the text from the first `{`
      through the last `}`, both included. */
  function ExtractJSON(text: string): (r: Option<string>)
    ensures r.None? <==> NoMatch(text)
    ensures r.Some? ==> exists i, j :: FirstOpenToLastClose(text, i, j) && r.value == text[i..j + 1]
  {
    match RegexMatch(text)
    case None => None
    case Some(span) =>
      assert FirstOpenToLastClose(text, span.start, span.last) by {
        forall k | 0 <= k < span.start ensures text[k] != '{' {
          assert !IsMatch(text, k, span.last);
        }
        forall k | span.last < k < |text| ensures text[k] != '}' {
          assert !IsMatch(text, span.start, k);
        }
      }
      Some(text[span.start..span.last + 1])
  }

  /** No `}` after the first `{` (this covers text without any `{`) is exactly
      the case in which `extractJSON` returns `null`. */
  lemma ExtractNullIff(text: string)
    ensures ExtractJSON(text).None? <==>
      (FirstIndexOf(text, '{').None? ||
       forall k :: FirstIndexOf(text, '{').value < k < |text| ==> text[k] != '}')
  {
  }

  /** A found JSON candidate is at least two characters long, opens with `{`
      and closes with `}`. */
  lemma ExtractShape(text: string)
    requires ExtractJSON(text).Some?
    ensures var s := ExtractJSON(text).value;
      |s| >= 2 && s[0] == '{' && s[|s| - 1] == '}'
  {
  }

  /** Any text that already opens with `{` and closes with `}` is returned whole. */
  lemma BracedIsFixedPoint(s: string)
    requires |s| >= 2 && s[0] == '{' && s[|s| - 1] == '}'
    ensures ExtractJSON(s) == Some(s)
  {
    assert IsMatch(s, 0, |s| - 1);
    assert RegexMatch(s) == Some(Span(0, |s| - 1));
    assert s[0..|s|] == s;
  }

  /** `extractJSON` is idempotent: applied to its own non-null result it
      returns that result unchanged. */
  lemma ExtractIdempotent(text: string)
    requires ExtractJSON(text).Some?
    ensures ExtractJSON(ExtractJSON(text).value) == ExtractJSON(text)
  {
    ExtractShape(text);
    BracedIsFixedPoint(ExtractJSON(text).value);
  }
}
