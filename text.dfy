/** The few pieces of Python's `str` that the ledger relies on: `strip`, `split`, `isdigit`. */
module Text {

  /** Python's `str.isspace()` for a single character (the Unicode whitespace set). */
  predicate IsSpace(c: char) {
    c == ' ' || ('\t' <= c <= '\r') || ('\U{1C}' <= c <= '\U{1F}')
    || c == '\U{85}' || c == '\U{A0}' || c == '\U{1680}'
    || ('\U{2000}' <= c <= '\U{200A}') || c == '\U{2028}' || c == '\U{2029}'
    || c == '\U{202F}' || c == '\U{205F}' || c == '\U{3000}'
  }

  /** The characters removed by `strip("'\"")`. */
  predicate IsQuote(c: char) {
    c == '\'' || c == '"'
  }

  /** ASCII `'0'..'9'`; Python's `isdigit` also accepts other Unicode digits, which are not modelled. */
  predicate IsDigit(c: char) {
    '0' <= c <= '9'
  }

  /** Python's `s.isdigit()`: non-empty and digits only. */
  predicate IsDigits(s: string) {
    |s| > 0 && forall k :: 0 <= k < |s| ==> IsDigit(s[k])
  }

  predicate All(s: string, p: char -> bool) {
    forall k :: 0 <= k < |s| ==> p(s[k])
  }

  /** `s` without its longest prefix of characters satisfying `p`. */
  function DropLeading(s: string, p: char -> bool): (r: string)
    ensures |r| <= |s| && r == s[|s| - |r|..]
    ensures All(s[..|s| - |r|], p)
    ensures r != [] ==> !p(r[0])
  {
    if s != [] && p(s[0]) then DropLeading(s[1..], p) else s
  }

  /** `s` without its longest suffix of characters satisfying `p`. */
  function DropTrailing(s: string, p: char -> bool): (r: string)
    ensures |r| <= |s| && r == s[..|r|]
    ensures All(s[|r|..], p)
    ensures r != [] ==> !p(r[|r| - 1])
  {
    if s != [] && p(s[|s| - 1]) then DropTrailing(s[..|s| - 1], p) else s
  }

  /** Python's `s.strip(chars)`, with `p` deciding which characters are stripped. */
  function Strip(s: string, p: char -> bool): (r: string)
    ensures |r| <= |s|
    ensures r != [] ==> !p(r[0]) && !p(r[|r| - 1])
  {
    DropTrailing(DropLeading(s, p), p)
  }

  /** Stripping cannot bring in a character the text did not hold. */
  lemma StripKeepsAbsent(s: string, p: char -> bool, c: char)
    requires c !in s
    ensures c !in Strip(s, p)
  {
    var left := DropLeading(s, p);
    assert c !in left by {
      assert left == s[|s| - |left|..];
    }
    var r := DropTrailing(left, p);
    assert r == left[..|r|];
  }

  /** `str.strip()` with no argument. */
  function Trim(s: string): string {
    Strip(s, IsSpace)
  }

  /** A text that neither starts nor ends with a stripped character is left as it is. */
  lemma StripUnpadded(s: string, p: char -> bool)
    requires s != [] ==> !p(s[0]) && !p(s[|s| - 1])
    ensures Strip(s, p) == s
  {
    assert DropLeading(s, p) == s;
  }

  /** Stripping a padded core gives back the core, when the core neither starts nor ends with a stripped character. */
  lemma {:induction false} StripPadded(pre: string, core: string, post: string, p: char -> bool)
    requires All(pre, p) && All(post, p)
    requires core != [] ==> !p(core[0]) && !p(core[|core| - 1])
    ensures Strip(pre + core + post, p) == core
  {
    var s := pre + core + post;
    assert Strip(s, p) == DropTrailing(DropLeading(s, p), p);
    if core == [] {
      assert s == pre + post;
      assert All(s, p);
      DropLeadingAll(s, p);
    } else {
      assert s == pre + (core + post);
      DropLeadingPadded(pre, core + post, p);
      DropTrailingPadded(core, post, p);
    }
  }

  lemma {:induction false} DropLeadingPadded(pre: string, rest: string, p: char -> bool)
    requires All(pre, p)
    requires rest != [] ==> !p(rest[0])
    ensures DropLeading(pre + rest, p) == rest
  {
    if pre != [] {
      assert (pre + rest)[1..] == pre[1..] + rest;
      DropLeadingPadded(pre[1..], rest, p);
    } else {
      assert pre + rest == rest;
    }
  }

  lemma {:induction false} DropTrailingPadded(core: string, post: string, p: char -> bool)
    requires All(post, p)
    requires core != [] && !p(core[|core| - 1])
    ensures DropTrailing(core + post, p) == core
  {
    if post != [] {
      assert (core + post)[..|core + post| - 1] == core + post[..|post| - 1];
      DropTrailingPadded(core, post[..|post| - 1], p);
    } else {
      assert core + post == core;
    }
  }

  lemma {:induction false} DropLeadingAll(s: string, p: char -> bool)
    requires All(s, p)
    ensures DropLeading(s, p) == []
  {
    if s != [] {
      DropLeadingAll(s[1..], p);
    }
  }

  /** Stripping twice strips nothing more. */
  lemma StripIdempotent(s: string, p: char -> bool)
    ensures Strip(Strip(s, p), p) == Strip(s, p)
  {
    StripUnpadded(Strip(s, p), p);
  }

  /** Position of the first `c` in `s`, or `|s|` when there is none. */
  function IndexOf(s: string, c: char): (i: nat)
    ensures i <= |s|
    ensures i < |s| <==> c in s
    ensures i < |s| ==> s[i] == c
    ensures c !in s[..i]
  {
    if s == [] then 0 else if s[0] == c then 0 else 1 + IndexOf(s[1..], c)
  }

  /** Python's `s.split(c)[0]`: everything before the first `c`. */
  function Before(s: string, c: char): (r: string)
    ensures c !in r
    ensures r <= s
  {
    s[..IndexOf(s, c)]
  }

  /** Python's `s.replace(c, '')`. */
  function Remove(s: string, c: char): (r: string)
    ensures |r| <= |s|
  {
    if s == [] then [] else (if s[0] == c then [] else [s[0]]) + Remove(s[1..], c)
  }

  lemma {:induction false} RemoveAbsent(s: string, c: char)
    requires c !in s
    ensures Remove(s, c) == s
  {
    if s != [] {
      RemoveAbsent(s[1..], c);
      assert s == [s[0]] + s[1..];
    }
  }

  lemma {:induction false} RemoveAppend(a: string, b: string, c: char)
    ensures Remove(a + b, c) == Remove(a, c) + Remove(b, c)
  {
    if a == [] {
      assert a + b == b;
    } else {
      assert (a + b)[0] == a[0] && (a + b)[1..] == a[1..] + b;
      RemoveAppend(a[1..], b, c);
    }
  }

  /** Removing the one occurrence of `c` joins the two sides. */
  lemma RemoveOne(a: string, b: string, c: char)
    requires c !in a && c !in b
    ensures Remove(a + [c] + b, c) == a + b
  {
    var single: string := [c];
    assert Remove(single, c) == [] by {
      assert single[0] == c && single[1..] == [];
    }
    RemoveAppend(a + single, b, c);
    RemoveAppend(a, single, c);
    RemoveAbsent(a, c);
    RemoveAbsent(b, c);
    assert Remove(a + single, c) == a;
  }

  /** Python's `s.split(sep)`: the pieces between separators, never an empty list. */
  function Split(s: string, sep: char): (r: seq<string>)
    ensures |r| >= 1
    ensures forall k :: 0 <= k < |r| ==> sep !in r[k]
    decreases |s|
  {
    var i := IndexOf(s, sep);
    if i == |s| then [s] else [s[..i]] + Split(s[i + 1..], sep)
  }

  /** Python's `sep.join(pieces)`. */
  function Join(pieces: seq<string>, sep: char): string {
    if pieces == [] then []
    else if |pieces| == 1 then pieces[0]
    else pieces[0] + [sep] + Join(pieces[1..], sep)
  }

  /** Splitting a joined list gives the list back, when no piece holds the separator. */
  lemma {:induction false} SplitJoin(pieces: seq<string>, sep: char)
    requires |pieces| >= 1
    requires forall k :: 0 <= k < |pieces| ==> sep !in pieces[k]
    ensures Split(Join(pieces, sep), sep) == pieces
  {
    if |pieces| == 1 {
      assert IndexOf(pieces[0], sep) == |pieces[0]|;
    } else {
      var s := Join(pieces, sep);
      var head := pieces[0];
      var tail := Join(pieces[1..], sep);
      assert s == head + [sep] + tail;
      IndexOfAfter(head, sep, tail);
      assert s[..|head|] == head;
      assert s[|head| + 1..] == tail;
      SplitJoin(pieces[1..], sep);
    }
  }

  lemma IndexOfAfter(head: string, c: char, tail: string)
    requires c !in head
    ensures IndexOf(head + [c] + tail, c) == |head|
  {
    var s := head + [c] + tail;
    assert s[..|head|] == head;
    assert s[|head|] == c;
  }
}
