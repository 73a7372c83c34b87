/**
 * The few Python string operations the news service applies to headlines
 * and company names: lower(), split() and its first word, `in`,
 * split(c)[0] and strip().
 */
module Text {
  import opened Wrappers

  /** str.isspace() for one character: the characters split() and strip() treat as whitespace. */
  predicate IsSpace(c: char) {
    c == ' ' || ('\t' <= c <= '\r') || ('\U{1c}' <= c <= '\U{1f}')
    || c == '\U{85}' || c == '\U{a0}' || c == '\U{1680}'
    || ('\U{2000}' <= c <= '\U{200a}') || c == '\U{2028}' || c == '\U{2029}'
    || c == '\U{202f}' || c == '\U{205f}' || c == '\U{3000}'
  }

  predicate AllSpaces(s: string) {
    forall i :: 0 <= i < |s| ==> IsSpace(s[i])
  }

  predicate NoSpaces(s: string) {
    forall i :: 0 <= i < |s| ==> !IsSpace(s[i])
  }

  predicate IsUpper(c: char) {
    'A' <= c <= 'Z'
  }

  /** lower() on one character, for the ASCII letters. */
  function LowerChar(c: char): (d: char)
    ensures !IsUpper(d)
    ensures IsUpper(c) ==> d as int == c as int + 32
    ensures !IsUpper(c) ==> d == c
  {
    if IsUpper(c) then (c as int + 32) as char else c
  }

  /** str.lower(), for the ASCII letters. */
  function Lower(s: string): (t: string)
    ensures |t| == |s|
    ensures forall i :: 0 <= i < |s| ==> t[i] == LowerChar(s[i])
  {
    if s == [] then [] else Lower(s[..|s| - 1]) + [LowerChar(s[|s| - 1])]
  }

  /** Lowering leaves no upper-case letter, so lowering twice changes nothing. */
  lemma LowerIsIdempotent(s: string)
    ensures forall i :: 0 <= i < |s| ==> !IsUpper(Lower(s)[i])
    ensures Lower(Lower(s)) == Lower(s)
  {
  }

  predicate OccursAt(hay: string, needle: string, i: int) {
    0 <= i <= |hay| - |needle| && hay[i..i + |needle|] == needle
  }

  /** `needle in hay` for strings: needle occurs at some position of hay. */
  predicate Contains(hay: string, needle: string) {
    exists i | 0 <= i <= |hay| - |needle| :: OccursAt(hay, needle, i)
  }

  /** The empty string is in every string, and every string is in itself and in any extension of it. */
  lemma ContainsBasics(hay: string, needle: string, rest: string)
    ensures Contains(hay, "")
    ensures Contains(needle, needle)
    ensures Contains(hay + needle + rest, needle)
  {
    assert OccursAt(hay, "", 0);
    assert OccursAt(needle, needle, 0);
    assert OccursAt(hay + needle + rest, needle, |hay|);
  }

  /** Whatever a prefix contains, the whole string contains. */
  lemma ContainsInPrefix(p: string, s: string, needle: string)
    requires p <= s && Contains(p, needle)
    ensures Contains(s, needle)
  {
    var i :| 0 <= i <= |p| - |needle| && OccursAt(p, needle, i);
    assert p == s[..|p|];
    assert s[i..i + |needle|] == p[i..i + |needle|];
    assert OccursAt(s, needle, i);
  }

  /** A needle longer than the haystack is never in it. */
  lemma LongerIsNotContained(hay: string, needle: string)
    requires |needle| > |hay|
    ensures !Contains(hay, needle)
  {
  }

  /** The suffix left after the leading whitespace. */
  function DropSpaces(s: string): (t: string)
    ensures |t| <= |s| && t == s[|s| - |t|..]
    ensures AllSpaces(s[..|s| - |t|])
    ensures t == [] || !IsSpace(t[0])
  {
    if s == [] || !IsSpace(s[0]) then s
    else
      var t := DropSpaces(s[1..]);
      assert s[1..][..|s| - 1 - |t|] == s[1..|s| - |t|];
      t
  }

  /** The longest prefix without whitespace. */
  function WordPrefix(s: string): (w: string)
    ensures w <= s
    ensures NoSpaces(w)
    ensures |w| == |s| || IsSpace(s[|w|])
  {
    if s == [] || IsSpace(s[0]) then []
    else [s[0]] + WordPrefix(s[1..])
  }

  /**
   * str.split()[0]: the first run of non-whitespace characters, or None
   * when the string is blank (split() then gives [] and [0] raises).
   */
  function FirstWord(s: string): (o: Option<string>)
    ensures o.None? <==> AllSpaces(s)
    ensures o.Some? ==> o.value != [] && NoSpaces(o.value)
  {
    var t := DropSpaces(s);
    if t == [] then None
    else
      Some(WordPrefix(t))
  }

  /** Whitespace, then a word, then nothing or whitespace: split()[0] is that word. */
  lemma FirstWordFinds(lead: string, w: string, rest: string)
    requires AllSpaces(lead) && w != [] && NoSpaces(w)
    requires rest == [] || IsSpace(rest[0])
    ensures FirstWord(lead + w + rest) == Some(w)
  {
    var s := lead + w + rest;
    SpacesThenWord(lead, w + rest);
    assert s == lead + (w + rest);
    WordThenSpace(w, rest);
  }

  lemma {:induction false} SpacesThenWord(lead: string, u: string)
    requires AllSpaces(lead) && u != [] && !IsSpace(u[0])
    ensures DropSpaces(lead + u) == u
  {
    if lead != [] {
      assert (lead + u)[1..] == lead[1..] + u;
      SpacesThenWord(lead[1..], u);
    }
  }

  lemma {:induction false} WordThenSpace(w: string, rest: string)
    requires NoSpaces(w)
    requires rest == [] || IsSpace(rest[0])
    ensures WordPrefix(w + rest) == w
  {
    if w != [] {
      assert (w + rest)[1..] == w[1..] + rest;
      WordThenSpace(w[1..], rest);
    }
  }

  /** s.split(c)[0]: the part of s before its first c, or all of s. */
  function CutAt(s: string, c: char): (r: string)
    ensures r <= s
    ensures c !in r
    ensures |r| == |s| || s[|r|] == c
  {
    if s == [] || s[0] == c then []
    else [s[0]] + CutAt(s[1..], c)
  }

  /** Cutting a string at the first c of a + [c] + b gives a. */
  lemma {:induction false} CutAtFinds(a: string, c: char, b: string)
    requires c !in a
    ensures CutAt(a + [c] + b, c) == a
  {
    if a != [] {
      assert (a + [c] + b)[1..] == a[1..] + [c] + b;
      CutAtFinds(a[1..], c, b);
    }
  }

  /** The prefix left after the trailing whitespace. */
  function DropTrailingSpaces(s: string): (t: string)
    ensures t <= s
    ensures AllSpaces(s[|t|..])
    ensures t == [] || !IsSpace(t[|t| - 1])
  {
    if s == [] || !IsSpace(s[|s| - 1]) then s
    else
      var t := DropTrailingSpaces(s[..|s| - 1]);
      assert s[|t|..] == s[..|s| - 1][|t|..] + [s[|s| - 1]];
      t
  }

  /** r sits at position i of s with only whitespace around it. */
  predicate TrimmedAt(s: string, r: string, i: int) {
    0 <= i <= |s| - |r| && s[i..i + |r|] == r && AllSpaces(s[..i]) && AllSpaces(s[i + |r|..])
  }

  /** str.strip(): s without its leading and trailing whitespace. */
  function Strip(s: string): (r: string)
    ensures exists i :: TrimmedAt(s, r, i)
    ensures r == [] || (!IsSpace(r[0]) && !IsSpace(r[|r| - 1]))
  {
    var t := DropSpaces(s);
    var r := DropTrailingSpaces(t);
    StripTrims(s, t, r);
    r
  }

  lemma StripTrims(s: string, t: string, r: string)
    requires |t| <= |s| && t == s[|s| - |t|..] && AllSpaces(s[..|s| - |t|])
    requires r <= t && AllSpaces(t[|r|..])
    ensures TrimmedAt(s, r, |s| - |t|)
  {
    var i := |s| - |t|;
    assert s[i..i + |r|] == t[..|r|];
    assert s[i + |r|..] == t[|r|..];
  }

  /** Whitespace, a core that starts and ends with non-whitespace, whitespace: strip() gives the core. */
  lemma StripFinds(lead: string, core: string, trail: string)
    requires AllSpaces(lead) && AllSpaces(trail)
    requires core != [] && !IsSpace(core[0]) && !IsSpace(core[|core| - 1])
    ensures Strip(lead + core + trail) == core
  {
    assert lead + core + trail == lead + (core + trail);
    SpacesThenWord(lead, core + trail);
    TrailingSpacesAfter(core, trail);
  }

  lemma {:induction false} TrailingSpacesAfter(core: string, trail: string)
    requires AllSpaces(trail)
    requires core != [] && !IsSpace(core[|core| - 1])
    ensures DropTrailingSpaces(core + trail) == core
  {
    if trail != [] {
      var n := |trail| - 1;
      assert (core + trail)[..|core + trail| - 1] == core + trail[..n];
      TrailingSpacesAfter(core, trail[..n]);
    } else {
      assert core + trail == core;
    }
  }

  /** strip() gives a piece of its argument. */
  lemma StripIsContained(s: string)
    ensures Contains(s, Strip(s))
  {
    var r := Strip(s);
    var i :| TrimmedAt(s, r, i);
    assert OccursAt(s, r, i);
  }

  /** Stripping twice strips nothing more. */
  lemma StripIsIdempotent(s: string)
    ensures Strip(Strip(s)) == Strip(s)
  {
    var r := Strip(s);
    assert DropSpaces(r) == r;
    assert DropTrailingSpaces(r) == r;
  }
}
