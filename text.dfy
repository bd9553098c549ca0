/**
 * The few Python `str` operations the relay's decision logic is built from:
 * `isspace`/`strip`, `lower`, `startswith`, the `in` substring test and
 * `replace(pattern, "")`. Strings are sequences of Unicode scalar values.
 */
module Text {

  /** Python's `str.isspace` for one character (the full Unicode list). */
  predicate IsSpace(c: char) {
    || ('\t' <= c <= '\r')
    || ('\U{1C}' <= c <= '\U{1F}')
    || c == ' '
    || c == '\U{85}'
    || c == '\U{A0}'
    || c == '\U{1680}'
    || ('\U{2000}' <= c <= '\U{200A}')
    || c == '\U{2028}'
    || c == '\U{2029}'
    || c == '\U{202F}'
    || c == '\U{205F}'
    || c == '\U{3000}'
  }

  /** `t` is a trailing part of `s`. */
  predicate IsSuffix(t: string, s: string) {
    |t| <= |s| && s[|s| - |t|..] == t
  }

  /** Neither end of `s` is white space: what `strip` leaves. */
  predicate IsStripped(s: string) {
    s == [] || (!IsSpace(s[0]) && !IsSpace(s[|s| - 1]))
  }

  /** Python's `lstrip()`: drops leading white space and nothing else. */
  function StripLeft(s: string): (r: string)
    ensures IsSuffix(r, s)
    ensures r == [] || !IsSpace(r[0])
    ensures forall i :: 0 <= i < |s| - |r| ==> IsSpace(s[i])
  {
    if s != [] && IsSpace(s[0]) then StripLeft(s[1..]) else s
  }

  /** Python's `rstrip()`: drops trailing white space and nothing else. */
  function StripRight(s: string): (r: string)
    ensures r <= s
    ensures r == [] || !IsSpace(r[|r| - 1])
    ensures forall i :: |r| <= i < |s| ==> IsSpace(s[i])
  {
    if s != [] && IsSpace(s[|s| - 1]) then StripRight(s[..|s| - 1]) else s
  }

  /** Python's `strip()`. */
  function Strip(s: string): (r: string)
    ensures IsStripped(r)
    ensures |r| <= |s|
  {
    StripRight(StripLeft(s))
  }

  /** A trailing part of a trailing part is a trailing part. */
  lemma SuffixOfDrop(s: string, n: nat, t: string)
    requires n <= |s| && IsSuffix(t, s[n..])
    ensures IsSuffix(t, s)
  {
    assert s[|s| - |t|..] == s[n..][|s| - n - |t|..];
  }

  /** Four pieces joined left to right are the first joined to the other three, joined right to left. */
  lemma Regroup(a: string, b: string, c: string, d: string)
    ensures a + b + c + d == a + (b + (c + d))
  {
  }

  lemma SuffixTrans(a: string, b: string, c: string)
    requires IsSuffix(a, b) && IsSuffix(b, c)
    ensures IsSuffix(a, c)
  {
    assert c[|c| - |a|..] == c[|c| - |b|..][|b| - |a|..];
  }

  /** When `s` already ends in a non-space, `strip` only removes leading white space. */
  lemma StripOfTrimmedEnd(s: string)
    requires s == [] || !IsSpace(s[|s| - 1])
    ensures Strip(s) == StripLeft(s)
    ensures IsSuffix(Strip(s), s)
  {
    var l := StripLeft(s);
    if l != [] {
      assert l[|l| - 1] == s[|s| - 1];
    }
  }

  /** Python's `lower()` restricted to ASCII letters. */
  function LowerChar(c: char): (r: char)
    ensures 'A' <= c <= 'Z' ==> 'a' <= r <= 'z' && r as int == c as int + 32
    ensures !('A' <= c <= 'Z') ==> r == c
  {
    if 'A' <= c <= 'Z' then (c as int + 32) as char else c
  }

  function Lower(s: string): (r: string)
    ensures |r| == |s|
    ensures forall i :: 0 <= i < |s| ==> r[i] == LowerChar(s[i])
  {
    seq(|s|, i requires 0 <= i < |s| => LowerChar(s[i]))
  }

  /** `sub` occurs in `s` starting at index `i`. */
  ghost predicate OccursAt(s: string, sub: string, i: int) {
    0 <= i && i + |sub| <= |s| && s[i..i + |sub|] == sub
  }

  /** Python's `sub in s`. */
  function Contains(s: string, sub: string): (r: bool)
    ensures r <==> exists i :: OccursAt(s, sub, i)
    decreases |s|
  {
    if sub <= s then
      assert OccursAt(s, sub, 0);
      true
    else if s == [] then
      false
    else
      OccursShift(s, sub);
      Contains(s[1..], sub)
  }

  /** Occurrences past the first character of `s` are the occurrences in `s[1..]`, shifted. */
  lemma OccursShift(s: string, sub: string)
    requires s != [] && !(sub <= s)
    ensures (exists i :: OccursAt(s, sub, i)) <==> (exists i :: OccursAt(s[1..], sub, i))
  {
    if exists i :: OccursAt(s, sub, i) {
      var i :| OccursAt(s, sub, i);
      assert i != 0;
      assert s[1..][i - 1..i - 1 + |sub|] == s[i..i + |sub|];
      assert OccursAt(s[1..], sub, i - 1);
    }
    if exists i :: OccursAt(s[1..], sub, i) {
      var i :| OccursAt(s[1..], sub, i);
      assert s[i + 1..i + 1 + |sub|] == s[1..][i..i + |sub|];
      assert OccursAt(s, sub, i + 1);
    }
  }

  /** A piece of a string is contained in it. */
  lemma ContainsPiece(a: string, sub: string, b: string)
    ensures Contains(a + sub + b, sub)
  {
    var s := a + sub + b;
    assert s[|a|..|a| + |sub|] == sub;
    assert OccursAt(s, sub, |a|);
  }

  /** What a string contains, a longer one starting with it contains too. */
  lemma ContainsExtended(s: string, t: string, sub: string)
    requires Contains(s, sub)
    ensures Contains(s + t, sub)
  {
    var i :| OccursAt(s, sub, i);
    assert (s + t)[i..i + |sub|] == s[i..i + |sub|];
    assert OccursAt(s + t, sub, i);
  }

  /** The second of five joined pieces is contained in the whole. */
  lemma ContainsSecondOfFive(a: string, sub: string, b: string, c: string, d: string)
    ensures Contains(a + sub + b + c + d, sub)
  {
    ContainsPiece(a, sub, b);
    ContainsExtended(a + sub + b, c, sub);
    ContainsExtended(a + sub + b + c, d, sub);
  }

  /**
   * No two neighbouring characters of `s` are the first two of `sub`, so
   * `sub` does not occur in `s`.
   */
  lemma NoLeadingPairNoContain(s: string, sub: string)
    requires |sub| >= 2
    requires forall i :: 0 <= i < |s| - 1 ==> !(s[i] == sub[0] && s[i + 1] == sub[1])
    ensures !Contains(s, sub)
  {
    forall i | 0 <= i && i + |sub| <= |s|
      ensures !OccursAt(s, sub, i)
    {
      assert s[i..i + |sub|][0] == s[i] && s[i..i + |sub|][1] == s[i + 1];
    }
  }

  /** A string whose first character does not occur in `s` is not contained in it. */
  lemma NoCharNoContain(s: string, sub: string)
    requires sub != [] && forall i :: 0 <= i < |s| ==> s[i] != sub[0]
    ensures !Contains(s, sub)
  {
    forall i | 0 <= i && i + |sub| <= |s|
      ensures !OccursAt(s, sub, i)
    {
      assert s[i..i + |sub|][0] == s[i];
    }
  }

  /** `sub` occurs in `s` at `i`, so `s` contains it. */
  lemma ContainsAt(s: string, sub: string, i: int)
    requires 0 <= i && i + |sub| <= |s| && s[i..i + |sub|] == sub
    ensures Contains(s, sub)
  {
    assert OccursAt(s, sub, i);
  }

  /** Python's `any(t in s for t in tokens)`. */
  function ContainsAny(s: string, tokens: seq<string>): (r: bool)
    ensures r <==> exists k :: 0 <= k < |tokens| && Contains(s, tokens[k])
  {
    if tokens == [] then false
    else Contains(s, tokens[0]) || ContainsAny(s, tokens[1..])
  }

  /** One token that occurs is enough for `any`. */
  lemma ContainsAnyAt(s: string, tokens: seq<string>, k: nat)
    requires k < |tokens| && Contains(s, tokens[k])
    ensures ContainsAny(s, tokens)
  {
  }

  /** None of three tokens occurs, so `any` over them is false. */
  lemma NoneOfThree(s: string, a: string, b: string, c: string)
    requires !Contains(s, a) && !Contains(s, b) && !Contains(s, c)
    ensures !ContainsAny(s, [a, b, c])
  {
    assert [a, b, c][1..] == [b, c];
    assert [b, c][1..] == [c];
  }

  /**
   * Python's `s.replace(pat, "")`: scanning left to right, every
   * non-overlapping occurrence of `pat` is removed. An empty `pat` leaves
   * `s` as it is.
   */
  function RemoveAll(s: string, pat: string): (r: string)
    ensures |r| <= |s|
    decreases |s|
  {
    if pat == [] || s == [] then s
    else if pat <= s then RemoveAll(s[|pat|..], pat)
    else [s[0]] + RemoveAll(s[1..], pat)
  }

  /** A string without an occurrence of `pat` is left as it is. */
  lemma {:induction false} RemoveAllAbsent(s: string, pat: string)
    requires !Contains(s, pat)
    ensures RemoveAll(s, pat) == s
    decreases |s|
  {
    if pat != [] && s != [] {
      assert !(pat <= s);
      RemoveAllAbsent(s[1..], pat);
    }
  }

  /** A leading occurrence of `pat` is removed. */
  lemma RemoveAllLeading(pat: string, rest: string)
    requires pat != []
    ensures RemoveAll(pat + rest, pat) == RemoveAll(rest, pat)
  {
    assert pat <= pat + rest;
    assert (pat + rest)[|pat|..] == rest;
  }

  /** A first character that does not begin an occurrence of `pat` is kept. */
  lemma RemoveAllKeeps(s: string, pat: string)
    requires pat != [] && s != [] && !(pat <= s)
    ensures RemoveAll(s, pat) == [s[0]] + RemoveAll(s[1..], pat)
  {
  }

  /** Characters that cannot start `pat` pass through `RemoveAll` untouched. */
  lemma {:induction false} RemoveAllKeepsHead(head: string, tail: string, pat: string)
    requires pat != []
    requires forall k :: 0 <= k < |head| ==> head[k] != pat[0]
    ensures RemoveAll(head + tail, pat) == head + RemoveAll(tail, pat)
  {
    if head == [] {
      assert head + tail == tail;
    } else {
      var s := head + tail;
      assert s[0] != pat[0];
      assert s[1..] == head[1..] + tail;
      RemoveAllKeepsHead(head[1..], tail, pat);
      assert head == [head[0]] + head[1..];
    }
  }

  /** A string shorter than `pat` neither contains it nor loses anything to `RemoveAll`. */
  lemma TooShortToContain(s: string, pat: string)
    requires |s| < |pat|
    ensures !Contains(s, pat)
    ensures RemoveAll(s, pat) == s
  {
    RemoveAllAbsent(s, pat);
  }
}
