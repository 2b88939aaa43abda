/**
 * The parts of Go's `strings` package the wrapper relies on, over strings
 * modelled as sequences of runes: `TrimSpace`, `SplitN(s, sep, 2)` for a
 * one-rune separator, `HasPrefix`/`TrimPrefix`, `Fields`, `Join` and ASCII
 * lower-casing.
 */
module Strings {
  import opened Base

  /** unicode.IsSpace: the Latin-1 spaces and the Unicode White_Space runes above them. */
  predicate IsSpace(c: char) {
    || c == ' ' || c == '\t' || c == '\n' || c == '\r'
    || c == '\U{0B}' || c == '\U{0C}' || c == '\U{85}' || c == '\U{A0}'
    || c == '\U{1680}' || ('\U{2000}' <= c <= '\U{200A}')
    || c == '\U{2028}' || c == '\U{2029}' || c == '\U{202F}' || c == '\U{205F}' || c == '\U{3000}'
  }

  /** The end of the run of white space that starts at index `i`. */
  function SpaceRun(s: string, i: nat): (n: nat)
    requires i <= |s|
    ensures i <= n <= |s|
    ensures forall k :: i <= k < n ==> IsSpace(s[k])
    ensures n < |s| ==> !IsSpace(s[n])
    decreases |s| - i
  {
    if i < |s| && IsSpace(s[i]) then SpaceRun(s, i + 1) else i
  }

  /** The start of the run of white space that ends at index `j`, not reaching below `a`. */
  function SpaceEnd(s: string, a: nat, j: nat): (n: nat)
    requires a <= j <= |s|
    ensures a <= n <= j
    ensures forall k :: n <= k < j ==> IsSpace(s[k])
    ensures n > a ==> !IsSpace(s[n - 1])
    decreases j
  {
    if j > a && IsSpace(s[j - 1]) then SpaceEnd(s, a, j - 1) else j
  }

  /** Number of leading white-space runes. */
  function LeadingSpace(s: string): (n: nat)
    ensures n <= |s|
    ensures forall i :: 0 <= i < n ==> IsSpace(s[i])
    ensures n < |s| ==> !IsSpace(s[n])
  {
    SpaceRun(s, 0)
  }

  /** Drops leading white space: the result is the suffix that starts at the first non-space rune. */
  function TrimLeft(s: string): (r: string)
    ensures |r| <= |s| && r == s[|s| - |r|..]
    ensures forall i :: 0 <= i < |s| - |r| ==> IsSpace(s[i])
    ensures |r| > 0 ==> !IsSpace(r[0])
  {
    s[LeadingSpace(s)..]
  }

  /**
   * strings.TrimSpace: the slice of `s` between its leading and trailing
   * white space, which neither starts nor ends with white space.
   */
  function TrimSpace(s: string): (r: string)
    ensures LeadingSpace(s) + |r| <= |s|
    ensures r == s[LeadingSpace(s)..LeadingSpace(s) + |r|]
    ensures forall i :: 0 <= i < LeadingSpace(s) ==> IsSpace(s[i])
    ensures forall i :: LeadingSpace(s) + |r| <= i < |s| ==> IsSpace(s[i])
    ensures |r| > 0 ==> !IsSpace(r[0]) && !IsSpace(r[|r| - 1])
  {
    var a := LeadingSpace(s);
    s[a..SpaceEnd(s, a, |s|)]
  }

  /** Trimming removes runes and adds none. */
  lemma TrimSpaceKeeps(s: string, c: char)
    requires c !in s
    ensures c !in TrimSpace(s)
  {
    var r := TrimSpace(s);
    forall i | 0 <= i < |r|
      ensures r[i] != c
    {
      assert r[i] == s[LeadingSpace(s) + i];
    }
  }

  /** A run of white space from `i` up to a non-space rune (or the end) ends there. */
  lemma {:induction false} SpaceRunAt(s: string, i: nat, k: nat)
    requires i <= k <= |s|
    requires forall q :: i <= q < k ==> IsSpace(s[q])
    requires k == |s| || !IsSpace(s[k])
    ensures SpaceRun(s, i) == k
    decreases k - i
  {
    if i < k {
      SpaceRunAt(s, i + 1, k);
    }
  }

  /** A run of white space down from `j` to a non-space rune (or to `a`) starts there. */
  lemma {:induction false} SpaceEndAt(s: string, a: nat, j: nat, k: nat)
    requires a <= k <= j <= |s|
    requires forall q :: k <= q < j ==> IsSpace(s[q])
    requires k == a || !IsSpace(s[k - 1])
    ensures SpaceEnd(s, a, j) == k
    decreases j - k
  {
    if k < j {
      SpaceEndAt(s, a, j - 1, k);
    }
  }

  /** White space around a word that neither starts nor ends with white space is exactly what trimming removes. */
  lemma TrimSpaceAround(a: string, m: string, b: string)
    requires forall i :: 0 <= i < |a| ==> IsSpace(a[i])
    requires forall i :: 0 <= i < |b| ==> IsSpace(b[i])
    requires |m| == 0 || (!IsSpace(m[0]) && !IsSpace(m[|m| - 1]))
    ensures TrimSpace(a + m + b) == m
  {
    var s := a + m + b;
    if |m| > 0 {
      assert s[|a|] == m[0];
      SpaceRunAt(s, 0, |a|);
      assert s[|a| + |m| - 1] == m[|m| - 1];
      forall q | |a| + |m| <= q < |s|
        ensures IsSpace(s[q])
      {
        assert s[q] == b[q - |a| - |m|];
      }
      SpaceEndAt(s, |a|, |s|, |a| + |m|);
      assert s[|a|..|a| + |m|] == m;
    } else {
      forall q | 0 <= q < |s|
        ensures IsSpace(s[q])
      {
        if q < |a| {
          assert s[q] == a[q];
        } else {
          assert s[q] == b[q - |a|];
        }
      }
      SpaceRunAt(s, 0, |s|);
    }
  }

  /** Trimming is idempotent. */
  lemma TrimSpaceTrimmed(s: string)
    ensures TrimSpace(TrimSpace(s)) == TrimSpace(s)
  {
    var r := TrimSpace(s);
    TrimSpaceAround("", r, "");
    assert "" + r + "" == r;
  }

  /** Index of the first occurrence of `c`, if any. */
  function IndexOf(s: string, c: char): (r: Option<nat>)
    ensures r.None? <==> c !in s
    ensures r.Some? ==> r.value < |s| && s[r.value] == c && c !in s[..r.value]
  {
    if |s| == 0 then None
    else if s[0] == c then Some(0)
    else match IndexOf(s[1..], c)
      case None => None
      case Some(i) =>
        assert s[..i + 1] == [s[0]] + s[1..][..i];
        Some(i + 1)
  }

  /**
   * strings.SplitN(s, [c], 2) seen through `len(parts) == 2`: the two halves
   * around the FIRST `c`, or None when `s` holds no `c`.
   */
  function SplitFirst(s: string, c: char): (r: Option<(string, string)>)
    ensures r.None? <==> c !in s
    ensures r.Some? ==> s == r.value.0 + [c] + r.value.1 && c !in r.value.0
  {
    match IndexOf(s, c)
    case None => None
    case Some(i) =>
      assert s == s[..i] + [c] + s[i + 1..];
      Some((s[..i], s[i + 1..]))
  }

  /** Splitting is undone by re-joining, whatever the right half holds. */
  lemma SplitFirstOfJoin(a: string, c: char, b: string)
    requires c !in a
    ensures SplitFirst(a + [c] + b, c) == Some((a, b))
  {
    var s := a + [c] + b;
    assert s[..|a|] == a;
    IndexOfFirst(s, c, |a|);
    assert s[|a| + 1..] == b;
  }

  lemma {:induction false} IndexOfFirst(s: string, c: char, k: nat)
    requires k < |s| && s[k] == c && c !in s[..k]
    ensures IndexOf(s, c) == Some(k)
  {
    if k > 0 {
      assert s[0] == s[..k][0];
      assert s[1..][..k - 1] == s[..k][1..];
      IndexOfFirst(s[1..], c, k - 1);
    }
  }

  predicate HasPrefix(s: string, prefix: string) {
    |prefix| <= |s| && s[..|prefix|] == prefix
  }

  /** strings.TrimPrefix */
  function TrimPrefix(s: string, prefix: string): (r: string)
    ensures HasPrefix(s, prefix) ==> prefix + r == s
    ensures !HasPrefix(s, prefix) ==> r == s
  {
    if HasPrefix(s, prefix) then s[|prefix|..] else s
  }

  /** The longest prefix of `s` free of white space. */
  function Word(s: string): (r: string)
    ensures |r| <= |s| && r == s[..|r|]
    ensures forall i :: 0 <= i < |r| ==> !IsSpace(r[i])
    ensures |r| < |s| ==> IsSpace(s[|r|])
  {
    if |s| == 0 || IsSpace(s[0]) then "" else [s[0]] + Word(s[1..])
  }

  /** `w` holds no white space. */
  predicate NoSpace(w: string) {
    forall j :: 0 <= j < |w| ==> !IsSpace(w[j])
  }

  /** The non-space runes of `s`, in order. */
  function NonSpace(s: string): string {
    if |s| == 0 then "" else (if IsSpace(s[0]) then "" else [s[0]]) + NonSpace(s[1..])
  }

  function Concat(xs: seq<string>): string {
    if |xs| == 0 then "" else xs[0] + Concat(xs[1..])
  }

  lemma {:induction false} NonSpaceAppend(a: string, b: string)
    ensures NonSpace(a + b) == NonSpace(a) + NonSpace(b)
  {
    if |a| > 0 {
      assert (a + b)[1..] == a[1..] + b;
      NonSpaceAppend(a[1..], b);
    } else {
      assert a + b == b;
    }
  }

  lemma {:induction false} NonSpaceAllSpace(s: string)
    requires forall i :: 0 <= i < |s| ==> IsSpace(s[i])
    ensures NonSpace(s) == ""
  {
    if |s| > 0 {
      NonSpaceAllSpace(s[1..]);
    }
  }

  lemma {:induction false} NonSpaceNoSpace(s: string)
    requires forall i :: 0 <= i < |s| ==> !IsSpace(s[i])
    ensures NonSpace(s) == s
  {
    if |s| > 0 {
      NonSpaceNoSpace(s[1..]);
    }
  }

  /**
   * strings.Fields: the maximal runs of non-space runes, each non-empty and
   * space-free (FieldsConcat: together they hold exactly the non-space runes).
   */
  function Fields(s: string): (r: seq<string>)
    ensures forall i :: 0 <= i < |r| ==> |r[i]| > 0 && NoSpace(r[i])
    decreases |s|
  {
    var t := TrimLeft(s);
    if |t| == 0 then []
    else
      var w := Word(t);
      assert |w| > 0 by {
        assert !IsSpace(t[0]);
      }
      var rest := t[|w|..];
      assert |rest| < |s|;
      WordsCons(w, Fields(rest));
      [w] + Fields(rest)
  }

  lemma WordsCons(w: string, xs: seq<string>)
    requires |w| > 0 && NoSpace(w)
    requires forall i :: 0 <= i < |xs| ==> |xs[i]| > 0 && NoSpace(xs[i])
    ensures forall i :: 0 <= i < |[w] + xs| ==> |([w] + xs)[i]| > 0 && NoSpace(([w] + xs)[i])
  {
    forall i | 0 < i < |[w] + xs|
      ensures ([w] + xs)[i] == xs[i - 1]
    {
    }
  }

  /** Leading white space contributes no non-space rune. */
  lemma NonSpaceTrimLeft(s: string)
    ensures NonSpace(TrimLeft(s)) == NonSpace(s)
  {
    var t := TrimLeft(s);
    var a := s[..|s| - |t|];
    assert s == a + t;
    NonSpaceAllSpace(a);
    NonSpaceAppend(a, t);
  }

  lemma ConcatCons(w: string, xs: seq<string>)
    ensures Concat([w] + xs) == w + Concat(xs)
  {
    assert ([w] + xs)[1..] == xs;
  }

  /** The first word's runes come first among the non-space runes. */
  lemma NonSpaceWord(t: string)
    ensures |Word(t)| <= |t|
    ensures NonSpace(t) == Word(t) + NonSpace(t[|Word(t)|..])
  {
    var w := Word(t);
    assert t == w + t[|w|..];
    NonSpaceAppend(w, t[|w|..]);
    NonSpaceNoSpace(w);
  }

  /** Splitting into fields loses nothing but the white space. */
  lemma {:induction false} FieldsConcat(s: string)
    ensures Concat(Fields(s)) == NonSpace(s)
    decreases |s|
  {
    var t := TrimLeft(s);
    NonSpaceTrimLeft(s);
    if t != [] {
      var w := Word(t);
      NonSpaceWord(t);
      FieldsConcat(t[|w|..]);
      ConcatCons(w, Fields(t[|w|..]));
    }
  }

  /** strings.Join */
  function Join(xs: seq<string>, sep: string): string {
    if |xs| == 0 then ""
    else if |xs| == 1 then xs[0]
    else xs[0] + sep + Join(xs[1..], sep)
  }

  /** unicode.ToLower restricted to ASCII: A-Z become a-z, every other rune is kept. */
  function LowerAscii(c: char): (r: char)
    ensures 'A' <= c <= 'Z' ==> 'a' <= r <= 'z' && r as int - c as int == 32
    ensures !('A' <= c <= 'Z') ==> r == c
  {
    if 'A' <= c <= 'Z' then (c as int - 'A' as int + 'a' as int) as char else c
  }

  /** strings.ToLower, with Unicode case mapping narrowed to ASCII. */
  function AsciiLower(s: string): (r: string)
    ensures |r| == |s|
    ensures forall i :: 0 <= i < |s| ==> r[i] == LowerAscii(s[i])
  {
    if |s| == 0 then "" else [LowerAscii(s[0])] + AsciiLower(s[1..])
  }

  /** Lower-casing is idempotent and leaves no upper-case ASCII letter behind. */
  lemma AsciiLowerIdempotent(s: string)
    ensures AsciiLower(AsciiLower(s)) == AsciiLower(s)
    ensures forall i :: 0 <= i < |s| ==> !('A' <= AsciiLower(s)[i] <= 'Z')
  {
  }
}
