/** The pieces of Python's `str` that the launcher relies on: `lower`, `isspace`, `strip`,
    `endswith`, the `in` substring test, `split()` without arguments and `join`. */
module Text {
  import Seqs

  /** Python's `str.isspace` for one character: the separators that `split()` and `strip()`
      without arguments remove. */
  predicate IsSpace(c: char)
  {
    || '\t' <= c <= '\r'                  // U+0009 .. U+000D
    || '\U{1C}' <= c <= '\U{1F}'          // file, group, record and unit separators
    || c == ' '
    || c == '\U{85}' || c == '\U{A0}' || c == '\U{1680}'
    || '\U{2000}' <= c <= '\U{200A}'
    || c == '\U{2028}' || c == '\U{2029}' || c == '\U{202F}' || c == '\U{205F}'
    || c == '\U{3000}'
  }

  function NotSpace(c: char): bool { !IsSpace(c) }

  predicate NoSpace(s: string)
  {
    forall i :: 0 <= i < |s| ==> !IsSpace(s[i])
  }

  /** Upper-case letters whose lower-case form is 32 code points further on:
      A..Z and the Latin-1 capitals U+00C0..U+00DE except the multiplication sign. */
  predicate IsUpper(c: char)
  {
    'A' <= c <= 'Z' || ('\U{C0}' <= c <= '\U{DE}' && c != '\U{D7}')
  }

  /** Python's `str.lower` on one character (restricted to the letters of `IsUpper`). */
  function LowerChar(c: char): (d: char)
    ensures !IsUpper(d)
    ensures IsUpper(c) || d == c
    ensures IsSpace(d) <==> IsSpace(c)
  {
    if IsUpper(c) then (c as int + 32) as char else c
  }

  function Lower(s: string): (r: string)
    ensures |r| == |s|
    ensures forall i :: 0 <= i < |s| ==> r[i] == LowerChar(s[i])
  {
    seq(|s|, i requires 0 <= i < |s| => LowerChar(s[i]))
  }

  predicate NoUpper(s: string)
  {
    forall i :: 0 <= i < |s| ==> !IsUpper(s[i])
  }

  /** Lower-casing is the identity on text that holds no upper-case letter; in particular
      lower-casing twice is lower-casing once. */
  lemma LowerNoUpper(s: string)
    requires NoUpper(s)
    ensures Lower(s) == s
  {
  }

  lemma LowerIdempotent(s: string)
    ensures NoUpper(Lower(s))
    ensures Lower(Lower(s)) == Lower(s)
  {
    LowerNoUpper(Lower(s));
  }

  /** Python's `s.endswith(suffix)`. */
  predicate EndsWith(s: string, suffix: string)
  {
    |suffix| <= |s| && s[|s| - |suffix|..] == suffix
  }

  /** A suffix free of upper-case letters survives lower-casing. */
  lemma LowerEndsWith(s: string, suffix: string)
    requires EndsWith(s, suffix) && NoUpper(suffix)
    ensures EndsWith(Lower(s), suffix)
  {
    assert Lower(s)[|s| - |suffix|..] == Lower(suffix);
    LowerNoUpper(suffix);
  }

  /** Python's `t in s` on strings: `t` occurs in `s` as a contiguous piece. */
  predicate Contains(s: string, t: string)
  {
    t <= s || (s != [] && Contains(s[1..], t))
  }

  /** `t` occurs in `s` at offset `i`. */
  predicate OccursAt(s: string, t: string, i: int)
  {
    0 <= i <= |s| - |t| && s[i..i + |t|] == t
  }

  /** `Contains` holds exactly when `t` sits at some offset of `s`. */
  lemma {:induction false} ContainsAt(s: string, t: string)
    ensures Contains(s, t) <==> exists i :: OccursAt(s, t, i)
  {
    if t <= s {
      assert OccursAt(s, t, 0);
    } else if s != [] {
      ContainsAt(s[1..], t);
      if Contains(s[1..], t) {
        var i :| OccursAt(s[1..], t, i);
        assert OccursAt(s, t, i + 1);
      }
      if exists i :: OccursAt(s, t, i) {
        var i :| OccursAt(s, t, i);
        assert i != 0;
        assert OccursAt(s[1..], t, i - 1);
      }
    }
  }

  /** Python's `str.strip()` without arguments: whitespace removed at both ends. */
  function Strip(s: string): (r: string)
    ensures r == [] || (!IsSpace(r[0]) && !IsSpace(r[|r| - 1]))
  {
    TrimEnd(TrimStart(s))
  }

  function TrimStart(s: string): (r: string)
    ensures r == [] || !IsSpace(r[0])
    ensures |r| <= |s| && r == s[|s| - |r|..]
  {
    if s != [] && IsSpace(s[0]) then TrimStart(s[1..]) else s
  }

  function TrimEnd(s: string): (r: string)
    ensures r == [] || !IsSpace(r[|r| - 1])
    ensures |r| <= |s| && r == s[..|r|]
    ensures r != [] ==> r[0] == s[0]
  {
    if s != [] && IsSpace(s[|s| - 1]) then TrimEnd(s[..|s| - 1]) else s
  }

  /** The length of the run of non-whitespace characters that `s` starts with. */
  function TokenLen(s: string): (n: nat)
    ensures n <= |s|
    ensures forall k :: 0 <= k < n ==> !IsSpace(s[k])
    ensures n < |s| ==> IsSpace(s[n])
  {
    if s == [] || IsSpace(s[0]) then 0 else 1 + TokenLen(s[1..])
  }

  /** Python's `s.split()` without arguments: the maximal runs of non-whitespace characters,
      in order; leading, trailing and repeated whitespace produce no empty token. */
  function Split(s: string): (r: seq<string>)
    ensures forall t :: t in r ==> t != [] && NoSpace(t)
    decreases |s|
  {
    if s == [] then []
    else if IsSpace(s[0]) then Split(s[1..])
    else
      var n := TokenLen(s);
      [s[..n]] + Split(s[n..])
  }

  /** Python's `sep.join(ts)` for a one-character separator. */
  function Join(sep: char, ts: seq<string>): (r: string)
  {
    if ts == [] then []
    else if |ts| == 1 then ts[0]
    else ts[0] + [sep] + Join(sep, ts[1..])
  }

  /** The tokens of `s`, laid end to end, are exactly the non-whitespace characters of `s`. */
  lemma {:induction false} SplitConcat(s: string)
    ensures Seqs.Concat(Split(s)) == Seqs.Filter(NotSpace, s)
    decreases |s|
  {
    if s == [] {
    } else if IsSpace(s[0]) {
      SplitConcat(s[1..]);
    } else {
      var n := TokenLen(s);
      SplitConcat(s[n..]);
      assert s == s[..n] + s[n..];
      Seqs.FilterConcat(NotSpace, s[..n], s[n..]);
      Seqs.FilterAll(NotSpace, s[..n]);
      assert Split(s)[1..] == Split(s[n..]);
    }
  }

  /** A string made only of whitespace has no token. */
  lemma {:induction false} SplitAllSpace(s: string)
    requires forall i :: 0 <= i < |s| ==> IsSpace(s[i])
    ensures Split(s) == []
    decreases |s|
  {
    if s != [] {
      SplitAllSpace(s[1..]);
    }
  }

  /** A string free of whitespace is its own single token (or no token when empty). */
  lemma SplitNoSpace(s: string)
    requires NoSpace(s)
    ensures Split(s) == if s == [] then [] else [s]
  {
    if s != [] {
      var n := TokenLen(s);
      assert n == |s|;
      assert s[..n] == s && s[n..] == [];
      assert Split(s) == [s[..n]] + Split(s[n..]);
    }
  }

  /** Splitting undoes joining with a space: tokens that are non-empty and free of whitespace
      are recovered exactly. */
  lemma {:induction false} SplitJoin(ts: seq<string>)
    requires forall i :: 0 <= i < |ts| ==> ts[i] != [] && NoSpace(ts[i])
    ensures Split(Join(' ', ts)) == ts
  {
    if ts == [] {
    } else if |ts| == 1 {
      SplitNoSpace(ts[0]);
    } else {
      var t := ts[0];
      var rest := Join(' ', ts[1..]);
      var s := Join(' ', ts);
      assert s == t + [' '] + rest;
      assert s[|t|] == ' ';
      var n := TokenLen(s);
      assert n == |t| by {
        assert forall k :: 0 <= k < |t| ==> s[k] == t[k];
      }
      assert s[..n] == t;
      assert s[n..] == [' '] + rest;
      assert s[n..][1..] == rest;
      SplitJoin(ts[1..]);
      assert Split(s) == [t] + ts[1..];
    }
  }

  /** Joining `k` non-empty pieces puts exactly `k - 1` separators between them. */
  lemma {:induction false} JoinLength(sep: char, ts: seq<string>)
    requires ts != []
    ensures |Join(sep, ts)| == |Seqs.Concat(ts)| + |ts| - 1
  {
    if |ts| > 1 {
      JoinLength(sep, ts[1..]);
    } else {
      assert Seqs.Concat(ts) == ts[0] + Seqs.Concat(ts[1..]);
    }
  }

  /** Every character of a join is the separator or a character of one of the pieces. */
  lemma {:induction false} JoinChars(sep: char, ts: seq<string>, c: char)
    requires c in Join(sep, ts)
    ensures c == sep || exists t :: t in ts && c in t
  {
    if |ts| > 1 {
      var j := Join(sep, ts[1..]);
      assert Join(sep, ts) == ts[0] + [sep] + j;
      if c in j {
        JoinChars(sep, ts[1..], c);
      }
    }
  }
}
