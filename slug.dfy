/** The cache key of an item's icon: `slugify` (launcher.py:45-49). */
module Slug {
  import Seqs
  import Text

  /** The characters `slugify` turns into spaces, in the order its loop visits them. The
      source writes them as the raw literal r"\/:*?\"<>|", in which the escaped quote keeps
      its backslash, so the backslash is visited twice. */
  const Illegal: string := "\\/:*?\\\"<>|"

  predicate IsIllegal(c: char)
  {
    c in Illegal
  }

  /** A character that survives into the slug (possibly lower-cased). */
  function Kept(c: char): bool
  {
    !Text.IsSpace(c) && !IsIllegal(c)
  }

  /** Python's `s.replace(c, " ")` for a single character `c`. */
  function ReplaceWithSpace(s: string, c: char): (r: string)
    ensures |r| == |s|
  {
    seq(|s|, i requires 0 <= i < |s| => if s[i] == c then ' ' else s[i])
  }

  /** `s` with every character listed in `cs` turned into a space. */
  function SpaceOut(s: string, cs: string): (r: string)
    ensures |r| == |s|
  {
    seq(|s|, i requires 0 <= i < |s| => if s[i] in cs then ' ' else s[i])
  }

  /** The words of a name: lower-cased, illegal characters read as spaces, split on
      whitespace. */
  function Words(name: string): seq<string>
  {
    Text.Split(SpaceOut(Text.Lower(name), Illegal))
  }

  /** The slug of a name: its words joined by underscores. */
  function Slug(name: string): string
  {
    Text.Join('_', Words(name))
  }

  /** `slugify` as the source runs it: lower-case, then one `replace` per illegal character,
      then split and join. */
  method Slugify(name: string) returns (key: string)
    ensures key == Slug(name)
  {
    var lowered := Text.Lower(name);
    var s := lowered;
    for i := 0 to |Illegal|
      invariant s == SpaceOut(lowered, Illegal[..i])
    {
      s := ReplaceWithSpace(s, Illegal[i]);
      assert Illegal[..i + 1] == Illegal[..i] + [Illegal[i]];
    }
    assert Illegal[..|Illegal|] == Illegal;
    key := Text.Join('_', Text.Split(s));
  }

  /** Lower-casing neither creates nor removes an illegal character. */
  lemma LowerIllegal(c: char)
    ensures IsIllegal(Text.LowerChar(c)) <==> IsIllegal(c)
  {
  }

  /** Lower-casing distributes over concatenation. */
  lemma LowerConcat(a: string, b: string)
    ensures Text.Lower(a + b) == Text.Lower(a) + Text.Lower(b)
  {
  }

  /** Spacing out illegal characters and dropping whitespace leaves the lower-cased kept
      characters of the name. */
  lemma {:induction false} KeptLowered(name: string)
    ensures Seqs.Filter(Text.NotSpace, SpaceOut(Text.Lower(name), Illegal))
         == Text.Lower(Seqs.Filter(Kept, name))
  {
    if name != [] {
      var c := name[0];
      var t := SpaceOut(Text.Lower(name), Illegal);
      var t' := SpaceOut(Text.Lower(name[1..]), Illegal);
      assert t == [t[0]] + t';
      LowerIllegal(c);
      assert Text.NotSpace(t[0]) == Kept(c);
      var head := if Kept(c) then [c] else [];
      assert Seqs.Filter(Kept, name) == head + Seqs.Filter(Kept, name[1..]);
      LowerConcat(head, Seqs.Filter(Kept, name[1..]));
      KeptLowered(name[1..]);
      assert Text.Lower(head) == if Text.NotSpace(t[0]) then [t[0]] else [];
    }
  }

  /** Each word is non-empty and holds no whitespace, no illegal and no upper-case character;
      laid end to end, the words are the name's kept characters, lower-cased. */
  lemma WordsShape(name: string)
    ensures forall w :: w in Words(name) ==>
      w != [] && forall i :: 0 <= i < |w| ==> Kept(w[i]) && !Text.IsUpper(w[i])
    ensures Seqs.Concat(Words(name)) == Text.Lower(Seqs.Filter(Kept, name))
  {
    var t := SpaceOut(Text.Lower(name), Illegal);
    Text.SplitConcat(t);
    KeptLowered(name);
    forall w, i | w in Words(name) && 0 <= i < |w|
      ensures Kept(w[i]) && !Text.IsUpper(w[i])
    {
      Seqs.ConcatMember(Words(name), w, w[i]);
      var k :| 0 <= k < |Seqs.Filter(Kept, name)| && Text.Lower(Seqs.Filter(Kept, name))[k] == w[i];
      LoweredKept(name, k);
    }
  }

  /** A lower-cased kept character is still kept, and is not upper-case. */
  lemma LoweredKept(name: string, k: int)
    requires 0 <= k < |Seqs.Filter(Kept, name)|
    ensures Kept(Text.Lower(Seqs.Filter(Kept, name))[k])
    ensures !Text.IsUpper(Text.Lower(Seqs.Filter(Kept, name))[k])
  {
    var f := Seqs.Filter(Kept, name);
    assert f[k] in f;
    Seqs.FilterMembership(Kept, name, f[k]);
    LowerIllegal(f[k]);
  }

  /** A slug holds no whitespace, no illegal and no upper-case character, and every character
      of it is an underscore or a lower-cased character of the name. */
  lemma SlugChars(name: string)
    ensures forall i :: 0 <= i < |Slug(name)| ==>
      Kept(Slug(name)[i]) && !Text.IsUpper(Slug(name)[i])
    ensures forall i :: 0 <= i < |Slug(name)| ==>
      Slug(name)[i] == '_' || Slug(name)[i] in Text.Lower(Seqs.Filter(Kept, name))
  {
    WordsShape(name);
    forall i | 0 <= i < |Slug(name)|
      ensures Kept(Slug(name)[i]) && !Text.IsUpper(Slug(name)[i])
      ensures Slug(name)[i] == '_' || Slug(name)[i] in Text.Lower(Seqs.Filter(Kept, name))
    {
      var c := Slug(name)[i];
      Text.JoinChars('_', Words(name), c);
      if c != '_' {
        var w :| w in Words(name) && c in w;
        var j :| 0 <= j < |w| && w[j] == c;
        Seqs.ConcatMember(Words(name), w, c);
      }
    }
  }

  /** Slugging a slug gives it back. */
  lemma SlugIdempotent(name: string)
    ensures Slug(Slug(name)) == Slug(name)
  {
    var k := Slug(name);
    SlugChars(name);
    Text.LowerNoUpper(k);
    assert SpaceOut(k, Illegal) == k;
    Text.SplitNoSpace(k);
  }

  /** The empty slug: exactly the names made of whitespace and illegal characters only. */
  lemma SlugEmpty(name: string)
    ensures Slug(name) == [] <==> forall i :: 0 <= i < |name| ==> !Kept(name[i])
  {
    if forall i :: 0 <= i < |name| ==> !Kept(name[i]) {
      var t := SpaceOut(Text.Lower(name), Illegal);
      forall i | 0 <= i < |t|
        ensures Text.IsSpace(t[i])
      {
        LowerIllegal(name[i]);
      }
      Text.SplitAllSpace(t);
    } else {
      var i :| 0 <= i < |name| && Kept(name[i]);
      WordsOfKept(name, i);
    }
  }

  /** A name with a kept character has at least one word, so a non-empty slug. */
  lemma WordsOfKept(name: string, i: int)
    requires 0 <= i < |name| && Kept(name[i])
    ensures Words(name) != [] && Slug(name) != []
  {
    WordsShape(name);
    Seqs.FilterMembership(Kept, name, name[i]);
    var f := Seqs.Filter(Kept, name);
    assert |Text.Lower(f)| > 0;
    assert Words(name) != [];
    assert Words(name)[0] in Words(name);
  }

  /** Words are separated by exactly one underscore: the slug is as long as the kept
      characters of the name plus one for each gap between words. */
  lemma SlugLength(name: string)
    requires Words(name) != []
    ensures |Slug(name)| == |Seqs.Filter(Kept, name)| + |Words(name)| - 1
  {
    WordsShape(name);
    Text.JoinLength('_', Words(name));
  }
}
