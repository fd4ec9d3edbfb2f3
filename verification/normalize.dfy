/** Column-name normalisation in `upload_dataframe`: every column name is
    stripped of surrounding whitespace, then each space and each hyphen
    becomes an underscore. */
module Normalize {
  import opened Text

  /** `str(c).strip().replace(' ', '_').replace('-', '_')` */
  function NormalizeName(c: string): (r: string)
    ensures ' ' !in r && '-' !in r
    ensures |r| == |Strip(c)|
    ensures r == [] || (!IsSpace(r[0]) && !IsSpace(r[|r| - 1]))
  {
    var s := Strip(c);
    var t := Replace(s, ' ', '_');
    ReplaceRemoves(s, ' ', '_', ' ');
    ReplaceKeepsEnds(s, ' ', '_');
    ReplaceRemoves(t, '-', '_', ' ');
    ReplaceKeepsEnds(t, '-', '_');
    Replace(t, '-', '_')
  }

  /** The comprehension assigned to `df.columns`: one name per column, in the
      same order. */
  function NormalizeColumns(columns: seq<string>): (r: seq<string>)
    ensures |r| == |columns|
    ensures forall i :: 0 <= i < |r| ==> r[i] == NormalizeName(columns[i])
  {
    seq(|columns|, i requires 0 <= i < |columns| => NormalizeName(columns[i]))
  }

  /** A name with no surrounding whitespace, no space and no hyphen is
      already normal. */
  lemma {:induction false} CleanNameUnchanged(c: string)
    requires c == [] || (!IsSpace(c[0]) && !IsSpace(c[|c| - 1]))
    requires ' ' !in c && '-' !in c
    ensures NormalizeName(c) == c
  {
    StripKeeps(c);
    assert Replace(c, ' ', '_') == c;
    assert Replace(c, '-', '_') == c;
  }

  /** Normalising twice gives what normalising once gives. */
  lemma {:induction false} NormalizeNameIdempotent(c: string)
    ensures NormalizeName(NormalizeName(c)) == NormalizeName(c)
  {
    CleanNameUnchanged(NormalizeName(c));
  }

  lemma {:induction false} NormalizeColumnsIdempotent(columns: seq<string>)
    ensures NormalizeColumns(NormalizeColumns(columns)) == NormalizeColumns(columns)
  {
    forall i | 0 <= i < |columns|
      ensures NormalizeColumns(NormalizeColumns(columns))[i] == NormalizeColumns(columns)[i]
    {
      NormalizeNameIdempotent(columns[i]);
    }
  }

  /** Stripping comes first, so the surrounding spaces are dropped rather than
      turned into underscores. */
  lemma NormalizeExample()
    ensures NormalizeName(" a-b ") == "a_b"
  {
    StripExample();
    ReplaceExample();
  }

  lemma StripExample()
    ensures Strip(" a-b ") == "a-b"
  {
    assert " a-b " == [' '] + "a-b" + [' '];
    StripSpaces("a-b");
  }

  lemma ReplaceExample()
    ensures Replace(Replace("a-b", ' ', '_'), '-', '_') == "a_b"
  {
    var t := Replace("a-b", ' ', '_');
    assert t == "a-b" by {
      assert t[0] == 'a' && t[1] == '-' && t[2] == 'b';
    }
    var r := Replace(t, '-', '_');
    assert r[0] == 'a' && r[1] == '_' && r[2] == 'b';
  }
}
