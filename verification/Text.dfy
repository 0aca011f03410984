/** strings.Split and strings.Join on a one-character separator, and the
    comma-list codec of pkg/profile/utils.go built from them. */
module Text {
  import opened Wrappers

  /** strings.Split(s, sep): always at least one piece. */
  function Split(s: string, sep: char): (pieces: seq<string>)
    ensures |pieces| >= 1
  {
    if s == "" then [""]
    else if s[0] == sep then [""] + Split(s[1..], sep)
    else
      var rest := Split(s[1..], sep);
      [[s[0]] + rest[0]] + rest[1..]
  }

  /** strings.Join(pieces, sep). */
  function Join(pieces: seq<string>, sep: char): string {
    if pieces == [] then ""
    else if |pieces| == 1 then pieces[0]
    else pieces[0] + [sep] + Join(pieces[1..], sep)
  }

  ghost predicate Free(pieces: seq<string>, sep: char) {
    forall p | p in pieces :: sep !in p
  }

  lemma {:induction false} JoinPrepend(c: char, pieces: seq<string>, sep: char)
    requires pieces != []
    ensures Join([[c] + pieces[0]] + pieces[1..], sep) == [c] + Join(pieces, sep)
  {
    var longer := [[c] + pieces[0]] + pieces[1..];
    if |pieces| > 1 {
      assert longer[1..] == pieces[1..];
    }
  }

  lemma {:induction false} JoinOfSplit(s: string, sep: char)
    ensures Join(Split(s, sep), sep) == s
  {
    if s != "" {
      JoinOfSplit(s[1..], sep);
      var rest := Split(s[1..], sep);
      if s[0] == sep {
        assert ([""] + rest)[1..] == rest;
      } else {
        JoinPrepend(s[0], rest, sep);
      }
    }
  }

  lemma {:induction false} SplitIsFree(s: string, sep: char)
    ensures Free(Split(s, sep), sep)
  {
    if s != "" {
      SplitIsFree(s[1..], sep);
      var rest := Split(s[1..], sep);
      assert rest[0] in rest;
      forall p | p in Split(s, sep) ensures sep !in p {
        if p != "" && p !in rest {
          assert p == [s[0]] + rest[0];
        }
      }
    }
  }

  lemma {:induction false} SplitWithout(s: string, sep: char)
    requires sep !in s
    ensures Split(s, sep) == [s]
  {
    if s != "" {
      assert forall c | c in s[1..] :: c in s;
      SplitWithout(s[1..], sep);
      assert [s[0]] + s[1..] == s;
    }
  }

  lemma {:induction false} SplitAtFirst(p: string, s: string, sep: char)
    requires sep !in p
    ensures Split(p + [sep] + s, sep) == [p] + Split(s, sep)
  {
    var whole := p + [sep] + s;
    if p == "" {
      assert whole[1..] == s;
    } else {
      assert whole[1..] == p[1..] + [sep] + s;
      assert forall c | c in p[1..] :: c in p;
      SplitAtFirst(p[1..], s, sep);
      assert [p[0]] + p[1..] == p;
    }
  }

  lemma {:induction false} SplitOfJoin(pieces: seq<string>, sep: char)
    requires pieces != [] && Free(pieces, sep)
    ensures Split(Join(pieces, sep), sep) == pieces
  {
    assert pieces[0] in pieces;
    if |pieces| == 1 {
      SplitWithout(pieces[0], sep);
    } else {
      forall p | p in pieces[1..] ensures sep !in p {
        assert p in pieces;
      }
      SplitOfJoin(pieces[1..], sep);
      SplitAtFirst(pieces[0], Join(pieces[1..], sep), sep);
    }
  }

  /** StringListFromCommaSeparated: the empty string is the empty list. */
  function StringListFromCommaSeparated(cs: string): seq<string> {
    if cs == "" then [] else Split(cs, ',')
  }

  /** Encodes a list: the text so far is the join of the items seen, each but
      the first with a comma in front. */
  method CommaSeparatedFromStringList(sl: seq<string>) returns (s: string)
    ensures s == Join(sl, ',')
  {
    s := "";
    for i := 0 to |sl|
      invariant s == Join(sl[..i], ',')
    {
      var item := sl[i];
      if i > 0 {
        item := "," + item;
      }
      JoinAppend(sl[..i], sl[i], ',');
      assert sl[..i + 1] == sl[..i] + [sl[i]];
      s := s + item;
    }
    assert sl[..|sl|] == sl;
  }

  lemma {:induction false} JoinAppend(pieces: seq<string>, last: string, sep: char)
    ensures Join(pieces + [last], sep)
         == if pieces == [] then last else Join(pieces, sep) + ([sep] + last)
  {
    if |pieces| == 1 {
      assert (pieces + [last])[1..] == [last];
    } else if |pieces| > 1 {
      assert (pieces + [last])[1..] == pieces[1..] + [last];
      JoinAppend(pieces[1..], last, sep);
    }
  }

  /** Decoding then encoding loses nothing, for every string. */
  lemma EncodeDecoded(s: string)
    ensures Join(StringListFromCommaSeparated(s), ',') == s
  {
    JoinOfSplit(s, ',');
  }

  ghost predicate Encodable(sl: seq<string>) {
    Free(sl, ',') && sl != [""]
  }

  lemma {:induction false} JoinIsEmpty(sl: seq<string>)
    ensures Join(sl, ',') == "" <==> sl == [] || sl == [""]
  {
  }

  /** stringListsEquivalent: equality as sets. */
  predicate StringListsEquivalent(sl1: seq<string>, sl2: seq<string>) {
    Items(sl1) == Items(sl2)
  }

  lemma EquivalentMeans(sl1: seq<string>, sl2: seq<string>)
    ensures StringListsEquivalent(sl1, sl2) <==> forall t :: t in sl1 <==> t in sl2
  {
    assert forall t :: t in sl1 <==> t in Items(sl1);
    assert forall t :: t in sl2 <==> t in Items(sl2);
  }

  /** Encoding then decoding gives the list back exactly for the comma-free
      lists other than [""], and outside them even the SET of items changes:
      an update that passes no bundles then rewrites the bundle list. */
  lemma {:induction false} DecodeEncoded(sl: seq<string>)
    ensures Encodable(sl) <==> StringListFromCommaSeparated(Join(sl, ',')) == sl
    ensures Encodable(sl)
       <==> StringListsEquivalent(StringListFromCommaSeparated(Join(sl, ',')), sl)
  {
    var back := StringListFromCommaSeparated(Join(sl, ','));
    JoinIsEmpty(sl);
    if Encodable(sl) {
      if sl != [] {
        SplitOfJoin(sl, ',');
      }
    } else if sl == [""] {
      assert "" in Items(sl) && "" !in Items(back);
    } else {
      var p :| p in sl && ',' in p;
      SplitIsFree(Join(sl, ','), ',');
      assert p in Items(sl) && p !in Items(back);
    }
  }
}
