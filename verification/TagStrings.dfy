/**
 Tags are kept as one comma-joined string and searched with SQL LIKE. Here: what LIKE,
 splitting and joining mean, and that the tag filter finds whole words and nothing else.
 */
module TagStrings {
  import opened Text

  /** SQL LIKE, with % and _ and no escape character. */
  predicate Like(s: string, p: string)
    decreases |s| + |p|
  {
    if p == "" then s == ""
    else if p[0] == '%' then Like(s, p[1..]) || (s != "" && Like(s[1..], p))
    else s != "" && (p[0] == '_' || s[0] == p[0]) && Like(s[1..], p[1..])
  }

  function Split(s: string): (r: seq<string>)
    ensures |r| >= 1
  {
    if s == "" then [""]
    else
      var r := Split(s[1..]);
      if s[0] == ',' then [""] + r else [[s[0]] + r[0]] + r[1..]
  }

  function Join(ws: seq<string>): string {
    if ws == [] then "" else if |ws| == 1 then ws[0] else ws[0] + "," + Join(ws[1..])
  }

  /** The tags an item shows: none for the empty string. */
  function Words(tags: string): seq<string> { if tags == "" then [] else Split(tags) }

  predicate CommaFree(w: string) { ',' !in w }

  lemma {:induction false} SplitIsCommaFree(s: string)
    ensures forall w :: w in Split(s) ==> CommaFree(w)
  {
    if s != "" {
      SplitIsCommaFree(s[1..]);
      var r := Split(s[1..]);
      forall w | w in Split(s) ensures CommaFree(w) {
        if w !in r && w != "" { assert w == [s[0]] + r[0] && r[0] in r; }
      }
    }
  }

  lemma {:induction false} JoinSplit(s: string)
    ensures Join(Split(s)) == s
  {
    if s != "" {
      var r := Split(s[1..]);
      JoinSplit(s[1..]);
      if s[0] == ',' {
        assert ([""] + r)[1..] == r;
      } else {
        JoinHead([s[0]], r);
      }
    }
  }

  lemma JoinHead(a: string, r: seq<string>)
    requires r != []
    ensures Join([a + r[0]] + r[1..]) == a + Join(r)
  {
  }

  lemma {:induction false} SplitWord(w: string)
    requires CommaFree(w)
    ensures Split(w) == [w]
  {
    if w != "" {
      SplitWord(w[1..]);
      assert [w[0]] + w[1..] == w;
    }
  }

  lemma {:induction false} SplitConcat(w: string, s: string)
    requires CommaFree(w)
    ensures Split(w + "," + s) == [w] + Split(s)
  {
    if w == "" {
      assert (w + "," + s)[1..] == s;
    } else {
      SplitConcat(w[1..], s);
      assert (w + "," + s)[1..] == w[1..] + "," + s;
      assert [w[0]] + w[1..] == w;
    }
  }

  lemma {:induction false} SplitJoin(ws: seq<string>)
    requires ws != [] && forall w :: w in ws ==> CommaFree(w)
    ensures Split(Join(ws)) == ws
  {
    if |ws| == 1 {
      SplitWord(ws[0]);
    } else {
      SplitJoin(ws[1..]);
      SplitConcat(ws[0], Join(ws[1..]));
    }
  }

  lemma {:induction false} JoinNotEmpty(ws: seq<string>)
    requires ws != [] && forall w :: w in ws ==> w != ""
    ensures Join(ws) != ""
  {
    assert ws[0] in ws;
  }

  /** Non-empty comma-free words survive being stored and shown again. */
  lemma WordsJoin(ws: seq<string>)
    requires forall w :: w in ws ==> w != "" && CommaFree(w)
    ensures Words(Join(ws)) == ws
  {
    if ws != [] {
      JoinNotEmpty(ws);
      SplitJoin(ws);
    }
  }

  // ------------------------------------------------------------- where a word stands

  /** t stands at i, between commas or ends of the string. */
  predicate WordAt(s: string, t: string, i: nat) {
    && i + |t| <= |s| && s[i..i + |t|] == t
    && (i == 0 || s[i - 1] == ',')
    && (i + |t| == |s| || s[i + |t|] == ',')
  }

  lemma {:induction false} FirstWordAt(s: string)
    ensures WordAt(s, Split(s)[0], 0)
  {
    if s != "" && s[0] != ',' {
      FirstWordAt(s[1..]);
      var w := Split(s[1..])[0];
      assert s[..1 + |w|] == [s[0]] + s[1..][..|w|];
    }
  }

  lemma {:induction false} WordStands(s: string, t: string)
    requires t in Split(s)[1..]
    ensures exists i :: i > 0 && WordAt(s, t, i)
  {
    if s != "" {
      var r := Split(s[1..]);
      if s[0] == ',' && t == r[0] {
        FirstWordAt(s[1..]);
        assert s[1..1 + |t|] == s[1..][..|t|];
        assert WordAt(s, t, 1);
      } else {
        assert t in r[1..];
        WordStands(s[1..], t);
        var i :| i > 0 && WordAt(s[1..], t, i);
        assert s[i + 1..i + 1 + |t|] == s[1..][i..i + |t|];
        assert WordAt(s, t, i + 1);
      }
    }
  }

  lemma {:induction false} StandingWord(s: string, t: string, i: nat)
    requires CommaFree(t) && WordAt(s, t, i)
    ensures i == 0 ==> t == Split(s)[0]
    ensures i > 0 ==> t in Split(s)[1..]
    decreases |s|
  {
    if s != "" {
      var r := Split(s[1..]);
      if i == 0 {
        if t != "" {
          assert t[0] == s[0];
          assert s[1..][..|t| - 1] == t[1..];
          StandingWord(s[1..], t[1..], 0);
          assert [t[0]] + t[1..] == t;
        }
      } else {
        assert s[1..][i - 1..i - 1 + |t|] == t;
        if i > 1 || s[0] == ',' { StandingWord(s[1..], t, i - 1); }
      }
    }
  }

  lemma SplitMembership(s: string, t: string)
    requires CommaFree(t)
    ensures t in Split(s) <==> exists i :: WordAt(s, t, i)
  {
    var r := Split(s);
    assert r == [r[0]] + r[1..];
    if t in r {
      FirstWordAt(s);
      if t in r[1..] { WordStands(s, t); }
    }
    if i :| WordAt(s, t, i) { StandingWord(s, t, i); }
  }

  // ------------------------------------------------------------------- what LIKE finds

  predicate Literal(w: string) { forall c :: c in w ==> c != '%' && c != '_' }

  lemma {:induction false} LikeAnything(s: string)
    ensures Like(s, "%")
  {
    assert "%"[1..] == "";
    if s != "" { LikeAnything(s[1..]); }
  }

  lemma {:induction false} LikeLiteralThen(s: string, w: string, p: string)
    requires Literal(w)
    ensures Like(s, w + p) <==> w <= s && Like(s[|w|..], p)
  {
    if w == "" {
      assert w + p == p;
    } else {
      assert (w + p)[1..] == w[1..] + p;
      assert w[0] in w && forall c :: c in w[1..] ==> c in w;
      if s != "" {
        LikeLiteralThen(s[1..], w[1..], p);
        assert w <= s <==> s[0] == w[0] && w[1..] <= s[1..];
        if w <= s { assert s[1..][|w| - 1..] == s[|w|..]; }
      }
    }
  }

  lemma {:induction false} LikeAnywhere(s: string, p: string)
    ensures Like(s, "%" + p) <==> exists i :: 0 <= i <= |s| && Like(s[i..], p)
  {
    assert ("%" + p)[1..] == p;
    assert s[0..] == s;
    if s != "" {
      LikeAnywhere(s[1..], p);
      forall i | 0 <= i < |s| ensures s[1..][i..] == s[i + 1..] {}
      if i :| 0 <= i <= |s| && Like(s[i..], p) {
        if i > 0 { assert s[1..][i - 1..] == s[i..]; }
      }
      if i :| 0 <= i <= |s[1..]| && Like(s[1..][i..], p) {
        assert Like(s[i + 1..], p);
      }
    }
  }

  lemma LikePrefix(s: string, w: string)
    requires Literal(w)
    ensures Like(s, w + "%") <==> w <= s
  {
    LikeLiteralThen(s, w, "%");
    if w <= s { LikeAnything(s[|w|..]); }
  }

  predicate HasAt(s: string, w: string, i: int) { 0 <= i && i + |w| <= |s| && s[i..i + |w|] == w }

  lemma LikeInfix(s: string, w: string)
    requires Literal(w)
    ensures Like(s, "%" + w + "%") <==> exists i :: HasAt(s, w, i)
  {
    LikeAnywhere(s, w + "%");
    assert "%" + w + "%" == "%" + (w + "%");
    forall i | 0 <= i <= |s| ensures Like(s[i..], w + "%") <==> HasAt(s, w, i) {
      LikePrefix(s[i..], w);
      if HasAt(s, w, i) || w <= s[i..] { assert s[i..][..|w|] == s[i..i + |w|]; }
    }
  }

  lemma LikeExactly(s: string, w: string)
    requires Literal(w)
    ensures Like(s, w) <==> s == w
  {
    assert w + "" == w;
    LikeLiteralThen(s, w, "");
    if w <= s { assert s == w + s[|w|..]; }
  }

  lemma SuffixAt(s: string, w: string)
    ensures (exists i :: 0 <= i <= |s| && s[i..] == w) <==> HasAt(s, w, |s| - |w|)
  {
    if i :| 0 <= i <= |s| && s[i..] == w { assert s[i..i + |w|] == s[i..]; }
    if HasAt(s, w, |s| - |w|) { assert s[|s| - |w|..] == w; }
  }

  lemma LikeSuffix(s: string, w: string)
    requires Literal(w)
    ensures Like(s, "%" + w) <==> HasAt(s, w, |s| - |w|)
  {
    LikeAnywhere(s, w);
    forall i | 0 <= i <= |s| ensures Like(s[i..], w) <==> s[i..] == w { LikeExactly(s[i..], w); }
    SuffixAt(s, w);
  }

  /** The filter of the item lists. */
  predicate TagFilter(tags: string, tag: string) {
    tags == tag || Like(tags, tag + ",%") || Like(tags, "%," + tag) || Like(tags, "%," + tag + ",%")
  }

  /** The four places the filter looks in. */
  ghost predicate FoundAt(tags: string, tag: string) {
    || tags == tag
    || tag + "," <= tags
    || HasAt(tags, "," + tag, |tags| - |tag| - 1)
    || exists i :: HasAt(tags, "," + tag + ",", i)
  }

  lemma FilterFinds(tags: string, tag: string)
    requires Literal(tag)
    ensures TagFilter(tags, tag) <==> FoundAt(tags, tag)
  {
    assert tag + ",%" == (tag + ",") + "%";
    LikePrefix(tags, tag + ",");
    assert "%," + tag == "%" + ("," + tag);
    LikeSuffix(tags, "," + tag);
    assert "%," + tag + ",%" == "%" + ("," + tag + ",") + "%";
    LikeInfix(tags, "," + tag + ",");
  }

  /** For a tag without commas and wildcards, the filter holds exactly of the strings that
      have it as one of their words: "web" does not find "webgl". */
  lemma FilterFindsWholeWords(tags: string, tag: string)
    requires CommaFree(tag) && Literal(tag)
    ensures TagFilter(tags, tag) <==> tag in Split(tags)
  {
    FilterFinds(tags, tag);
    SplitMembership(tags, tag);
    if FoundAt(tags, tag) { FilterHasWord(tags, tag); }
    if i: nat :| WordAt(tags, tag, i) { WordPassesFilter(tags, tag, i); }
  }

  lemma FilterHasWord(tags: string, tag: string)
    requires FoundAt(tags, tag)
    ensures exists i :: WordAt(tags, tag, i)
  {
    if tags == tag || tag + "," <= tags {
      assert tag + "," <= tags ==> tags[|tag|] == (tag + ",")[|tag|];
      assert WordAt(tags, tag, 0);
    } else if HasAt(tags, "," + tag, |tags| - |tag| - 1) {
      var i := |tags| - |tag|;
      assert tags[i - 1..|tags|] == "," + tag;
      assert tags[i..i + |tag|] == tags[i - 1..|tags|][1..];
      assert WordAt(tags, tag, i);
    } else {
      var i :| HasAt(tags, "," + tag + ",", i);
      var part := tags[i..i + |tag| + 2];
      assert part == "," + tag + ",";
      assert part[0] == ',' && part[|tag| + 1] == ',' && forall k :: 0 <= k < |tag| ==> part[1 + k] == tag[k];
      forall k | 0 <= k < |tag| ensures tags[i + 1 + k] == tag[k] { assert part[1 + k] == tags[i + 1 + k]; }
      assert tags[i + 1..i + 1 + |tag|] == tag;
      assert tags[i] == part[0] && tags[i + 1 + |tag|] == part[|tag| + 1];
      assert WordAt(tags, tag, i + 1);
    }
  }

  lemma WordPassesFilter(tags: string, tag: string, i: nat)
    requires WordAt(tags, tag, i)
    ensures FoundAt(tags, tag)
  {
    if i == 0 {
      if |tag| < |tags| { assert tags[..|tag| + 1] == tag + ","; }
    } else if i + |tag| == |tags| {
      assert tags[i - 1..i + |tag|] == "," + tag;
      assert HasAt(tags, "," + tag, i - 1);
    } else {
      assert tags[i - 1..i + |tag| + 1] == "," + tag + ",";
      assert HasAt(tags, "," + tag + ",", i - 1);
    }
  }

  // --------------------------------------------------------------------- the prefilter

  /** A pattern matches its own text whatever wildcards it holds. */
  lemma {:induction false} LikeItself(w: string, b: string)
    ensures Like(w + b, w + "%")
  {
    if w == "" {
      assert w + b == b && w + "%" == "%";
      LikeAnything(b);
    } else {
      LikeItself(w[1..], b);
      assert (w + b)[1..] == w[1..] + b && (w + "%")[1..] == w[1..] + "%";
    }
  }

  lemma TrimInside(p: string)
    ensures exists a: string, b: string :: p == a + Trim(p) + b
  {
    LeftInside(p);
    var a := p[..|p| - |TrimLeft(p)|];
    TrimRightEnds(TrimLeft(p));
    var t := Trim(p);
    var b := TrimLeft(p)[|t|..];
    assert p == a + t + b;
  }

  lemma {:induction false} LeftInside(p: string)
    ensures |TrimLeft(p)| <= |p| && TrimLeft(p) == p[|p| - |TrimLeft(p)|..]
  {
    if p != "" && IsSpace(p[0]) { LeftInside(p[1..]); }
  }

  lemma InfixMatches(a: string, w: string, b: string)
    ensures Like(a + w + b, "%" + w + "%")
  {
    var s := a + w + b;
    assert s[|a|..] == w + b;
    LikeItself(w, b);
    LikeAnywhere(s, w + "%");
    assert "%" + w + "%" == "%" + (w + "%");
  }

  lemma WordInside(s: string, p: string)
    requires p in Split(s)
    ensures exists a: string, b: string :: s == a + p + b
  {
    SplitIsCommaFree(s);
    SplitMembership(s, p);
    var i: nat :| WordAt(s, p, i);
    assert s == s[..i] + p + s[i + |p|..];
  }

  /** The candidate query of rename and removal misses no row that holds the name as a word,
      for any name at all; wildcards in it only widen the search. */
  lemma PrefilterMissesNothing(tags: string, p: string)
    requires p in Split(tags)
    ensures Like(tags, "%" + Trim(p) + "%")
  {
    WordInside(tags, p);
    var a: string, b: string :| tags == a + p + b;
    TrimInside(p);
    var c: string, d: string :| p == c + Trim(p) + d;
    assert tags == (a + c) + Trim(p) + (d + b);
    InfixMatches(a + c, Trim(p), d + b);
  }
}
