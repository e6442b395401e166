/**
 * Python's no-argument `str.split()`, and the fact that `normalize`
 * (backend/app.py:130-131) agrees with the familiar `" ".join(s.split())`.
 */
module Whitespace {
  import opened Text

  /** The pieces that are not empty, in order. */
  function NonEmpty(pieces: seq<string>): (r: seq<string>)
    ensures forall w :: w in r ==> w != [] && w in pieces
  {
    if pieces == [] then []
    else
      assert pieces == [pieces[0]] + pieces[1..];
      (if pieces[0] == [] then [] else [pieces[0]]) + NonEmpty(pieces[1..])
  }

  lemma {:induction false} NonEmptyAppend(a: seq<string>, b: seq<string>)
    ensures NonEmpty(a + b) == NonEmpty(a) + NonEmpty(b)
  {
    if a != [] {
      var ab := a + b;
      assert ab[0] == a[0] && ab[1..] == a[1..] + b;
      NonEmptyAppend(a[1..], b);
      var head := if a[0] == [] then [] else [a[0]];
      assert NonEmpty(ab) == head + NonEmpty(ab[1..]);
      assert NonEmpty(a) == head + NonEmpty(a[1..]);
    } else {
      assert a + b == b;
    }
  }

  /** `s.split()`: the maximal runs of non-whitespace characters, in order. */
  function Words(s: string): (r: seq<string>)
    ensures forall w :: w in r ==> w != [] && forall c :: c in w ==> !IsSpace(c)
  {
    NonEmpty(Split(s, IsSpace))
  }

  /** A separator at the end of the input closes the last piece and opens an empty one. */
  lemma {:induction false} SplitSeparatorEnd(a: string, c: char, isSep: char -> bool)
    requires isSep(c)
    ensures Split(a + [c], isSep) == Split(a, isSep) + [[]]
  {
    var ac := a + [c];
    if a == [] {
      assert ac == [c] && ac[1..] == [];
    } else {
      assert ac[0] == a[0] && ac[1..] == a[1..] + [c];
      SplitSeparatorEnd(a[1..], c, isSep);
      var rest := Split(a[1..], isSep);
      assert Split(ac[1..], isSep) == rest + [[]];
      if !isSep(a[0]) {
        assert (rest + [[]])[0] == rest[0];
        assert (rest + [[]])[1..] == rest[1..] + [[]];
      }
    }
  }

  lemma WordsSpaceHead(s: string)
    requires s != [] && IsSpace(s[0])
    ensures Words(s) == Words(s[1..])
  {
    var rest := Split(s[1..], IsSpace);
    assert Split(s, IsSpace) == [[]] + rest;
    assert ([[]] + rest)[1..] == rest;
  }

  /** A visible first character either forms a word of its own or joins the first word of the rest. */
  lemma WordsVisibleHead(s: string)
    requires s != [] && !IsSpace(s[0])
    ensures var u := s[1..];
            if u == [] || IsSpace(u[0]) then Words(s) == [[s[0]]] + Words(u)
            else Words(u) != [] && Words(s) == [[s[0]] + Words(u)[0]] + Words(u)[1..]
  {
    var u := s[1..];
    var sp := Split(u, IsSpace);
    var first := [s[0]] + sp[0];
    assert Split(s, IsSpace) == [first] + sp[1..];
    assert ([first] + sp[1..])[1..] == sp[1..];
    assert Words(s) == [first] + NonEmpty(sp[1..]);
    assert sp == [sp[0]] + sp[1..];
    assert NonEmpty(sp) == (if sp[0] == [] then [] else [sp[0]]) + NonEmpty(sp[1..]);
    if u == [] {
      assert sp == [[]];
      assert first == [s[0]];
      WordsOfEmpty();
    } else if IsSpace(u[0]) {
      assert sp == [[]] + Split(u[1..], IsSpace);
      assert first == [s[0]];
    } else {
      assert sp[0] != [];
    }
  }

  /** There are no words exactly when every character is whitespace. */
  lemma {:induction false} NoWordsAllSpace(s: string)
    ensures Words(s) == [] <==> forall i :: 0 <= i < |s| ==> IsSpace(s[i])
  {
    if s == [] {
      WordsOfEmpty();
    } else if IsSpace(s[0]) {
      WordsSpaceHead(s);
      NoWordsAllSpace(s[1..]);
      assert forall i :: 1 <= i < |s| ==> s[i] == s[1..][i - 1];
    } else {
      WordsVisibleHead(s);
    }
  }

  lemma WordsOfEmpty()
    ensures Words([]) == []
  {
    var none: seq<string> := [[]];
    assert Split([], IsSpace) == none;
    assert none[1..] == [];
    assert NonEmpty(none) == [] + NonEmpty([]);
  }

  lemma {:induction false} WordsTrimStart(s: string)
    ensures Words(TrimStart(s, IsSpace)) == Words(s)
  {
    if |s| > 0 && IsSpace(s[0]) {
      WordsTrimStart(s[1..]);
      WordsSpaceHead(s);
    }
  }

  lemma {:induction false} WordsTrimEnd(s: string)
    ensures Words(TrimEnd(s, IsSpace)) == Words(s)
  {
    if |s| > 0 && IsSpace(s[|s| - 1]) {
      var init := s[..|s| - 1];
      WordsTrimEnd(init);
      assert s == init + [s[|s| - 1]];
      SplitSeparatorEnd(init, s[|s| - 1], IsSpace);
      NonEmptyAppend(Split(init, IsSpace), [[]]);
      assert NonEmpty([[]]) == [];
    }
  }

  /** Stripping only removes whitespace at the ends, which belongs to no word. */
  lemma WordsStrip(s: string)
    ensures Words(Strip(s)) == Words(s)
  {
    WordsTrimStart(s);
    WordsTrimEnd(TrimStart(s, IsSpace));
  }

  lemma JoinGlue(sep: string, c: char, parts: seq<string>)
    requires parts != []
    ensures Join(sep, [[c] + parts[0]] + parts[1..]) == [c] + Join(sep, parts)
  {
    var q := [[c] + parts[0]] + parts[1..];
    if |parts| > 1 {
      assert q[1..] == parts[1..];
      var tail := Join(sep, parts[1..]);
      assert Join(sep, q) == ([c] + parts[0]) + sep + tail;
      assert ([c] + parts[0]) + sep + tail == [c] + (parts[0] + sep + tail);
    }
  }

  lemma JoinCons(sep: string, first: string, parts: seq<string>)
    requires parts != []
    ensures Join(sep, [first] + parts) == first + sep + Join(sep, parts)
  {
    assert ([first] + parts)[1..] == parts;
  }

  /** A single space if `s` starts with whitespace. */
  function LeadingSpace(s: string): string {
    if s != [] && IsSpace(s[0]) then [' '] else []
  }

  /** A single space if `s` ends with whitespace that follows a word. */
  function TrailingSpace(s: string): string {
    if s != [] && IsSpace(s[|s| - 1]) && Words(s) != [] then [' '] else []
  }

  /** Collapsing whitespace runs leaves the words joined by single spaces, plus one space for each whitespace end. */
  predicate CollapsesToWords(s: string) {
    CollapseSpaces(s) == LeadingSpace(s) + Join(" ", Words(s)) + TrailingSpace(s)
  }

  lemma {:induction false} CollapseWords(s: string)
    ensures CollapsesToWords(s)
    decreases |s|
  {
    if s == [] {
      WordsOfEmpty();
    } else if IsSpace(s[0]) {
      var t := TrimStart(s, IsSpace);
      assert |t| < |s|;
      CollapseWords(t);
      CollapseHead(s);
      SpaceHeadEnds(s, t);
      GlueAfterSpace(CollapseSpaces(s), CollapseSpaces(t), [' '],
        LeadingSpace(s), Join(" ", Words(s)), TrailingSpace(s),
        LeadingSpace(t), Join(" ", Words(t)), TrailingSpace(t));
    } else {
      var u := s[1..];
      CollapseWords(u);
      CollapseHead(s);
      if u == [] {
        VisibleLast(s);
        GlueBeforeBlank(CollapseSpaces(s), CollapseSpaces(u), [s[0]], [],
          LeadingSpace(s), Join(" ", Words(s)), TrailingSpace(s),
          LeadingSpace(u), Join(" ", Words(u)), TrailingSpace(u));
      } else if !IsSpace(u[0]) {
        VisibleInsideWord(s);
        GlueInsideWord(CollapseSpaces(s), CollapseSpaces(u), [s[0]], [],
          LeadingSpace(s), Join(" ", Words(s)), TrailingSpace(s),
          LeadingSpace(u), Join(" ", Words(u)), TrailingSpace(u));
      } else if Words(u) == [] {
        VisibleBeforeBlank(s);
        GlueBeforeBlank(CollapseSpaces(s), CollapseSpaces(u), [s[0]], [' '],
          LeadingSpace(s), Join(" ", Words(s)), TrailingSpace(s),
          LeadingSpace(u), Join(" ", Words(u)), TrailingSpace(u));
      } else {
        VisibleBeforeSpace(s);
        GlueInsideWord(CollapseSpaces(s), CollapseSpaces(u), [s[0]], " ",
          LeadingSpace(s), Join(" ", Words(s)), TrailingSpace(s),
          LeadingSpace(u), Join(" ", Words(u)), TrailingSpace(u));
      }
    }
  }

  /** The ends and words of `s` and of `s` without its leading whitespace, compared. */
  lemma SpaceHeadEnds(s: string, t: string)
    requires s != [] && IsSpace(s[0]) && t == TrimStart(s, IsSpace)
    ensures LeadingSpace(s) == [' '] && LeadingSpace(t) == []
    ensures Join(" ", Words(t)) == Join(" ", Words(s)) && TrailingSpace(t) == TrailingSpace(s)
  {
    WordsTrimStart(s);
    if t == [] {
      WordsOfEmpty();
    } else {
      assert t[|t| - 1] == s[|s| - 1];
    }
  }

  /** A visible last character is a word of its own. */
  lemma VisibleLast(s: string)
    requires |s| == 1 && !IsSpace(s[0])
    ensures LeadingSpace(s) == [] && Join(" ", Words(s)) == [s[0]] && TrailingSpace(s) == []
    ensures LeadingSpace(s[1..]) == [] && Join(" ", Words(s[1..])) == [] && TrailingSpace(s[1..]) == []
  {
    WordsVisibleHead(s);
    WordsOfEmpty();
    assert Words(s) == [[s[0]]];
  }

  /** A visible character before a visible one joins the first word of the rest. */
  lemma VisibleInsideWord(s: string)
    requires |s| > 1 && !IsSpace(s[0]) && !IsSpace(s[1])
    ensures LeadingSpace(s) == [] && LeadingSpace(s[1..]) == []
    ensures Join(" ", Words(s)) == [s[0]] + [] + Join(" ", Words(s[1..]))
    ensures TrailingSpace(s) == TrailingSpace(s[1..])
  {
    var u := s[1..];
    WordsVisibleHead(s);
    assert s[|s| - 1] == u[|u| - 1];
    JoinGlue(" ", s[0], Words(u));
  }

  /** A visible character followed only by whitespace: one word, then one trailing space. */
  lemma VisibleBeforeBlank(s: string)
    requires |s| > 1 && !IsSpace(s[0]) && IsSpace(s[1]) && Words(s[1..]) == []
    ensures LeadingSpace(s) == [] && Join(" ", Words(s)) == [s[0]] && TrailingSpace(s) == [' ']
    ensures LeadingSpace(s[1..]) == [' '] && Join(" ", Words(s[1..])) == [] && TrailingSpace(s[1..]) == []
  {
    var u := s[1..];
    WordsVisibleHead(s);
    NoWordsAllSpace(u);
    assert s[|s| - 1] == u[|u| - 1];
    assert Words(s) == [[s[0]]];
  }

  /** A visible character before whitespace and more words: a word of its own, then a space. */
  lemma VisibleBeforeSpace(s: string)
    requires |s| > 1 && !IsSpace(s[0]) && IsSpace(s[1]) && Words(s[1..]) != []
    ensures LeadingSpace(s) == [] && LeadingSpace(s[1..]) == " "
    ensures Join(" ", Words(s)) == [s[0]] + " " + Join(" ", Words(s[1..]))
    ensures TrailingSpace(s) == TrailingSpace(s[1..])
  {
    var u := s[1..];
    WordsVisibleHead(s);
    assert s[|s| - 1] == u[|u| - 1];
    JoinCons(" ", [s[0]], Words(u));
  }

  // The three ways a collapse step closes, stated on plain strings.

  lemma GlueAfterSpace(c: string, cu: string, h: string,
                       ls: string, js: string, ts: string, lu: string, ju: string, tu: string)
    requires c == h + cu && cu == lu + ju + tu
    requires ls == h && lu == [] && ju == js && tu == ts
    ensures c == ls + js + ts
  {
    assert [] + ju == ju;
  }

  lemma GlueInsideWord(c: string, cu: string, h: string, gap: string,
                       ls: string, js: string, ts: string, lu: string, ju: string, tu: string)
    requires c == h + cu && cu == lu + ju + tu
    requires ls == [] && lu == gap && js == h + gap + ju && ts == tu
    ensures c == ls + js + ts
  {
    assert [] + js == js;
  }

  lemma GlueBeforeBlank(c: string, cu: string, h: string, gap: string,
                        ls: string, js: string, ts: string, lu: string, ju: string, tu: string)
    requires c == h + cu && cu == lu + ju + tu
    requires ls == [] && js == h && ts == gap && lu == gap && ju == [] && tu == []
    ensures c == ls + js + ts
  {
    assert [] + js == js && lu + [] == lu;
  }

  /** `normalize(s)` is `" ".join(s.split())`: the words of `s`, in order, separated by single spaces. */
  lemma NormalizeJoinsWords(s: string)
    ensures Normalize(s) == Join(" ", Words(s))
  {
    var st := Strip(s);
    CollapseWords(st);
    WordsStrip(s);
  }
}
