/** `lines_from_text` (backend/app.py:134-135) and the heading/name clean-up shared by the parser. */
module Lines {
  import opened Text

  predicate LineFree(s: string) {
    forall c :: c in s ==> !IsLineBreak(c)
  }

  /** A line as `lines_from_text` yields it: non-empty, stripped, without a line break. */
  predicate CleanLine(l: string) {
    l != [] && Stripped(l, IsSpace) && LineFree(l)
  }

  /** Strips every piece and drops the blank ones. */
  function StripNonBlank(pieces: seq<string>): (r: seq<string>)
    ensures forall l :: l in r ==> l != [] && Stripped(l, IsSpace)
    ensures forall l :: l in r <==> l != [] && exists p :: p in pieces && Strip(p) == l
    ensures (forall p :: p in pieces ==> LineFree(p)) ==> forall l :: l in r ==> CleanLine(l)
    ensures |r| <= |pieces|
  {
    if pieces == [] then []
    else
      assert pieces == [pieces[0]] + pieces[1..];
      var l := Strip(pieces[0]);
      assert LineFree(pieces[0]) ==> LineFree(l);
      (if l == [] then [] else [l]) + StripNonBlank(pieces[1..])
  }

  /** Pieces are handled one at a time: the kept lines keep the order and the repeats of the pieces. */
  lemma {:induction false} StripNonBlankAppend(a: seq<string>, b: seq<string>)
    ensures StripNonBlank(a + b) == StripNonBlank(a) + StripNonBlank(b)
  {
    if a != [] {
      var ab := a + b;
      assert ab[0] == a[0] && ab[1..] == a[1..] + b;
      StripNonBlankAppend(a[1..], b);
      var l := Strip(a[0]);
      assert StripNonBlank(ab) == (if l == [] then [] else [l]) + StripNonBlank(ab[1..]);
      assert StripNonBlank(a) == (if l == [] then [] else [l]) + StripNonBlank(a[1..]);
    } else {
      assert a + b == b;
    }
  }

  /** `[l.strip() for l in text.splitlines() if l.strip()]`. */
  function LinesFromText(text: string): (r: seq<string>)
    ensures forall l :: l in r ==> CleanLine(l) && Strip(l) == l
    ensures forall l :: l in r <==> l != [] && exists p :: p in Split(text, IsLineBreak) && Strip(p) == l
  {
    var pieces := Split(text, IsLineBreak);
    assert forall p :: p in pieces ==> LineFree(p);
    var r := StripNonBlank(pieces);
    assert forall l :: l in r ==> Strip(l) == l by {
      forall l | l in r ensures Strip(l) == l {
        StripByFixed(l, IsSpace);
      }
    }
    r
  }

  lemma {:induction false} StripNonBlankClean(ls: seq<string>)
    requires forall l :: l in ls ==> CleanLine(l)
    ensures StripNonBlank(ls) == ls
  {
    if ls != [] {
      assert ls[0] in ls;
      StripByFixed(ls[0], IsSpace);
      StripNonBlankClean(ls[1..]);
      assert ls == [ls[0]] + ls[1..];
    }
  }

  /** Joining clean lines with newlines and splitting them again gives the same lines back. */
  lemma LinesRoundTrip(ls: seq<string>)
    requires forall l :: l in ls ==> CleanLine(l)
    ensures LinesFromText(Join("\n", ls)) == ls
  {
    if ls == [] {
      assert Split([], IsLineBreak) == [[]];
    } else {
      assert forall p, c :: p in ls && c in p ==> !IsLineBreak(c) by {
        forall p, c | p in ls && c in p ensures !IsLineBreak(c) {
          assert LineFree(p);
        }
      }
      SplitJoin(ls, '\n', IsLineBreak);
      StripNonBlankClean(ls);
    }
  }

  /** The decoration characters `":-•* "` stripped from headings and name candidates. */
  predicate IsDecoration(c: char) {
    c == ':' || c == '-' || c == '\U{2022}' || c == '*' || c == ' '
  }

  /** `line.lower().strip(":-•* ").strip()`. */
  function Bare(line: string): (r: string)
    ensures Stripped(r, IsSpace)
    ensures |r| <= |line|
  {
    Strip(StripBy(Lower(line), IsDecoration))
  }
}
