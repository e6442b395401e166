/**
 * Character classes and the string primitives the resume parser builds on:
 * Python's `str.isspace`, `str.splitlines`, `str.lower`, `str.strip`, the
 * `\s+` collapse of `normalize`, `str.split` on a character class and
 * `str.join`.
 */
module Text {

  /** Python's `str.isspace`; `\s` in a `str` pattern and `str.strip()` use the same set. */
  predicate IsSpace(c: char) {
    || c == ' '
    || ('\t' <= c <= '\r')
    || ('\U{1C}' <= c <= '\U{1F}')
    || c == '\U{85}' || c == '\U{A0}' || c == '\U{1680}'
    || ('\U{2000}' <= c <= '\U{200A}')
    || c == '\U{2028}' || c == '\U{2029}' || c == '\U{202F}' || c == '\U{205F}' || c == '\U{3000}'
  }

  /** The line boundaries recognised by Python's `str.splitlines`; all of them are whitespace. */
  predicate IsLineBreak(c: char) {
    || ('\n' <= c <= '\r')
    || ('\U{1C}' <= c <= '\U{1E}')
    || c == '\U{85}' || c == '\U{2028}' || c == '\U{2029}'
  }

  /** Decimal digits (ASCII only; see README). */
  predicate IsDigit(c: char) {
    '0' <= c <= '9'
  }

  /** Lower-casing of one character: ASCII and the Latin-1 capitals. */
  function LowerChar(c: char): char {
    if 'A' <= c <= 'Z' || ('\U{C0}' <= c <= '\U{DE}' && c != '\U{D7}') then (c as int + 32) as char else c
  }

  /** Python's `str.lower`, character by character. */
  function Lower(s: string): (r: string)
    ensures |r| == |s|
    ensures forall i :: 0 <= i < |s| ==> r[i] == LowerChar(s[i])
  {
    seq(|s|, i requires 0 <= i < |s| => LowerChar(s[i]))
  }

  /** Two strings differing (after lowering) at one position differ after lowering. */
  lemma LowerDiffers(a: string, b: string, i: nat)
    requires i < |a| && i < |b| && LowerChar(a[i]) != LowerChar(b[i])
    ensures Lower(a) != Lower(b)
  {
    assert Lower(a)[i] != Lower(b)[i];
  }

  /** Strings of different lengths differ after lowering. */
  lemma LowerLengthDiffers(a: string, b: string)
    requires |a| != |b|
    ensures Lower(a) != Lower(b)
  {
  }

  // ---------------------------------------------------------------- stripping

  /** Drops the leading characters satisfying `drop`. */
  function TrimStart(s: string, drop: char -> bool): (r: string)
    ensures |r| <= |s| && r == s[|s| - |r|..]
    ensures r == [] || !drop(r[0])
    ensures forall i :: 0 <= i < |s| - |r| ==> drop(s[i])
  {
    if |s| > 0 && drop(s[0]) then
      var r := TrimStart(s[1..], drop);
      assert forall i :: 1 <= i < |s| ==> s[i] == s[1..][i - 1];
      r
    else s
  }

  /** Drops the trailing characters satisfying `drop`. */
  function TrimEnd(s: string, drop: char -> bool): (r: string)
    ensures |r| <= |s| && r == s[..|r|]
    ensures r == [] || !drop(r[|r| - 1])
    ensures forall i :: |r| <= i < |s| ==> drop(s[i])
  {
    if |s| > 0 && drop(s[|s| - 1]) then
      var r := TrimEnd(s[..|s| - 1], drop);
      assert forall i :: 0 <= i < |s| - 1 ==> s[i] == s[..|s| - 1][i];
      r
    else s
  }

  /** Neither end of `s` is a character `drop` removes. */
  predicate Stripped(s: string, drop: char -> bool) {
    s == [] || (!drop(s[0]) && !drop(s[|s| - 1]))
  }

  /** Python's `s.strip(chars)` for the character class `drop`. */
  function StripBy(s: string, drop: char -> bool): (r: string)
    ensures Stripped(r, drop)
    ensures r == [] <==> forall i :: 0 <= i < |s| ==> drop(s[i])
    ensures forall c :: c in r ==> c in s
  {
    var t := TrimStart(s, drop);
    var r := TrimEnd(t, drop);
    assert r == s[|s| - |t|..|s| - |t| + |r|];
    assert forall c :: c in r ==> c in t;
    r
  }

  /**
   * What `strip` removes: the result is one contiguous slice of the input,
   * and everything before and after it is removable. Together with
   * `Stripped` this says it is the longest such slice.
   */
  lemma StripBySlice(s: string, drop: char -> bool)
    ensures var r := StripBy(s, drop);
            exists i, j :: 0 <= i <= j <= |s| && r == s[i..j]
              && (forall k :: 0 <= k < i ==> drop(s[k]))
              && (forall k :: j <= k < |s| ==> drop(s[k]))
  {
    var t := TrimStart(s, drop);
    var r := TrimEnd(t, drop);
    var i := |s| - |t|;
    SliceCompose(s, t, r, i, drop);
    SliceWitness(s, drop, i, i + |r|, r);
  }

  /** A trimmed prefix of a suffix is a slice, followed by what the trim removed. */
  lemma SliceCompose(s: string, t: string, r: string, i: nat, drop: char -> bool)
    requires i <= |s| && t == s[i..] && |r| <= |t| && r == t[..|r|]
    requires forall k :: |r| <= k < |t| ==> drop(t[k])
    ensures r == s[i..i + |r|]
    ensures forall k :: i + |r| <= k < |s| ==> drop(s[k])
  {
    forall k | i + |r| <= k < |s| ensures drop(s[k]) {
      assert s[k] == t[k - i];
    }
  }

  lemma SliceWitness(s: string, drop: char -> bool, i: nat, j: nat, r: string)
    requires i <= j <= |s| && r == s[i..j]
    requires forall k :: 0 <= k < i ==> drop(s[k])
    requires forall k :: j <= k < |s| ==> drop(s[k])
    ensures exists i, j :: 0 <= i <= j <= |s| && r == s[i..j]
              && (forall k :: 0 <= k < i ==> drop(s[k]))
              && (forall k :: j <= k < |s| ==> drop(s[k]))
  {
  }

  /** Stripping a string with no removable end changes nothing. */
  lemma StripByFixed(s: string, drop: char -> bool)
    requires Stripped(s, drop)
    ensures StripBy(s, drop) == s
  {
  }

  /** Python's `str.strip()` with no argument. */
  function Strip(s: string): string {
    StripBy(s, IsSpace)
  }

  // ------------------------------------------------------------- normalizing

  /** The non-whitespace characters of `s`, in order. */
  function Visible(s: string): string {
    if s == [] then [] else (if IsSpace(s[0]) then [] else [s[0]]) + Visible(s[1..])
  }

  lemma {:induction false} VisibleAppend(a: string, b: string)
    ensures Visible(a + b) == Visible(a) + Visible(b)
  {
    if a == [] {
      assert a + b == b;
    } else {
      var head := if IsSpace(a[0]) then [] else [a[0]];
      assert (a + b)[0] == a[0];
      assert (a + b)[1..] == a[1..] + b;
      VisibleAppend(a[1..], b);
      calc {
        Visible(a + b);
        head + Visible(a[1..] + b);
        head + (Visible(a[1..]) + Visible(b));
        (head + Visible(a[1..])) + Visible(b);
        Visible(a) + Visible(b);
      }
    }
  }

  /** Whitespace contributes nothing to `Visible`. */
  lemma {:induction false} VisibleOfSpaces(s: string)
    requires forall i :: 0 <= i < |s| ==> IsSpace(s[i])
    ensures Visible(s) == []
  {
    if s != [] {
      VisibleOfSpaces(s[1..]);
    }
  }

  lemma {:induction false} VisibleTrimStart(s: string)
    ensures Visible(TrimStart(s, IsSpace)) == Visible(s)
  {
    if |s| > 0 && IsSpace(s[0]) {
      VisibleTrimStart(s[1..]);
    }
  }

  lemma {:induction false} VisibleTrimEnd(s: string)
    ensures Visible(TrimEnd(s, IsSpace)) == Visible(s)
  {
    if |s| > 0 && IsSpace(s[|s| - 1]) {
      var init := s[..|s| - 1];
      VisibleTrimEnd(init);
      assert s == init + [s[|s| - 1]];
      VisibleAppend(init, [s[|s| - 1]]);
      assert Visible([s[|s| - 1]]) == [];
    }
  }

  lemma VisibleStrip(s: string)
    ensures Visible(Strip(s)) == Visible(s)
  {
    VisibleTrimStart(s);
    VisibleTrimEnd(TrimStart(s, IsSpace));
  }

  /** `Visible(s)` holds exactly the non-whitespace characters of `s`. */
  lemma {:induction false} VisibleMembers(s: string)
    ensures forall c :: c in Visible(s) <==> c in s && !IsSpace(c)
  {
    if s != [] {
      VisibleMembers(s[1..]);
      assert s == [s[0]] + s[1..];
    }
  }

  /** Every whitespace character is a plain space and no two whitespace characters are adjacent. */
  predicate SingleSpaced(s: string) {
    forall i :: 0 <= i < |s| && IsSpace(s[i]) ==> s[i] == ' ' && (i + 1 < |s| ==> !IsSpace(s[i + 1]))
  }

  /** The text `normalize` produces: single-spaced, no whitespace at either end. */
  predicate Normalized(s: string) {
    SingleSpaced(s) && Stripped(s, IsSpace)
  }

  /** Python's `re.sub(r"\s+", " ", s)`: every maximal whitespace run becomes one space. */
  function CollapseSpaces(s: string): (r: string)
    ensures |r| == 0 <==> |s| == 0
    ensures |r| > 0 ==> (IsSpace(r[0]) <==> IsSpace(s[0]))
    ensures |r| > 0 ==> (IsSpace(r[|r| - 1]) <==> IsSpace(s[|s| - 1]))
    ensures SingleSpaced(r)
    decreases |s|
  {
    if s == [] then []
    else if IsSpace(s[0]) then
      var t := TrimStart(s, IsSpace);
      assert |t| < |s|;
      var rest := CollapseSpaces(t);
      var r := [' '] + rest;
      assert r[1..] == rest;
      assert forall i :: 1 <= i < |r| ==> r[i] == rest[i - 1];
      r
    else
      var rest := CollapseSpaces(s[1..]);
      var r := [s[0]] + rest;
      assert r[1..] == rest;
      assert forall i :: 1 <= i < |r| ==> r[i] == rest[i - 1];
      r
  }

  /** Collapsing keeps every visible character, in order. */
  lemma {:induction false} CollapseVisible(s: string)
    ensures Visible(CollapseSpaces(s)) == Visible(s)
    decreases |s|
  {
    if s != [] {
      if IsSpace(s[0]) {
        var t := TrimStart(s, IsSpace);
        VisibleTrimStart(s);
        CollapseVisible(t);
        assert ([' '] + CollapseSpaces(t))[1..] == CollapseSpaces(t);
      } else {
        CollapseVisible(s[1..]);
        assert ([s[0]] + CollapseSpaces(s[1..]))[1..] == CollapseSpaces(s[1..]);
      }
    }
  }

  /** A single-spaced string has no runs to collapse. */
  lemma {:induction false} CollapseFixed(s: string)
    requires SingleSpaced(s)
    ensures CollapseSpaces(s) == s
  {
    if s != [] {
      var tail := s[1..];
      SingleSpacedTail(s);
      CollapseFixed(tail);
      CollapseHead(s);
      assert s == [s[0]] + tail;
      if IsSpace(s[0]) {
        TrimOneSpace(s);
        assert [s[0]] == [' '];
        Rebuilt(CollapseSpaces(s), [' '], CollapseSpaces(TrimStart(s, IsSpace)), tail, s);
      } else {
        Rebuilt(CollapseSpaces(s), [s[0]], CollapseSpaces(tail), tail, s);
      }
    }
  }

  lemma Rebuilt(c: string, head: string, rest: string, tail: string, s: string)
    requires c == head + rest && rest == tail && s == head + tail
    ensures c == s
  {
  }

  /** One step of the collapse. */
  lemma CollapseHead(s: string)
    requires s != []
    ensures CollapseSpaces(s) == if IsSpace(s[0]) then [' '] + CollapseSpaces(TrimStart(s, IsSpace)) else [s[0]] + CollapseSpaces(s[1..])
  {
  }

  lemma SingleSpacedTail(s: string)
    requires s != [] && SingleSpaced(s)
    ensures SingleSpaced(s[1..])
  {
    var tail := s[1..];
    forall i | 0 <= i < |tail| && IsSpace(tail[i])
      ensures tail[i] == ' ' && (i + 1 < |tail| ==> !IsSpace(tail[i + 1]))
    {
      assert tail[i] == s[i + 1];
    }
  }

  /** In a single-spaced string a leading space stands alone. */
  lemma TrimOneSpace(s: string)
    requires s != [] && SingleSpaced(s) && IsSpace(s[0])
    ensures s[0] == ' ' && TrimStart(s, IsSpace) == s[1..]
  {
    var tail := s[1..];
    assert tail == [] || !IsSpace(tail[0]);
    assert TrimStart(tail, IsSpace) == tail;
  }

  /** `normalize` (backend/app.py:130-131): strip, then collapse whitespace runs to one space. */
  function Normalize(s: string): (r: string)
    ensures Normalized(r)
    ensures Visible(r) == Visible(s)
  {
    VisibleStrip(s);
    CollapseVisible(Strip(s));
    CollapseSpaces(Strip(s))
  }

  /** `Normalize` introduces no character except the plain space. */
  lemma NormalizeChars(s: string)
    ensures forall c :: c in Normalize(s) ==> c == ' ' || c in s
  {
    var r := Normalize(s);
    VisibleMembers(r);
    VisibleMembers(s);
    forall c | c in r ensures c == ' ' || c in s {
      var i :| 0 <= i < |r| && r[i] == c;
    }
  }

  /** A string `Normalize` could have produced is its own normal form. */
  lemma NormalizeFixed(s: string)
    requires Normalized(s)
    ensures Normalize(s) == s
  {
    StripByFixed(s, IsSpace);
    CollapseFixed(s);
  }

  /** `normalize` is idempotent. */
  lemma NormalizeIdempotent(s: string)
    ensures Normalize(Normalize(s)) == Normalize(s)
  {
    NormalizeFixed(Normalize(s));
  }

  /** A string with a visible character normalizes to a non-empty string. */
  lemma NormalizeNonEmpty(s: string, i: nat)
    requires i < |s| && !IsSpace(s[i])
    ensures Normalize(s) != []
  {
    assert s == s[..i] + [s[i]] + s[i + 1..];
    VisibleAppend(s[..i] + [s[i]], s[i + 1..]);
    VisibleAppend(s[..i], [s[i]]);
  }

  // -------------------------------------------------- searching, splitting, joining

  predicate StartsWith(s: string, prefix: string) {
    |prefix| <= |s| && s[..|prefix|] == prefix
  }

  /** Python's `sub in s`. */
  predicate Contains(s: string, sub: string)
    decreases |s|
  {
    StartsWith(s, sub) || (|s| > 0 && Contains(s[1..], sub))
  }

  /**
   * Splits `s` at every character satisfying `isSep`; adjacent separators
   * give empty pieces, as in Python's `str.split(sep)`.
   */
  function Split(s: string, isSep: char -> bool): (r: seq<string>)
    ensures |r| >= 1
    ensures forall p, c :: p in r && c in p ==> !isSep(c)
  {
    if s == [] then [[]]
    else
      var rest := Split(s[1..], isSep);
      if isSep(s[0]) then [[]] + rest else [[s[0]] + rest[0]] + rest[1..]
  }

  /** Python's `sep.join(parts)`. */
  function Join(sep: string, parts: seq<string>): string {
    if |parts| == 0 then []
    else if |parts| == 1 then parts[0]
    else parts[0] + sep + Join(sep, parts[1..])
  }

  /** A join whose first part is non-empty starts with that part's first character. */
  lemma {:induction false} JoinHead(sep: string, parts: seq<string>)
    requires parts != [] && parts[0] != []
    ensures Join(sep, parts) != [] && Join(sep, parts)[0] == parts[0][0]
  {
  }

  /** A separator-free prefix stays glued to the first piece. */
  lemma {:induction false} SplitGlue(a: string, tail: string, isSep: char -> bool)
    requires forall c :: c in a ==> !isSep(c)
    ensures Split(a + tail, isSep) == [a + Split(tail, isSep)[0]] + Split(tail, isSep)[1..]
  {
    if a != [] {
      assert (a + tail)[0] == a[0] && a[0] in a;
      assert (a + tail)[1..] == a[1..] + tail;
      SplitGlue(a[1..], tail, isSep);
      var st := Split(tail, isSep);
      var rest := Split(a[1..] + tail, isSep);
      assert rest == [a[1..] + st[0]] + st[1..];
      assert rest[0] == a[1..] + st[0] && rest[1..] == st[1..];
      assert Split(a + tail, isSep) == [[a[0]] + rest[0]] + rest[1..];
      assert [a[0]] + (a[1..] + st[0]) == a + st[0];
    } else {
      assert a + tail == tail;
      assert [] + Split(tail, isSep)[0] == Split(tail, isSep)[0];
    }
  }

  /** Splitting undoes joining, when the pieces hold no separator and the glue is one. */
  lemma {:induction false} SplitJoin(parts: seq<string>, c: char, isSep: char -> bool)
    requires |parts| >= 1 && isSep(c)
    requires forall p, ch :: p in parts && ch in p ==> !isSep(ch)
    ensures Split(Join([c], parts), isSep) == parts
  {
    assert parts[0] in parts;
    if |parts| == 1 {
      SplitGlue(parts[0], [], isSep);
      assert parts[0] + [] == parts[0];
    } else {
      var j := Join([c], parts[1..]);
      SplitJoin(parts[1..], c, isSep);
      assert Join([c], parts) == parts[0] + ([c] + j);
      SplitGlue(parts[0], [c] + j, isSep);
      assert ([c] + j)[0] == c && ([c] + j)[1..] == j;
      var sj := Split([c] + j, isSep);
      assert sj == [[]] + Split(j, isSep);
      assert sj[0] == [] && sj[1..] == parts[1..];
      assert parts[0] + [] == parts[0];
      assert parts == [parts[0]] + parts[1..];
    }
  }

  // ---------------------------------------------------------------- numbers

  function DigitChar(d: nat): (c: char)
    requires d < 10
    ensures IsDigit(c)
  {
    ('0' as int + d) as char
  }

  function DigitValue(c: char): (d: nat)
    requires IsDigit(c)
    ensures d < 10
  {
    c as int - '0' as int
  }

  /** Python's `str(n)` for a natural number: its decimal digits, most significant first. */
  function ShowNat(n: nat): (r: string)
    ensures r != [] && forall c :: c in r ==> IsDigit(c)
    ensures |r| > 1 ==> r[0] != '0'
  {
    if n < 10 then [DigitChar(n)] else ShowNat(n / 10) + [DigitChar(n % 10)]
  }

  /** The value of a string of decimal digits. */
  function ReadNat(s: string): nat
    requires forall c :: c in s ==> IsDigit(c)
  {
    if s == [] then 0
    else
      var n := |s| - 1;
      assert forall c :: c in s[..n] ==> c in s;
      assert s[n] in s;
      ReadNat(s[..n]) * 10 + DigitValue(s[n])
  }

  /** Reading back a shown number gives the number. */
  lemma {:induction false} ReadShowNat(n: nat)
    ensures ReadNat(ShowNat(n)) == n
  {
    var r := ShowNat(n);
    if n >= 10 {
      ReadShowNat(n / 10);
      assert r[..|r| - 1] == ShowNat(n / 10);
    }
  }
}
