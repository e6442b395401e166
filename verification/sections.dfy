/**
 * `sectionize` (backend/app.py:180-202): a one-pass scan over the resume's
 * lines whose state is the key of the section being filled. A heading line
 * switches the state and is dropped; any other line is appended to the
 * current section, `"_unknown"` before the first heading.
 */
module Sections {
  import opened Wrappers
  import opened Text
  import opened Lines

  /** SECTION_ALIASES (backend/app.py:119-127), in declaration order. */
  const SectionAliases: seq<(string, seq<string>)> := [
    ("summary", ["summary", "profile", "about", "about me", "professional summary", "career summary", "objective"]),
    ("skills", ["skills", "technical skills", "core skills", "key skills", "competencies", "tools", "technologies"]),
    ("experience", ["experience", "work experience", "employment", "professional experience", "work history", "internship"]),
    ("education", ["education", "academics", "academic background", "qualifications"]),
    ("projects", ["projects", "personal projects", "selected projects"]),
    ("certifications", ["certifications", "certificates", "licenses", "training"]),
    ("languages", ["languages", "language"])
  ]

  const SectionKeys: seq<string> := ["summary", "skills", "experience", "education", "projects", "certifications", "languages"]

  const UnknownKey: string := "_unknown"

  /** Every key of the dictionary `sectionize` returns. */
  const AllKeys: seq<string> := ["summary", "skills", "experience", "education", "projects", "certifications", "languages", "_unknown"]

  /** Longest bare line that can still be a heading. */
  const MaxHeadingLength: nat := 44

  lemma SectionKeysOfAliases()
    ensures |SectionKeys| == |SectionAliases|
    ensures forall j :: 0 <= j < |SectionAliases| ==> SectionAliases[j].0 == SectionKeys[j]
  {
  }

  /** No key is listed twice. */
  predicate Distinct(keys: seq<string>) {
    forall i, j :: 0 <= i < j < |keys| ==> keys[i] != keys[j]
  }

  lemma AllKeysDistinct()
    ensures Distinct(AllKeys)
  {
  }

  /** The seven named keys are keys of the dictionary, and none of them is `_unknown`. */
  lemma SectionKeysKnown()
    ensures forall k :: k in SectionKeys ==> k in AllKeys && k != UnknownKey
  {
    AllKeysDistinct();
    assert AllKeys == SectionKeys + [UnknownKey];
    forall k | k in SectionKeys ensures k in AllKeys && k != UnknownKey {
      var i :| 0 <= i < |SectionKeys| && SectionKeys[i] == k;
      assert AllKeys[i] == k && AllKeys[7] == UnknownKey;
    }
  }

  /** `a` is, lower-cased, one of the aliases listed in `table`. */
  predicate IsAliasIn(table: seq<(string, seq<string>)>, a: string) {
    exists j, k :: 0 <= j < |table| && 0 <= k < |table[j].1| && Lower(table[j].1[k]) == a
  }

  /** `a` is, lower-cased, one of the aliases listed for `key` in `table`. */
  predicate IsAliasOf(table: seq<(string, seq<string>)>, a: string, key: string) {
    exists j, k :: 0 <= j < |table| && 0 <= k < |table[j].1| && Lower(table[j].1[k]) == a && table[j].0 == key
  }

  function LowerAll(xs: seq<string>): (r: seq<string>)
    ensures |r| == |xs| && forall k :: 0 <= k < |xs| ==> r[k] == Lower(xs[k])
  {
    seq(|xs|, k requires 0 <= k < |xs| => Lower(xs[k]))
  }

  /** `alias_to_key`: built in table order, a later alias overriding an earlier one. */
  function AliasMap(table: seq<(string, seq<string>)>): (m: map<string, string>)
    ensures forall a :: a in m <==> IsAliasIn(table, a)
    ensures forall a :: a in m ==> IsAliasOf(table, a, m[a])
  {
    if table == [] then map[]
    else
      var n := |table| - 1;
      var earlier := AliasMap(table[..n]);
      var last := map a | a in LowerAll(table[n].1) :: table[n].0;
      PrefixAliases(table, n);
      LastAliases(table);
      earlier + last
  }

  /** An alias of the first `n` rows is an alias of the whole table. */
  lemma PrefixAliases(table: seq<(string, seq<string>)>, n: nat)
    requires n <= |table|
    ensures forall a :: IsAliasIn(table[..n], a) ==> IsAliasIn(table, a)
    ensures forall a, key :: IsAliasOf(table[..n], a, key) ==> IsAliasOf(table, a, key)
  {
    forall a | IsAliasIn(table[..n], a) ensures IsAliasIn(table, a) {
      var j, k :| 0 <= j < n && 0 <= k < |table[..n][j].1| && Lower(table[..n][j].1[k]) == a;
      assert table[..n][j] == table[j];
    }
    forall a, key | IsAliasOf(table[..n], a, key) ensures IsAliasOf(table, a, key) {
      var j, k :| 0 <= j < n && 0 <= k < |table[..n][j].1| && Lower(table[..n][j].1[k]) == a && table[..n][j].0 == key;
      assert table[..n][j] == table[j];
    }
  }

  /** The aliases of a table are those of all but its last row plus those of the last row. */
  lemma LastAliases(table: seq<(string, seq<string>)>)
    requires table != []
    ensures forall a :: IsAliasIn(table, a) ==> IsAliasIn(table[..|table| - 1], a) || a in LowerAll(table[|table| - 1].1)
    ensures forall a :: a in LowerAll(table[|table| - 1].1) ==> IsAliasOf(table, a, table[|table| - 1].0) && IsAliasIn(table, a)
  {
    var n := |table| - 1;
    var lowered := LowerAll(table[n].1);
    forall a | IsAliasIn(table, a) ensures IsAliasIn(table[..n], a) || a in lowered {
      var j, k :| 0 <= j < |table| && 0 <= k < |table[j].1| && Lower(table[j].1[k]) == a;
      if j < n {
        assert table[..n][j] == table[j];
      } else {
        assert lowered[k] == a;
      }
    }
    forall a | a in lowered ensures IsAliasOf(table, a, table[n].0) && IsAliasIn(table, a) {
      var k :| 0 <= k < |lowered| && lowered[k] == a;
      assert Lower(table[n].1[k]) == a;
    }
  }

  /** `heading_key`: the section a line opens, if it is a heading. */
  function HeadingKey(line: string): (r: Option<string>)
    ensures r.Some? <==> |Bare(line)| <= MaxHeadingLength && IsAliasIn(SectionAliases, Bare(line))
    ensures r.Some? ==> IsAliasOf(SectionAliases, Bare(line), r.value) && r.value in SectionKeys
  {
    var l := Bare(line);
    var m := AliasMap(SectionAliases);
    if |l| > MaxHeadingLength then None
    else if l in m then
      AliasTargets(l);
      Some(m[l])
    else None
  }

  /** Every alias maps to one of the seven section keys. */
  lemma AliasTargets(a: string)
    requires a in AliasMap(SectionAliases)
    ensures AliasMap(SectionAliases)[a] in SectionKeys
  {
    var j, k :| 0 <= j < |SectionAliases| && 0 <= k < |SectionAliases[j].1|
             && Lower(SectionAliases[j].1[k]) == a && SectionAliases[j].0 == AliasMap(SectionAliases)[a];
    SectionKeysOfAliases();
    assert SectionKeys[j] in SectionKeys;
  }

  /**
   * The scan below is stated for any heading classifier whose sections are
   * among the seven keys; `HeadingKey` is the one the service uses.
   */
  ghost predicate ValidClassifier(heading: string -> Option<string>) {
    forall l :: heading(l).Some? ==> heading(l).value in SectionKeys
  }

  lemma HeadingKeyValid()
    ensures ValidClassifier(HeadingKey)
  {
  }

  // ------------------------------------------------------ reference definitions

  /** The state after reading `lines`: the key of the last heading, or `"_unknown"`. */
  function CurrentKey(lines: seq<string>, heading: string -> Option<string>): (k: string)
    ensures ValidClassifier(heading) ==> k in AllKeys
  {
    if lines == [] then UnknownKey
    else
      var h := heading(lines[|lines| - 1]);
      if h.Some? then h.value else CurrentKey(lines[..|lines| - 1], heading)
  }

  /** The non-heading lines of `lines` whose most recent heading opened `key`, in order. */
  function LinesUnder(lines: seq<string>, key: string, heading: string -> Option<string>): (r: seq<string>)
    ensures forall x :: x in r ==> x in lines && heading(x).None?
    ensures |r| <= |lines|
  {
    if lines == [] then []
    else
      var n := |lines| - 1;
      var rest := LinesUnder(lines[..n], key, heading);
      assert forall x :: x in lines[..n] ==> x in lines;
      rest + (if heading(lines[n]).None? && CurrentKey(lines[..n], heading) == key then [lines[n]] else [])
  }

  function HeadingCount(lines: seq<string>, heading: string -> Option<string>): nat {
    if lines == [] then 0
    else HeadingCount(lines[..|lines| - 1], heading) + (if heading(lines[|lines| - 1]).Some? then 1 else 0)
  }

  /** Total length of the sections listed in `keys`. */
  function SumUnder(lines: seq<string>, keys: seq<string>, heading: string -> Option<string>): nat
    requires ValidClassifier(heading)
  {
    if keys == [] then 0 else |LinesUnder(lines, keys[0], heading)| + SumUnder(lines, keys[1..], heading)
  }

  lemma {:induction false} SumUnderNothing(keys: seq<string>, heading: string -> Option<string>)
    requires ValidClassifier(heading)
    ensures SumUnder([], keys, heading) == 0
  {
    if keys != [] {
      SumUnderNothing(keys[1..], heading);
    }
  }

  /** Reading one more line adds it to exactly one of the distinct `keys`, or to none if it is a heading. */
  lemma {:induction false} SumUnderStep(lines: seq<string>, x: string, keys: seq<string>, heading: string -> Option<string>)
    requires ValidClassifier(heading) && Distinct(keys)
    ensures SumUnder(lines + [x], keys, heading)
         == SumUnder(lines, keys, heading) + (if heading(x).None? && CurrentKey(lines, heading) in keys then 1 else 0)
  {
    var grown := lines + [x];
    assert grown[..|grown| - 1] == lines;
    if keys != [] {
      assert Distinct(keys[1..]);
      SumUnderStep(lines, x, keys[1..], heading);
      if CurrentKey(lines, heading) == keys[0] {
        assert CurrentKey(lines, heading) !in keys[1..];
      }
    }
  }

  /** Every line is a heading or is stored under exactly one of `keys`, when `keys` lists each key once. */
  lemma {:induction false} LinesAccountedFor(lines: seq<string>, keys: seq<string>, heading: string -> Option<string>)
    requires ValidClassifier(heading) && Distinct(keys) && forall k :: k in AllKeys ==> k in keys
    ensures SumUnder(lines, keys, heading) + HeadingCount(lines, heading) == |lines|
  {
    if lines == [] {
      SumUnderNothing(keys, heading);
    } else {
      var n := |lines| - 1;
      var before := lines[..n];
      assert before + [lines[n]] == lines;
      LinesAccountedFor(before, keys, heading);
      SumUnderStep(before, lines[n], keys, heading);
      assert CurrentKey(before, heading) in keys;
      assert HeadingCount(lines, heading) == HeadingCount(before, heading) + (if heading(lines[n]).Some? then 1 else 0);
    }
  }

  /** One more line extends at most the section it falls under. */
  lemma LinesUnderStep(lines: seq<string>, x: string, key: string, heading: string -> Option<string>)
    requires ValidClassifier(heading)
    ensures LinesUnder(lines + [x], key, heading)
         == LinesUnder(lines, key, heading) + (if heading(x).None? && CurrentKey(lines, heading) == key then [x] else [])
    ensures CurrentKey(lines + [x], heading) == if heading(x).Some? then heading(x).value else CurrentKey(lines, heading)
  {
    var grown := lines + [x];
    assert grown[..|grown| - 1] == lines && grown[|grown| - 1] == x;
  }

  // ---------------------------------------------------------------- the scan

  /** The dictionary `sectionize` builds: the eight keys, each holding its reference section. */
  ghost predicate Sectioned(sections: map<string, seq<string>>, lines: seq<string>, heading: string -> Option<string>) {
    && (forall k :: k in sections <==> k in AllKeys)
    && forall k :: k in sections ==> sections[k] == LinesUnder(lines, k, heading)
  }

  lemma PrefixStep(lines: seq<string>, i: nat)
    requires i < |lines|
    ensures lines[..i + 1] == lines[..i] + [lines[i]]
  {
  }

  lemma PrefixWhole(lines: seq<string>)
    ensures lines[..|lines|] == lines
  {
  }

  /** One iteration of the scan keeps the dictionary equal to the reference sections. */
  lemma ScanStep(sections: map<string, seq<string>>, prefix: seq<string>, x: string, heading: string -> Option<string>)
    requires ValidClassifier(heading) && Sectioned(sections, prefix, heading)
    ensures heading(x).Some? ==> Sectioned(sections, prefix + [x], heading)
    ensures heading(x).None? ==>
              var k := CurrentKey(prefix, heading);
              k in sections && Sectioned(sections[k := sections[k] + [x]], prefix + [x], heading)
    ensures CurrentKey(prefix + [x], heading) == if heading(x).Some? then heading(x).value else CurrentKey(prefix, heading)
  {
    LinesUnderStep(prefix, x, UnknownKey, heading);
    if heading(x).Some? {
      ScanHeading(sections, prefix, x, heading);
    } else {
      ScanLine(sections, prefix, x, heading);
    }
  }

  /** A heading line leaves every section as it was. */
  lemma ScanHeading(sections: map<string, seq<string>>, prefix: seq<string>, x: string, heading: string -> Option<string>)
    requires ValidClassifier(heading) && Sectioned(sections, prefix, heading) && heading(x).Some?
    ensures Sectioned(sections, prefix + [x], heading)
  {
    forall k | k in sections ensures sections[k] == LinesUnder(prefix + [x], k, heading) {
      LinesUnderStep(prefix, x, k, heading);
    }
  }

  /** Any other line is appended to the current section and to no other. */
  lemma ScanLine(sections: map<string, seq<string>>, prefix: seq<string>, x: string, heading: string -> Option<string>)
    requires ValidClassifier(heading) && Sectioned(sections, prefix, heading) && heading(x).None?
    ensures var k := CurrentKey(prefix, heading);
            k in sections && Sectioned(sections[k := sections[k] + [x]], prefix + [x], heading)
  {
    var k := CurrentKey(prefix, heading);
    var updated := sections[k := sections[k] + [x]];
    forall j | j in updated ensures updated[j] == LinesUnder(prefix + [x], j, heading) {
      LinesUnderStep(prefix, x, j, heading);
    }
  }

  /**
   * `sectionize`: the eight keys, each holding, in order, the non-heading
   * lines whose most recent heading opened it; headings are never stored and
   * every other line is stored exactly once.
   */
  method Sectionize(lines: seq<string>) returns (sections: map<string, seq<string>>)
    ensures Sectioned(sections, lines, HeadingKey)
    ensures forall k, x :: k in sections && x in sections[k] ==> x in lines && !IsHeading(x)
    ensures SumUnder(lines, AllKeys, HeadingKey) + HeadingCount(lines, HeadingKey) == |lines|
  {
    HeadingKeyValid();
    sections := map k | k in AllKeys :: [];
    var current := UnknownKey;
    for i := 0 to |lines|
      invariant current == CurrentKey(lines[..i], HeadingKey)
      invariant Sectioned(sections, lines[..i], HeadingKey)
    {
      PrefixStep(lines, i);
      ghost var before := sections;
      ScanStep(before, lines[..i], lines[i], HeadingKey);
      var key := HeadingKey(lines[i]);
      if key.Some? {
        current := key.value;
      } else {
        sections := sections[current := sections[current] + [lines[i]]];
      }
    }
    PrefixWhole(lines);
    AllKeysDistinct();
    LinesAccountedFor(lines, AllKeys, HeadingKey);
  }

  predicate IsHeading(line: string) {
    HeadingKey(line).Some?
  }
}
