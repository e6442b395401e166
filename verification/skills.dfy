/**
 * `split_skills` (backend/app.py:205-225). The category-prefix removal of
 * line 208 is a regular-expression substitution and is passed in as a
 * function; everything after it is modelled.
 */
module Skills {
  import opened Wrappers
  import opened Text
  import opened Dedup

  const MaxSkillLength: nat := 45
  const MaxSkills: nat := 70

  /** The separator class `[•·•\|\n,;/]`. */
  predicate IsSkillSeparator(c: char) {
    c == '\U{2022}' || c == '\U{B7}' || c == '|' || c == '\n' || c == ',' || c == ';' || c == '/'
  }

  predicate SeparatorFree(p: string) {
    forall c :: c in p ==> !IsSkillSeparator(c)
  }

  /** What an entry of the skills list looks like. */
  predicate SkillShaped(p: string) {
    p != [] && |p| <= MaxSkillLength && Normalized(p) && SeparatorFree(p)
  }

  /** Lines 212-217 for one piece: its normal form, unless that is empty or longer than 45 characters. */
  function CleanPiece(piece: string): (r: Option<string>)
    ensures r.Some? ==> r.value == Normalize(piece)
    ensures r.Some? <==> Normalize(piece) != [] && |Normalize(piece)| <= MaxSkillLength
    ensures r.Some? && SeparatorFree(piece) ==> SkillShaped(r.value)
  {
    var p := Normalize(piece);
    NormalizeChars(piece);
    if p == [] || |p| > MaxSkillLength then None else Some(p)
  }

  /**
   * Lines 210-217: the kept pieces in order. (Splitting at single separators
   * rather than at runs only adds empty pieces, which are dropped here.)
   */
  function CleanPieces(pieces: seq<string>): (r: seq<string>)
    ensures (forall p :: p in pieces ==> SeparatorFree(p)) ==> forall p :: p in r ==> SkillShaped(p)
  {
    PresentMembers(pieces, CleanPiece);
    Present(pieces, CleanPiece)
  }

  /** Pieces are cleaned one at a time: the kept ones keep the order and the repeats of the pieces. */
  lemma CleanPiecesAppend(a: seq<string>, b: seq<string>)
    ensures CleanPieces(a + b) == CleanPieces(a) + CleanPieces(b)
  {
    PresentAppend(a, b, CleanPiece);
  }

  /** A cleaned piece is kept exactly when some piece cleans to it. */
  lemma CleanPiecesMembers(pieces: seq<string>)
    ensures forall s :: s in CleanPieces(pieces) <==> exists p :: p in pieces && CleanPiece(p) == Some(s)
  {
    PresentMembers(pieces, CleanPiece);
  }

  /** The cleaned pieces of the skills text, before de-duplication. */
  function SkillPieces(skillLines: seq<string>, dropCategoryPrefixes: string -> string): (r: seq<string>)
    ensures forall p :: p in r ==> SkillShaped(p)
  {
    var pieces := Split(dropCategoryPrefixes(Join(" ", skillLines)), IsSkillSeparator);
    assert forall p :: p in pieces ==> SeparatorFree(p);
    CleanPieces(pieces)
  }

  /** What capping the de-duplicated list keeps. */
  lemma CappedFirstSpellings(cleaned: seq<string>, cap: nat)
    ensures var kept := Take(FirstSpellings(cleaned), cap);
            && |kept| <= cap
            && (forall s :: s in kept ==> s in cleaned)
            && CaselessDistinct(kept)
            && (|kept| < cap ==> forall p :: p in cleaned ==> exists s :: s in kept && Lower(s) == Lower(p))
  {
    var out := FirstSpellings(cleaned);
    var kept := Take(out, cap);
    FirstSpellingsFrom(cleaned);
    FirstSpellingsDistinct(cleaned);
    TakeDistinct(out, cap);
    if |kept| < cap {
      assert kept == out;
      FirstSpellingsCover(cleaned);
    }
  }

  /** A prefix of a list that is distinct up to case is distinct up to case, and holds only its entries. */
  lemma TakeDistinct(out: seq<string>, cap: nat)
    requires CaselessDistinct(out)
    ensures CaselessDistinct(Take(out, cap))
    ensures forall s :: s in Take(out, cap) ==> s in out
  {
    var kept := Take(out, cap);
    assert forall i :: 0 <= i < |kept| ==> kept[i] == out[i];
  }

  /**
   * `split_skills`: the cleaned pieces, de-duplicated up to case keeping the
   * first spelling, at most 70 of them.
   */
  method SplitSkills(skillLines: seq<string>, dropCategoryPrefixes: string -> string) returns (skills: seq<string>)
    ensures skills == Take(FirstSpellings(SkillPieces(skillLines, dropCategoryPrefixes)), MaxSkills)
    ensures |skills| <= MaxSkills
    ensures forall s :: s in skills ==> SkillShaped(s) && s in SkillPieces(skillLines, dropCategoryPrefixes)
    ensures CaselessDistinct(skills)
    ensures |skills| < MaxSkills ==>
              forall p :: p in SkillPieces(skillLines, dropCategoryPrefixes) ==>
                exists s :: s in skills && Lower(s) == Lower(p)
  {
    var cleaned := SkillPieces(skillLines, dropCategoryPrefixes);
    var out := DedupCaseless(cleaned);
    skills := Take(out, MaxSkills);
    CappedFirstSpellings(cleaned, MaxSkills);
  }
}
