/**
 * The dashboard rubric of `compute_dashboard` (backend/app.py:280-492):
 * seven checks in a fixed order, a weighted overall score, a grade, the
 * `ats_friendly` verdict, the issue count and the de-duplicated
 * suggestions. Regex match counts are inputs; the weighted sum is kept
 * exactly, in hundredths of a point.
 */
module Scoring {
  import opened Wrappers
  import opened Text
  import opened Dedup
  import opened Contacts
  import opened Structured
  import opened Extraction

  // ---------------------------------------------------------------- data

  datatype Status = Pass | Warn | Fail

  function StatusName(s: Status): string {
    match s
    case Pass => "pass"
    case Warn => "warn"
    case Fail => "fail"
  }

  /** The seven checks, in the order the dashboard lists them. */
  datatype CheckKey = AtsParse | ContactDetails | SectionsFound | Impact | Repetition | Brevity | Grammar

  /** The `key` field of a check. */
  function KeyName(k: CheckKey): string {
    match k
    case AtsParse => "ats_parse"
    case ContactDetails => "contact"
    case SectionsFound => "sections"
    case Impact => "impact"
    case Repetition => "repetition"
    case Brevity => "brevity"
    case Grammar => "grammar"
  }

  /** The `label` field of a check. */
  function Title(k: CheckKey): string {
    match k
    case AtsParse => "ATS Parse Rate"
    case ContactDetails => "Contact Details"
    case SectionsFound => "Sections"
    case Impact => "Quantifying Impact"
    case Repetition => "Repetition"
    case Brevity => "Format & Brevity"
    case Grammar => "Spelling & Grammar"
  }

  /** The remark a check makes; its text is `NoteText`. */
  datatype Note =
    | LooksScanned | TextExtracts
    | ContactGaps(hasEmail: bool, hasPhone: bool, hasLink: bool)
    | SectionGaps(hasSkills: bool, hasEducation: bool, hasExperience: bool)
    | FewMetrics | EnoughMetrics
    | HighRepetition(word: string, times: nat) | NoRepetition
    | TooShort | TooLong | GoodLength
    | FormattingNoise | OfflineOnly

  /** The `note` field of a check. */
  function NoteText(n: Note): string {
    match n
    case LooksScanned => "Looks scanned or image-based."
    case TextExtracts => "Text extraction works."
    case ContactGaps(hasEmail, hasPhone, hasLink) =>
      var parts := (if hasEmail then [] else ["No email found"])
        + (if hasPhone then [] else ["No phone found"])
        + (if hasLink then [] else ["No profile links found"]);
      if parts == [] then "Looks complete." else Join(", ", parts)
    case SectionGaps(hasSkills, hasEducation, hasExperience) =>
      var missing := (if hasSkills then [] else ["Skills"])
        + (if hasEducation then [] else ["Education"])
        + (if hasExperience then [] else ["Experience/Projects"]);
      if missing == [] then "All key sections detected." else "Missing: " + Join(", ", missing)
    case FewMetrics => "Few numbers/metrics found."
    case EnoughMetrics => "Good amount of metrics."
    case HighRepetition(word, times) => "High repetition of '" + word + "' (" + ShowNat(times) + "x)."
    case NoRepetition => "Looks fine."
    case TooShort => "Resume is short (low keyword coverage)."
    case TooLong => "Resume is long (harder to scan)."
    case GoodLength => "Length looks reasonable."
    case FormattingNoise => "Formatting noise detected (icons/symbols/caps)."
    case OfflineOnly => "Basic check only (offline)."
  }

  /** One row of the dashboard; its `label` is `Title(key)` and its `note` is `NoteText(note)`. */
  datatype CheckItem = CheckItem(key: CheckKey, score: nat, status: Status, note: Note)

  datatype Grade = Excellent | Great | Good | Fair | NeedsWork

  function GradeName(g: Grade): string {
    match g
    case Excellent => "Excellent"
    case Great => "Great"
    case Good => "Good"
    case Fair => "Fair"
    case NeedsWork => "Needs work"
  }

  /** The twelve suggestions the rubric can make, in the order the checks make them. */
  datatype Advice =
    | ExportTextPdf | AddEmail | AddPhone | AddLink
    | AddSkills | AddEducation | AddExperience
    | AddMetrics | ReduceRepetition | AddContent | TrimLength | ReduceNoise

  function Rank(a: Advice): nat {
    match a
    case ExportTextPdf => 0
    case AddEmail => 1
    case AddPhone => 2
    case AddLink => 3
    case AddSkills => 4
    case AddEducation => 5
    case AddExperience => 6
    case AddMetrics => 7
    case ReduceRepetition => 8
    case AddContent => 9
    case TrimLength => 10
    case ReduceNoise => 11
  }

  function AdviceText(a: Advice): string {
    match a
    case ExportTextPdf => "Export your resume as a text-based PDF (not scanned). If needed, run OCR before uploading."
    case AddEmail => "Add a professional email near the top in plain text."
    case AddPhone => "Add a phone number in plain text (include country code)."
    case AddLink => "Add LinkedIn/GitHub/portfolio link in plain text."
    case AddSkills => "Add a clear 'Skills' section with keywords (tools, languages, platforms)."
    case AddEducation => "Add an 'Education' section with degree + dates."
    case AddExperience => "Add 'Experience' or 'Projects' with impact bullets and tech used."
    case AddMetrics => "Add measurable results: %, time saved, users, revenue, speed, KPIs."
    case ReduceRepetition => "Reduce repeated words; vary action verbs and rewrite duplicated phrases."
    case AddContent => "Add more relevant bullets, projects, tools, and responsibilities."
    case TrimLength => "Aim for 1\U{2013}2 pages and prioritize relevant content."
    case ReduceNoise => "Avoid too many icons/symbols; keep headings consistent and readable."
  }

  /** What one check contributes: its row, the issues it counts and the suggestions it appends. */
  datatype Outcome = Outcome(item: CheckItem, issues: nat, advice: seq<Advice>)

  /**
   * The regex-derived counts of the resume text: the `\b\w+\b` words, the
   * number tokens, bullets, year mentions, all-caps words and unusual symbols.
   */
  datatype TextCounts = TextCounts(
    words: seq<string>,
    numberTokens: nat,
    bulletCount: nat,
    dateMentions: nat,
    capsWords: nat,
    weirdSymbols: nat)

  /** The `signals` dictionary, without the rounded float average. */
  datatype Signals = Signals(
    pages: nat,
    wordCount: nat,
    likelyScanned: bool,
    possibleColumns: bool,
    bulletCount: nat,
    dateMentions: nat,
    charCount: nat,
    extractor: Option<string>,
    pymupdfAvailable: bool)

  datatype DashboardScore = DashboardScore(
    score: nat,
    issues: nat,
    atsParseRate: nat,
    checks: seq<CheckItem>,
    atsFriendly: bool,
    grade: Grade,
    suggestions: seq<string>,
    signals: Signals)

  // ---------------------------------------------------------------- thresholds

  const PassAt: nat := 85
  const WarnAt: nat := 60

  /** `clamp(v, lo, hi)`: `max(lo, min(hi, v))`. */
  function Clamp(v: int, lo: int, hi: int): (r: int)
    ensures r >= lo
    ensures lo <= hi ==> lo <= r <= hi
    ensures lo <= v <= hi ==> r == v
    ensures lo <= hi && v > hi ==> r == hi
    ensures v < lo <= hi ==> r == lo
  {
    var m := if hi < v then hi else v;
    if lo > m then lo else m
  }

  /** The shared `"pass" if s >= 85 else ("warn" if s >= 60 else "fail")`. */
  function StatusOf(score: int): (s: Status) {
    if score >= PassAt then Pass else if score >= WarnAt then Warn else Fail
  }

  /** Statuses agree with scores: pass exactly at 85 and above, fail only below 60. */
  predicate Graded(c: CheckItem) {
    && c.score <= 100
    && (c.status == Pass <==> c.score >= PassAt)
    && (c.status == Fail ==> c.score < WarnAt)
  }

  /** A check counts an issue exactly when it does not pass. */
  predicate Sound(o: Outcome) {
    Graded(o.item) && (o.issues == 0 <==> o.item.status == Pass) && o.issues <= |o.advice|
  }

  /** Strictly increasing ranks: the suggestions appear in rubric order, each at most once. */
  predicate Increasing(adv: seq<Advice>) {
    forall i, j :: 0 <= i < j < |adv| ==> Rank(adv[i]) < Rank(adv[j])
  }

  /** Every suggestion in `adv` belongs to the ranks `lo .. hi-1`. */
  predicate Within(adv: seq<Advice>, lo: nat, hi: nat) {
    forall a :: a in adv ==> lo <= Rank(a) < hi
  }

  /**
   * The shape of one check's outcome: sound, its score between `floor` and
   * `top` and exactly `top` when it passes, at most `most` issues with one
   * suggestion each, the suggestions ranked within `lo .. hi-1` in rubric order.
   */
  predicate Fits(o: Outcome, floor: nat, top: nat, most: nat, lo: nat, hi: nat) {
    && Sound(o)
    && floor <= o.item.score <= top && (o.item.status == Pass ==> o.item.score == top)
    && o.issues <= most && |o.advice| == o.issues
    && Increasing(o.advice) && Within(o.advice, lo, hi)
  }

  /**
   * The shape of the contact check's outcome: a pass scores 90 or 100, the
   * issues are the missing email and phone, and a missing profile link adds
   * a suggestion but no issue.
   */
  predicate ContactFits(o: Outcome) {
    && Sound(o)
    && 20 <= o.item.score <= 100 && (o.item.status == Pass ==> o.item.score == 90 || o.item.score == 100)
    && o.issues <= 2
    && Increasing(o.advice) && Within(o.advice, 1, 4)
  }

  function Texts(adv: seq<Advice>): (r: seq<string>)
    ensures |r| == |adv| && forall i :: 0 <= i < |adv| ==> r[i] == AdviceText(adv[i])
  {
    seq(|adv|, i requires 0 <= i < |adv| => AdviceText(adv[i]))
  }

  // ---------------------------------------------------------------- scan detection

  /** `pages` from the metadata: `int(primary.get("pages", 1) or 1)`. */
  function PagesOf(primary: Option<PageMeta>): (n: nat)
    ensures n >= 1
    ensures primary.Some? && primary.value.pages > 0 ==> n == primary.value.pages
    ensures primary.None? || primary.value.pages == 0 ==> n == 1
  {
    if primary.None? || primary.value.pages == 0 then 1 else primary.value.pages
  }

  function PerPageOf(primary: Option<PageMeta>): seq<nat> {
    if primary.None? then [] else primary.value.perPage
  }

  function Sum(xs: seq<nat>): nat {
    if xs == [] then 0 else xs[0] + Sum(xs[1..])
  }

  const ScannedBelowChars: nat := 800
  const ScannedBelowAverage: nat := 250

  /** `avg_chars`: the mean of the per-page counts, or characters per page when none were recorded. */
  function AverageChars(charCount: nat, primary: Option<PageMeta>): real {
    var perPage := PerPageOf(primary);
    if perPage != [] then (Sum(perPage) as real) / (|perPage| as real)
    else (charCount as real) / (PagesOf(primary) as real)
  }

  /** `likely_scanned`, decided over integers by clearing the denominator. */
  function LikelyScanned(charCount: nat, primary: Option<PageMeta>): bool {
    var perPage := PerPageOf(primary);
    || charCount < ScannedBelowChars
    || (if perPage != [] then Sum(perPage) < ScannedBelowAverage * |perPage|
        else charCount < ScannedBelowAverage * PagesOf(primary))
  }

  lemma BelowAverage(total: nat, count: nat)
    requires count > 0
    ensures (total as real) / (count as real) < ScannedBelowAverage as real <==> total < ScannedBelowAverage * count
  {
    var q := (total as real) / (count as real);
    assert q * (count as real) == total as real;
    if total < ScannedBelowAverage * count {
      assert q * (count as real) < (ScannedBelowAverage as real) * (count as real);
    } else {
      assert q * (count as real) >= (ScannedBelowAverage as real) * (count as real);
    }
  }

  /** The integer test is the source's test on the real-valued average. */
  lemma {:induction false} LikelyScannedMeansLowAverage(charCount: nat, primary: Option<PageMeta>)
    ensures LikelyScanned(charCount, primary)
        <==> charCount < ScannedBelowChars || AverageChars(charCount, primary) < ScannedBelowAverage as real
  {
    var perPage := PerPageOf(primary);
    if perPage != [] {
      BelowAverage(Sum(perPage), |perPage|);
    } else {
      BelowAverage(charCount, PagesOf(primary));
    }
  }

  // ---------------------------------------------------------------- the seven checks

  /** 1) ATS parse rate: 30 and "fail" for a scanned-looking document, otherwise 92 and "pass". */
  function AtsParseCheck(scanned: bool): (o: Outcome)
    ensures Fits(o, 30, 92, 1, 0, 1)
    ensures o.item.key == AtsParse
    ensures scanned <==> o.item.status == Fail
    ensures scanned ==> o.item.score == 30
    ensures !scanned ==> o.item.status == Pass && o.item.score == 92
  {
    if scanned then
      Outcome(CheckItem(AtsParse, 30, Fail, LooksScanned), 1, [ExportTextPdf])
    else
      Outcome(CheckItem(AtsParse, 92, Pass, TextExtracts), 0, [])
  }

  /**
   * 2) Contact details: 45 points off without an email, 25 without a phone
   * and 10 without a profile link; only the first two count as issues.
   */
  function ContactCheck(hasEmail: bool, hasPhone: bool, hasLink: bool): (o: Outcome)
    ensures ContactFits(o)
    ensures o.item.key == ContactDetails
    ensures o.item.score == 100 - (if hasEmail then 0 else 45) - (if hasPhone then 0 else 25) - (if hasLink then 0 else 10)
    ensures o.item.status == StatusOf(o.item.score)
    ensures o.issues == (if hasEmail then 0 else 1) + (if hasPhone then 0 else 1)
    ensures |o.advice| == o.issues + (if hasLink then 0 else 1)
  {
    var score := 100;
    var score := if hasEmail then score else score - 45;
    var score := if hasPhone then score else score - 25;
    var score := if hasLink then score else score - 10;
    var score := Clamp(score, 0, 100);
    var advice := (if hasEmail then [] else [AddEmail])
      + (if hasPhone then [] else [AddPhone])
      + (if hasLink then [] else [AddLink]);
    var issues := (if hasEmail then 0 else 1) + (if hasPhone then 0 else 1);
    Outcome(CheckItem(ContactDetails, score, StatusOf(score), ContactGaps(hasEmail, hasPhone, hasLink)),
      issues, advice)
  }

  /**
   * 3) Sections: 35 points off without skills, 20 without education and 35
   * without either experience or projects; each is an issue.
   */
  function SectionsCheck(hasSkills: bool, hasEducation: bool, hasExperience: bool): (o: Outcome)
    ensures Fits(o, 10, 100, 3, 4, 7)
    ensures o.item.key == SectionsFound
    ensures o.item.score == 100 - (if hasSkills then 0 else 35) - (if hasEducation then 0 else 20) - (if hasExperience then 0 else 35)
    ensures o.item.status == StatusOf(o.item.score)
    ensures o.issues == (if hasSkills then 0 else 1) + (if hasEducation then 0 else 1) + (if hasExperience then 0 else 1)
  {
    var score := 100;
    var score := if hasSkills then score else score - 35;
    var score := if hasEducation then score else score - 20;
    var score := if hasExperience then score else score - 35;
    var score := Clamp(score, 0, 100);
    var advice := (if hasSkills then [] else [AddSkills])
      + (if hasEducation then [] else [AddEducation])
      + (if hasExperience then [] else [AddExperience]);
    Outcome(CheckItem(SectionsFound, score, StatusOf(score), SectionGaps(hasSkills, hasEducation, hasExperience)),
      |advice|, advice)
  }

  const FewNumbersBelow: nat := 6

  /** 4) Quantified impact: fewer than 6 number tokens is a warning at 55, otherwise a pass at 92. */
  function ImpactCheck(numberTokens: nat): (o: Outcome)
    ensures Fits(o, 55, 92, 1, 7, 8)
    ensures o.item.key == Impact
    ensures o.issues == 1 <==> numberTokens < FewNumbersBelow
    ensures o.issues == 1 ==> o.item.status == Warn && o.item.score == 55
  {
    if numberTokens < FewNumbersBelow then
      Outcome(CheckItem(Impact, Clamp(80 - 25, 0, 100), Warn, FewMetrics),
        1, [AddMetrics])
    else
      Outcome(CheckItem(Impact, Clamp(92, 0, 100), Pass, EnoughMetrics), 0, [])
  }

  // ---------------------------------------------------------------- repetition

  /** `[w.lower() for w in words if len(w) >= 4]`. */
  function LongWordsLowered(words: seq<string>): (r: seq<string>)
    ensures |r| <= |words|
    ensures forall w :: w in r ==> |w| >= 4
    ensures forall w :: w in r <==> exists v :: v in words && |v| >= 4 && Lower(v) == w
  {
    if words == [] then []
    else
      var rest := LongWordsLowered(words[1..]);
      assert words == [words[0]] + words[1..];
      if |words[0]| >= 4 then [Lower(words[0])] + rest else rest
  }

  /** Filtering and lower-casing go word by word: the result keeps the order and the repeats of the input. */
  lemma {:induction false} LongWordsAppend(a: seq<string>, b: seq<string>)
    ensures LongWordsLowered(a + b) == LongWordsLowered(a) + LongWordsLowered(b)
  {
    if a != [] {
      var ab := a + b;
      assert ab[0] == a[0] && ab[1..] == a[1..] + b;
      LongWordsAppend(a[1..], b);
      assert LongWordsLowered(ab) == (if |a[0]| >= 4 then [Lower(a[0])] else []) + LongWordsLowered(ab[1..]);
      assert LongWordsLowered(a) == (if |a[0]| >= 4 then [Lower(a[0])] else []) + LongWordsLowered(a[1..]);
    } else {
      assert a + b == b;
    }
  }

  /** How many times `w` occurs in `ws`: the value of the `freq` dictionary. */
  function Occurrences(ws: seq<string>, w: string): (n: nat)
    ensures n <= |ws|
    ensures n > 0 <==> w in ws
  {
    if ws == [] then 0 else (if ws[0] == w then 1 else 0) + Occurrences(ws[1..], w)
  }

  /**
   * The index of the first most frequent word among `ws[..n]`: the head of
   * the frequency table sorted by count, since that sort is stable and the
   * table is in first-occurrence order.
   */
  function TopIndex(ws: seq<string>, n: nat): (k: nat)
    requires 0 < n <= |ws|
    ensures k < n
    ensures forall i :: 0 <= i < n ==> Occurrences(ws, ws[i]) <= Occurrences(ws, ws[k])
    ensures forall i :: 0 <= i < k ==> Occurrences(ws, ws[i]) < Occurrences(ws, ws[k])
  {
    if n == 1 then 0
    else
      var k := TopIndex(ws, n - 1);
      if Occurrences(ws, ws[n - 1]) > Occurrences(ws, ws[k]) then n - 1 else k
  }

  /** `top[0]`: the most frequent long word with its count, the earliest on a tie; `None` without long words. */
  function TopWord(words: seq<string>): (r: Option<(string, nat)>)
    ensures r.Some? <==> LongWordsLowered(words) != []
    ensures r.Some? ==> r.value.0 in LongWordsLowered(words)
    ensures r.Some? ==> r.value.1 == Occurrences(LongWordsLowered(words), r.value.0)
    ensures r.Some? ==> forall w :: w in LongWordsLowered(words) ==> Occurrences(LongWordsLowered(words), w) <= r.value.1
    ensures r.Some? ==> exists k :: (0 <= k < |LongWordsLowered(words)| && LongWordsLowered(words)[k] == r.value.0
      && forall i :: 0 <= i < k ==> Occurrences(LongWordsLowered(words), LongWordsLowered(words)[i]) < r.value.1)
  {
    var ws := LongWordsLowered(words);
    if ws == [] then None
    else
      var k := TopIndex(ws, |ws|);
      assert ws[k] == ws[k];
      Some((ws[k], Occurrences(ws, ws[k])))
  }

  /**
   * The tie-break pins the word: any long word as frequent as the head of
   * the table, whose occurrence is preceded only by less frequent words, is
   * that head.
   */
  lemma TopWordEarliest(words: seq<string>, k: nat)
    ensures var ws := LongWordsLowered(words);
      TopWord(words).Some? && k < |ws| && Occurrences(ws, ws[k]) == TopWord(words).value.1
      && (forall i :: 0 <= i < k ==> Occurrences(ws, ws[i]) < TopWord(words).value.1)
      ==> ws[k] == TopWord(words).value.0
  {
  }

  const RepeatedAtLeast: nat := 18

  /** Some long word, lower-cased, occurs at least 18 times. */
  predicate Repetitive(words: seq<string>) {
    var ws := LongWordsLowered(words);
    exists w :: w in ws && Occurrences(ws, w) >= RepeatedAtLeast
  }

  /** Looking at the head of the frequency table is enough to detect repetition. */
  lemma TopWordDecidesRepetition(words: seq<string>)
    ensures Repetitive(words) <==> TopWord(words).Some? && TopWord(words).value.1 >= RepeatedAtLeast
  {
  }

  /** 5) Repetition: a long word used 18 times or more is a warning at 65 naming it; otherwise a pass at 90. */
  function RepetitionCheck(words: seq<string>): (o: Outcome)
    ensures Fits(o, 65, 90, 1, 8, 9)
    ensures o.item.key == Repetition
    ensures o.issues == 1 <==> Repetitive(words)
    ensures o.issues == 1 ==> o.item.status == Warn && o.item.score == 65
  {
    TopWordDecidesRepetition(words);
    RepetitionOutcome(TopWord(words))
  }

  /** The repetition check's verdict on the head of the frequency table. */
  function RepetitionOutcome(top: Option<(string, nat)>): (o: Outcome)
    ensures Fits(o, 65, 90, 1, 8, 9)
    ensures o.item.key == Repetition
    ensures o.issues == 1 <==> top.Some? && top.value.1 >= RepeatedAtLeast
    ensures o.issues == 1 ==> o.item.status == Warn && o.item.score == 65
    ensures o.issues == 1 ==> o.item.note == HighRepetition(top.value.0, top.value.1)
  {
    if top.Some? && top.value.1 >= RepeatedAtLeast then
      Outcome(CheckItem(Repetition, 65, Warn, HighRepetition(top.value.0, top.value.1)), 1, [ReduceRepetition])
    else
      Outcome(CheckItem(Repetition, 90, Pass, NoRepetition), 0, [])
  }

  const ShortBelowWords: nat := 220
  const LongAboveWords: nat := 1200

  /** 6) Format and brevity: under 220 words or over 1200 is a warning, otherwise a pass at 92. */
  function BrevityCheck(wordCount: nat): (o: Outcome)
    ensures Fits(o, 60, 92, 1, 9, 11)
    ensures o.item.key == Brevity
    ensures o.issues == 1 <==> wordCount < ShortBelowWords || wordCount > LongAboveWords
    ensures wordCount < ShortBelowWords ==> o.item.status == Warn && o.item.score == 62
    ensures wordCount > LongAboveWords ==> o.item.status == Warn && o.item.score == 60
  {
    if wordCount < ShortBelowWords then
      Outcome(CheckItem(Brevity, 62, Warn, TooShort), 1, [AddContent])
    else if wordCount > LongAboveWords then
      Outcome(CheckItem(Brevity, 60, Warn, TooLong), 1, [TrimLength])
    else
      Outcome(CheckItem(Brevity, 92, Pass, GoodLength), 0, [])
  }

  const CapsAbove: nat := 25
  const SymbolsAbove: nat := 80

  /** 7) Spelling and grammar: more than 25 all-caps words or 80 odd symbols is a warning at 65, otherwise a pass at 86. */
  function GrammarCheck(capsWords: nat, weirdSymbols: nat): (o: Outcome)
    ensures Fits(o, 65, 86, 1, 11, 12)
    ensures o.item.key == Grammar
    ensures o.issues == 1 <==> capsWords > CapsAbove || weirdSymbols > SymbolsAbove
    ensures o.issues == 1 ==> o.item.status == Warn && o.item.score == 65
  {
    if capsWords > CapsAbove || weirdSymbols > SymbolsAbove then
      Outcome(CheckItem(Grammar, 65, Warn, FormattingNoise),
        1, [ReduceNoise])
    else
      Outcome(CheckItem(Grammar, 86, Pass, OfflineOnly), 0, [])
  }

  // ---------------------------------------------------------------- overall score

  /** The weights of the seven checks, in hundredths. */
  const Weights: seq<nat> := [30, 15, 15, 12, 10, 10, 8]

  /** `sum(w * s)`, in hundredths of a point. */
  function Weighted(w: seq<nat>, s: seq<nat>): nat
    requires |w| == |s|
  {
    if w == [] then 0 else w[0] * s[0] + Weighted(w[1..], s[1..])
  }

  /** The weights sum to one, so the overall score stays within 0..100 when every check does. */
  lemma WeightedAtMost100(s: seq<nat>)
    requires |s| == |Weights| && forall i :: 0 <= i < |s| ==> s[i] <= 100
    ensures Weighted(Weights, s) <= 10000
  {
    WeightedSeven(s);
  }

  /** Python's `round` on a value given in hundredths: to the nearest integer, ties to even. */
  function RoundHundredths(x: nat): (r: nat)
    ensures 100 * r <= x + 50 && x <= 100 * r + 50
    ensures x % 100 != 50 ==> 100 * r < x + 50 && x < 100 * r + 50
    ensures x % 100 == 50 ==> r % 2 == 0
  {
    var q := x / 100;
    var m := x % 100;
    if m < 50 || (m == 50 && q % 2 == 0) then q else q + 1
  }

  /** Rounding keeps order. */
  lemma RoundMonotone(x: nat, y: nat)
    requires x <= y
    ensures RoundHundredths(x) <= RoundHundredths(y)
  {
  }

  /** `int(round(clamp(overall, 0, 100)))`, with `overall` given in hundredths. */
  function Overall(scores: seq<nat>): (r: nat)
    requires |scores| == |Weights|
    ensures (forall i :: 0 <= i < |scores| ==> scores[i] <= 100) ==> RoundHundredths(Weighted(Weights, scores)) == r
    ensures r <= 100
  {
    var w := Clamp(Weighted(Weights, scores), 0, 10000);
    if forall i :: 0 <= i < |scores| ==> scores[i] <= 100 then
      WeightedAtMost100(scores);
      RoundHundredths(w)
    else
      RoundMonotone(w, 10000);
      RoundHundredths(w)
  }

  /** The grade ladder. */
  function GradeOf(score: int): Grade {
    if score >= 90 then Excellent
    else if score >= 80 then Great
    else if score >= 70 then Good
    else if score >= 60 then Fair
    else NeedsWork
  }

  function GradeRank(g: Grade): nat {
    match g
    case NeedsWork => 0
    case Fair => 1
    case Good => 2
    case Great => 3
    case Excellent => 4
  }

  /** A higher score never earns a lower grade. */
  lemma GradeMonotone(a: int, b: int)
    requires a <= b
    ensures GradeRank(GradeOf(a)) <= GradeRank(GradeOf(b))
  {
  }

  /** Each grade covers exactly its band of ten points (the last one everything below 60). */
  lemma GradeBands(score: int)
    ensures GradeOf(score) == Excellent <==> score >= 90
    ensures GradeOf(score) == NeedsWork <==> score < 60
    ensures GradeOf(score) != NeedsWork && GradeOf(score) != Excellent ==> GradeRank(GradeOf(score)) == score / 10 - 5
  {
  }

  const FriendlyParseAt: nat := 70
  const FriendlyScoreAt: nat := 60

  // ---------------------------------------------------------------- suggestions

  /** The lengths of the suggestion texts: only `AddExperience` and `AddContent` share one. */
  function AdviceLength(a: Advice): nat {
    match a
    case ExportTextPdf => 90
    case AddEmail => 52
    case AddPhone => 56
    case AddLink => 49
    case AddSkills => 73
    case AddEducation => 47
    case AddExperience => 65
    case AddMetrics => 67
    case ReduceRepetition => 72
    case AddContent => 65
    case TrimLength => 50
    case ReduceNoise => 68
  }

  // Proof steps for AdviceTextLength, one literal each: checking all twelve
  // literal lengths in a single obligation is too costly for the solver.
  lemma LengthOfExportTextPdf()
    ensures |AdviceText(ExportTextPdf)| == 90
  {
  }
  lemma LengthOfAddEmail()
    ensures |AdviceText(AddEmail)| == 52
  {
  }
  lemma LengthOfAddPhone()
    ensures |AdviceText(AddPhone)| == 56
  {
  }
  lemma LengthOfAddLink()
    ensures |AdviceText(AddLink)| == 49
  {
  }
  lemma LengthOfAddSkills()
    ensures |AdviceText(AddSkills)| == 73
  {
  }
  lemma LengthOfAddEducation()
    ensures |AdviceText(AddEducation)| == 47
  {
  }
  lemma LengthOfAddExperience()
    ensures |AdviceText(AddExperience)| == 65
  {
  }
  lemma LengthOfAddMetrics()
    ensures |AdviceText(AddMetrics)| == 67
  {
  }
  lemma LengthOfReduceRepetition()
    ensures |AdviceText(ReduceRepetition)| == 72
  {
  }
  lemma LengthOfAddContent()
    ensures |AdviceText(AddContent)| == 65
  {
  }
  lemma LengthOfTrimLength()
    ensures |AdviceText(TrimLength)| == 50
  {
  }
  lemma LengthOfReduceNoise()
    ensures |AdviceText(ReduceNoise)| == 68
  {
  }

  /** Each suggestion text has the length `AdviceLength` gives. */
  lemma AdviceTextLength(a: Advice)
    ensures |AdviceText(a)| == AdviceLength(a)
  {
    match a
    case ExportTextPdf => LengthOfExportTextPdf();
    case AddEmail => LengthOfAddEmail();
    case AddPhone => LengthOfAddPhone();
    case AddLink => LengthOfAddLink();
    case AddSkills => LengthOfAddSkills();
    case AddEducation => LengthOfAddEducation();
    case AddExperience => LengthOfAddExperience();
    case AddMetrics => LengthOfAddMetrics();
    case ReduceRepetition => LengthOfReduceRepetition();
    case AddContent => LengthOfAddContent();
    case TrimLength => LengthOfTrimLength();
    case ReduceNoise => LengthOfReduceNoise();
  }

  /** Only `AddExperience` and `AddContent` share a text length. */
  lemma LengthCollision(a: Advice, b: Advice)
    requires a != b && AdviceLength(a) == AdviceLength(b)
    ensures (a == AddExperience && b == AddContent) || (a == AddContent && b == AddExperience)
  {
  }

  /** The two 65-character texts end in "used." and "ities.". */
  lemma ExperienceContentCaseless(a: Advice, b: Advice)
    requires a == AddExperience && b == AddContent
    ensures Lower(AdviceText(a)) != Lower(AdviceText(b)) && Lower(AdviceText(b)) != Lower(AdviceText(a))
  {
    LowerDiffers(AdviceText(AddExperience), AdviceText(AddContent), 63);
  }

  /** Suggestion texts of different lengths differ after lower-casing. */
  lemma LengthsCaseless(a: Advice, b: Advice)
    requires AdviceLength(a) != AdviceLength(b)
    ensures Lower(AdviceText(a)) != Lower(AdviceText(b))
  {
    AdviceTextLength(a);
    AdviceTextLength(b);
    LowerLengthDiffers(AdviceText(a), AdviceText(b));
  }

  /** Texts of distinct suggestions differ even after lower-casing. */
  lemma AdviceCaseless(a: Advice, b: Advice)
    requires a != b
    ensures Lower(AdviceText(a)) != Lower(AdviceText(b))
  {
    if AdviceLength(a) == AdviceLength(b) {
      LengthCollision(a, b);
      if a == AddExperience {
        ExperienceContentCaseless(a, b);
      } else {
        ExperienceContentCaseless(b, a);
      }
    } else {
      LengthsCaseless(a, b);
    }
  }

  /** Suggestions made in rubric order are distinct up to case. */
  lemma IncreasingCaseless(adv: seq<Advice>)
    requires Increasing(adv)
    ensures CaselessDistinct(Texts(adv))
  {
    var t := Texts(adv);
    forall i, j | 0 <= i < j < |t| ensures Lower(t[i]) != Lower(t[j]) {
      AdviceCaseless(adv[i], adv[j]);
    }
  }

  /** Concatenating two runs from consecutive rank bands keeps rubric order. */
  lemma Chain(a: seq<Advice>, b: seq<Advice>, lo: nat, mid: nat, hi: nat)
    requires lo <= mid <= hi
    requires Increasing(a) && Within(a, lo, mid) && Increasing(b) && Within(b, mid, hi)
    ensures Increasing(a + b) && Within(a + b, lo, hi)
  {
    var c := a + b;
    forall i, j | 0 <= i < j < |c| ensures Rank(c[i]) < Rank(c[j]) {
      if j < |a| {
        assert c[i] == a[i] && c[j] == a[j];
      } else if i >= |a| {
        assert c[i] == b[i - |a|] && c[j] == b[j - |a|];
      } else {
        assert c[i] == a[i] && a[i] in a;
        assert c[j] == b[j - |a|] && b[j - |a|] in b;
      }
    }
    forall x | x in c ensures lo <= Rank(x) < hi {
      assert x in a || x in b;
    }
  }

  /** In rubric order every piece of advice ranks at least as high as its position. */
  lemma {:induction false} RankAtLeastIndex(adv: seq<Advice>, i: nat)
    requires Increasing(adv) && i < |adv|
    ensures Rank(adv[i]) >= i
  {
    if i > 0 {
      RankAtLeastIndex(adv, i - 1);
    }
  }

  /** There are twelve kinds of advice, so a list in rubric order holds at most twelve. */
  lemma AtMostTwelve(adv: seq<Advice>)
    requires Increasing(adv) && Within(adv, 0, 12)
    ensures |adv| <= 12
  {
    if |adv| > 12 {
      RankAtLeastIndex(adv, 12);
    }
  }

  /**
   * The suggestion list: the texts of the advice, first spelling of each
   * lower-cased text kept, cut at twelve. Advice in rubric order loses nothing.
   */
  method SuggestionList(adv: seq<Advice>) returns (s: seq<string>)
    requires Increasing(adv) && Within(adv, 0, 12)
    ensures s == Texts(adv) && |s| == |adv| <= 12
    ensures CaselessDistinct(s)
  {
    var raw := Texts(adv);
    IncreasingCaseless(adv);
    AtMostTwelve(adv);
    var dedup := DedupCaseless(raw);
    FirstSpellingsOfDistinct(raw);
    s := Take(dedup, 12);
  }

  // ---------------------------------------------------------------- the dashboard

  function SectionCount(detected: map<string, nat>, key: string): nat {
    if key in detected then detected[key] else 0
  }

  /** `text.count("    ")`: non-overlapping runs of four spaces, scanned left to right. */
  function QuadSpaces(text: string): (n: nat)
    ensures 4 * n <= |text|
  {
    if |text| < 4 then 0
    else if text[..4] == "    " then 1 + QuadSpaces(text[4..])
    else QuadSpaces(text[1..])
  }

  const ColumnsAbove: nat := 160

  /** The seven-element list `[a, b, c, d, e, f, g]`. */
  function Seven<T>(a: T, b: T, c: T, d: T, e: T, f: T, g: T): (r: seq<T>)
    ensures |r| == 7 && r[0] == a && r[1] == b && r[2] == c && r[3] == d && r[4] == e && r[5] == f && r[6] == g
  {
    [a, b, c, d, e, f, g]
  }

  /** The weighted sum of seven scores, written out. */
  lemma WeightedSeven(s: seq<nat>)
    requires |s| == 7
    ensures Weighted(Weights, s) == 30 * s[0] + 15 * s[1] + 15 * s[2] + 12 * s[3] + 10 * s[4] + 10 * s[5] + 8 * s[6]
  {
    assert Weighted(Weights[6..], s[6..]) == 8 * s[6];
    assert Weighted(Weights[5..], s[5..]) == 10 * s[5] + Weighted(Weights[6..], s[6..]);
    assert Weighted(Weights[4..], s[4..]) == 10 * s[4] + Weighted(Weights[5..], s[5..]);
    assert Weighted(Weights[3..], s[3..]) == 12 * s[3] + Weighted(Weights[4..], s[4..]);
    assert Weighted(Weights[2..], s[2..]) == 15 * s[2] + Weighted(Weights[3..], s[3..]);
    assert Weighted(Weights[1..], s[1..]) == 15 * s[1] + Weighted(Weights[2..], s[2..]);
  }

  /** Whatever the resume, the overall score lies between 38 and 94. */
  lemma OverallRange(scores: seq<nat>)
    requires |scores| == 7
    requires 30 <= scores[0] <= 92 && 20 <= scores[1] <= 100 && 10 <= scores[2] <= 100 && 55 <= scores[3] <= 92
    requires 65 <= scores[4] <= 90 && 60 <= scores[5] <= 92 && 65 <= scores[6] <= 86
    ensures 38 <= Overall(scores) <= 94
  {
    WeightedSeven(scores);
    assert forall i :: 0 <= i < 7 ==> scores[i] <= 100;
    RoundMonotone(3780, Weighted(Weights, scores));
    RoundMonotone(Weighted(Weights, scores), 9372);
  }

  /** When every check passes, the overall score is 94, or 92 when only the profile link is missing. */
  lemma CleanOverall(scores: seq<nat>)
    requires |scores| == 7 && scores[0] == 92 && (scores[1] == 90 || scores[1] == 100)
    requires scores[2] == 100 && scores[3] == 92 && scores[4] == 90 && scores[5] == 92 && scores[6] == 86
    ensures Overall(scores) == if scores[1] == 100 then 94 else 92
  {
    assert forall i :: 0 <= i < 7 ==> scores[i] <= 100;
    WeightedSeven(scores);
  }

  /** The outcomes of the seven checks, in dashboard order. */
  datatype Review = Review(
    ats: Outcome,
    contact: Outcome,
    sections: Outcome,
    impact: Outcome,
    repetition: Outcome,
    brevity: Outcome,
    grammar: Outcome)

  /** The `checks` list of the dashboard. */
  function Items(r: Review): seq<CheckItem> {
    Seven(r.ats.item, r.contact.item, r.sections.item, r.impact.item, r.repetition.item, r.brevity.item, r.grammar.item)
  }

  /** The check scores, in the order `Weights` weighs them. */
  function Scores(r: Review): (s: seq<nat>)
    ensures |s| == 7
  {
    Seven(r.ats.item.score, r.contact.item.score, r.sections.item.score, r.impact.item.score,
      r.repetition.item.score, r.brevity.item.score, r.grammar.item.score)
  }

  /** The number of issues the dashboard reports: the sum over the seven checks. */
  function IssueTotal(r: Review): nat {
    r.ats.issues + r.contact.issues + r.sections.issues + r.impact.issues
      + r.repetition.issues + r.brevity.issues + r.grammar.issues
  }

  /** The suggestions of the seven checks, concatenated in check order. */
  function AllAdvice(r: Review): seq<Advice> {
    r.ats.advice + r.contact.advice + r.sections.advice + r.impact.advice
      + r.repetition.advice + r.brevity.advice + r.grammar.advice
  }

  /** The advice of the seven checks, collected in check order, is in rubric order. */
  lemma RubricOrder(r: Review)
    requires Consistent(r)
    ensures Increasing(AllAdvice(r)) && Within(AllAdvice(r), 0, 12)
  {
    var a01 := r.ats.advice + r.contact.advice;
    Chain(r.ats.advice, r.contact.advice, 0, 1, 4);
    Chain(a01, r.sections.advice, 0, 4, 7);
    Chain(a01 + r.sections.advice, r.impact.advice, 0, 7, 8);
    Chain(a01 + r.sections.advice + r.impact.advice, r.repetition.advice, 0, 8, 9);
    Chain(a01 + r.sections.advice + r.impact.advice + r.repetition.advice, r.brevity.advice, 0, 9, 11);
    Chain(a01 + r.sections.advice + r.impact.advice + r.repetition.advice + r.brevity.advice, r.grammar.advice, 0, 11, 12);
  }

  /** Each check sits in its own slot of the dashboard. */
  predicate Keyed(r: Review) {
    && r.ats.item.key == AtsParse && r.contact.item.key == ContactDetails && r.sections.item.key == SectionsFound
    && r.impact.item.key == Impact && r.repetition.item.key == Repetition && r.brevity.item.key == Brevity
    && r.grammar.item.key == Grammar
  }

  /**
   * What the seven checks guarantee together: each is sound; each score lies
   * in its check's band and is the band's passing value when the check
   * passes; the issue counts are bounded; every check but the contact one
   * gives one suggestion per issue; and the suggestions come in rubric order.
   */
  predicate Consistent(r: Review) {
    && Fits(r.ats, 30, 92, 1, 0, 1)
    && ContactFits(r.contact)
    && Fits(r.sections, 10, 100, 3, 4, 7)
    && Fits(r.impact, 55, 92, 1, 7, 8)
    && Fits(r.repetition, 65, 90, 1, 8, 9)
    && Fits(r.brevity, 60, 92, 1, 9, 11)
    && Fits(r.grammar, 65, 86, 1, 11, 12)
  }

  /** The two checks that read the structured profile: contact details and sections. */
  method ProfileChecks(p: Profile) returns (contact: Outcome, sections: Outcome)
    ensures ContactFits(contact) && contact.item.key == ContactDetails
    ensures Fits(sections, 10, 100, 3, 4, 7) && sections.item.key == SectionsFound
    ensures contact.item.score == 100 - (if p.contacts.emails == [] then 45 else 0) - (if p.contacts.phones == [] then 25 else 0)
      - (if p.contacts.linkedin == [] && p.contacts.github == [] && p.contacts.portfolio == [] then 10 else 0)
    ensures contact.issues == (if p.contacts.emails == [] then 1 else 0) + (if p.contacts.phones == [] then 1 else 0)
    ensures |contact.advice| == contact.issues
      + (if p.contacts.linkedin == [] && p.contacts.github == [] && p.contacts.portfolio == [] then 1 else 0)
    ensures sections.item.score == 100 - (if SectionCount(p.sectionsDetected, "skills") == 0 then 35 else 0)
      - (if SectionCount(p.sectionsDetected, "education") == 0 then 20 else 0)
      - (if SectionCount(p.sectionsDetected, "experience") == 0 && SectionCount(p.sectionsDetected, "projects") == 0 then 35 else 0)
    ensures contact.item.status == StatusOf(contact.item.score) && sections.item.status == StatusOf(sections.item.score)
    ensures contact == ContactCheck(p.contacts.emails != [], p.contacts.phones != [],
      p.contacts.linkedin != [] || p.contacts.github != [] || p.contacts.portfolio != [])
    ensures sections == SectionsCheck(SectionCount(p.sectionsDetected, "skills") > 0,
      SectionCount(p.sectionsDetected, "education") > 0,
      SectionCount(p.sectionsDetected, "experience") > 0 || SectionCount(p.sectionsDetected, "projects") > 0)
  {
    var c := p.contacts;
    var sec := p.sectionsDetected;
    contact := ContactCheck(c.emails != [], c.phones != [], c.linkedin != [] || c.github != [] || c.portfolio != []);
    sections := SectionsCheck(SectionCount(sec, "skills") > 0, SectionCount(sec, "education") > 0,
      SectionCount(sec, "experience") > 0 || SectionCount(sec, "projects") > 0);
  }

  /** The five checks that read the raw text and its counts. */
  method TextChecks(text: string, counts: TextCounts, meta: ExtractionMeta)
    returns (ats: Outcome, impact: Outcome, repetition: Outcome, brevity: Outcome, grammar: Outcome)
    ensures Fits(ats, 30, 92, 1, 0, 1) && ats.item.key == AtsParse
    ensures Fits(impact, 55, 92, 1, 7, 8) && impact.item.key == Impact
    ensures Fits(repetition, 65, 90, 1, 8, 9) && repetition.item.key == Repetition
    ensures Fits(brevity, 60, 92, 1, 9, 11) && brevity.item.key == Brevity
    ensures Fits(grammar, 65, 86, 1, 11, 12) && grammar.item.key == Grammar
    ensures LikelyScanned(|text|, meta.primary) <==> ats.item.status == Fail
    ensures LikelyScanned(|text|, meta.primary) ==> ats.item.score == 30
    ensures impact.issues == 1 <==> counts.numberTokens < FewNumbersBelow
    ensures repetition.issues == 1 <==> Repetitive(counts.words)
    ensures brevity.issues == 1 <==> |counts.words| < ShortBelowWords || |counts.words| > LongAboveWords
    ensures grammar.issues == 1 <==> counts.capsWords > CapsAbove || counts.weirdSymbols > SymbolsAbove
    ensures !LikelyScanned(|text|, meta.primary) ==> ats.item.status == Pass && ats.item.score == 92
    ensures impact.issues == 1 ==> impact.item.status == Warn && impact.item.score == 55
    ensures repetition.issues == 1 ==> repetition.item.status == Warn && repetition.item.score == 65
    ensures |counts.words| < ShortBelowWords ==> brevity.item.status == Warn && brevity.item.score == 62
    ensures |counts.words| > LongAboveWords ==> brevity.item.status == Warn && brevity.item.score == 60
    ensures grammar.issues == 1 ==> grammar.item.status == Warn && grammar.item.score == 65
    ensures ats == AtsParseCheck(LikelyScanned(|text|, meta.primary)) && impact == ImpactCheck(counts.numberTokens)
    ensures repetition == RepetitionCheck(counts.words) && brevity == BrevityCheck(|counts.words|)
    ensures grammar == GrammarCheck(counts.capsWords, counts.weirdSymbols)
  {
    ats := AtsParseCheck(LikelyScanned(|text|, meta.primary));
    impact := ImpactCheck(counts.numberTokens);
    repetition := RepetitionCheck(counts.words);
    brevity := BrevityCheck(|counts.words|);
    grammar := GrammarCheck(counts.capsWords, counts.weirdSymbols);
  }

  /**
   * The seven outcomes of one resume, each computed by its own check from
   * the raw text, the regex-derived counts, the extraction metadata and the
   * profile.
   */
  function ReviewOf(text: string, counts: TextCounts, meta: ExtractionMeta, p: Profile): Review {
    var c := p.contacts;
    var sec := p.sectionsDetected;
    Review(
      AtsParseCheck(LikelyScanned(|text|, meta.primary)),
      ContactCheck(c.emails != [], c.phones != [], c.linkedin != [] || c.github != [] || c.portfolio != []),
      SectionsCheck(SectionCount(sec, "skills") > 0, SectionCount(sec, "education") > 0,
        SectionCount(sec, "experience") > 0 || SectionCount(sec, "projects") > 0),
      ImpactCheck(counts.numberTokens),
      RepetitionCheck(counts.words),
      BrevityCheck(|counts.words|),
      GrammarCheck(counts.capsWords, counts.weirdSymbols))
  }

  /**
   * How the seven checks of a dashboard follow from the resume, check by
   * check in dashboard order: the contact and sections statuses follow the
   * 85/60 thresholds, the parse check passes at 92 unless the document
   * looks scanned, and each of the last four checks passes exactly when its
   * counts are within its limits and otherwise warns at its fixed score.
   */
  predicate ChecksFollow(c: seq<CheckItem>, text: string, counts: TextCounts, meta: ExtractionMeta) {
    && |c| == 7
    && c[1].status == StatusOf(c[1].score) && c[2].status == StatusOf(c[2].score)
    && (!LikelyScanned(|text|, meta.primary) ==> c[0].status == Pass && c[0].score == 92)
    && (c[3].status == Pass <==> counts.numberTokens >= FewNumbersBelow)
    && (c[3].status != Pass ==> c[3].status == Warn && c[3].score == 55)
    && (c[4].status == Pass <==> !Repetitive(counts.words))
    && (c[4].status != Pass ==> c[4].status == Warn && c[4].score == 65)
    && (c[5].status == Pass <==> ShortBelowWords <= |counts.words| <= LongAboveWords)
    && (|counts.words| < ShortBelowWords ==> c[5].status == Warn && c[5].score == 62)
    && (|counts.words| > LongAboveWords ==> c[5].status == Warn && c[5].score == 60)
    && (c[6].status == Pass <==> counts.capsWords <= CapsAbove && counts.weirdSymbols <= SymbolsAbove)
    && (c[6].status != Pass ==> c[6].status == Warn && c[6].score == 65)
  }

  /** The outcomes the seven checks compute for a resume follow it as `ChecksFollow` says. */
  lemma ReviewFacts(text: string, counts: TextCounts, meta: ExtractionMeta, p: Profile)
    ensures ChecksFollow(Items(ReviewOf(text, counts, meta, p)), text, counts, meta)
  {
  }

  /**
   * The seven checks run on one resume, in dashboard order, with the
   * regex-derived counts and the profile as inputs.
   */
  method RunChecks(text: string, counts: TextCounts, meta: ExtractionMeta, p: Profile) returns (r: Review)
    ensures Keyed(r) && Consistent(r)
    ensures LikelyScanned(|text|, meta.primary) <==> r.ats.item.status == Fail
    ensures LikelyScanned(|text|, meta.primary) ==> r.ats.item.score == 30
    ensures r.contact.item.score == 100 - (if p.contacts.emails == [] then 45 else 0) - (if p.contacts.phones == [] then 25 else 0)
      - (if p.contacts.linkedin == [] && p.contacts.github == [] && p.contacts.portfolio == [] then 10 else 0)
    ensures r.contact.issues == (if p.contacts.emails == [] then 1 else 0) + (if p.contacts.phones == [] then 1 else 0)
    ensures |r.contact.advice| == r.contact.issues
      + (if p.contacts.linkedin == [] && p.contacts.github == [] && p.contacts.portfolio == [] then 1 else 0)
    ensures r.sections.item.score == 100 - (if SectionCount(p.sectionsDetected, "skills") == 0 then 35 else 0)
      - (if SectionCount(p.sectionsDetected, "education") == 0 then 20 else 0)
      - (if SectionCount(p.sectionsDetected, "experience") == 0 && SectionCount(p.sectionsDetected, "projects") == 0 then 35 else 0)
    ensures r.impact.issues == 1 <==> counts.numberTokens < FewNumbersBelow
    ensures r.repetition.issues == 1 <==> Repetitive(counts.words)
    ensures r.brevity.issues == 1 <==> |counts.words| < ShortBelowWords || |counts.words| > LongAboveWords
    ensures r.grammar.issues == 1 <==> counts.capsWords > CapsAbove || counts.weirdSymbols > SymbolsAbove
    ensures r == ReviewOf(text, counts, meta, p)
  {
    var ats, impact, repetition, brevity, grammar := TextChecks(text, counts, meta);
    var contact, sections := ProfileChecks(p);
    r := Review(ats, contact, sections, impact, repetition, brevity, grammar);
  }

  /** The issue total is zero exactly when all seven checks pass, and never more than ten. */
  lemma IssueTally(r: Review)
    requires Consistent(r)
    ensures IssueTotal(r) <= 10
    ensures IssueTotal(r) == 0 <==> forall i :: 0 <= i < 7 ==> Items(r)[i].status == Pass
    ensures forall i :: 0 <= i < 7 ==> Graded(Items(r)[i])
  {
    var items := Items(r);
    assert items[0] == r.ats.item && items[1] == r.contact.item && items[2] == r.sections.item;
    assert items[3] == r.impact.item && items[4] == r.repetition.item && items[5] == r.brevity.item;
    assert items[6] == r.grammar.item;
  }

  /**
   * The overall score lies between 38 and 94; with no issue at all it is 94,
   * or 92 when the profile link is missing.
   */
  lemma OverallFacts(r: Review)
    requires Consistent(r)
    ensures 38 <= Overall(Scores(r)) <= 94
    ensures IssueTotal(r) == 0 ==> Overall(Scores(r)) == if r.contact.item.score == 100 then 94 else 92
  {
    OverallRange(Scores(r));
    if IssueTotal(r) == 0 {
      CleanOverall(Scores(r));
    }
  }

  /** Every check but the contact one gives one suggestion per issue. */
  lemma AdviceTally(r: Review)
    requires Consistent(r)
    ensures |AllAdvice(r)| == IssueTotal(r) + (|r.contact.advice| - r.contact.issues)
  {
  }

  /**
   * The dashboard assembled from the seven outcomes: the issue total, the
   * weighted overall score and its grade, the ATS verdict and the suggestions.
   */
  method Dashboard(r: Review, suggestions: seq<string>, signals: Signals) returns (d: DashboardScore)
    requires Consistent(r)
    requires suggestions == Texts(AllAdvice(r))
    ensures d.checks == Items(r) && d.issues == IssueTotal(r) && d.atsParseRate == r.ats.item.score
    ensures forall i :: 0 <= i < 7 ==> Graded(d.checks[i])
    ensures d.issues <= 10
    ensures d.issues == 0 <==> forall i :: 0 <= i < 7 ==> d.checks[i].status == Pass
    ensures d.score == Overall(Scores(r))
    ensures 38 <= d.score <= 94 && d.grade == GradeOf(d.score)
    ensures d.atsFriendly <==> d.atsParseRate >= FriendlyParseAt && d.score >= FriendlyScoreAt
    ensures d.issues == 0 ==> d.score == (if r.contact.item.score == 100 then 94 else 92) && d.grade == Excellent && d.atsFriendly
    ensures CaselessDistinct(d.suggestions) && |d.suggestions| <= 12
    ensures |d.suggestions| == d.issues + (|r.contact.advice| - r.contact.issues)
    ensures d.signals == signals && d.suggestions == suggestions
  {
    IssueTally(r);
    OverallFacts(r);
    AdviceTally(r);
    RubricOrder(r);
    IncreasingCaseless(AllAdvice(r));
    AtMostTwelve(AllAdvice(r));
    var overall := Overall(Scores(r));
    d := DashboardScore(overall, IssueTotal(r), r.ats.item.score, Items(r),
      r.ats.item.score >= FriendlyParseAt && overall >= FriendlyScoreAt, GradeOf(overall), suggestions, signals);
  }

  /**
   * A dashboard whose checks are the outcomes computed for a resume reports
   * them in dashboard order, scores by their weighted sum, and reads the
   * parse rate off the first check.
   */
  lemma ChecksOfResume(d: DashboardScore, r: Review, text: string, counts: TextCounts, meta: ExtractionMeta, p: Profile)
    requires r == ReviewOf(text, counts, meta, p)
    requires d.checks == Items(r) && d.atsParseRate == r.ats.item.score && d.score == Overall(Scores(r))
    ensures |d.checks| == 7
    ensures d.checks[0].key == AtsParse && d.checks[1].key == ContactDetails && d.checks[2].key == SectionsFound
    ensures d.checks[3].key == Impact && d.checks[4].key == Repetition && d.checks[5].key == Brevity
    ensures d.checks[6].key == Grammar
    ensures d.score == Overall(Seven(d.checks[0].score, d.checks[1].score, d.checks[2].score, d.checks[3].score,
      d.checks[4].score, d.checks[5].score, d.checks[6].score))
    ensures d.atsParseRate == d.checks[0].score && ChecksFollow(d.checks, text, counts, meta)
    ensures d.checks[1].score == 100 - (if p.contacts.emails == [] then 45 else 0) - (if p.contacts.phones == [] then 25 else 0)
      - (if p.contacts.linkedin == [] && p.contacts.github == [] && p.contacts.portfolio == [] then 10 else 0)
    ensures d.checks[2].score == 100 - (if SectionCount(p.sectionsDetected, "skills") == 0 then 35 else 0)
      - (if SectionCount(p.sectionsDetected, "education") == 0 then 20 else 0)
      - (if SectionCount(p.sectionsDetected, "experience") == 0 && SectionCount(p.sectionsDetected, "projects") == 0 then 35 else 0)
  {
    ReviewFacts(text, counts, meta, p);
  }

  /** The `signals` dictionary of `compute_dashboard`. */
  function SignalsOf(text: string, counts: TextCounts, meta: ExtractionMeta, pymupdfAvailable: bool): (s: Signals)
    ensures s.likelyScanned == LikelyScanned(|text|, meta.primary)
    ensures s.pages >= 1 && s.charCount == |text| && s.wordCount == |counts.words|
    ensures s.possibleColumns <==> QuadSpaces(text) > ColumnsAbove
  {
    var primary := meta.primary;
    Signals(
      PagesOf(primary), |counts.words|, LikelyScanned(|text|, primary), QuadSpaces(text) > ColumnsAbove,
      counts.bulletCount, counts.dateMentions, |text|,
      if primary.Some? then Some(primary.value.extractor) else None, pymupdfAvailable)
  }

  /**
   * `compute_dashboard`. The suggestion loop keeps the first spelling of each
   * lower-cased text and the list is cut at twelve.
   */
  method ComputeDashboard(text: string, counts: TextCounts, meta: ExtractionMeta, pymupdfAvailable: bool, p: Profile)
    returns (d: DashboardScore)
    ensures |d.checks| == 7
    ensures d.checks[0].key == AtsParse && d.checks[1].key == ContactDetails && d.checks[2].key == SectionsFound
    ensures d.checks[3].key == Impact && d.checks[4].key == Repetition && d.checks[5].key == Brevity
    ensures d.checks[6].key == Grammar
    ensures forall i :: 0 <= i < 7 ==> Graded(d.checks[i])
    ensures d.issues <= 10
    ensures d.issues == 0 <==> forall i :: 0 <= i < 7 ==> d.checks[i].status == Pass
    ensures 38 <= d.score <= 94 && d.grade == GradeOf(d.score)
    ensures d.atsFriendly <==> d.atsParseRate >= FriendlyParseAt && d.score >= FriendlyScoreAt
    ensures d.signals == SignalsOf(text, counts, meta, pymupdfAvailable)
    ensures d.signals.likelyScanned == LikelyScanned(|text|, meta.primary)
    ensures d.signals.likelyScanned ==> d.atsParseRate == 30 && d.checks[0].status == Fail && !d.atsFriendly
    ensures d.checks[1].score == 100 - (if p.contacts.emails == [] then 45 else 0) - (if p.contacts.phones == [] then 25 else 0)
      - (if p.contacts.linkedin == [] && p.contacts.github == [] && p.contacts.portfolio == [] then 10 else 0)
    ensures d.checks[2].score == 100 - (if SectionCount(p.sectionsDetected, "skills") == 0 then 35 else 0)
      - (if SectionCount(p.sectionsDetected, "education") == 0 then 20 else 0)
      - (if SectionCount(p.sectionsDetected, "experience") == 0 && SectionCount(p.sectionsDetected, "projects") == 0 then 35 else 0)
    ensures d.issues == 0 ==> (d.score == 92 || d.score == 94) && d.grade == Excellent && d.atsFriendly
    ensures CaselessDistinct(d.suggestions) && |d.suggestions| <= 12
    ensures |d.suggestions| == d.issues
      + (if p.contacts.linkedin == [] && p.contacts.github == [] && p.contacts.portfolio == [] then 1 else 0)
    ensures d.checks == Items(ReviewOf(text, counts, meta, p))
    ensures d.suggestions == Texts(AllAdvice(ReviewOf(text, counts, meta, p)))
    ensures d.score == Overall(Seven(d.checks[0].score, d.checks[1].score, d.checks[2].score, d.checks[3].score,
      d.checks[4].score, d.checks[5].score, d.checks[6].score))
    ensures d.atsParseRate == d.checks[0].score && ChecksFollow(d.checks, text, counts, meta)
  {
    var r := RunChecks(text, counts, meta, p);
    RubricOrder(r);
    var suggestions := SuggestionList(AllAdvice(r));
    var signals := SignalsOf(text, counts, meta, pymupdfAvailable);
    d := Dashboard(r, suggestions, signals);
    ChecksOfResume(d, r, text, counts, meta, p);
  }
}
