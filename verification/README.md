# ATS CV checker: the resume analysis engine in Dafny

This project models the analysis core of the ATS CV checker service, `backend/app.py`. That core has two parts.

The first part turns the text of an uploaded resume into a structured profile:
- `normalize`, `lines_from_text` and `guess_name`;
- the post-processing that `find_contacts` applies to its regular-expression matches;
- `sectionize`, `split_skills` and `extract_structured`.

The second part scores that text and profile into a dashboard, `compute_dashboard`:
- seven checks, each with a score, a pass/warn/fail status and a note;
- an issue count, and a weighted overall score with its grade;
- the `ats_friendly` verdict;
- the case-insensitively de-duplicated suggestions, capped at twelve;
- the layout signals.

The rule `extract_text_from_pdf` uses to choose between its two extractors is modelled as well.

Each module follows one part of the service:

| module | part of the service |
|---|---|
| `Text` | Python's string primitives: `isspace`, `splitlines`, `lower`, `strip`, the `\s+` collapse of `normalize`, `split` and `join` |
| `Whitespace` | the no-argument `str.split()`, and `normalize` as `" ".join(s.split())` |
| `Lines` | `lines_from_text` |
| `Names` | `guess_name` |
| `Ordering` | Python's string order and `sorted(set(...))` |
| `Contacts` | `find_contacts` |
| `Sections` | `sectionize` and its alias table |
| `Dedup` | the first-spelling de-duplication loop, used for both skills and suggestions |
| `Skills` | `split_skills` |
| `Structured` | `extract_structured` |
| `Extraction` | the extractor choice |
| `Scoring` | `compute_dashboard` |

Several operations also have a reference definition in the model, and a proof connects the loop to it:
- The section scan is proved against a reference definition, `LinesUnder`: the lines whose most recent heading opened that section.
- The de-duplication loop is proved against `FirstSpellings`.
- The contact lists are proved to be the `k` smallest distinct values of their pools.
- Among the round trips: `Split` undoes `Join` on clean lines, and `ReadNat` undoes `ShowNat`.
- `Normalize` is proved equal to `" ".join(s.split())`, idempotent, and to keep every visible character.
- The seven checks are collected in `ReviewOf`, and the dashboard is proved to report exactly their outcomes and suggestions.

The weighted score is computed exactly, in hundredths of a point. It is then rounded half to even, as Python's `round` does on an exact value. The service sums floats instead, and on some exact ties that moves its score one point up; "## Left out" says where.

## Model

| member | source | states |
|---|---|---|
| Text.StripBy | backend/app.py:141 | `strip(chars)` leaves no removable character at either end, is empty only when every character is removable, and introduces no character |
| Text.StripBySlice | backend/app.py:141 | `strip(chars)` returns one contiguous slice of its input, and every character cut before and after that slice is removable |
| Text.Normalize | backend/app.py:130-131 | `normalize` yields single-spaced text with no whitespace at either end, and keeps every non-whitespace character in order |
| Text.NormalizeChars | backend/app.py:130-131 | `normalize` introduces no character except the plain space |
| Text.NormalizeFixed | backend/app.py:130-131 | text that is already single-spaced and stripped is unchanged by `normalize` |
| Text.NormalizeIdempotent | backend/app.py:130-131 | `normalize(normalize(s)) == normalize(s)` |
| Whitespace.NormalizeJoinsWords | backend/app.py:130-131 | `normalize(s)` equals `" ".join(s.split())`: the maximal runs of non-whitespace characters of `s`, in order, separated by single spaces |
| Text.NormalizeNonEmpty | backend/app.py:212-214 | a piece with a visible character does not normalize to the empty string, so it is not dropped as blank |
| Text.CollapseVisible | backend/app.py:131 | collapsing whitespace runs keeps every visible character, in order |
| Text.CollapseFixed | backend/app.py:131 | a single-spaced string has no whitespace run to collapse |
| Text.SplitJoin | backend/app.py:135 | splitting at a separator class undoes joining with one separator, when no piece holds a separator |
| Text.ShowNat | backend/app.py:404 | the count printed in the repetition note is a non-empty digit string with no leading zero |
| Text.ReadShowNat | backend/app.py:404 | the printed count reads back as the count |
| Lines.StripNonBlank | backend/app.py:135 | a line is kept exactly when it is the non-empty stripped form of some piece; the kept lines are stripped, and hold no line break when no piece does |
| Lines.StripNonBlankAppend | backend/app.py:135 | pieces are stripped and filtered one at a time, so the kept lines keep the order and the repeats of the pieces |
| Lines.LinesFromText | backend/app.py:134-135 | a line is returned exactly when it is the non-empty stripped form of some `splitlines` piece; every line returned is non-empty, stripped, free of line breaks, and unchanged by a further `strip` |
| Lines.LinesRoundTrip | backend/app.py:134-135 | joining clean lines with newlines and running `lines_from_text` on the result gives the same lines back |
| Lines.Bare | backend/app.py:141 | the lower-cased, decoration-stripped line has no whitespace at either end and is no longer than the line |
| Names.FirstWhere | backend/app.py:140-152 | the loop returns the first index whose line passes, and nothing exactly when no line passes |
| Names.FirstPlausible | backend/app.py:140-152 | the first line passing all five name filters is found, and every earlier line fails one of them |
| Names.GuessName | backend/app.py:138-153 | a name is returned exactly when one of the first 16 lines is plausible; it is the normalized first such line |
| Ordering.LessTransitive | backend/app.py:157 | Python's string order is transitive |
| Ordering.LessTotal | backend/app.py:157 | any two distinct strings are ordered one way or the other |
| Ordering.Insert | backend/app.py:157 | inserting into a strictly sorted list keeps it strictly sorted and adds exactly the new value |
| Ordering.SortedSet | backend/app.py:157 | `sorted(set(xs))` is strictly increasing and holds exactly the values of `xs` |
| Ordering.SortedUnique | backend/app.py:157 | two strictly sorted lists with the same values are equal, so `sorted(set(xs))` is the only such list |
| Ordering.Filter | backend/app.py:159 | the comprehension keeps exactly the values that pass the test |
| Ordering.FilterSorted | backend/app.py:159 | filtering a sorted list keeps it sorted |
| Ordering.TakeSmallest | backend/app.py:159-161 | the first `k` entries of a sorted list are its `k` smallest values, and all of them when fewer were kept |
| Ordering.SmallestDistinct | backend/app.py:160-161 | `sorted(set(xs))[:k]` lists, in increasing order, the `k` smallest distinct values of `xs` |
| Contacts.SelectPhones | backend/app.py:158-159 | the phones are the at most three smallest distinct stripped matches with at least nine digits |
| Contacts.SelectPortfolio | backend/app.py:164-175 | the portfolio links are the at most two smallest distinct matches that are no LinkedIn or GitHub URL, hold no `@` and have at least ten characters |
| Contacts.FindContacts | backend/app.py:156-177 | emails are all distinct matches, sorted; phones, LinkedIn, GitHub and portfolio lists are the smallest distinct kept matches under their caps |
| Sections.AliasMap | backend/app.py:181-184 | the alias table maps exactly the lower-cased aliases, each to a section that lists it |
| Sections.HeadingKey | backend/app.py:186-190 | a line is a heading exactly when its bare form has at most 44 characters and is an alias; its section is one of the seven keys and lists that alias |
| Sections.AliasTargets | backend/app.py:119-127 | every alias maps to one of the seven section keys |
| Sections.LinesUnderStep | backend/app.py:196-201 | one more line extends at most the section it falls under, and only a heading changes the current section |
| Sections.ScanStep | backend/app.py:196-201 | one step of the loop keeps the dictionary equal to the reference sections of the lines read so far |
| Sections.ScanHeading | backend/app.py:197-200 | a heading line switches the current section and stores nothing |
| Sections.ScanLine | backend/app.py:201 | any other line is appended to the current section and to no other |
| Sections.SumUnderStep | backend/app.py:196-201 | reading one more line adds it to exactly one section, or to none if it is a heading |
| Sections.LinesAccountedFor | backend/app.py:196-201 | every line is either a heading or stored under exactly one of the eight keys |
| Sections.Sectionize | backend/app.py:180-202 | the result has the eight keys, each holding, in order, the non-heading lines whose latest heading opened it; no heading is stored and every other line is stored once |
| Dedup.FirstSpellingsFrom | backend/app.py:218-224 | every kept entry comes from the input |
| Dedup.FirstSpellingsDistinct | backend/app.py:218-224 | the kept entries are distinct up to case |
| Dedup.FirstSpellingsCover | backend/app.py:218-224 | every entry of the input is represented, up to case, among the kept entries |
| Dedup.FirstSpellingsOfDistinct | backend/app.py:474-481 | a list already distinct up to case passes through unchanged |
| Dedup.DedupCaseless | backend/app.py:474-481 | the `seen`-set loop keeps the first spelling of each lower-cased key; the result is distinct up to case, drawn from the input, and covers every input entry |
| Skills.CleanPiece | backend/app.py:211-217 | a piece is kept exactly when its normal form is non-empty and at most 45 characters long; it is kept normalized |
| Skills.CleanPieces | backend/app.py:210-217 | the kept pieces of separator-free input are non-empty, normalized, at most 45 characters long and separator-free |
| Skills.CleanPiecesAppend | backend/app.py:210-217 | pieces are cleaned one at a time, so the kept pieces keep the order and the repeats of the input |
| Skills.CleanPiecesMembers | backend/app.py:210-217 | a string is kept exactly when some piece cleans to it: every qualifying piece survives, in its normal form |
| Skills.SkillPieces | backend/app.py:206-217 | every cleaned piece of the skills text is skill-shaped |
| Skills.CappedFirstSpellings | backend/app.py:218-225 | the capped list has at most `cap` entries, drawn from the input and distinct up to case, and covers the input when it was not cut |
| Skills.SplitSkills | backend/app.py:205-225 | at most 70 skill-shaped pieces, distinct up to case, with the first spelling kept; every piece is represented when fewer than 70 are returned |
| Extraction.ChooseExtraction | backend/app.py:86-92 | PyMuPDF's text is kept unless it has fewer than 200 characters; then the longer of the two texts wins, and pdfplumber's text becomes primary only when it is strictly longer, so PyMuPDF keeps an equal-length tie; when PyMuPDF's text is kept, its metadata stays primary, with pdfplumber's as the fallback exactly when pdfplumber was consulted |
| Structured.Block | backend/app.py:240-241 | a section's text is empty exactly when the section holds no line |
| Structured.About | backend/app.py:234-236 | `about` is normalized, and empty exactly when there is no summary line |
| Structured.SectionsWellFormed | backend/app.py:254 | each of the seven named sections is counted in `sections_detected`, with the size of its reference section; the map behind the counts has exactly the eight keys and only clean lines |
| Structured.SectionizeClean | backend/app.py:232 | each section of the map the profile is built from is its reference section, the lines whose latest heading opened it; the map is well formed and its counts are the reference sizes |
| Structured.Assemble | backend/app.py:233-255 | `about` is the normalized first 1400 characters of the summary lines; each of the five section texts is the first lines of its section, up to its limit, joined and stripped; each is empty exactly when its count is 0; name, contacts, skills and preview are carried over |
| Structured.ExtractStructured | backend/app.py:228-255 | the profile's name, contacts and preview come from the lines; `about`, the five section texts and the skills are computed from the reference sections of the lines; the counts are the reference section sizes; each section text is empty exactly when its count is 0; skills are at most 70, distinct up to case |
| Scoring.Clamp | backend/app.py:280-281 | the result lies within the bounds, equals the value inside them, the upper bound above them and the lower bound below them |
| Scoring.PagesOf | backend/app.py:293 | the page count is the recorded count when that is positive, and 1 when it is missing or zero |
| Scoring.LikelyScannedMeansLowAverage | backend/app.py:294-296 | the integer test is the source's test on the real-valued average characters per page |
| Scoring.AtsParseCheck | backend/app.py:320-328 | a scanned-looking document fails at 30 with one issue; otherwise the check passes at 92 |
| Scoring.ContactCheck | backend/app.py:330-355 | 45, 25 and 10 points are deducted for a missing email, phone and link; only the first two count as issues; the status follows the 85/60 thresholds |
| Scoring.SectionsCheck | backend/app.py:357-375 | 35, 20 and 35 points are deducted for missing skills, education and experience-or-projects, each an issue; the status follows the 85/60 thresholds |
| Scoring.ImpactCheck | backend/app.py:377-390 | fewer than 6 number tokens is a warning at 55 with one issue; otherwise a pass at 92 |
| Scoring.LongWordsLowered | backend/app.py:394 | a string is kept exactly when it is the lowered form of an input word of at least four characters |
| Scoring.LongWordsAppend | backend/app.py:394 | words are filtered and lowered one at a time, so the result keeps the order and the repeats of the input, as the frequency count needs |
| Scoring.Occurrences | backend/app.py:395-397 | a word's frequency is positive exactly when it occurs |
| Scoring.TopIndex | backend/app.py:398 | the head of the stably sorted frequency table is the first word with the highest count |
| Scoring.TopWord | backend/app.py:395-398 | `top[0]` exists exactly when there are long words; no long word is more frequent than it, and on a tie it is the word met first, since every word before its first occurrence is strictly less frequent |
| Scoring.TopWordEarliest | backend/app.py:395-404 | the tie-break pins the word the repetition note names: a word as frequent as `top[0]` and preceded only by less frequent words is `top[0]` |
| Scoring.TopWordDecidesRepetition | backend/app.py:398-401 | checking only the head of the table finds a word used 18 times or more exactly when one exists |
| Scoring.RepetitionOutcome | backend/app.py:399-409 | a head count of 18 or more is a warning at 65 naming the word and its count; otherwise a pass at 90 |
| Scoring.RepetitionCheck | backend/app.py:392-409 | the check raises an issue exactly when some long word occurs at least 18 times |
| Scoring.BrevityCheck | backend/app.py:411-428 | under 220 or over 1200 words is a warning with one issue; otherwise a pass at 92 |
| Scoring.GrammarCheck | backend/app.py:430-446 | more than 25 all-caps words or more than 80 odd symbols is a warning at 65; otherwise a pass at 86 |
| Scoring.WeightedSeven | backend/app.py:449-457 | the weighted sum is `30, 15, 15, 12, 10, 10, 8` hundredths of the seven scores |
| Scoring.WeightedAtMost100 | backend/app.py:449-458 | with every score at most 100 the weighted sum is at most 100 points |
| Scoring.RoundHundredths | backend/app.py:458 | `round` gives the nearest integer, and the even one on a tie |
| Scoring.RoundMonotone | backend/app.py:458 | rounding keeps order |
| Scoring.Overall | backend/app.py:448-458 | the overall score is at most 100 and is the rounded weighted sum when every score is at most 100 |
| Scoring.GradeMonotone | backend/app.py:462-471 | a higher score never earns a lower grade |
| Scoring.GradeBands | backend/app.py:462-471 | Excellent is exactly 90 and above, Needs work exactly below 60, and the grades between cover ten points each |
| Scoring.AdviceTextLength | backend/app.py:324-441 | each suggestion text has its tabulated length |
| Scoring.LengthCollision | backend/app.py:372-418 | only the experience/projects and more-content suggestions share a text length |
| Scoring.AdviceCaseless | backend/app.py:473-481 | the texts of two different suggestions differ even after lower-casing, so the de-duplication never merges them |
| Scoring.IncreasingCaseless | backend/app.py:473-481 | suggestions made in rubric order are distinct up to case |
| Scoring.Chain | backend/app.py:317-446 | appending the suggestions of a later check keeps rubric order |
| Scoring.RankAtLeastIndex | backend/app.py:473-490 | in rubric order, the suggestion at position `i` has rank at least `i` |
| Scoring.AtMostTwelve | backend/app.py:490 | no more than twelve suggestions can be made, so the cut at twelve never drops one |
| Scoring.SuggestionList | backend/app.py:473-490 | the de-duplicated, capped list is exactly the texts of the suggestions made, distinct up to case and at most twelve |
| Scoring.QuadSpaces | backend/app.py:300 | the non-overlapping four-space runs fit in the text |
| Scoring.OverallRange | backend/app.py:448-458 | whatever the resume, the overall score lies between 38 and 94 |
| Scoring.CleanOverall | backend/app.py:448-458 | when every check passes, the overall score is 94, or 92 without a profile link |
| Scoring.RubricOrder | backend/app.py:317-446 | the suggestions of the seven checks, collected in check order, are in rubric order |
| Scoring.ProfileChecks | backend/app.py:330-375 | the contact and sections checks score and count issues by the deduction rules on the profile, and their statuses follow the 85/60 thresholds |
| Scoring.TextChecks | backend/app.py:320-446 | the five text checks raise an issue exactly under their thresholds, each warning at its fixed score; the parse check fails at 30 exactly on a scanned-looking document and passes at 92 otherwise |
| Scoring.RunChecks | backend/app.py:315-446 | the seven outcomes are those the seven checks compute for the resume, in dashboard order, and each fits its check's score band and issue rules |
| Scoring.ReviewFacts | backend/app.py:317-446 | check by check: the contact and sections statuses follow the 85/60 thresholds, the parse check passes at 92 unless the document looks scanned, and each of the last four checks passes exactly when its counts are within its limits and otherwise warns at its fixed score |
| Scoring.ChecksOfResume | backend/app.py:448-492 | a dashboard built from a resume's outcomes lists its checks in dashboard order, scores by the weighted sum of their scores, takes the parse rate from the first check, and has the contact and sections scores of the deduction rules |
| Scoring.IssueTally | backend/app.py:318-446 | the issue total is at most 10, and 0 exactly when all seven checks pass |
| Scoring.OverallFacts | backend/app.py:448-458 | the overall score lies between 38 and 94, and is 94 or 92 with no issue |
| Scoring.AdviceTally | backend/app.py:317-446 | there is one suggestion per issue, plus one for a missing profile link |
| Scoring.Dashboard | backend/app.py:448-492 | the dashboard's score, grade, verdict and issue total agree with the seven outcomes, and its suggestions are the de-duplicated list it is given |
| Scoring.ComputeDashboard | backend/app.py:284-492 | as stated below the table |

`Scoring.ComputeDashboard` states the following about the dashboard:
- Its seven checks are the outcomes of the seven checks on the resume, in fixed order, each graded by its score.
- The score is the rounded weighted sum of the seven check scores; it lies between 38 and 94 and carries its grade.
- The issue total is at most 10, and 0 exactly when every check passes.
- `ats_friendly` holds exactly when the parse rate is at least 70 and the score at least 60.
- A scanned-looking document scores 30 on parse rate, fails that check and is not ATS friendly; any other document scores 92 and passes it.
- The contact and sections scores follow their deduction rules, and their statuses the 85/60 thresholds.
- The impact, repetition, brevity and grammar checks pass exactly when their counts are within limits, and otherwise warn at 55, 65, 62 or 60, and 65.
- With no issue the score is 92 or 94, the grade is Excellent and the document is ATS friendly.
- The suggestions are exactly the texts of the checks' suggestions, in check order; they are distinct up to case, at most twelve, and there is one per issue plus one for a missing link.
- The signals are those of `SignalsOf`.

### Behaviour worth knowing

- **Repeated headings.** A heading that occurs twice resumes appending to its section.
- **Missing sections.** A missing section gives an empty list, an empty string and a count of 0, not an absent value.
- **Issue count.** `issues` counts deficiencies, not failing checks. A missing email and a missing phone are two issues, and a missing link is none.
- **ATS-friendly verdict.** `ats_friendly` depends on the parse score and the overall score. It does not ask whether any check failed.
- **Grades.** The grades are Excellent, Great, Good, Fair and Needs work.
- **Emails.** Emails are de-duplicated case-sensitively and returned sorted.
- **Preview.** The preview is the first 90 lines.
- **Portfolio.** The contacts include a portfolio list.

## Left out

- **Regular expressions.** Their semantics are left out. The raw matches of `find_contacts` are the input `ContactHits`. The word list and counts of `compute_dashboard` are the input `TextCounts`: words, number tokens, bullets, year mentions, all-caps words and odd symbols. The category-prefix substitution of `split_skills` is a function parameter.
- **Skills.SplitSkills: `re.split` on separator runs.** This is modelled as a split at every separator. The extra pieces are empty and are dropped by the blank-piece filter.
- **Unicode.** `Lower` covers ASCII and the Latin-1 capitals only. `IsDigit` is ASCII only, where Python's `isdigit` also accepts other Unicode digits, among them non-decimal ones such as superscripts, and `\D` treats every Unicode decimal digit as a digit. `IsSpace` and the line breaks follow Python's sets exactly.
- **Extraction libraries.** PDF and DOCX extraction and their libraries are left out. The extracted texts and page metadata are inputs to `ChooseExtraction` and `ComputeDashboard`.
- **PyMuPDF availability.** Whether `fitz` is importable is a boolean parameter.
- **HTTP plumbing.** The FastAPI endpoint and its file-type dispatch are left out. So is the fixed profile and dashboard that `analyze` returns when extraction yields empty text (backend/app.py:514-533); no exception is caught there.
- **Scoring.ComputeDashboard: the `avg_chars_per_page` signal.** This float, rounded to one decimal, is not in `Signals`. The scanned-document test built on the average is modelled exactly, and is proved equal to the real-valued test.
- **Scoring.Overall: floating point.** The weighted sum is exact, in hundredths of a point, and an exact `.5` rounds to even. The service evaluates `0.30 * ats_parse + … + 0.08 * grammar_score` in IEEE double precision, in source order (backend/app.py:450-458).
  - Scope: the check scores can take 2304 combinations of values. In 48 of them the exact weighted sum ends in `.5`.
  - On every one of those 48 the double-precision sum lands at or above the `.5`, never below.
  - So on 21 of them the service's score is one point higher than the model's: 40→41, 42→43, 46→47, 48→49, 52→53, 54→55, 58→59 and 60→61. All 21 have parse score 30, impact score 55 and grammar score 65.
  - The difference is always upward, and on all 2304 combinations the grade and `ats_friendly` are the same as the model's.
- **Notes and labels.** A check's note is the `Note` value; its text is `NoteText`. Its label is `Title(key)`. Keys, statuses and grades are enumerations with their strings given by `KeyName`, `StatusName` and `GradeName`.
- **Scoring.QuadSpaces: only a bound.** The contract states only that the runs counted fit in the text, `4 * n <= |text|`. The count itself is given by the definition.
- **Scoring.ContactCheck: the `issues += 0` line.** The line at backend/app.py:353-354 does nothing and is not modelled.
