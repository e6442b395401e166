/** `guess_name` (backend/app.py:138-153): the first plausible name among the first 16 lines. */
module Names {
  import opened Wrappers
  import opened Text
  import opened Lines

  const NameBlacklist: seq<string> := ["curriculum vitae", "resume", "cv"]

  /** How many lines from the top are searched for a name. */
  const NameSearchLines: nat := 16

  /** The letter class `[A-Za-zÀ-ÖØ-öø-ÿ]`. */
  predicate IsNameLetter(c: char) {
    || ('A' <= c <= 'Z') || ('a' <= c <= 'z')
    || ('\U{C0}' <= c <= '\U{D6}') || ('\U{D8}' <= c <= '\U{F6}') || ('\U{F8}' <= c <= '\U{FF}')
  }

  /** Number of maximal letter runs in `s` that start after a non-letter (or at the start when `inRun` is false). */
  function RunsAfter(s: string, inRun: bool): nat {
    if s == [] then 0
    else (if IsNameLetter(s[0]) && !inRun then 1 else 0) + RunsAfter(s[1..], IsNameLetter(s[0]))
  }

  /** `len(re.findall(r"[A-Za-zÀ-ÖØ-öø-ÿ]+", l))`: the number of maximal letter runs. */
  function LetterRuns(s: string): nat {
    RunsAfter(s, false)
  }

  /** Every filter a line must pass to be taken as the candidate's name. */
  predicate PlausibleName(l: string) {
    && !(exists b :: b in NameBlacklist && Contains(Bare(l), b))
    && '@' !in l
    && (forall c :: c in l ==> !IsDigit(c))
    && |l| <= 50
    && 2 <= LetterRuns(l) <= 4
  }

  /** Index of the first element of `xs` satisfying `p`, if any. */
  function FirstWhere<T>(xs: seq<T>, p: T -> bool): (r: Option<nat>)
    ensures r.None? <==> forall i :: 0 <= i < |xs| ==> !p(xs[i])
    ensures r.Some? ==> r.value < |xs| && p(xs[r.value])
    ensures r.Some? ==> forall j :: 0 <= j < r.value ==> !p(xs[j])
  {
    if xs == [] then None
    else if p(xs[0]) then Some(0)
    else
      var rest := FirstWhere(xs[1..], p);
      assert forall i :: 1 <= i < |xs| ==> xs[i] == xs[1..][i - 1];
      if rest.None? then None else Some(rest.value + 1)
  }

  /** Index of the first plausible name in `lines`, if any. */
  function FirstPlausible(lines: seq<string>): (r: Option<nat>)
    ensures r.None? <==> forall i :: 0 <= i < |lines| ==> !PlausibleName(lines[i])
    ensures r.Some? ==> r.value < |lines| && PlausibleName(lines[r.value])
    ensures r.Some? ==> forall j :: 0 <= j < r.value ==> !PlausibleName(lines[j])
  {
    FirstWhere(lines, PlausibleName)
  }

  /** `guess_name`: the normalized first plausible line among the first 16, or nothing. */
  function GuessName(lines: seq<string>): (r: Option<string>)
    ensures r.Some? <==> exists i :: 0 <= i < |lines| && i < NameSearchLines && PlausibleName(lines[i])
    ensures r.Some? ==> exists i :: && 0 <= i < |lines| && i < NameSearchLines
                                    && PlausibleName(lines[i]) && r.value == Normalize(lines[i])
                                    && forall j :: 0 <= j < i ==> !PlausibleName(lines[j])
    ensures r.Some? ==> Normalized(r.value)
  {
    var top := Take(lines, NameSearchLines);
    var first := FirstPlausible(top);
    if first.None? then
      assert forall i :: 0 <= i < |lines| && i < NameSearchLines ==> lines[i] == top[i];
      None
    else
      assert top[first.value] == lines[first.value];
      assert forall j :: 0 <= j < first.value ==> top[j] == lines[j];
      Some(Normalize(top[first.value]))
  }
}
