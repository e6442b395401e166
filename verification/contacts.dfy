/**
 * `find_contacts` (backend/app.py:156-177) after its regular expressions
 * have run: the raw matches are an input, and the model covers the
 * stripping, de-duplication, sorting, filtering and capping applied to them.
 */
module Contacts {
  import opened Text
  import opened Ordering

  /** The `group(0)` texts matched by EMAIL_RE, PHONE_RE, LINKEDIN_RE, GITHUB_RE and PORTFOLIO_RE, in text order. */
  datatype ContactHits = ContactHits(
    emails: seq<string>,
    phones: seq<string>,
    linkedin: seq<string>,
    github: seq<string>,
    portfolio: seq<string>)

  datatype Contacts = Contacts(
    emails: seq<string>,
    phones: seq<string>,
    linkedin: seq<string>,
    github: seq<string>,
    portfolio: seq<string>)

  const MaxPhones: nat := 3
  const MaxLinks: nat := 2
  const MinPhoneDigits: nat := 9
  const MinPortfolioLength: nat := 10

  /** `len(re.sub(r"\D", "", p))`. */
  function DigitCount(s: string): nat {
    if s == [] then 0 else (if IsDigit(s[0]) then 1 else 0) + DigitCount(s[1..])
  }

  predicate LongPhone(p: string) {
    DigitCount(p) >= MinPhoneDigits
  }

  /** A portfolio match that is kept: not a LinkedIn/GitHub URL, no `@`, long enough. */
  predicate PortfolioLink(u: string) {
    && !Contains(Lower(u), "linkedin.com")
    && !Contains(Lower(u), "github.com")
    && '@' !in u
    && |u| >= MinPortfolioLength
  }

  function StripEach(xs: seq<string>): (r: seq<string>)
    ensures |r| == |xs|
    ensures forall i :: 0 <= i < |xs| ==> r[i] == Strip(xs[i])
  {
    seq(|xs|, i requires 0 <= i < |xs| => Strip(xs[i]))
  }

  /** Line 158-159: stripped, de-duplicated, sorted, at least nine digits, at most three. */
  function SelectPhones(raw: seq<string>): (r: seq<string>)
    ensures SmallestOf(r, (set p | p in StripEach(raw) && LongPhone(p)), MaxPhones)
    ensures forall p :: p in r ==> DigitCount(p) >= MinPhoneDigits
  {
    var sorted := SortedSet(StripEach(raw));
    var phones := Filter(sorted, LongPhone);
    FilterSorted(sorted, LongPhone);
    TakeSmallest(phones, MaxPhones);
    assert (set y | y in phones) == (set p | p in StripEach(raw) && LongPhone(p));
    if |phones| <= MaxPhones then phones else phones[..MaxPhones]
  }

  /** Lines 164-175: the filtered portfolio links, de-duplicated, sorted, at most two. */
  function SelectPortfolio(raw: seq<string>): (r: seq<string>)
    ensures SmallestOf(r, (set u | u in raw && PortfolioLink(u)), MaxLinks)
    ensures forall u :: u in r ==> PortfolioLink(u)
  {
    var kept := Filter(raw, PortfolioLink);
    assert (set y | y in kept) == (set u | u in raw && PortfolioLink(u));
    SmallestDistinct(kept, MaxLinks)
  }

  /** The `find_contacts` post-processing of the regex matches. */
  function FindContacts(hits: ContactHits): (c: Contacts)
    ensures StrictlySorted(c.emails) && forall e :: e in c.emails <==> e in hits.emails
    ensures SmallestOf(c.phones, (set p | p in StripEach(hits.phones) && LongPhone(p)), MaxPhones)
    ensures SmallestOf(c.linkedin, (set u | u in hits.linkedin), MaxLinks)
    ensures SmallestOf(c.github, (set u | u in hits.github), MaxLinks)
    ensures SmallestOf(c.portfolio, (set u | u in hits.portfolio && PortfolioLink(u)), MaxLinks)
  {
    Contacts(
      SortedSet(hits.emails),
      SelectPhones(hits.phones),
      SmallestDistinct(hits.linkedin, MaxLinks),
      SmallestDistinct(hits.github, MaxLinks),
      SelectPortfolio(hits.portfolio))
  }
}
