/** `extract_structured` (backend/app.py:228-255): the structured profile of a resume. */
module Structured {
  import opened Wrappers
  import opened Text
  import opened Lines
  import opened Names
  import opened Contacts
  import opened Sections
  import opened Skills
  import opened Dedup

  datatype Profile = Profile(
    name: Option<string>,
    contacts: Contacts,
    about: string,
    skills: seq<string>,
    experience: string,
    projects: string,
    education: string,
    certifications: string,
    languages: string,
    rawPreview: string,
    sectionsDetected: map<string, nat>)

  const AboutChars: nat := 1400
  const ExperienceLines: nat := 120
  const ProjectsLines: nat := 120
  const EducationLines: nat := 90
  const CertificationLines: nat := 70
  const LanguageLines: nat := 30
  const PreviewLines: nat := 90

  predicate AllClean(lines: seq<string>) {
    forall l :: l in lines ==> CleanLine(l)
  }

  /** `block(key, limit)`: the first `limit` lines of a section, joined by newlines and stripped. */
  function Block(section: seq<string>, limit: nat): (r: string)
    ensures AllClean(section) && limit > 0 ==> (r == [] <==> section == [])
  {
    var shown := Take(section, limit);
    var joined := Join("\n", shown);
    if AllClean(section) && shown != [] then
      assert shown[0] in section;
      JoinHead("\n", shown);
      assert !IsSpace(joined[0]);
      Strip(joined)
    else
      Strip(joined)
  }

  /** The `about` text: the first 1400 characters of the space-joined summary, normalized; empty when there is no summary. */
  function About(summary: seq<string>): (r: string)
    ensures Normalized(r)
    ensures AllClean(summary) ==> (r == [] <==> summary == [])
  {
    if summary == [] then []
    else
      var joined := Join(" ", summary);
      if AllClean(summary) then
        assert summary[0] in summary;
        JoinHead(" ", summary);
        var shown := Take(joined, AboutChars);
        NormalizeNonEmpty(shown, 0);
        Normalize(shown)
      else
        Normalize(Take(joined, AboutChars))
  }

  /** The seven counts `{k: len(v) for k, v in sections.items() if k != "_unknown"}`. */
  function Detected(sections: map<string, seq<string>>): (d: map<string, nat>)
    ensures forall k :: k in d <==> k in sections && k != UnknownKey
    ensures forall k :: k in d ==> d[k] == |sections[k]|
  {
    map k | k in sections && k != UnknownKey :: |sections[k]|
  }

  /** The lines stored under `key`, or none. */
  function Section(sections: map<string, seq<string>>, key: string): seq<string> {
    if key in sections then sections[key] else []
  }

  /** What the profile needs of a section map: every key present, every stored line clean. */
  predicate WellFormed(sections: map<string, seq<string>>) {
    && (forall k :: k in AllKeys ==> k in sections)
    && (forall k :: k in sections ==> k in AllKeys)
    && forall k :: k in sections ==> AllClean(sections[k])
  }

  /** The section map `sectionize` returns on clean lines is well formed, and its counts are the section sizes. */
  lemma SectionsWellFormed(sections: map<string, seq<string>>, lines: seq<string>)
    requires ValidClassifier(HeadingKey) && Sectioned(sections, lines, HeadingKey)
    requires AllClean(lines)
    ensures WellFormed(sections) && "skills" in sections
    ensures forall k :: k in SectionKeys ==> k in Detected(sections) && Detected(sections)[k] == |LinesUnder(lines, k, HeadingKey)|
  {
    forall k | k in sections ensures AllClean(sections[k]) {
      assert sections[k] == LinesUnder(lines, k, HeadingKey);
    }
    assert "skills" in AllKeys;
    SectionKeysKnown();
  }

  /** Each of the seven named sections, looked up in a section map, is its reference section. */
  lemma SectionOfEachKey(sections: map<string, seq<string>>, lines: seq<string>)
    requires forall k :: k in AllKeys ==> Section(sections, k) == LinesUnder(lines, k, HeadingKey)
    ensures Section(sections, "summary") == LinesUnder(lines, "summary", HeadingKey)
    ensures Section(sections, "skills") == LinesUnder(lines, "skills", HeadingKey)
    ensures Section(sections, "experience") == LinesUnder(lines, "experience", HeadingKey)
    ensures Section(sections, "projects") == LinesUnder(lines, "projects", HeadingKey)
    ensures Section(sections, "education") == LinesUnder(lines, "education", HeadingKey)
    ensures Section(sections, "certifications") == LinesUnder(lines, "certifications", HeadingKey)
    ensures Section(sections, "languages") == LinesUnder(lines, "languages", HeadingKey)
  {
    assert AllKeys[0] == "summary" && AllKeys[1] == "skills" && AllKeys[2] == "experience";
    assert AllKeys[3] == "education" && AllKeys[4] == "projects";
    assert AllKeys[5] == "certifications" && AllKeys[6] == "languages";
  }

  /** `sectionize` seen through the two facts the profile needs. */
  method SectionizeClean(lines: seq<string>) returns (sections: map<string, seq<string>>)
    requires AllClean(lines)
    ensures Sectioned(sections, lines, HeadingKey)
    ensures forall k :: k in AllKeys ==> Section(sections, k) == LinesUnder(lines, k, HeadingKey)
    ensures Section(sections, "summary") == LinesUnder(lines, "summary", HeadingKey)
    ensures Section(sections, "skills") == LinesUnder(lines, "skills", HeadingKey)
    ensures Section(sections, "experience") == LinesUnder(lines, "experience", HeadingKey)
    ensures Section(sections, "projects") == LinesUnder(lines, "projects", HeadingKey)
    ensures Section(sections, "education") == LinesUnder(lines, "education", HeadingKey)
    ensures Section(sections, "certifications") == LinesUnder(lines, "certifications", HeadingKey)
    ensures Section(sections, "languages") == LinesUnder(lines, "languages", HeadingKey)
    ensures WellFormed(sections) && "skills" in sections
    ensures forall k :: k in SectionKeys ==> k in Detected(sections) && Detected(sections)[k] == |LinesUnder(lines, k, HeadingKey)|
  {
    sections := Sectionize(lines);
    SectionsWellFormed(sections, lines);
    SectionOfEachKey(sections, lines);
  }

  /** Each section's text in the profile is empty exactly when the section holds no line. */
  predicate FieldsMatchCounts(p: Profile) {
    && (forall k :: k in SectionKeys ==> k in p.sectionsDetected)
    && (p.about == [] <==> p.sectionsDetected["summary"] == 0)
    && (p.experience == [] <==> p.sectionsDetected["experience"] == 0)
    && (p.projects == [] <==> p.sectionsDetected["projects"] == 0)
    && (p.education == [] <==> p.sectionsDetected["education"] == 0)
    && (p.certifications == [] <==> p.sectionsDetected["certifications"] == 0)
    && (p.languages == [] <==> p.sectionsDetected["languages"] == 0)
  }

  lemma DetectedKeys(sections: map<string, seq<string>>)
    requires WellFormed(sections)
    ensures forall k :: k in Detected(sections) <==> k in SectionKeys
  {
  }

  lemma BlockEmpty(sections: map<string, seq<string>>, key: string, limit: nat)
    requires WellFormed(sections) && key in SectionKeys && limit > 0
    ensures key in sections && key in Detected(sections)
    ensures Block(sections[key], limit) == [] <==> Detected(sections)[key] == 0
  {
  }

  lemma AboutEmpty(sections: map<string, seq<string>>)
    requires WellFormed(sections)
    ensures "summary" in sections && "summary" in Detected(sections)
    ensures About(sections["summary"]) == [] <==> Detected(sections)["summary"] == 0
  {
  }

  /** Builds the profile from the lines, their sections, the skills and the contacts. */
  method Assemble(lines: seq<string>, sections: map<string, seq<string>>, skills: seq<string>, contacts: Contacts)
    returns (p: Profile)
    requires WellFormed(sections)
    ensures forall k :: k in p.sectionsDetected <==> k in SectionKeys
    ensures FieldsMatchCounts(p)
    ensures p.sectionsDetected == Detected(sections) && p.skills == skills && p.contacts == contacts
    ensures p.name == GuessName(lines) && p.rawPreview == Join("\n", Take(lines, PreviewLines))
    ensures p.about == About(Section(sections, "summary"))
    ensures p.experience == Block(Section(sections, "experience"), ExperienceLines)
    ensures p.projects == Block(Section(sections, "projects"), ProjectsLines)
    ensures p.education == Block(Section(sections, "education"), EducationLines)
    ensures p.certifications == Block(Section(sections, "certifications"), CertificationLines)
    ensures p.languages == Block(Section(sections, "languages"), LanguageLines)
  {
    BlockEmpty(sections, "experience", ExperienceLines);
    BlockEmpty(sections, "projects", ProjectsLines);
    BlockEmpty(sections, "education", EducationLines);
    BlockEmpty(sections, "certifications", CertificationLines);
    BlockEmpty(sections, "languages", LanguageLines);
    AboutEmpty(sections);
    DetectedKeys(sections);
    p := Profile(
      GuessName(lines),
      contacts,
      About(sections["summary"]),
      skills,
      Block(sections["experience"], ExperienceLines),
      Block(sections["projects"], ProjectsLines),
      Block(sections["education"], EducationLines),
      Block(sections["certifications"], CertificationLines),
      Block(sections["languages"], LanguageLines),
      Join("\n", Take(lines, PreviewLines)),
      Detected(sections));
  }

  /**
   * `extract_structured`: name, contacts, the summary as `about`, the skills
   * list, the text of five sections, a preview and the size of every section.
   * A missing section is an empty string and a count of 0, and conversely.
   */
  method ExtractStructured(text: string, hits: ContactHits, dropCategoryPrefixes: string -> string)
    returns (p: Profile)
    ensures p.name == GuessName(LinesFromText(text))
    ensures p.contacts == FindContacts(hits)
    ensures forall k :: k in p.sectionsDetected <==> k in SectionKeys
    ensures forall k :: k in SectionKeys ==> p.sectionsDetected[k] == |LinesUnder(LinesFromText(text), k, HeadingKey)|
    ensures FieldsMatchCounts(p)
    ensures |p.skills| <= MaxSkills && CaselessDistinct(p.skills)
    ensures forall s :: s in p.skills ==> SkillShaped(s)
    ensures p.rawPreview == Join("\n", Take(LinesFromText(text), PreviewLines))
    ensures p.about == About(LinesUnder(LinesFromText(text), "summary", HeadingKey))
    ensures p.experience == Block(LinesUnder(LinesFromText(text), "experience", HeadingKey), ExperienceLines)
    ensures p.projects == Block(LinesUnder(LinesFromText(text), "projects", HeadingKey), ProjectsLines)
    ensures p.education == Block(LinesUnder(LinesFromText(text), "education", HeadingKey), EducationLines)
    ensures p.certifications == Block(LinesUnder(LinesFromText(text), "certifications", HeadingKey), CertificationLines)
    ensures p.languages == Block(LinesUnder(LinesFromText(text), "languages", HeadingKey), LanguageLines)
    ensures p.skills == Take(FirstSpellings(SkillPieces(LinesUnder(LinesFromText(text), "skills", HeadingKey),
              dropCategoryPrefixes)), MaxSkills)
  {
    var lines := LinesFromText(text);
    var sections := SectionizeClean(lines);
    var skills := SplitSkills(Section(sections, "skills"), dropCategoryPrefixes);
    p := Assemble(lines, sections, skills, FindContacts(hits));
  }
}
