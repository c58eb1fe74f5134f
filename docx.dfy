// The word-processor exporter (src/utils/docxGenerator.ts): from the resume
// and the export mode to the ordered list of document blocks. The `docx`
// library objects become an abstract `Block`; font sizes, spacing and the
// final packaging into a binary are not modelled.
module DocxExport {
  import opened Text
  import opened Resume
  import opened Shared

  /** A text run: its text, weight, slant and colour (hex, without '#'). */
  datatype Run = Run(text: string, bold: bool, italic: bool, color: string)

  datatype Block =
    | Heading(run: Run)                   // section heading paragraph
    | Divider(visible: bool)              // rule under a heading; a bare gap when not visible
    | DateRow(date: Run, lines: seq<Run>) // two-column table: date left, details right
    | Bullet(marker: Run, text: Run)      // a '• ' run followed by the item's run
    | Para(run: Run)                      // a plain paragraph of one run
    | Spacer                              // an empty paragraph that only adds spacing

  /** The colour every run takes in ATS mode. */
  const Black := "000000"

  /** `createTextRun`: in ATS mode the colour is always black. */
  function TextRun(text: string, bold: bool, italic: bool, color: string, mode: ExportMode): Run {
    Run(text, bold, italic, if mode == Ats then Black else color)
  }

  /** The dark colour of names, roles and headings. */
  function Strong(mode: ExportMode): string {
    if mode == Ats then Black else "1f2937"
  }

  /** The grey colour of secondary text. */
  function Muted(mode: ExportMode): string {
    if mode == Ats then "333333" else "4b5563"
  }

  /** `createHeading`: the title upper-cased, in bold. */
  function SectionHeading(title: string, mode: ExportMode): Block {
    Heading(TextRun(ToUpper(title), true, false, Strong(mode), mode))
  }

  /** `createHorizontalLine`: a visible rule only in normal mode. */
  function HorizontalLine(mode: ExportMode): Block {
    Divider(mode == Normal)
  }

  /** One bullet paragraph: the marker run and the item's text. */
  function BulletItem(text: string, mode: ExportMode): Block {
    Bullet(TextRun("• ", false, false, Strong(mode), mode), TextRun(text, false, false, Muted(mode), mode))
  }

  function Bullets(items: seq<string>, mode: ExportMode): (r: seq<Block>)
    ensures |r| == |items|
  {
    Map(items, (s: string) => BulletItem(s, mode))
  }

  // ---------------------------------------------------------------- header

  /** The contact fields in the order Phone, Email, LinkedIn, Location, each
      only when non-empty; LinkedIn is always shown as "LinkedIn Profile" and
      the website never appears. */
  function ContactItems(p: PersonalInfo): (r: seq<string>)
    ensures |r| == OneIf(p.phone != "") + OneIf(p.email != "") + OneIf(Truthy(p.linkedin)) + OneIf(p.location != "")
    ensures p.phone != "" ==> r[0] == "Phone: " + p.phone
    ensures p.email != "" ==> r[OneIf(p.phone != "")] == "Email: " + p.email
    ensures Truthy(p.linkedin) ==> r[OneIf(p.phone != "") + OneIf(p.email != "")] == "LinkedIn: LinkedIn Profile"
    ensures p.location != "" ==> r[|r| - 1] == "Location: " + p.location
    ensures Truthy(p.linkedin) <==> "LinkedIn: LinkedIn Profile" in r
  {
    var phone := if p.phone != "" then ["Phone: " + p.phone] else [];
    var email := if p.email != "" then ["Email: " + p.email] else [];
    var linkedin := if Truthy(p.linkedin) then ["LinkedIn: LinkedIn Profile"] else [];
    var location := if p.location != "" then ["Location: " + p.location] else [];
    assert p.phone != "" ==> phone[0][0] == 'P';
    assert p.email != "" ==> email[0][0] == 'E';
    assert p.location != "" ==> location[0][1] == 'o';
    phone + email + linkedin + location
  }

  /** The website field has no influence on the contact line. */
  lemma WebsiteNeverShown(p: PersonalInfo, w: Option<string>)
    ensures ContactItems(p.(website := w)) == ContactItems(p)
    ensures HeaderBlocks(p.(website := w), "", Normal) == HeaderBlocks(p, "", Normal)
  {
  }

  /** The name in bold, or "YOUR NAME". */
  function NameLine(p: PersonalInfo, mode: ExportMode): Block {
    Para(TextRun(if p.fullName != "" then p.fullName else "YOUR NAME", true, false, Strong(mode), mode))
  }

  /** The job title, or "Professional Title". */
  function TitleLine(p: PersonalInfo, mode: ExportMode): Block {
    Para(TextRun(if p.jobTitle != "" then p.jobTitle else "Professional Title", false, false, Muted(mode), mode))
  }

  /** A paragraph of secondary text: the contact line or the summary. */
  function MutedLine(text: string, mode: ExportMode): Block {
    Para(TextRun(text, false, false, Muted(mode), mode))
  }

  function HeaderBlocks(p: PersonalInfo, summary: string, mode: ExportMode): seq<Block> {
    var contact := ContactItems(p);
    [NameLine(p, mode), TitleLine(p, mode)]
    + (if |contact| > 0 then [MutedLine(Join(contact, "   "), mode)] else [])
    + (if summary != "" then [MutedLine(summary, mode)] else [])
  }

  // ------------------------------------------------------------ experience

  /** The blocks of each element of `xs`, one after the other. */
  function FlatMap<T>(xs: seq<T>, f: T -> seq<Block>): seq<Block> {
    if xs == [] then [] else FlatMap(xs[..|xs| - 1], f) + f(xs[|xs| - 1])
  }

  lemma FlatMapSnoc<T>(xs: seq<T>, i: int, f: T -> seq<Block>)
    requires 0 <= i < |xs|
    ensures FlatMap(xs[..i + 1], f) == FlatMap(xs[..i], f) + f(xs[i])
  {
    assert xs[..i + 1][..i] == xs[..i];
  }

  /** `xs.forEach(x => children.push(...f(x)))`: the blocks of every
      element are pushed, in order, after those already in `children`. */
  method PushEach<T>(children: seq<Block>, xs: seq<T>, f: T -> seq<Block>) returns (out: seq<Block>)
    ensures out == children + FlatMap(xs, f)
  {
    out := children;
    var i := 0;
    while i < |xs|
      invariant 0 <= i <= |xs|
      invariant out == children + FlatMap(xs[..i], f)
    {
      out := out + f(xs[i]);
      FlatMapSnoc(xs, i, f);
      i := i + 1;
    }
    assert xs[..|xs|] == xs;
  }

  function DateRun(text: string, mode: ExportMode): Run {
    TextRun(text, false, false, "666666", mode)
  }

  function ExperienceRow(exp: WorkExperience, mode: ExportMode): Block {
    DateRow(DateRun(FormatDateRange(exp.startDate, exp.endDate, exp.current), mode),
            [TextRun(exp.role, true, false, Strong(mode), mode),
             TextRun(exp.company + (if exp.location != "" then ", " + exp.location else ""), false, true, Muted(mode), mode)])
  }

  /** The bullets of one work entry: only when some responsibility is not blank. */
  function ResponsibilityBullets(exp: WorkExperience, mode: ExportMode): seq<Block> {
    if exists r :: r in exp.responsibilities && !IsBlank(r) then Bullets(NonBlank(exp.responsibilities), mode) else []
  }

  function ExperienceEntry(exp: WorkExperience, mode: ExportMode): seq<Block> {
    [ExperienceRow(exp, mode)] + ResponsibilityBullets(exp, mode) + [Spacer]
  }

  /** The `forEach` callback over the entries, as a function value. */
  function ExperienceEntryOf(mode: ExportMode): WorkExperience -> seq<Block> {
    (exp: WorkExperience) => ExperienceEntry(exp, mode)
  }

  function ExperienceEntries(exps: seq<WorkExperience>, mode: ExportMode): seq<Block> {
    FlatMap(exps, ExperienceEntryOf(mode))
  }


  function ExperienceSection(exps: seq<WorkExperience>, mode: ExportMode): seq<Block> {
    if |exps| > 0 then [SectionHeading("Experience", mode), HorizontalLine(mode)] + ExperienceEntries(exps, mode)
    else []
  }

  // ------------------------------------------------------------- education

  function EducationRow(edu: Education, mode: ExportMode): Block {
    DateRow(DateRun(FormatDateRange(edu.startDate, edu.endDate, false), mode),
            [TextRun(edu.degree + " in " + edu.field, true, false, Strong(mode), mode),
             TextRun(edu.school, false, false, Muted(mode), mode)])
  }

  /** The GPA line when a GPA is set, then the decorative award line in
      normal mode only. */
  function EducationInfo(edu: Education, mode: ExportMode): seq<string> {
    (if Truthy(edu.gpa) then ["GPA: " + edu.gpa.value] else [])
    + (if mode == Normal then ["Academic Excellence Award"] else [])
  }

  function EducationEntry(edu: Education, mode: ExportMode): seq<Block> {
    var info := EducationInfo(edu, mode);
    [EducationRow(edu, mode)] + (if |info| > 0 then Bullets(info, mode) else []) + [Spacer]
  }

  /** The `forEach` callback over the entries, as a function value. */
  function EducationEntryOf(mode: ExportMode): Education -> seq<Block> {
    (edu: Education) => EducationEntry(edu, mode)
  }

  function EducationEntries(edus: seq<Education>, mode: ExportMode): seq<Block> {
    FlatMap(edus, EducationEntryOf(mode))
  }


  function EducationSection(edus: seq<Education>, mode: ExportMode): seq<Block> {
    if |edus| > 0 then [SectionHeading("Education", mode), HorizontalLine(mode)] + EducationEntries(edus, mode)
    else []
  }

  // ---------------------------------------------------------------- skills

  /** Skills whose name matches no software keyword, whatever their type. */
  function ProfessionalSkills(skills: seq<Skill>): (r: seq<Skill>)
    ensures forall s :: s in r <==> s in skills && !IsSoftwareName(s.name)
    ensures r == [] <==> forall s :: s in skills ==> IsSoftwareName(s.name)
  {
    Filter(skills, (s: Skill) => !IsSoftwareName(s.name))
  }

  function LanguageLabel(l: Language): string {
    l.name + " (" + ProficiencyName(l.proficiency) + ")"
  }

  /** A bold label paragraph followed by a paragraph of comma-joined items. */
  function LabelledList(caption: string, items: seq<string>, mode: ExportMode): seq<Block> {
    [Para(TextRun(caption, true, false, Strong(mode), mode)),
     Para(TextRun(Join(items, ", "), false, false, Muted(mode), mode))]
  }

  /** The lists under the Skills heading: technical and soft skills (each
      only when there are some) and the languages with their proficiency. */
  function SkillLists(professional: seq<Skill>, languages: seq<Language>, mode: ExportMode): seq<Block> {
    var technical := OfKind(professional, Hard);
    var soft := OfKind(professional, Soft);
    (if |technical| > 0 then LabelledList("Technical Skills", SkillNames(technical), mode) else [])
    + (if |soft| > 0 then LabelledList("Soft Skills", SkillNames(soft), mode) else [])
    + (if |languages| > 0 then LabelledList("Languages", Map(languages, LanguageLabel), mode) else [])
  }

  function SkillsSection(skills: seq<Skill>, languages: seq<Language>, mode: ExportMode): seq<Block> {
    var professional := ProfessionalSkills(skills);
    if |professional| > 0 then [SectionHeading("Skills", mode), HorizontalLine(mode)] + SkillLists(professional, languages, mode)
    else []
  }

  // -------------------------------------------------------------- software

  function SoftwareLine(s: Skill, mode: ExportMode): Block {
    Para(TextRun(s.name, false, false, Strong(mode), mode))
  }

  function SoftwareLineOf(mode: ExportMode): Skill -> seq<Block> {
    (s: Skill) => [SoftwareLine(s, mode)]
  }

  function SoftwareLines(skills: seq<Skill>, mode: ExportMode): seq<Block> {
    FlatMap(skills, SoftwareLineOf(mode))
  }

  function SoftwareSection(skills: seq<Skill>, mode: ExportMode): seq<Block> {
    if mode == Normal then
      var software := SoftwareSkills(skills);
      if |software| > 0 then [SectionHeading("Software", mode), HorizontalLine(mode)] + SoftwareLines(software, mode)
      else []
    else []
  }

  // -------------------------------------------------------- certifications

  function CertificationEntry(cert: Certification, mode: ExportMode): seq<Block> {
    [DateRow(DateRun(cert.date, mode),
             [TextRun(cert.name, true, false, Strong(mode), mode),
              TextRun(cert.issuer, false, false, Muted(mode), mode)])]
    + (if Truthy(cert.expiryDate)
       then [Para(TextRun("Expires: " + cert.expiryDate.value, false, false, if mode == Ats then "666666" else "6b7280", mode))]
       else [])
    + [Spacer]
  }

  /** The `forEach` callback over the entries, as a function value. */
  function CertificationEntryOf(mode: ExportMode): Certification -> seq<Block> {
    (cert: Certification) => CertificationEntry(cert, mode)
  }

  function CertificationEntries(certs: seq<Certification>, mode: ExportMode): seq<Block> {
    FlatMap(certs, CertificationEntryOf(mode))
  }


  function CertificationsSection(certs: seq<Certification>, mode: ExportMode): seq<Block> {
    if |certs| > 0 then [SectionHeading("Certifications", mode), HorizontalLine(mode)] + CertificationEntries(certs, mode)
    else []
  }

  // -------------------------------------------------------------- document

  /** The whole document: header, experience, education, skills, software,
      certifications, in that order. */
  function DocxBlocks(data: ResumeData, mode: ExportMode): seq<Block> {
    HeaderBlocks(data.personalInfo, data.profileSummary, mode)
    + ExperienceSection(data.workExperience, mode)
    + EducationSection(data.education, mode)
    + SkillsSection(data.skills, data.languages, mode)
    + SoftwareSection(data.skills, mode)
    + CertificationsSection(data.certifications, mode)
  }

  /** The header: name, title, the contact line when some contact field is
      set, and the summary when it is not empty. */
  method BuildHeader(p: PersonalInfo, summary: string, mode: ExportMode) returns (headerChildren: seq<Block>)
    ensures headerChildren == HeaderBlocks(p, summary, mode)
  {
    headerChildren := [];
    headerChildren := headerChildren + [NameLine(p, mode)];
    headerChildren := headerChildren + [TitleLine(p, mode)];
    assert headerChildren == [NameLine(p, mode), TitleLine(p, mode)];
    var contactInfo := ContactItems(p);
    ghost var contactPart: seq<Block> := [];
    if |contactInfo| > 0 {
      contactPart := [MutedLine(Join(contactInfo, "   "), mode)];
      headerChildren := headerChildren + [MutedLine(Join(contactInfo, "   "), mode)];
    }
    assert headerChildren == [NameLine(p, mode), TitleLine(p, mode)] + contactPart;
    ghost var summaryPart: seq<Block> := [];
    if summary != "" {
      summaryPart := [MutedLine(summary, mode)];
      headerChildren := headerChildren + [MutedLine(summary, mode)];
    }
    assert headerChildren == [NameLine(p, mode), TitleLine(p, mode)] + contactPart + summaryPart;
  }

  method BuildExperience(exps: seq<WorkExperience>, mode: ExportMode) returns (experienceChildren: seq<Block>)
    ensures experienceChildren == ExperienceSection(exps, mode)
  {
    experienceChildren := [];
    if |exps| > 0 {
      experienceChildren := [SectionHeading("Experience", mode), HorizontalLine(mode)];
      experienceChildren := PushEach(experienceChildren, exps, ExperienceEntryOf(mode));
    }
  }

  method BuildEducation(edus: seq<Education>, mode: ExportMode) returns (educationChildren: seq<Block>)
    ensures educationChildren == EducationSection(edus, mode)
  {
    educationChildren := [];
    if |edus| > 0 {
      educationChildren := [SectionHeading("Education", mode), HorizontalLine(mode)];
      educationChildren := PushEach(educationChildren, edus, EducationEntryOf(mode));
    }
  }

  method BuildSoftware(skills: seq<Skill>, mode: ExportMode) returns (softwareChildren: seq<Block>)
    ensures softwareChildren == SoftwareSection(skills, mode)
  {
    softwareChildren := [];
    if mode != Ats {
      var softwareSkills := SoftwareSkills(skills);
      if |softwareSkills| > 0 {
        softwareChildren := [SectionHeading("Software", mode), HorizontalLine(mode)];
        softwareChildren := PushEach(softwareChildren, softwareSkills, SoftwareLineOf(mode));
      }
    }
  }

  method BuildCertifications(certs: seq<Certification>, mode: ExportMode) returns (certificationsChildren: seq<Block>)
    ensures certificationsChildren == CertificationsSection(certs, mode)
  {
    certificationsChildren := [];
    if |certs| > 0 {
      certificationsChildren := [SectionHeading("Certifications", mode), HorizontalLine(mode)];
      certificationsChildren := PushEach(certificationsChildren, certs, CertificationEntryOf(mode));
    }
  }

  /** `generateDocx` up to packaging: the sections in their fixed order. */
  method GenerateDocx(data: ResumeData, mode: ExportMode) returns (blocks: seq<Block>)
    ensures blocks == DocxBlocks(data, mode)
  {
    var headerChildren := BuildHeader(data.personalInfo, data.profileSummary, mode);
    var experienceChildren := BuildExperience(data.workExperience, mode);
    var educationChildren := BuildEducation(data.education, mode);
    var skillsChildren := SkillsSection(data.skills, data.languages, mode);
    var softwareChildren := BuildSoftware(data.skills, mode);
    var certificationsChildren := BuildCertifications(data.certifications, mode);
    blocks := headerChildren + experienceChildren + educationChildren + skillsChildren + softwareChildren + certificationsChildren;
  }
}
