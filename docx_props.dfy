// What the word-processor export promises about its output: the ATS
// document is black text without rules, every bullet of an entry comes from
// that entry, and the skills block appears under the conditions the
// exporter tests.
module DocxProperties {
  import opened Text
  import opened Resume
  import opened Shared
  import opened DocxExport
  import opened FormState

  /** The text runs a block carries (a divider and a spacer carry none that
      the exporter styles). */
  function RunsOf(b: Block): seq<Run> {
    match b
    case Heading(r) => [r]
    case Divider(_) => []
    case DateRow(d, lines) => [d] + lines
    case Bullet(m, t) => [m, t]
    case Para(r) => [r]
    case Spacer => []
  }

  /** A run styled for `mode`: black in ATS mode. */
  predicate RunStyled(r: Run, mode: ExportMode) {
    mode == Ats ==> r.color == Black
  }

  /** A block styled for `mode`: in ATS mode every run is black, and a rule
      is drawn exactly in normal mode. */
  predicate StyledFor(b: Block, mode: ExportMode) {
    && (forall r :: r in RunsOf(b) ==> RunStyled(r, mode))
    && (b.Divider? ==> b.visible == (mode == Normal))
  }

  predicate AllStyledFor(bs: seq<Block>, mode: ExportMode) {
    forall b :: b in bs ==> StyledFor(b, mode)
  }

  /** Every run `createTextRun` makes is styled for its mode. */
  lemma TextRunStyled(text: string, bold: bool, italic: bool, color: string, mode: ExportMode)
    ensures RunStyled(TextRun(text, bold, italic, color, mode), mode)
  {
  }

  /** A paragraph of one run made by `createTextRun` is styled. */
  lemma ParaStyled(text: string, bold: bool, italic: bool, color: string, mode: ExportMode)
    ensures StyledFor(Para(TextRun(text, bold, italic, color, mode)), mode)
  {
    var r := TextRun(text, bold, italic, color, mode);
    assert RunsOf(Para(r)) == [r];
  }

  /** A two-column row whose runs are all made by `createTextRun` is styled. */
  lemma DateRowStyled(d: Run, lines: seq<Run>, mode: ExportMode)
    requires RunStyled(d, mode) && forall r :: r in lines ==> RunStyled(r, mode)
    ensures StyledFor(DateRow(d, lines), mode)
  {
    assert RunsOf(DateRow(d, lines)) == [d] + lines;
  }

  /** A section heading followed by its rule is styled. */
  lemma HeadingStyled(title: string, mode: ExportMode)
    ensures AllStyledFor([SectionHeading(title, mode), HorizontalLine(mode)], mode)
  {
    var h := SectionHeading(title, mode);
    assert RunsOf(h) == [h.run];
  }

  lemma {:induction false} FlatMapStyled<T>(xs: seq<T>, f: T -> seq<Block>, mode: ExportMode)
    requires forall x :: x in xs ==> AllStyledFor(f(x), mode)
    ensures AllStyledFor(FlatMap(xs, f), mode)
  {
    if xs != [] {
      FlatMapStyled(xs[..|xs| - 1], f, mode);
      assert xs[|xs| - 1] in xs;
    }
  }

  lemma StyledAppend(a: seq<Block>, b: seq<Block>, mode: ExportMode)
    requires AllStyledFor(a, mode) && AllStyledFor(b, mode)
    ensures AllStyledFor(a + b, mode)
  {
  }

  lemma BulletsStyled(items: seq<string>, mode: ExportMode)
    ensures AllStyledFor(Bullets(items, mode), mode)
  {
    forall b | b in Bullets(items, mode)
      ensures StyledFor(b, mode)
    {
      var i :| 0 <= i < |items| && Bullets(items, mode)[i] == b;
      assert RunsOf(b) == [b.marker, b.text];
    }
  }

  lemma LabelledListStyled(caption: string, items: seq<string>, mode: ExportMode)
    ensures AllStyledFor(LabelledList(caption, items, mode), mode)
  {
    ParaStyled(caption, true, false, Strong(mode), mode);
    ParaStyled(Join(items, ", "), false, false, Muted(mode), mode);
  }

  lemma HeaderStyled(p: PersonalInfo, summary: string, mode: ExportMode)
    ensures AllStyledFor(HeaderBlocks(p, summary, mode), mode)
  {
    var contact := ContactItems(p);
    ParaStyled(if p.fullName != "" then p.fullName else "YOUR NAME", true, false, Strong(mode), mode);
    ParaStyled(if p.jobTitle != "" then p.jobTitle else "Professional Title", false, false, Muted(mode), mode);
    ParaStyled(Join(contact, "   "), false, false, Muted(mode), mode);
    ParaStyled(summary, false, false, Muted(mode), mode);
    var a := [NameLine(p, mode), TitleLine(p, mode)];
    var b := if |contact| > 0 then [MutedLine(Join(contact, "   "), mode)] else [];
    var c := if summary != "" then [MutedLine(summary, mode)] else [];
    assert HeaderBlocks(p, summary, mode) == a + b + c;
    StyledAppend(a, b, mode);
    StyledAppend(a + b, c, mode);
  }

  lemma ExperienceEntryStyled(exp: WorkExperience, mode: ExportMode)
    ensures AllStyledFor(ExperienceEntry(exp, mode), mode)
  {
    var row := ExperienceRow(exp, mode);
    var bullets := ResponsibilityBullets(exp, mode);
    BulletsStyled(NonBlank(exp.responsibilities), mode);
    assert AllStyledFor(bullets, mode);
    TextRunStyled(FormatDateRange(exp.startDate, exp.endDate, exp.current), false, false, "666666", mode);
    TextRunStyled(exp.role, true, false, Strong(mode), mode);
    TextRunStyled(exp.company + (if exp.location != "" then ", " + exp.location else ""), false, true, Muted(mode), mode);
    DateRowStyled(row.date, row.lines, mode);
    StyledAppend([row], bullets, mode);
    StyledAppend([row] + bullets, [Spacer], mode);
  }

  lemma ExperienceStyled(exps: seq<WorkExperience>, mode: ExportMode)
    ensures AllStyledFor(ExperienceSection(exps, mode), mode)
  {
    forall exp | exp in exps
      ensures AllStyledFor(ExperienceEntryOf(mode)(exp), mode)
    {
      ExperienceEntryStyled(exp, mode);
    }
    FlatMapStyled(exps, ExperienceEntryOf(mode), mode);
    HeadingStyled("Experience", mode);
  }

  lemma EducationEntryStyled(edu: Education, mode: ExportMode)
    ensures AllStyledFor(EducationEntry(edu, mode), mode)
  {
    var row := EducationRow(edu, mode);
    var info := EducationInfo(edu, mode);
    var bullets := if |info| > 0 then Bullets(info, mode) else [];
    BulletsStyled(info, mode);
    TextRunStyled(FormatDateRange(edu.startDate, edu.endDate, false), false, false, "666666", mode);
    TextRunStyled(edu.degree + " in " + edu.field, true, false, Strong(mode), mode);
    TextRunStyled(edu.school, false, false, Muted(mode), mode);
    DateRowStyled(row.date, row.lines, mode);
    StyledAppend([row], bullets, mode);
    StyledAppend([row] + bullets, [Spacer], mode);
  }

  lemma EducationStyled(edus: seq<Education>, mode: ExportMode)
    ensures AllStyledFor(EducationSection(edus, mode), mode)
  {
    forall edu | edu in edus
      ensures AllStyledFor(EducationEntryOf(mode)(edu), mode)
    {
      EducationEntryStyled(edu, mode);
    }
    FlatMapStyled(edus, EducationEntryOf(mode), mode);
    HeadingStyled("Education", mode);
  }

  lemma SkillListsStyled(professional: seq<Skill>, languages: seq<Language>, mode: ExportMode)
    ensures AllStyledFor(SkillLists(professional, languages, mode), mode)
  {
    var technical := OfKind(professional, Hard);
    var soft := OfKind(professional, Soft);
    var a := if |technical| > 0 then LabelledList("Technical Skills", SkillNames(technical), mode) else [];
    var b := if |soft| > 0 then LabelledList("Soft Skills", SkillNames(soft), mode) else [];
    var c := if |languages| > 0 then LabelledList("Languages", Map(languages, LanguageLabel), mode) else [];
    LabelledListStyled("Technical Skills", SkillNames(technical), mode);
    LabelledListStyled("Soft Skills", SkillNames(soft), mode);
    LabelledListStyled("Languages", Map(languages, LanguageLabel), mode);
    assert SkillLists(professional, languages, mode) == a + b + c;
    StyledAppend(a, b, mode);
    StyledAppend(a + b, c, mode);
  }

  lemma SkillsStyled(skills: seq<Skill>, languages: seq<Language>, mode: ExportMode)
    ensures AllStyledFor(SkillsSection(skills, languages, mode), mode)
  {
    var professional := ProfessionalSkills(skills);
    if |professional| > 0 {
      var head := [SectionHeading("Skills", mode), HorizontalLine(mode)];
      SkillListsStyled(professional, languages, mode);
      HeadingStyled("Skills", mode);
      StyledAppend(head, SkillLists(professional, languages, mode), mode);
    }
  }

  lemma SoftwareStyled(skills: seq<Skill>, mode: ExportMode)
    ensures AllStyledFor(SoftwareSection(skills, mode), mode)
  {
    forall s | s in SoftwareSkills(skills)
      ensures AllStyledFor(SoftwareLineOf(mode)(s), mode)
    {
      assert SoftwareLineOf(mode)(s) == [SoftwareLine(s, mode)];
      ParaStyled(s.name, false, false, Strong(mode), mode);
    }
    FlatMapStyled(SoftwareSkills(skills), SoftwareLineOf(mode), mode);
    HeadingStyled("Software", mode);
  }

  lemma CertificationEntryStyled(cert: Certification, mode: ExportMode)
    ensures AllStyledFor(CertificationEntry(cert, mode), mode)
  {
    var row := CertificationEntry(cert, mode)[0];
    TextRunStyled(cert.date, false, false, "666666", mode);
    TextRunStyled(cert.name, true, false, Strong(mode), mode);
    TextRunStyled(cert.issuer, false, false, Muted(mode), mode);
    DateRowStyled(row.date, row.lines, mode);
    var expiry := if Truthy(cert.expiryDate)
      then [Para(TextRun("Expires: " + cert.expiryDate.value, false, false, if mode == Ats then "666666" else "6b7280", mode))]
      else [];
    if Truthy(cert.expiryDate) {
      ParaStyled("Expires: " + cert.expiryDate.value, false, false, if mode == Ats then "666666" else "6b7280", mode);
    }
    assert CertificationEntry(cert, mode) == [row] + expiry + [Spacer];
    StyledAppend([row], expiry, mode);
    StyledAppend([row] + expiry, [Spacer], mode);
  }

  lemma CertificationsStyled(certs: seq<Certification>, mode: ExportMode)
    ensures AllStyledFor(CertificationsSection(certs, mode), mode)
  {
    forall cert | cert in certs
      ensures AllStyledFor(CertificationEntryOf(mode)(cert), mode)
    {
      CertificationEntryStyled(cert, mode);
    }
    FlatMapStyled(certs, CertificationEntryOf(mode), mode);
    HeadingStyled("Certifications", mode);
  }

  /** Every block of the document is styled for its mode: in ATS mode every
      run is black and every rule is hidden, in normal mode every rule is
      visible. That each heading is followed by its rule is HeadedSection's
      and HeadingStyled's statement. */
  lemma DocumentStyledForMode(data: ResumeData, mode: ExportMode)
    ensures AllStyledFor(DocxBlocks(data, mode), mode)
  {
    var header := HeaderBlocks(data.personalInfo, data.profileSummary, mode);
    var exp := ExperienceSection(data.workExperience, mode);
    var edu := EducationSection(data.education, mode);
    var skills := SkillsSection(data.skills, data.languages, mode);
    var software := SoftwareSection(data.skills, mode);
    var certs := CertificationsSection(data.certifications, mode);
    ExperienceStyled(data.workExperience, mode);
    EducationStyled(data.education, mode);
    SkillsStyled(data.skills, data.languages, mode);
    SoftwareStyled(data.skills, mode);
    CertificationsStyled(data.certifications, mode);
    HeaderStyled(data.personalInfo, data.profileSummary, mode);
    assert DocxBlocks(data, mode) == header + exp + edu + skills + software + certs;
    StyledAppend(header, exp, mode);
    StyledAppend(header + exp, edu, mode);
    StyledAppend(header + exp + edu, skills, mode);
    StyledAppend(header + exp + edu + skills, software, mode);
    StyledAppend(header + exp + edu + skills + software, certs, mode);
  }

  /** In ATS mode no run of the document has a colour other than black. */
  lemma AtsDocumentIsBlack(data: ResumeData)
    ensures forall b, r :: b in DocxBlocks(data, Ats) && r in RunsOf(b) ==> r.color == "000000"
  {
    DocumentStyledForMode(data, Ats);
  }

  // --------------------------------------------------------------- bullets

  /** The texts of the bullet blocks, in order. */
  function BulletTexts(bs: seq<Block>): seq<string> {
    if bs == [] then []
    else BulletTexts(bs[..|bs| - 1]) + (if bs[|bs| - 1].Bullet? then [bs[|bs| - 1].text.text] else [])
  }

  lemma {:induction false} BulletTextsAppend(a: seq<Block>, b: seq<Block>)
    ensures BulletTexts(a + b) == BulletTexts(a) + BulletTexts(b)
  {
    if b == [] {
      assert a + b == a;
    } else {
      assert (a + b)[..|a + b| - 1] == a + b[..|b| - 1];
      BulletTextsAppend(a, b[..|b| - 1]);
    }
  }

  lemma {:induction false} BulletTextsOfBullets(items: seq<string>, mode: ExportMode)
    ensures BulletTexts(Bullets(items, mode)) == items
  {
    if items != [] {
      var n := |items| - 1;
      var bs := Bullets(items, mode);
      assert bs[..n] == Bullets(items[..n], mode);
      BulletTextsOfBullets(items[..n], mode);
      assert bs[n].Bullet? && bs[n].text.text == items[n] by {
        assert bs[n] == BulletItem(items[n], mode);
      }
      assert BulletTexts(bs) == items[..n] + [items[n]];
      assert items[..n] + [items[n]] == items;
    }
  }

  /** An entry is its row, then its bullets, then a spacer: its bullet
      texts are those of the middle part. */
  lemma EntryBulletTexts(row: Block, middle: seq<Block>)
    requires !row.Bullet?
    ensures BulletTexts([row] + middle + [Spacer]) == BulletTexts(middle)
  {
    BulletTextsAppend([row], middle);
    BulletTextsAppend([row] + middle, [Spacer]);
    assert BulletTexts([row]) == [];
    assert BulletTexts([Spacer]) == [];
  }

  lemma ResponsibilityBulletTexts(exp: WorkExperience, mode: ExportMode)
    ensures BulletTexts(ResponsibilityBullets(exp, mode)) == NonBlank(exp.responsibilities)
  {
    var nb := NonBlank(exp.responsibilities);
    if exists r :: r in exp.responsibilities && !IsBlank(r) {
      BulletTextsOfBullets(nb, mode);
    }
  }

  /** The bullets under a work entry are exactly its non-blank
      responsibilities, verbatim and in order. */
  lemma ExperienceBulletsAreResponsibilities(exp: WorkExperience, mode: ExportMode)
    ensures BulletTexts(ExperienceEntry(exp, mode)) == NonBlank(exp.responsibilities)
  {
    EntryBulletTexts(ExperienceRow(exp, mode), ResponsibilityBullets(exp, mode));
    ResponsibilityBulletTexts(exp, mode);
  }

  /** The bullets under an education entry: the GPA line exactly when a GPA
      is set, and the award line exactly in normal mode. */
  lemma EducationBullets(edu: Education, mode: ExportMode)
    ensures BulletTexts(EducationEntry(edu, mode)) == EducationInfo(edu, mode)
    ensures |EducationInfo(edu, mode)| == (if Truthy(edu.gpa) then 1 else 0) + (if mode == Normal then 1 else 0)
    ensures "Academic Excellence Award" in EducationInfo(edu, mode) <==> mode == Normal
    ensures Truthy(edu.gpa) ==> EducationInfo(edu, mode)[0] == "GPA: " + edu.gpa.value
  {
    var info := EducationInfo(edu, mode);
    EntryBulletTexts(EducationRow(edu, mode), if |info| > 0 then Bullets(info, mode) else []);
    BulletTextsOfBullets(info, mode);
    if Truthy(edu.gpa) {
      assert ("GPA: " + edu.gpa.value)[0] == 'G';
    }
  }

  // ---------------------------------------------------------------- skills

  /** The paragraph that introduces a labelled list. */
  function Caption(caption: string, mode: ExportMode): Block {
    Para(TextRun(caption, true, false, Strong(mode), mode))
  }

  /** A labelled list holds the caption paragraph of `c` exactly when `c`
      is its own caption: the list paragraph after it is never bold. */
  lemma CaptionInList(c: string, caption: string, items: seq<string>, mode: ExportMode)
    ensures Caption(c, mode) in LabelledList(caption, items, mode) <==> c == caption
  {
    var list := LabelledList(caption, items, mode);
    assert list[0] == Caption(caption, mode);
    assert list[1].run.bold == false;
    if Caption(c, mode) == Caption(caption, mode) {
      assert Caption(c, mode).run.text == c;
    }
  }

  /** Under the Skills heading, the Languages list appears exactly when
      there are languages. */
  lemma LanguagesCaption(professional: seq<Skill>, languages: seq<Language>, mode: ExportMode)
    ensures Caption("Languages", mode) in SkillLists(professional, languages, mode) <==> |languages| > 0
  {
    var technical := OfKind(professional, Hard);
    var soft := OfKind(professional, Soft);
    var techBlocks := if |technical| > 0 then LabelledList("Technical Skills", SkillNames(technical), mode) else [];
    var softBlocks := if |soft| > 0 then LabelledList("Soft Skills", SkillNames(soft), mode) else [];
    var langBlocks := if |languages| > 0 then LabelledList("Languages", Map(languages, LanguageLabel), mode) else [];
    assert SkillLists(professional, languages, mode) == techBlocks + softBlocks + langBlocks;
    assert "Technical Skills"[0] != "Languages"[0];
    assert "Soft Skills"[0] != "Languages"[0];
    CaptionInList("Languages", "Technical Skills", SkillNames(technical), mode);
    CaptionInList("Languages", "Soft Skills", SkillNames(soft), mode);
    CaptionInList("Languages", "Languages", Map(languages, LanguageLabel), mode);
  }

  /** The skills block in terms of the professional skills: written when
      there is one, with the Languages list when there are languages. */
  lemma SkillsSectionShape(skills: seq<Skill>, languages: seq<Language>, mode: ExportMode)
    ensures SkillsSection(skills, languages, mode) != [] <==> |ProfessionalSkills(skills)| > 0
    ensures Caption("Languages", mode) in SkillsSection(skills, languages, mode)
            <==> |ProfessionalSkills(skills)| > 0 && |languages| > 0
  {
    var professional := ProfessionalSkills(skills);
    LanguagesCaption(professional, languages, mode);
    if |professional| > 0 {
      var head := [SectionHeading("Skills", mode), HorizontalLine(mode)];
      assert SkillsSection(skills, languages, mode) == head + SkillLists(professional, languages, mode);
      assert Caption("Languages", mode) !in head;
    }
  }

  /** The skills block is written exactly when some skill is not a software
      name; within it the Languages list appears exactly when there are
      languages. */
  lemma SkillsSectionPresence(skills: seq<Skill>, languages: seq<Language>, mode: ExportMode)
    ensures SkillsSection(skills, languages, mode) != [] <==> exists s :: s in skills && !IsSoftwareName(s.name)
    ensures Caption("Languages", mode) in SkillsSection(skills, languages, mode)
            <==> (exists s :: s in skills && !IsSoftwareName(s.name)) && |languages| > 0
  {
    SkillsSectionShape(skills, languages, mode);
    var professional := ProfessionalSkills(skills);
    if |professional| > 0 {
      assert professional[0] in professional;
    }
  }

  /** Where a skill ends up: a name matching no software keyword is listed
      under Technical or Soft Skills by its type; a hard skill with a
      software name goes to the Software section in normal mode only; a
      soft skill with a software name is written nowhere. */
  lemma SkillPlacement(s: Skill, skills: seq<Skill>, mode: ExportMode)
    requires s in skills
    ensures !IsSoftwareName(s.name) ==> s in OfKind(ProfessionalSkills(skills), s.kind)
    ensures IsSoftwareName(s.name) ==> s !in ProfessionalSkills(skills)
    ensures s in SoftwareSkills(skills) <==> s.kind == Hard && IsSoftwareName(s.name)
    ensures mode == Ats ==> SoftwareSection(skills, mode) == []
  {
  }

  // -------------------------------------------------------------- headings

  /** The section headings among `bs`, in order. */
  function Headings(bs: seq<Block>): (r: seq<Block>)
    ensures forall b :: b in r <==> b in bs && b.Heading?
  {
    if bs == [] then []
    else
      assert forall b :: b in bs <==> b == bs[0] || b in bs[1..];
      (if bs[0].Heading? then [bs[0]] else []) + Headings(bs[1..])
  }

  lemma {:induction false} HeadingsAppend(a: seq<Block>, b: seq<Block>)
    ensures Headings(a + b) == Headings(a) + Headings(b)
  {
    if a == [] {
      assert a + b == b;
    } else {
      assert (a + b)[0] == a[0];
      assert (a + b)[1..] == a[1..] + b;
      HeadingsAppend(a[1..], b);
    }
  }

  predicate NoHeading(bs: seq<Block>) {
    forall b :: b in bs ==> !b.Heading?
  }

  lemma NoHeadingsIn(bs: seq<Block>)
    requires NoHeading(bs)
    ensures Headings(bs) == []
  {
    if Headings(bs) != [] {
      assert Headings(bs)[0] in Headings(bs);
    }
  }

  lemma {:induction false} FlatMapNoHeading<T>(xs: seq<T>, f: T -> seq<Block>)
    requires forall x :: x in xs ==> NoHeading(f(x))
    ensures NoHeading(FlatMap(xs, f))
  {
    if xs != [] {
      FlatMapNoHeading(xs[..|xs| - 1], f);
      assert xs[|xs| - 1] in xs;
    }
  }

  lemma BulletsNoHeading(items: seq<string>, mode: ExportMode)
    ensures NoHeading(Bullets(items, mode))
  {
    forall b | b in Bullets(items, mode)
      ensures !b.Heading?
    {
      var i :| 0 <= i < |items| && Bullets(items, mode)[i] == b;
    }
  }

  /** A section that opens with its heading and rule and has no heading in
      its entries has exactly that one heading. */
  lemma HeadedSection(title: string, mode: ExportMode, entries: seq<Block>)
    requires NoHeading(entries)
    ensures Headings([SectionHeading(title, mode), HorizontalLine(mode)] + entries) == [SectionHeading(title, mode)]
  {
    var head := [SectionHeading(title, mode), HorizontalLine(mode)];
    HeadingsAppend(head, entries);
    NoHeadingsIn(entries);
    NoHeadingsIn([HorizontalLine(mode)]);
    assert head[1..] == [HorizontalLine(mode)];
  }

  lemma ExperienceHeadings(exps: seq<WorkExperience>, mode: ExportMode)
    ensures Headings(ExperienceSection(exps, mode)) == if |exps| > 0 then [SectionHeading("Experience", mode)] else []
  {
    if |exps| > 0 {
      forall exp | exp in exps
        ensures NoHeading(ExperienceEntryOf(mode)(exp))
      {
        BulletsNoHeading(NonBlank(exp.responsibilities), mode);
      }
      FlatMapNoHeading(exps, ExperienceEntryOf(mode));
      HeadedSection("Experience", mode, ExperienceEntries(exps, mode));
    }
  }

  lemma EducationHeadings(edus: seq<Education>, mode: ExportMode)
    ensures Headings(EducationSection(edus, mode)) == if |edus| > 0 then [SectionHeading("Education", mode)] else []
  {
    if |edus| > 0 {
      forall edu | edu in edus
        ensures NoHeading(EducationEntryOf(mode)(edu))
      {
        BulletsNoHeading(EducationInfo(edu, mode), mode);
      }
      FlatMapNoHeading(edus, EducationEntryOf(mode));
      HeadedSection("Education", mode, EducationEntries(edus, mode));
    }
  }

  lemma CertificationHeadings(certs: seq<Certification>, mode: ExportMode)
    ensures Headings(CertificationsSection(certs, mode)) == if |certs| > 0 then [SectionHeading("Certifications", mode)] else []
  {
    if |certs| > 0 {
      FlatMapNoHeading(certs, CertificationEntryOf(mode));
      HeadedSection("Certifications", mode, CertificationEntries(certs, mode));
    }
  }

  lemma SkillListsNoHeading(professional: seq<Skill>, languages: seq<Language>, mode: ExportMode)
    ensures NoHeading(SkillLists(professional, languages, mode))
  {
    var technical := OfKind(professional, Hard);
    var soft := OfKind(professional, Soft);
    var a := if |technical| > 0 then LabelledList("Technical Skills", SkillNames(technical), mode) else [];
    var b := if |soft| > 0 then LabelledList("Soft Skills", SkillNames(soft), mode) else [];
    var c := if |languages| > 0 then LabelledList("Languages", Map(languages, LanguageLabel), mode) else [];
    assert SkillLists(professional, languages, mode) == a + b + c;
    assert NoHeading(a) && NoHeading(b) && NoHeading(c);
  }

  lemma SkillsHeadings(skills: seq<Skill>, languages: seq<Language>, mode: ExportMode)
    ensures Headings(SkillsSection(skills, languages, mode))
         == if |ProfessionalSkills(skills)| > 0 then [SectionHeading("Skills", mode)] else []
  {
    var professional := ProfessionalSkills(skills);
    if |professional| > 0 {
      SkillListsNoHeading(professional, languages, mode);
      HeadedSection("Skills", mode, SkillLists(professional, languages, mode));
    }
  }

  lemma SoftwareHeadings(skills: seq<Skill>, mode: ExportMode)
    ensures Headings(SoftwareSection(skills, mode))
         == if mode == Normal && |SoftwareSkills(skills)| > 0 then [SectionHeading("Software", mode)] else []
  {
    var software := SoftwareSkills(skills);
    if mode == Normal && |software| > 0 {
      FlatMapNoHeading(software, SoftwareLineOf(mode));
      HeadedSection("Software", mode, SoftwareLines(software, mode));
    }
  }

  /** The document's section headings, in order: each section is written,
      under its upper-cased title, exactly when the exporter's condition for
      it holds (a non-empty list; for skills, a skill left after removing
      software names; for software, normal mode and a hard software skill). */
  lemma DocumentHeadings(data: ResumeData, mode: ExportMode)
    ensures Headings(DocxBlocks(data, mode))
         == (if |data.workExperience| > 0 then [SectionHeading("Experience", mode)] else [])
          + (if |data.education| > 0 then [SectionHeading("Education", mode)] else [])
          + (if |ProfessionalSkills(data.skills)| > 0 then [SectionHeading("Skills", mode)] else [])
          + (if mode == Normal && |SoftwareSkills(data.skills)| > 0 then [SectionHeading("Software", mode)] else [])
          + (if |data.certifications| > 0 then [SectionHeading("Certifications", mode)] else [])
  {
    var header := HeaderBlocks(data.personalInfo, data.profileSummary, mode);
    var exp := ExperienceSection(data.workExperience, mode);
    var edu := EducationSection(data.education, mode);
    var skills := SkillsSection(data.skills, data.languages, mode);
    var software := SoftwareSection(data.skills, mode);
    var certs := CertificationsSection(data.certifications, mode);
    assert DocxBlocks(data, mode) == header + exp + edu + skills + software + certs;
    HeaderNoHeading(data.personalInfo, data.profileSummary, mode);
    ExperienceHeadings(data.workExperience, mode);
    EducationHeadings(data.education, mode);
    SkillsHeadings(data.skills, data.languages, mode);
    SoftwareHeadings(data.skills, mode);
    CertificationHeadings(data.certifications, mode);
    HeadingsOfParts(header, exp, edu, skills, software, certs);
    var hs := Headings(DocxBlocks(data, mode));
    assert hs == [] + Headings(exp) + Headings(edu) + Headings(skills) + Headings(software) + Headings(certs);
    assert [] + Headings(exp) == Headings(exp);
  }

  lemma HeaderNoHeading(p: PersonalInfo, summary: string, mode: ExportMode)
    ensures Headings(HeaderBlocks(p, summary, mode)) == []
  {
    assert NoHeading(HeaderBlocks(p, summary, mode));
    NoHeadingsIn(HeaderBlocks(p, summary, mode));
  }

  lemma HeadingsOfParts(a: seq<Block>, b: seq<Block>, c: seq<Block>, d: seq<Block>, e: seq<Block>, f: seq<Block>)
    ensures Headings(a + b + c + d + e + f)
         == Headings(a) + Headings(b) + Headings(c) + Headings(d) + Headings(e) + Headings(f)
  {
    HeadingsAppend(a, b);
    HeadingsAppend(a + b, c);
    HeadingsAppend(a + b + c, d);
    HeadingsAppend(a + b + c + d, e);
    HeadingsAppend(a + b + c + d + e, f);
  }

  /** The five section titles give five different headings: their second
      letters already differ once upper-cased (X, D, K, O, E). */
  lemma TitlesDiffer(mode: ExportMode)
    ensures SectionHeading("Experience", mode) != SectionHeading("Education", mode)
    ensures SectionHeading("Experience", mode) != SectionHeading("Skills", mode)
    ensures SectionHeading("Experience", mode) != SectionHeading("Software", mode)
    ensures SectionHeading("Experience", mode) != SectionHeading("Certifications", mode)
    ensures SectionHeading("Education", mode) != SectionHeading("Skills", mode)
    ensures SectionHeading("Education", mode) != SectionHeading("Software", mode)
    ensures SectionHeading("Education", mode) != SectionHeading("Certifications", mode)
    ensures SectionHeading("Certifications", mode) != SectionHeading("Skills", mode)
    ensures SectionHeading("Certifications", mode) != SectionHeading("Software", mode)
  {
    assert SectionHeading("Experience", mode).run.text[1] == 'X';
    assert SectionHeading("Education", mode).run.text[1] == 'D';
    assert SectionHeading("Skills", mode).run.text[1] == 'K';
    assert SectionHeading("Software", mode).run.text[1] == 'O';
    assert SectionHeading("Certifications", mode).run.text[1] == 'E';
  }

  /** Membership in five concatenated parts is membership in one of them. */
  lemma InParts<T>(x: T, a: seq<T>, b: seq<T>, c: seq<T>, d: seq<T>, e: seq<T>)
    ensures x in a + b + c + d + e <==> x in a || x in b || x in c || x in d || x in e
  {
  }

  /** A slot holds a block exactly when it is filled with that block. */
  lemma InSlot<T>(x: T, e: T, p: bool)
    ensures x in (if p then [e] else []) <==> p && x == e
  {
  }

  /** Five headings in fixed slots, each present or not: the three whose
      titles differ from all others are among the blocks exactly when their
      slot is filled. */
  lemma PresenceBySlots(bs: seq<Block>, e1: Block, e2: Block, e3: Block, e4: Block, e5: Block,
                        p1: bool, p2: bool, p3: bool, p4: bool, p5: bool)
    requires e1.Heading? && e2.Heading? && e5.Heading?
    requires Headings(bs) == (if p1 then [e1] else []) + (if p2 then [e2] else []) + (if p3 then [e3] else [])
                           + (if p4 then [e4] else []) + (if p5 then [e5] else [])
    requires e1 != e2 && e1 != e3 && e1 != e4 && e1 != e5
    requires e2 != e3 && e2 != e4 && e2 != e5
    requires e5 != e3 && e5 != e4
    ensures e1 in bs <==> p1
    ensures e2 in bs <==> p2
    ensures e5 in bs <==> p5
  {
    var s1, s2, s3, s4, s5 := (if p1 then [e1] else []), (if p2 then [e2] else []), (if p3 then [e3] else []),
      (if p4 then [e4] else []), (if p5 then [e5] else []);
    InParts(e1, s1, s2, s3, s4, s5);
    InParts(e2, s1, s2, s3, s4, s5);
    InParts(e5, s1, s2, s3, s4, s5);
    InSlot(e1, e1, p1); InSlot(e1, e2, p2); InSlot(e1, e3, p3); InSlot(e1, e4, p4); InSlot(e1, e5, p5);
    InSlot(e2, e1, p1); InSlot(e2, e2, p2); InSlot(e2, e3, p3); InSlot(e2, e4, p4); InSlot(e2, e5, p5);
    InSlot(e5, e1, p1); InSlot(e5, e2, p2); InSlot(e5, e3, p3); InSlot(e5, e4, p4); InSlot(e5, e5, p5);
  }

  /** Experience, Education and Certifications are each written, heading
      and all, exactly when their list is non-empty. */
  lemma ListSectionsPresence(data: ResumeData, mode: ExportMode)
    ensures SectionHeading("Experience", mode) in DocxBlocks(data, mode) <==> |data.workExperience| > 0
    ensures SectionHeading("Education", mode) in DocxBlocks(data, mode) <==> |data.education| > 0
    ensures SectionHeading("Certifications", mode) in DocxBlocks(data, mode) <==> |data.certifications| > 0
  {
    DocumentHeadings(data, mode);
    TitlesDiffer(mode);
    PresenceBySlots(DocxBlocks(data, mode),
      SectionHeading("Experience", mode), SectionHeading("Education", mode), SectionHeading("Skills", mode),
      SectionHeading("Software", mode), SectionHeading("Certifications", mode),
      |data.workExperience| > 0, |data.education| > 0, |ProfessionalSkills(data.skills)| > 0,
      mode == Normal && |SoftwareSkills(data.skills)| > 0, |data.certifications| > 0);
  }

  // ------------------------------------------------------------- scenarios

  /** A cleared resume exports as the two placeholder lines. */
  lemma EmptyResumeDocument(mode: ExportMode)
    ensures DocxBlocks(DefaultResumeData, mode)
         == [Para(TextRun("YOUR NAME", true, false, Strong(mode), mode)),
             Para(TextRun("Professional Title", false, false, Muted(mode), mode))]
  {
    var p := DefaultResumeData.personalInfo;
    assert ContactItems(p) == [];
    assert ProfessionalSkills([]) == [];
  }

  /** A current job ends in "Present" and its blank responsibility is
      dropped. */
  lemma CurrentJobEntry(mode: ExportMode)
    ensures ExperienceEntry(WorkExperience("1", "Lead", "Acme", "", "2020", "2021", true, ["Led team", " "]), mode)
         == [DateRow(DateRun("2020 - Present", mode), [TextRun("Lead", true, false, Strong(mode), mode), TextRun("Acme", false, true, Muted(mode), mode)]),
             BulletItem("Led team", mode),
             Spacer]
  {
    var rs := ["Led team", " "];
    assert !IsBlank(rs[0]) by { assert !IsWhitespace(rs[0][0]); }
    assert IsBlank(rs[1]);
    assert rs[1..] == [" "];
    assert NonBlank(rs) == ["Led team"];
    assert FormatDateRange("2020", "2021", true) == "2020 - Present";
    assert "Acme" + "" == "Acme";
  }
}
