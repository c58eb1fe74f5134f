# Resume Builder Pro — a verified model of the resume core

Resume Builder Pro is a Next.js application. A user fills in a form with
personal details, a summary, education, work experience, skills,
certifications, languages and hobbies. They pick one of fourteen templates to
preview the resume and export it as a PDF (through the browser's print window)
or as a Word document. Both exports have a "normal" and an "ATS" (applicant
tracking system) mode. This project models the logic of that core in Dafny and
proves what it promises.

- **Resume** (`resume.dfy`): the resume aggregate of `src/types/resume.ts`. The
  optional fields (`linkedin`, `website`, `profilePicture`, `gpa`,
  `expiryDate`) are `Option<string>`. JavaScript truthiness of such a field
  (present and non-empty) is `Truthy`.
- **Text** (`text.dfy`): the JavaScript string and array operations the core
  relies on: `trim` and `\s` whitespace, `includes`, `startsWith`,
  `toLowerCase`/`toUpperCase`, `split`, `join`, `filter` and `map`.
- **Shared** (`shared.dfy`): helpers that several source files define
  identically. These are `formatDateRange`, `getInitials`, the 16-keyword
  software classifier, the skill-type filter, the blank-responsibility filter,
  the hobbies-as-projects filter and the infographic avatar.
- **FormState** (`form.dfy`): the editor page `src/app/page.tsx`. Every
  handler is a pure function on `ResumeData`. The page's state is a class
  `ResumeBuilder` whose methods apply those functions. Also modelled: the
  upload checks for a profile picture and the export file names.
- **Formatting** (`formatting.dfy`): the `**bold**`/`_italic_` scanner,
  `parseFormatting`, as a method with a loop. It is proved equal to a
  recursive specification, and that specification is proved to keep exactly
  the unmarked text.
- **DocxExport / DocxProperties** (`docx.dfy`, `docx_props.dfy`):
  `generateDocx` up to packaging. It builds the sequence of paragraphs and
  tables, section by section, with the loops of the source. It is proved equal
  to a specification function. The properties proved include: in ATS mode
  every run is black and no rule is drawn; the bullets under a job are exactly
  its non-blank responsibilities; where each skill ends up.
- **PdfExport / PdfProperties** (`pdf.dfy`, `pdf_props.dfy`): the DOM walk
  `extractContent` that turns the preview into clean HTML for printing, over a
  modelled DOM tree. Also modelled: the body settings of each mode and the
  failure paths of `generatePDF`.
- **Templates with logic**: `enfold.dfy` (timeline labels and their
  most-recent-first sort, captions, headline, themes), `valera.dfy` (skill
  dots and labels, software/professional split, education bullets),
  `kaida.dfy` (section switches), `infographic.dfy` (skill bar widths),
  `showcase.dfy` (tools card, ATS projects, themes), `elegant.dfy` (avatar,
  skill and language bars) and `creative.dfy` (avatar letter, language bars,
  skill groups). Each template's own `useState` switches are a small class.

Where the code and the documented intent disagree, the model follows the code.
The one notable case is the DOCX export in ATS mode. A comment in
`src/utils/docxGenerator.ts` says software skills are "combined with skills" in
that mode. In the code, the Skills section leaves out every skill whose name
matches a software keyword, and the Software section is skipped in ATS mode.
So an ATS document lists no software skill at all. `DocxProperties.SkillPlacement`
states this.

## Model

| member | source | states |
|---|---|---|
| Text.ToLower | src/utils/docxGenerator.ts:220-222 | `toLowerCase` keeps the length and maps every character through the letter mapping |
| Text.ToUpper | src/components/resume-templates/CreativeTemplate.tsx:24 | `toUpperCase` keeps the length and maps every character through the letter mapping |
| Text.Split | src/components/resume-templates/EnfoldCorporateTemplate.tsx:59-60 | `split` always yields at least one piece; SplitJoin, SplitPiecesAvoidSeparator and SplitHeadIsBefore pin down every piece |
| Text.Before | src/components/resume-templates/EnfoldCorporateTemplate.tsx:59 | the text before the first separator is a prefix free of the separator, cut exactly at the separator |
| Text.SplitHeadIsBefore | src/components/resume-templates/EnfoldCorporateTemplate.tsx:59-60 | `s.split(c)[0]` is the part of `s` before the first `c` |
| Text.SplitPiecesAvoidSeparator | src/components/resume-templates/EnfoldCorporateTemplate.tsx:17-23 | no piece of `split(c)` contains `c` |
| Text.SplitJoin | src/components/resume-templates/EnfoldCorporateTemplate.tsx:59-60 | joining the pieces of `s.split(c)` with `c` gives `s` back, so with SplitPiecesAvoidSeparator the pieces are fully determined |
| Text.Filter | src/app/page.tsx:145-150 | `filter` keeps exactly the passing elements, never grows, and is empty iff none pass |
| Text.FilterAppend | src/app/page.tsx:145-150 | filtering distributes over concatenation, so relative order is kept |
| Text.FilterAll | src/app/page.tsx:145-150 | filtering a list whose elements all pass returns it unchanged |
| Text.Map | src/app/page.tsx:136-143 | `map` keeps the length and applies the function at every index |
| Shared.FormatDateRange | src/utils/docxGenerator.ts:403-406 | the range starts with the start date, followed by " - " and then "Present" for a current entry or the end date otherwise |
| Shared.WorkDateText | src/components/resume-templates/ElegantSidebarTemplate.tsx:201 | the inline date text of a job equals `formatDateRange` of its dates |
| Shared.NonBlank | src/utils/docxGenerator.ts:134-136 | exactly the responsibilities whose trim is non-empty are kept |
| Shared.ResponsibilityList | src/components/resume-templates/KaidaKimTemplate.tsx:255-259 | the list renders iff some responsibility is not blank, and then it is the non-blank ones, never empty |
| Shared.Projects | src/components/resume-templates/CreativeInfographicTemplate.tsx:41 | projects are exactly the hobbies with a non-blank name |
| Shared.SoftwareSkills | src/components/resume-templates/ValeraClassicTemplate.tsx:111-116 | exactly the hard skills whose lower-cased name contains a lower-cased keyword |
| Shared.OfKind | src/components/resume-templates/EnfoldCorporateTemplate.tsx:26-27 | exactly the skills of the given type |
| Shared.WordStarts | src/components/resume-templates/EnfoldCorporateTemplate.tsx:17-23 | the reference initials hold no space and no lower-case letter |
| Shared.InitialsAreWordStarts | src/components/resume-templates/EnfoldCorporateTemplate.tsx:17-23 | splitting on spaces and upper-casing first letters gives the upper-cased characters that follow a space or the start |
| Shared.GetInitials | src/components/resume-templates/EnfoldCorporateTemplate.tsx:17-23 | `getInitials` is the first two (or fewer) word starts of the name |
| Shared.InitialsAvatar | src/components/resume-templates/CreativeInfographicTemplate.tsx:194-207 | the picture iff one is set (alt falls back to "Profile Picture"); otherwise the initials of a non-empty name, or "?" for an empty name |
| FormState.UpdateById | src/app/page.tsx:136-143 | the same length; every entry with the id is updated and every other entry kept |
| FormState.RemoveById | src/app/page.tsx:145-150 | exactly the entries with a different id remain, and the list never grows |
| FormState.RemoveByIdAppend | src/app/page.tsx:145-150 | removal by id distributes over concatenation |
| FormState.RemoveAbsentId | src/app/page.tsx:145-150 | removing an id no entry has changes nothing |
| FormState.RemoveUndoesAdd | src/app/page.tsx:145-150 | removing the id of an entry just appended with a fresh id restores the list |
| FormState.RemoveIdempotent | src/app/page.tsx:145-150 | removing the same id twice equals removing it once |
| FormState.PersonalSet | src/app/page.tsx:113-118 | the edited field reads back the new value and every other field is unchanged |
| FormState.PersonalFieldsDetermine | src/types/resume.ts:1-10 | two personal records agreeing on every field are equal, so the field lens sees all of it |
| FormState.EducationSet | src/app/page.tsx:136-143 | the edited field reads back the new value and every other field is unchanged |
| FormState.EducationFieldsDetermine | src/types/resume.ts:12-20 | two education entries agreeing on every field are equal |
| FormState.WorkSet | src/app/page.tsx:169-176 | the edited field (text, flag or lines) reads back the new value and every other field is unchanged |
| FormState.WorkFieldsDetermine | src/types/resume.ts:22-31 | two jobs agreeing on every field are equal |
| FormState.CertificationSet | src/app/page.tsx:260-267 | the edited field reads back the new value and every other field is unchanged |
| FormState.CertificationFieldsDetermine | src/types/resume.ts:39-45 | two certifications agreeing on every field are equal |
| FormState.LanguageSet | src/app/page.tsx:288-295 | each kind of edit replaces its own field and keeps the other two |
| FormState.ReplaceAt | src/app/page.tsx:196-205 | an index in range is overwritten; any other index leaves the lines unchanged |
| FormState.DropPositionIsSplice | src/app/page.tsx:207-216 | filtering out position `index` is the splice around it, or nothing when it is out of range |
| FormState.RemoveAt | src/app/page.tsx:207-216 | removing an index in range splices it out; any other index changes nothing |
| FormState.UpdatePersonalInfo | src/app/page.tsx:113-118 | only the personal info changes: the edited field takes the value and the other fields keep theirs |
| FormState.UpdateProfileSummary | src/app/page.tsx:778-779 | only the summary changes |
| FormState.AddEducation | src/app/page.tsx:120-134 | only education changes, by appending a blank entry with the new id and an empty GPA |
| FormState.UpdateEducation | src/app/page.tsx:136-143 | only education changes; entries with the id get the field set, others are kept |
| FormState.RemoveEducation | src/app/page.tsx:145-150 | only education changes; exactly the entries with other ids remain |
| FormState.AddWorkExperience | src/app/page.tsx:152-167 | only work experience changes, by appending a blank, not-current job with one empty responsibility |
| FormState.UpdateWorkExperience | src/app/page.tsx:169-176 | only work experience changes; jobs with the id get the field set, others are kept |
| FormState.RemoveWorkExperience | src/app/page.tsx:178-183 | only work experience changes; exactly the jobs with other ids remain |
| FormState.MapResponsibilities | src/app/page.tsx:185-216 | only the responsibilities of the jobs with the id change, every other field of every job is kept |
| FormState.ResponsibilityOperations | src/app/page.tsx:185-216 | adding appends an empty line; updating overwrites an in-range index only; removing splices an in-range index only; no role changes |
| FormState.AddSkill | src/app/page.tsx:218-228 | only skills change, by appending an unnamed skill of the chosen type |
| FormState.UpdateSkill | src/app/page.tsx:230-237 | only skills change; skills with the id are renamed, others are kept |
| FormState.RemoveSkill | src/app/page.tsx:239-244 | only skills change; exactly the skills with other ids remain |
| FormState.AddCertification | src/app/page.tsx:246-258 | only certifications change, by appending a blank entry with an empty expiry date |
| FormState.UpdateCertification | src/app/page.tsx:260-267 | only certifications change; entries with the id get the field set, others are kept |
| FormState.RemoveCertification | src/app/page.tsx:269-274 | only certifications change; exactly the entries with other ids remain |
| FormState.AddLanguage | src/app/page.tsx:276-286 | only languages change, by appending an unnamed beginner language |
| FormState.UpdateLanguage | src/app/page.tsx:288-295 | only languages change; languages with the id get the edit, others are kept |
| FormState.RemoveLanguage | src/app/page.tsx:297-302 | only languages change; exactly the languages with other ids remain |
| FormState.AddHobby | src/app/page.tsx:304-313 | only hobbies change, by appending an unnamed hobby |
| FormState.UpdateHobby | src/app/page.tsx:315-322 | only hobbies change; hobbies with the id are renamed, others are kept |
| FormState.RemoveHobby | src/app/page.tsx:324-329 | only hobbies change; exactly the hobbies with other ids remain |
| FormState.RemoveUndoesAddEntry | src/app/page.tsx:120-183 | removing an education, job or certification just added with a fresh id gives back the same resume |
| FormState.RemoveUndoesAddItem | src/app/page.tsx:218-329 | removing a skill, language or hobby just added with a fresh id gives back the same resume |
| FormState.CollapseWhitespace | src/app/page.tsx:365-367 | `replace(/\s+/g, '_')` leaves no whitespace and never lengthens the text; see CollapseRun for the run-to-one-underscore rule |
| FormState.CollapsePlainPrefix | src/app/page.tsx:365-367 | a prefix without whitespace is copied unchanged ahead of the rest's collapse |
| FormState.CollapseWhitespaceRun | src/app/page.tsx:365-367 | a whole whitespace run becomes one "_" (none when already inside a run) |
| FormState.CollapseRun | src/app/page.tsx:365-367 | plain text, then a maximal whitespace run, then the rest: the plain text, exactly one "_", then the rest collapsed |
| FormState.CollapseKeepsPlainText | src/app/page.tsx:365-367 | a name without whitespace is kept as it is |
| FormState.CollapseIdempotent | src/app/page.tsx:365-367 | collapsing twice equals collapsing once |
| FormState.ExportFileName | src/app/page.tsx:365-367 | an empty name gives "resume.pdf"/"resume.docx"; otherwise the collapsed name plus "_Resume" and the extension; never any whitespace |
| FormState.FileNameExample | src/app/page.tsx:410-412 | "A \tB" exports as "A_B_Resume.docx" |
| FormState.CollapseExample | src/app/page.tsx:410-412 | a space followed by a tab becomes a single underscore |
| FormState.ValidateUpload | src/app/page.tsx:339-353 | accepted iff a file is present, at most 5 MB and an `image/` type; too large iff over 5 MB; no file iff none was chosen |
| FormState.ResumeBuilder.constructor | src/app/page.tsx:72-75 | the page starts with the empty resume, the corporate template and normal export |
| FormState.ResumeBuilder.SetPersonalInfo | src/app/page.tsx:113-118 | the resume becomes `UpdatePersonalInfo` of the old one; template and format unchanged |
| FormState.ResumeBuilder.SetProfileSummary | src/app/page.tsx:778-779 | the resume becomes `UpdateProfileSummary` of the old one; template and format unchanged |
| FormState.ResumeBuilder.AddEducationEntry | src/app/page.tsx:120-134 | the resume becomes `AddEducation` of the old one; template and format unchanged |
| FormState.ResumeBuilder.UpdateEducationEntry | src/app/page.tsx:136-143 | the resume becomes `UpdateEducation` of the old one; template and format unchanged |
| FormState.ResumeBuilder.RemoveEducationEntry | src/app/page.tsx:145-150 | the resume becomes `RemoveEducation` of the old one; template and format unchanged |
| FormState.ResumeBuilder.AddWorkEntry | src/app/page.tsx:152-167 | the resume becomes `AddWorkExperience` of the old one; template and format unchanged |
| FormState.ResumeBuilder.UpdateWorkEntry | src/app/page.tsx:169-176 | the resume becomes `UpdateWorkExperience` of the old one; template and format unchanged |
| FormState.ResumeBuilder.RemoveWorkEntry | src/app/page.tsx:178-183 | the resume becomes `RemoveWorkExperience` of the old one; template and format unchanged |
| FormState.ResumeBuilder.AddResponsibilityLine | src/app/page.tsx:185-194 | the resume becomes `AddResponsibility` of the old one; template and format unchanged |
| FormState.ResumeBuilder.UpdateResponsibilityLine | src/app/page.tsx:196-205 | the resume becomes `UpdateResponsibility` of the old one; template and format unchanged |
| FormState.ResumeBuilder.RemoveResponsibilityLine | src/app/page.tsx:207-216 | the resume becomes `RemoveResponsibility` of the old one; template and format unchanged |
| FormState.ResumeBuilder.AddSkillEntry | src/app/page.tsx:218-228 | the resume becomes `AddSkill` of the old one; template and format unchanged |
| FormState.ResumeBuilder.UpdateSkillEntry | src/app/page.tsx:230-237 | the resume becomes `UpdateSkill` of the old one; template and format unchanged |
| FormState.ResumeBuilder.RemoveSkillEntry | src/app/page.tsx:239-244 | the resume becomes `RemoveSkill` of the old one; template and format unchanged |
| FormState.ResumeBuilder.AddCertificationEntry | src/app/page.tsx:246-258 | the resume becomes `AddCertification` of the old one; template and format unchanged |
| FormState.ResumeBuilder.UpdateCertificationEntry | src/app/page.tsx:260-267 | the resume becomes `UpdateCertification` of the old one; template and format unchanged |
| FormState.ResumeBuilder.RemoveCertificationEntry | src/app/page.tsx:269-274 | the resume becomes `RemoveCertification` of the old one; template and format unchanged |
| FormState.ResumeBuilder.AddLanguageEntry | src/app/page.tsx:276-286 | the resume becomes `AddLanguage` of the old one; template and format unchanged |
| FormState.ResumeBuilder.UpdateLanguageEntry | src/app/page.tsx:288-295 | the resume becomes `UpdateLanguage` of the old one; template and format unchanged |
| FormState.ResumeBuilder.RemoveLanguageEntry | src/app/page.tsx:297-302 | the resume becomes `RemoveLanguage` of the old one; template and format unchanged |
| FormState.ResumeBuilder.AddHobbyEntry | src/app/page.tsx:304-313 | the resume becomes `AddHobby` of the old one; template and format unchanged |
| FormState.ResumeBuilder.UpdateHobbyEntry | src/app/page.tsx:315-322 | the resume becomes `UpdateHobby` of the old one; template and format unchanged |
| FormState.ResumeBuilder.RemoveHobbyEntry | src/app/page.tsx:324-329 | the resume becomes `RemoveHobby` of the old one; template and format unchanged |
| FormState.ResumeBuilder.LoadSample | src/app/page.tsx:331-333 | the resume becomes the chosen sample; template and format unchanged |
| FormState.ResumeBuilder.ClearResume | src/app/page.tsx:335-337 | the resume becomes the empty default; template and format unchanged |
| FormState.ResumeBuilder.SelectTemplate | src/app/page.tsx:74 | only the selected template changes |
| FormState.ResumeBuilder.SelectExportFormat | src/app/page.tsx:75 | only the export format changes |
| FormState.ResumeBuilder.UploadProfilePicture | src/app/page.tsx:339-361 | the outcome is `ValidateUpload`; the picture is set to the data URL only when accepted, and otherwise nothing changes |
| FormState.ResumeBuilder.DownloadFileName | src/app/page.tsx:363-367 | the name computed for a download is `ExportFileName` of the current full name (the DOCX file is saved under it; see "Left out" for the PDF) |
| Formatting.Flush | src/components/resume-templates/ValeraClassicTemplate.tsx:36-39 | a part is emitted only for collected text, so at most one and never empty |
| Formatting.ParseFormatting | src/components/resume-templates/ValeraClassicTemplate.tsx:23-57 | the loop returns exactly the parts the recursive scanner specifies, whose characters carry the styles PartsCarryStyles states |
| Formatting.TextsAppend | src/components/resume-templates/ValeraClassicTemplate.tsx:23-57 | the joined texts of two part lists are the joins of each |
| Formatting.TextsFlush | src/components/resume-templates/ValeraClassicTemplate.tsx:52-54 | flushing preserves the collected text exactly |
| Formatting.MarkerStep | src/components/resume-templates/ValeraClassicTemplate.tsx:35-47 | a marker step that drops nothing from the plain text keeps the text invariant |
| Formatting.ScanKeepsPlainText | src/components/resume-templates/ValeraClassicTemplate.tsx:31-50 | from any point, the parts' texts are the collected text plus the rest of the input without its markers |
| Formatting.PartsKeepPlainText | src/components/resume-templates/KaidaKimTemplate.tsx:29-63 | the parts' texts, joined, are the input with every `**` pair and `_` removed |
| Formatting.ScanPartsNonEmpty | src/components/resume-templates/ValeraClassicTemplate.tsx:36-54 | no part the scanner emits has empty text |
| Formatting.PartsNonEmpty | src/components/resume-templates/ValeraClassicTemplate.tsx:23-57 | no part is empty; there are no parts iff the unmarked text is empty; the empty input gives none |
| Formatting.UnmarkedText | src/components/resume-templates/ValeraClassicTemplate.tsx:48-54 | text without markers becomes a single part in the current style |
| Formatting.EmphasisExamples | src/components/resume-templates/KaidaKimTemplate.tsx:29-63 | `x`, `**x**` and `_x_` give one plain, one bold and one italic part |
| Formatting.BoldExample | src/components/resume-templates/ValeraClassicTemplate.tsx:35-54 | `**x**` with marker-free, non-empty `x` is one bold part holding `x` |
| Formatting.ItalicExample | src/components/resume-templates/ValeraClassicTemplate.tsx:42-54 | `_x_` with marker-free, non-empty `x` is one italic part holding `x` |
| Formatting.CollectUntilMarker | src/components/resume-templates/ValeraClassicTemplate.tsx:48-49 | marker-free characters are appended to the current part |
| Formatting.PartClass | src/components/resume-templates/ValeraClassicTemplate.tsx:61-74 | the class is " font-bold" for bold followed by " italic" for italic |
| Formatting.PartClassDistinguishesStyles | src/components/resume-templates/ValeraClassicTemplate.tsx:64-66 | equal classes mean equal styles |
| Formatting.Tag | src/components/resume-templates/ValeraClassicTemplate.tsx:61-74 | a span tags each of its characters with its bold and italic flags, one entry per character |
| Formatting.TagSnoc | src/components/resume-templates/ValeraClassicTemplate.tsx:48-49 | appending a character to the current span appends it with the span's flags |
| Formatting.ExpandAppend | src/components/resume-templates/ValeraClassicTemplate.tsx:23-57 | the tagged characters of joined part lists are the joins of each |
| Formatting.ExpandFlush | src/components/resume-templates/ValeraClassicTemplate.tsx:36-39 | flushing a span emits exactly its characters in its style |
| Formatting.StyleMarkerStep | src/components/resume-templates/ValeraClassicTemplate.tsx:35-47 | a marker that closes the span and switches a flag keeps the characters' tagging |
| Formatting.PlainCharStep | src/components/resume-templates/ValeraClassicTemplate.tsx:48-49 | a character that is no marker is tagged with the current flags, like the span it joins |
| Formatting.ScanStyles | src/components/resume-templates/ValeraClassicTemplate.tsx:31-54 | from any point, the parts tag the collected span with the current flags, then every later character with the flags the markers before it set |
| Formatting.PartsCarryStyles | src/components/resume-templates/ValeraClassicTemplate.tsx:23-57 | every rendered character carries exactly the bold and italic state that the `**` and `_` toggles before it leave, starting plain |
| Formatting.MixedStylesExample | src/components/resume-templates/ValeraClassicTemplate.tsx:23-57 | "**a**b_c_" shows a bold, b plain and c italic |
| DocxExport.Bullets | src/utils/docxGenerator.ts:135-145 | one bullet paragraph per item |
| DocxExport.ContactItems | src/utils/docxGenerator.ts:67-71 | phone, email, LinkedIn and location in that order, each iff filled, as "Phone: ", "Email: ", "LinkedIn: LinkedIn Profile" and "Location: " plus the value; nothing else |
| DocxExport.WebsiteNeverShown | src/utils/docxGenerator.ts:67-79 | the website field has no influence on the contact line or the header |
| DocxExport.FlatMapSnoc | src/utils/docxGenerator.ts:96 | the blocks of a prefix extended by one element are the old blocks plus that element's |
| DocxExport.PushEach | src/utils/docxGenerator.ts:96-150 | the `forEach` loop appends the blocks of every element in order |
| DocxExport.ProfessionalSkills | src/utils/docxGenerator.ts:220-222 | exactly the skills whose name matches no keyword, of either type; empty iff every skill matches |
| DocxExport.BuildHeader | src/utils/docxGenerator.ts:50-89 | the header children equal the header specification |
| DocxExport.BuildExperience | src/utils/docxGenerator.ts:91-152 | the experience children equal the experience specification |
| DocxExport.BuildEducation | src/utils/docxGenerator.ts:154-217 | the education children equal the education specification |
| DocxExport.BuildSoftware | src/utils/docxGenerator.ts:266-289 | the software children equal the software specification |
| DocxExport.BuildCertifications | src/utils/docxGenerator.ts:291-343 | the certification children equal the certification specification |
| DocxExport.GenerateDocx | src/utils/docxGenerator.ts:4-353 | the document is the header, experience, education, skills, software and certification sections in that order |
| DocxProperties.TextRunStyled | src/utils/docxGenerator.ts:9-17 | a run made by `createTextRun` is black in ATS mode |
| DocxProperties.ParaStyled | src/utils/docxGenerator.ts:54-88 | a one-run paragraph made by `createTextRun` is styled for the mode |
| DocxProperties.DateRowStyled | src/utils/docxGenerator.ts:96-132 | a date row whose runs come from `createTextRun` is styled for the mode |
| DocxProperties.HeadingStyled | src/utils/docxGenerator.ts:19-45 | a section heading and its rule are styled for the mode |
| DocxProperties.CertificationEntryStyled | src/utils/docxGenerator.ts:296-342 | one certification's row, expiry line and spacer are styled for the mode |
| DocxProperties.FlatMapStyled | src/utils/docxGenerator.ts:9-17 | blocks of styled pieces are styled |
| DocxProperties.StyledAppend | src/utils/docxGenerator.ts:346-353 | joining styled sections keeps them styled |
| DocxProperties.BulletsStyled | src/utils/docxGenerator.ts:135-145 | bullet paragraphs are styled for the mode |
| DocxProperties.LabelledListStyled | src/utils/docxGenerator.ts:231-240 | a caption and its list are styled for the mode |
| DocxProperties.HeaderStyled | src/utils/docxGenerator.ts:50-89 | the header is styled for the mode |
| DocxProperties.ExperienceEntryStyled | src/utils/docxGenerator.ts:96-150 | one job's blocks are styled for the mode |
| DocxProperties.ExperienceStyled | src/utils/docxGenerator.ts:91-152 | the experience section is styled for the mode |
| DocxProperties.EducationEntryStyled | src/utils/docxGenerator.ts:159-215 | one education entry's blocks are styled for the mode |
| DocxProperties.EducationStyled | src/utils/docxGenerator.ts:154-217 | the education section is styled for the mode |
| DocxProperties.SkillListsStyled | src/utils/docxGenerator.ts:231-262 | the technical, soft and language lists are styled for the mode |
| DocxProperties.SkillsStyled | src/utils/docxGenerator.ts:219-264 | the skills section is styled for the mode |
| DocxProperties.SoftwareStyled | src/utils/docxGenerator.ts:266-289 | the software section is styled for the mode |
| DocxProperties.CertificationsStyled | src/utils/docxGenerator.ts:291-343 | the certification section is styled for the mode |
| DocxProperties.DocumentStyledForMode | src/utils/docxGenerator.ts:9-47 | every block of the document is styled for its mode: ATS runs are black and ATS rules are blank |
| DocxProperties.AtsDocumentIsBlack | src/utils/docxGenerator.ts:15 | in ATS mode every run of the document is black |
| DocxProperties.BulletTextsAppend | src/utils/docxGenerator.ts:147 | the bullet texts of joined blocks are the joins of each |
| DocxProperties.BulletTextsOfBullets | src/utils/docxGenerator.ts:135-145 | the bullets carry exactly the items, in order |
| DocxProperties.EntryBulletTexts | src/utils/docxGenerator.ts:131-149 | the row and the spacer of an entry carry no bullet text |
| DocxProperties.ResponsibilityBulletTexts | src/utils/docxGenerator.ts:134-147 | the responsibility bullets are exactly the non-blank responsibilities |
| DocxProperties.ExperienceBulletsAreResponsibilities | src/utils/docxGenerator.ts:96-150 | the bullets under a job are exactly its non-blank responsibilities, in order |
| DocxProperties.EducationBullets | src/utils/docxGenerator.ts:197-212 | the GPA bullet iff a GPA is set, first; the award bullet iff normal mode |
| DocxProperties.CaptionInList | src/utils/docxGenerator.ts:231-240 | a labelled list contains the caption paragraph of a label exactly when it is its own label |
| DocxProperties.LanguagesCaption | src/utils/docxGenerator.ts:253-262 | the Languages list appears under Skills iff there is a language |
| DocxProperties.SkillsSectionShape | src/utils/docxGenerator.ts:219-264 | the skills block is written iff a professional skill remains, with the Languages list iff there are languages |
| DocxProperties.SkillsSectionPresence | src/utils/docxGenerator.ts:219-264 | the Skills section is written iff some skill is not a software name, and languages are listed only then |
| DocxProperties.Headings | src/utils/docxGenerator.ts:20-28 | the headings of a block list are exactly its heading blocks |
| DocxProperties.HeadingsAppend | src/utils/docxGenerator.ts:346-353 | the headings of joined blocks are the joins of each |
| DocxProperties.NoHeadingsIn | src/utils/docxGenerator.ts:96-150 | blocks with no heading have no headings |
| DocxProperties.FlatMapNoHeading | src/utils/docxGenerator.ts:96-150 | entries that write no heading give a section body without one |
| DocxProperties.BulletsNoHeading | src/utils/docxGenerator.ts:135-145 | bullet paragraphs are never headings |
| DocxProperties.HeadedSection | src/utils/docxGenerator.ts:93-94 | a section opened by `createHeading` and `createHorizontalLine` has exactly that one heading |
| DocxProperties.ExperienceHeadings | src/utils/docxGenerator.ts:92-152 | the experience section holds the "Experience" heading iff there is a job, and no other |
| DocxProperties.EducationHeadings | src/utils/docxGenerator.ts:155-217 | the education section holds the "Education" heading iff there is an entry, and no other |
| DocxProperties.CertificationHeadings | src/utils/docxGenerator.ts:292-343 | the certification section holds the "Certifications" heading iff there is one, and no other |
| DocxProperties.SkillListsNoHeading | src/utils/docxGenerator.ts:231-262 | the technical, soft and language lists hold no heading |
| DocxProperties.SkillsHeadings | src/utils/docxGenerator.ts:224-264 | the skills section holds the "Skills" heading iff a professional skill remains |
| DocxProperties.SoftwareHeadings | src/utils/docxGenerator.ts:266-289 | the software section holds the "Software" heading iff normal mode lists a software skill |
| DocxProperties.HeaderNoHeading | src/utils/docxGenerator.ts:50-89 | the header writes no section heading |
| DocxProperties.HeadingsOfParts | src/utils/docxGenerator.ts:346-353 | the headings of the six joined sections are the joins of each |
| DocxProperties.DocumentHeadings | src/utils/docxGenerator.ts:346-353 | the document's headings are, in order, Experience, Education, Skills, Software and Certifications, each iff its section is written |
| DocxProperties.TitlesDiffer | src/utils/docxGenerator.ts:20-27 | the five upper-cased section titles give pairwise different headings |
| DocxProperties.InParts | src/utils/docxGenerator.ts:346-353 | membership in five joined parts is membership in one of them |
| DocxProperties.InSlot | src/utils/docxGenerator.ts:92-95 | an optional one-heading slot holds a block iff it is filled with it |
| DocxProperties.PresenceBySlots | src/utils/docxGenerator.ts:346-353 | of five distinct headings in optional slots, the first, second and last are among the blocks iff their slot is filled |
| DocxProperties.ListSectionsPresence | src/utils/docxGenerator.ts:92-343 | the Experience, Education and Certifications headings are in the document iff their list is non-empty |
| DocxProperties.SkillPlacement | src/utils/docxGenerator.ts:219-289 | a non-software name is listed under its type; a software name never under Skills; the Software list is the hard software skills; ATS has no Software section |
| DocxProperties.EmptyResumeDocument | src/utils/docxGenerator.ts:54-65 | a cleared resume exports as the "YOUR NAME" and "Professional Title" lines alone |
| DocxProperties.CurrentJobEntry | src/utils/docxGenerator.ts:96-150 | a current job shows "Present" and its blank responsibility is dropped |
| PdfExport.ImageSize | src/utils/pdfGenerator.ts:48-54 | `w-32` gives 128 px, else `w-20` gives 80 px, else a 150 px cap |
| PdfExport.AltText | src/utils/pdfGenerator.ts:39 | the alt text is never empty and is the attribute when that is non-empty |
| PdfExport.BackdropOf | src/utils/pdfGenerator.ts:73-117 | the parent's classes are tested slate first, then purple, then white text |
| PdfExport.FirstMatchIsFirst | src/utils/pdfGenerator.ts:118-164 | no style iff no row matches; otherwise the style of the first matching row |
| PdfExport.Wrap | src/utils/pdfGenerator.ts:71-196 | an unhandled tag passes its content through; a handled one wraps it |
| PdfExport.ExtractContent | src/utils/pdfGenerator.ts:15-200 | the recursive walk with its child loop returns exactly the specified extraction |
| PdfExport.ExtractChildrenStep | src/utils/pdfGenerator.ts:66-68 | each pass of the child loop appends that child's output to the content gathered so far |
| PdfExport.BodySettingsFor | src/utils/pdfGenerator.ts:221-227 | ATS pages use Times New Roman 12px, line height 1.4, 0.75in padding; normal ones Arial 14px, 1.5, 0.5in |
| PdfExport.GeneratePdf | src/utils/pdfGenerator.ts:1-395 | server side and a missing element fail with their own messages; otherwise printing happens iff the popup opens, with the clean page |
| PdfProperties.ExtractChildrenAppend | src/utils/pdfGenerator.ts:66-68 | the output of a run of siblings is the outputs of its parts, joined |
| PdfProperties.StripImagesAll | src/utils/pdfGenerator.ts:32-34 | stripping images keeps the number of children |
| PdfProperties.AtsIgnoresImages | src/utils/pdfGenerator.ts:32-34 | in ATS mode removing every image leaves the output unchanged |
| PdfProperties.AtsIgnoresImagesAll | src/utils/pdfGenerator.ts:32-34 | the same for a list of siblings |
| PdfProperties.VisibleImageOutput | src/utils/pdfGenerator.ts:37-61 | a visible image in normal mode yields its tag when the source is an inline data URL and nothing otherwise |
| PdfProperties.ImageTagNonEmpty | src/utils/pdfGenerator.ts:58 | the tag written for an image is never empty |
| PdfProperties.NormalImageKeptIffEmbedded | src/utils/pdfGenerator.ts:37-61 | in normal mode a visible image yields output iff its source is a `data:image` URL, and then an img tag with that source |
| PdfProperties.HiddenSubtreeIgnored | src/utils/pdfGenerator.ts:25-29 | a hidden element yields nothing, whatever its subtree holds |
| PdfProperties.ElementOutput | src/utils/pdfGenerator.ts:64-199 | a visible non-image element yields nothing iff its content is blank; an unhandled tag yields its content |
| PdfProperties.HeadingWhiteIff | src/utils/pdfGenerator.ts:73-86 | h1 and h2 are white iff the parent names slate, purple or white text, and black otherwise |
| PdfProperties.BackdropColours | src/utils/pdfGenerator.ts:87-117 | the light purple backdrop and the slate sidebar colours of headings and paragraphs |
| PdfProperties.ContainerStyleFirstMatch | src/utils/pdfGenerator.ts:118-164 | a container takes the first matching row's style, or the plain margin when none matches |
| PdfProperties.SidebarParagraph | src/utils/pdfGenerator.ts:110-117 | an upper-case `P` in the dark sidebar becomes a light-grey paragraph |
| EnfoldTemplate.YearOf | src/components/resume-templates/EnfoldCorporateTemplate.tsx:59 | the year is the part before the first '-' and holds no '-' |
| EnfoldTemplate.WorkYears | src/components/resume-templates/EnfoldCorporateTemplate.tsx:58-62 | a current job shows its start year alone; another shows start-end, or its start year alone when the end year reads "Present" |
| EnfoldTemplate.EducationYears | src/components/resume-templates/EnfoldCorporateTemplate.tsx:64-68 | education always shows start-end |
| EnfoldTemplate.BeforeOfPrefix | src/components/resume-templates/EnfoldCorporateTemplate.tsx:71-72 | cutting `a + rest` at the first `c` gives `a` when `a` has no `c` and `rest` starts with `c` or is empty |
| EnfoldTemplate.WorkLeadIsStartYear | src/components/resume-templates/EnfoldCorporateTemplate.tsx:58-72 | the sort key read back from a job's label is its start year |
| EnfoldTemplate.EducationLeadIsStartYear | src/components/resume-templates/EnfoldCorporateTemplate.tsx:64-72 | the sort key read back from an education label is its start year |
| EnfoldTemplate.Insert | src/components/resume-templates/EnfoldCorporateTemplate.tsx:70-74 | inserting keeps the same elements plus one, and numeric keys |
| EnfoldTemplate.SortByYear | src/components/resume-templates/EnfoldCorporateTemplate.tsx:70-74 | the sort returns a permutation of its input |
| EnfoldTemplate.SortedSnoc | src/components/resume-templates/EnfoldCorporateTemplate.tsx:70-74 | an item no later than the last of a descending list extends it |
| EnfoldTemplate.SortedAboveLast | src/components/resume-templates/EnfoldCorporateTemplate.tsx:70-74 | in a timeline sorted most recent first, no element is older than the last |
| EnfoldTemplate.InsertKeepsOrder | src/components/resume-templates/EnfoldCorporateTemplate.tsx:70-74 | inserting into a descending list keeps it descending |
| EnfoldTemplate.SortByYearSorted | src/components/resume-templates/EnfoldCorporateTemplate.tsx:70-74 | the sort result is descending by start year |
| EnfoldTemplate.AllYears | src/components/resume-templates/EnfoldCorporateTemplate.tsx:58-74 | the timeline has one item per job and education, most recent first, as a permutation of the labels |
| EnfoldTemplate.TimelineItemsNumeric | src/components/resume-templates/EnfoldCorporateTemplate.tsx:58-72 | numeric start dates give labels with numeric sort keys |
| EnfoldTemplate.FindFirst | src/components/resume-templates/EnfoldCorporateTemplate.tsx:299-300 | `find` is none iff nothing matches, otherwise the first match |
| EnfoldTemplate.TimelineCaption | src/components/resume-templates/EnfoldCorporateTemplate.tsx:298-311 | the caption is the role of the first job with the id, else the degree of the first education entry with it, else empty |
| EnfoldTemplate.SharedIdShowsRole | src/components/resume-templates/EnfoldCorporateTemplate.tsx:299-311 | an id shared by a job and an education entry shows the job's role |
| EnfoldTemplate.Headline | src/components/resume-templates/EnfoldCorporateTemplate.tsx:446-449 | a job title gives "Driving excellence in" and the lower-cased title; none gives the fixed headline |
| EnfoldTemplate.ContactLine | src/components/resume-templates/EnfoldCorporateTemplate.tsx:86-90 | one captioned line iff the field is filled |
| EnfoldTemplate.OptionalText | src/components/resume-templates/EnfoldCorporateTemplate.tsx:89-90 | the text is non-empty iff the optional field is truthy |
| EnfoldTemplate.AtsContactLines | src/components/resume-templates/EnfoldCorporateTemplate.tsx:86-90 | email, phone, location, "LinkedIn: " plus the URL and website, in that order, each iff filled, with its label and value; nothing else |
| EnfoldTemplate.ThemePalette | src/components/resume-templates/EnfoldCorporateTemplate.tsx:30-49 | both palettes share secondary and text colours; navy-gray iff the navy primary |
| EnfoldTemplate.EnfoldView.constructor | src/components/resume-templates/EnfoldCorporateTemplate.tsx:12-13 | starts in the normal view with the navy-gray theme |
| EnfoldTemplate.EnfoldView.ToggleAts | src/components/resume-templates/EnfoldCorporateTemplate.tsx:216 | flips the ATS view and keeps the theme |
| EnfoldTemplate.EnfoldView.SelectTheme | src/components/resume-templates/EnfoldCorporateTemplate.tsx:195-205 | sets the theme and keeps the view |
| EnfoldTemplate.EnfoldView.CurrentPalette | src/components/resume-templates/EnfoldCorporateTemplate.tsx:49 | the palette of the current theme |
| ValeraTemplate.RenderSkillDots | src/components/resume-templates/ValeraClassicTemplate.tsx:88-101 | five dots; dot i is black iff i <= level; the filled count is the level clamped to 0..5 |
| ValeraTemplate.SkillLevelLabel | src/components/resume-templates/ValeraClassicTemplate.tsx:105-108 | a caption iff the level is 1..5: "Beginner", "Fair", "Good", "Very Good", "Excellent" |
| ValeraTemplate.ProfessionalSkills | src/components/resume-templates/ValeraClassicTemplate.tsx:119-121 | exactly the skills whose id no software skill carries |
| ValeraTemplate.SkillsPartition | src/components/resume-templates/ValeraClassicTemplate.tsx:111-121 | with distinct ids every skill is in exactly one of the two lists |
| ValeraTemplate.SkillListsDisjoint | src/components/resume-templates/ValeraClassicTemplate.tsx:111-121 | no skill is in both lists |
| ValeraTemplate.RepeatedIdHidesSkill | src/components/resume-templates/ValeraClassicTemplate.tsx:119-121 | a soft skill sharing its id with a software skill is in neither list |
| ValeraTemplate.EducationBullets | src/components/resume-templates/ValeraClassicTemplate.tsx:302-322 | the GPA bullet iff a GPA is set, then always the award bullet |
| ValeraTemplate.EducationDates | src/components/resume-templates/ValeraClassicTemplate.tsx:281 | education is never current, so it shows start - end |
| KaidaKimTemplate.OrElse | src/components/resume-templates/KaidaKimTemplate.tsx:132 | `value || fallback` on strings |
| KaidaKimTemplate.HeaderLines | src/components/resume-templates/KaidaKimTemplate.tsx:132-138 | the name or "YOUR NAME", the title or "Professional Title" |
| KaidaKimTemplate.KaidaKimView.constructor | src/components/resume-templates/KaidaKimTemplate.tsx:12-16 | both sections visible, tips hidden |
| KaidaKimTemplate.KaidaKimView.ToggleLicenses | src/components/resume-templates/KaidaKimTemplate.tsx:93 | flips the licenses switch only |
| KaidaKimTemplate.KaidaKimView.ToggleActivities | src/components/resume-templates/KaidaKimTemplate.tsx:103 | flips the activities switch only |
| KaidaKimTemplate.KaidaKimView.ToggleFormattingTips | src/components/resume-templates/KaidaKimTemplate.tsx:113 | flips the tips panel only |
| KaidaKimTemplate.KaidaKimView.VisibleSections | src/components/resume-templates/KaidaKimTemplate.tsx:390-424 | licenses show iff switched on with a certification; activities iff switched on with a language or hobby |
| InfographicTemplate.SkillBarWidth | src/components/resume-templates/CreativeInfographicTemplate.tsx:269 | the width is between 90 and 100 and is 100 iff the index is at least 2 |
| InfographicTemplate.SkillBarWidthMonotone | src/components/resume-templates/CreativeInfographicTemplate.tsx:269 | later skills never get a shorter bar |
| InfographicTemplate.TechnicalSkillBars | src/components/resume-templates/CreativeInfographicTemplate.tsx:258-271 | one bar per hard skill in order, with the width of its index |
| InfographicTemplate.InfographicView.constructor | src/components/resume-templates/CreativeInfographicTemplate.tsx:12 | starts in the normal view |
| InfographicTemplate.InfographicView.ToggleAts | src/components/resume-templates/CreativeInfographicTemplate.tsx:169 | flips the ATS view |
| ShowcaseTemplate.ToolsCard | src/components/resume-templates/CreativeShowcaseInfographicTemplate.tsx:354-361 | the card shows iff a hard skill exists, with the first min(8, n) hard skills |
| ShowcaseTemplate.AtsProjects | src/components/resume-templates/CreativeShowcaseInfographicTemplate.tsx:141-150 | the section shows iff a hobby has a non-blank name; it lists the projects' names in order, all non-blank |
| ShowcaseTemplate.ThemeFor | src/components/resume-templates/CreativeShowcaseInfographicTemplate.tsx:30-63 | every class of a theme uses that theme's colour at its fixed shade |
| ShowcaseTemplate.ShowcaseView.constructor | src/components/resume-templates/CreativeShowcaseInfographicTemplate.tsx:12-13 | starts in the normal view with the teal theme |
| ShowcaseTemplate.ShowcaseView.ToggleAts | src/components/resume-templates/CreativeShowcaseInfographicTemplate.tsx:221 | flips the ATS view and keeps the theme |
| ShowcaseTemplate.ShowcaseView.SelectTheme | src/components/resume-templates/CreativeShowcaseInfographicTemplate.tsx:199-213 | sets the theme and keeps the view |
| ShowcaseTemplate.ShowcaseView.CurrentTheme | src/components/resume-templates/CreativeShowcaseInfographicTemplate.tsx:63 | the classes of the current theme |
| ElegantTemplate.SidebarAvatar | src/components/resume-templates/ElegantSidebarTemplate.tsx:30-50 | the picture iff set; initials iff no picture and a name; nothing otherwise |
| ElegantTemplate.AvatarsAgree | src/components/resume-templates/ElegantSidebarTemplate.tsx:30-50 | the sidebar and infographic avatars agree iff there is a picture or a name |
| ElegantTemplate.SkillBars | src/components/resume-templates/ElegantSidebarTemplate.tsx:91-130 | the block shows iff there is a skill; hard skills at 85%, soft at 75%, in order |
| ElegantTemplate.LanguageBarWidth | src/components/resume-templates/ElegantSidebarTemplate.tsx:148-152 | native 100, fluent 90, advanced 80, intermediate 60, beginner 40, anything else 50 |
| ElegantTemplate.LanguageBarsFollowLevel | src/components/resume-templates/ElegantSidebarTemplate.tsx:148-152 | for a real proficiency the width is 40, 60, 80 or 100 and grows with the level |
| CreativeTemplate.HeaderAvatar | src/components/resume-templates/CreativeTemplate.tsx:16-25 | the picture iff set; otherwise one letter: the upper-cased first character of the name, or "Y" |
| CreativeTemplate.ProficiencyWidth | src/components/resume-templates/CreativeTemplate.tsx:111-113 | native 100, advanced 80, intermediate 60, anything else 40 |
| CreativeTemplate.SameBarsAsSidebar | src/components/resume-templates/CreativeTemplate.tsx:111-113 | for every real proficiency the bar equals the elegant sidebar's; they differ on "fluent" |
| CreativeTemplate.SkillGroups | src/components/resume-templates/CreativeTemplate.tsx:64-90 | each group shows iff a skill of its type exists, listing those names in order |
| CreativeTemplate.Group | src/components/resume-templates/CreativeTemplate.tsx:64-76 | a group shows iff a skill of the type exists, listing those names in order |

## Left out

- Rendering: the JSX markup, CSS classes without logic, icons and animations are not modelled. Only the decisions that pick text, widths, colours and sections are.
- Templates without logic of their own (Corporate, Modern Tech, Minimalist, Academic, Executive Profile, Creative Portfolio, Modern Professional Hybrid) are not part of this model.
- Browser and library effects are not modelled: `localStorage`, `FileReader`, `alert`, `window.open`/`print`, the `docx` library's packaging, `Blob` and the download link. The upload's data URL and the popup's success are parameters.
- `Date.now()` ids are parameters (`newId`) of the add operations.
- Text.ToLower: maps ASCII letters only; JavaScript's `toLowerCase`/`toUpperCase` cover all of Unicode.
- Text.ToUpper: the same ASCII-only mapping.
- EnfoldTemplate.AllYears: requires numeric start years; `parseInt` of a non-numeric year gives NaN in the source, which makes the comparator inconsistent and the order engine-defined.
- EnfoldTemplate.SortByYear: stability of `Array.prototype.sort` is not proved, only that the result is a descending permutation.
- FormState.LanguageSet: a proficiency edit takes one of the four literals; the source's handler is typed `string` but is only reached from a four-option selector.
- FormState.UpdateProfileSummary: the textarea handler is inline JSX; the state update it performs is modelled.
- PdfExport.ExtractContent: the DOM is a modelled tree; `classList`, `style` and attributes are fields of a node, and the HTML is not escaped, as in the source.
- PdfExport.GeneratePdf: exceptions are a `Failed` outcome; the timers that close the window and revoke the URL are left out.
- DocxExport.GenerateDocx: font sizes, spacing and indents of each run are left out; text, weight, slant and colour are modelled.
- Valera `getYear` is defined in the source but never called, so it is left out. `getSkillLevelLabel` is also never called by the template; it is modelled as `ValeraTemplate.SkillLevelLabel` all the same, and no rendered caption follows from it.
- ValeraTemplate.RepeatedIdHidesSkill: with duplicate ids (the page uses `Date.now()` ids, which can repeat on fast clicks) a skill can vanish from both lists; the model reproduces this.
- ElegantTemplate.LanguageBarWidth: the "fluent" (90%) and fallback (50%) branches can never be taken for the declared proficiency type; `ElegantTemplate.LanguageBarsFollowLevel` proves this.
- FormState.ExportFileName: a whitespace-only name is truthy, so it gives "__Resume.pdf" (the run becomes one underscore, then "_Resume" follows) rather than "resume.pdf", as in the source.
- FormState.ResumeBuilder.DownloadFileName: the PDF download passes this name to `generatePDF`, whose `filename` parameter (src/utils/pdfGenerator.ts:1) is never read, the PDF comes from the browser's print dialog over a window titled "Resume" (src/utils/pdfGenerator.ts:212, 366-377), and the model does not capture the name the browser then offers.
- FormState.ValidateUpload: the file's size and MIME type are inputs; reading the file is left out.
