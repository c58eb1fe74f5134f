// The editor's state and its updaters (src/app/page.tsx): every handler
// replaces the resume with a new value computed from the previous one, and
// the component keeps the resume, the chosen template and the export mode.
module FormState {
  import opened Text
  import opened Resume

  // ------------------------------------------------------- generic updaters

  /** `xs.map(x => idOf(x) === id ? f(x) : x)`. */
  function UpdateById<T>(xs: seq<T>, idOf: T -> string, id: string, f: T -> T): (r: seq<T>)
    ensures |r| == |xs|
    ensures forall i :: 0 <= i < |xs| ==> r[i] == if idOf(xs[i]) == id then f(xs[i]) else xs[i]
  {
    Map(xs, (x: T) => if idOf(x) == id then f(x) else x)
  }

  /** `xs.filter(x => idOf(x) !== id)`. */
  function RemoveById<T(!new)>(xs: seq<T>, idOf: T -> string, id: string): (r: seq<T>)
    ensures forall x :: x in r <==> x in xs && idOf(x) != id
    ensures |r| <= |xs|
  {
    if xs == [] then []
    else (if idOf(xs[0]) != id then [xs[0]] else []) + RemoveById(xs[1..], idOf, id)
  }

  /** Removal works piecewise, so the kept entries stay in their order. */
  lemma {:induction false} RemoveByIdAppend<T(!new)>(a: seq<T>, b: seq<T>, idOf: T -> string, id: string)
    ensures RemoveById(a + b, idOf, id) == RemoveById(a, idOf, id) + RemoveById(b, idOf, id)
  {
    if a == [] {
      assert a + b == b;
    } else {
      assert (a + b)[1..] == a[1..] + b;
      RemoveByIdAppend(a[1..], b, idOf, id);
    }
  }

  /** Removing an id that no entry has changes nothing. */
  lemma {:induction false} RemoveAbsentId<T(!new)>(xs: seq<T>, idOf: T -> string, id: string)
    requires forall x :: x in xs ==> idOf(x) != id
    ensures RemoveById(xs, idOf, id) == xs
  {
    if xs != [] {
      RemoveAbsentId(xs[1..], idOf, id);
    }
  }

  /** Adding an entry with a fresh id and removing that id restores the
      list. */
  lemma RemoveUndoesAdd<T(!new)>(xs: seq<T>, x: T, idOf: T -> string)
    requires forall y :: y in xs ==> idOf(y) != idOf(x)
    ensures RemoveById(xs + [x], idOf, idOf(x)) == xs
  {
    RemoveByIdAppend(xs, [x], idOf, idOf(x));
    RemoveAbsentId(xs, idOf, idOf(x));
    assert [x][1..] == [];
  }

  /** Removing twice is removing once. */
  lemma RemoveIdempotent<T(!new)>(xs: seq<T>, idOf: T -> string, id: string)
    ensures RemoveById(RemoveById(xs, idOf, id), idOf, id) == RemoveById(xs, idOf, id)
  {
    RemoveAbsentId(RemoveById(xs, idOf, id), idOf, id);
  }

  function EducationId(e: Education): string { e.id }
  function WorkId(e: WorkExperience): string { e.id }
  function SkillId(s: Skill): string { s.id }
  function CertificationId(c: Certification): string { c.id }
  function LanguageId(l: Language): string { l.id }
  function HobbyId(h: Hobby): string { h.id }

  // ---------------------------------------------------------------- fields

  /** `keyof PersonalInfo`. */
  datatype PersonalField = FullName | JobTitle | Email | Phone | Location | LinkedIn | Website | ProfilePicture

  function PersonalGet(p: PersonalInfo, f: PersonalField): Option<string> {
    match f
    case FullName => Some(p.fullName)
    case JobTitle => Some(p.jobTitle)
    case Email => Some(p.email)
    case Phone => Some(p.phone)
    case Location => Some(p.location)
    case LinkedIn => p.linkedin
    case Website => p.website
    case ProfilePicture => p.profilePicture
  }

  /** `{ ...p, [field]: value }`. */
  function PersonalSet(p: PersonalInfo, f: PersonalField, v: string): (r: PersonalInfo)
    ensures PersonalGet(r, f) == Some(v)
    ensures forall g :: g != f ==> PersonalGet(r, g) == PersonalGet(p, g)
  {
    match f
    case FullName => p.(fullName := v)
    case JobTitle => p.(jobTitle := v)
    case Email => p.(email := v)
    case Phone => p.(phone := v)
    case Location => p.(location := v)
    case LinkedIn => p.(linkedin := Some(v))
    case Website => p.(website := Some(v))
    case ProfilePicture => p.(profilePicture := Some(v))
  }

  /** A personal record is determined by its fields, so the two facts on
      `PersonalSet` say that nothing but the named field changes. */
  lemma PersonalFieldsDetermine(p: PersonalInfo, q: PersonalInfo)
    requires forall f :: PersonalGet(p, f) == PersonalGet(q, f)
    ensures p == q
  {
    assert PersonalGet(p, FullName) == PersonalGet(q, FullName);
    assert PersonalGet(p, JobTitle) == PersonalGet(q, JobTitle);
    assert PersonalGet(p, Email) == PersonalGet(q, Email);
    assert PersonalGet(p, Phone) == PersonalGet(q, Phone);
    assert PersonalGet(p, Location) == PersonalGet(q, Location);
    assert PersonalGet(p, LinkedIn) == PersonalGet(q, LinkedIn);
    assert PersonalGet(p, Website) == PersonalGet(q, Website);
    assert PersonalGet(p, ProfilePicture) == PersonalGet(q, ProfilePicture);
  }

  /** `keyof Education`. */
  datatype EducationField = EduId | School | Degree | FieldOfStudy | EduStartDate | EduEndDate | Gpa

  function EducationGet(e: Education, f: EducationField): Option<string> {
    match f
    case EduId => Some(e.id)
    case School => Some(e.school)
    case Degree => Some(e.degree)
    case FieldOfStudy => Some(e.field)
    case EduStartDate => Some(e.startDate)
    case EduEndDate => Some(e.endDate)
    case Gpa => e.gpa
  }

  function EducationSet(e: Education, f: EducationField, v: string): (r: Education)
    ensures EducationGet(r, f) == Some(v)
    ensures forall g :: g != f ==> EducationGet(r, g) == EducationGet(e, g)
  {
    match f
    case EduId => e.(id := v)
    case School => e.(school := v)
    case Degree => e.(degree := v)
    case FieldOfStudy => e.(field := v)
    case EduStartDate => e.(startDate := v)
    case EduEndDate => e.(endDate := v)
    case Gpa => e.(gpa := Some(v))
  }

  lemma EducationFieldsDetermine(a: Education, b: Education)
    requires forall f :: EducationGet(a, f) == EducationGet(b, f)
    ensures a == b
  {
    assert EducationGet(a, EduId) == EducationGet(b, EduId);
    assert EducationGet(a, School) == EducationGet(b, School);
    assert EducationGet(a, Degree) == EducationGet(b, Degree);
    assert EducationGet(a, FieldOfStudy) == EducationGet(b, FieldOfStudy);
    assert EducationGet(a, EduStartDate) == EducationGet(b, EduStartDate);
    assert EducationGet(a, EduEndDate) == EducationGet(b, EduEndDate);
    assert EducationGet(a, Gpa) == EducationGet(b, Gpa);
  }

  /** `keyof WorkExperience`, with the value each field holds. */
  datatype WorkField = WorkIdField | Role | Company | WorkLocation | WorkStartDate | WorkEndDate | Current | Responsibilities

  datatype WorkValue = TextValue(text: string) | FlagValue(flag: bool) | LinesValue(lines: seq<string>)

  function WorkGet(e: WorkExperience, f: WorkField): WorkValue {
    match f
    case WorkIdField => TextValue(e.id)
    case Role => TextValue(e.role)
    case Company => TextValue(e.company)
    case WorkLocation => TextValue(e.location)
    case WorkStartDate => TextValue(e.startDate)
    case WorkEndDate => TextValue(e.endDate)
    case Current => FlagValue(e.current)
    case Responsibilities => LinesValue(e.responsibilities)
  }

  /** A value fits a field when it has the field's type. */
  predicate Fits(f: WorkField, v: WorkValue) {
    match f
    case Current => v.FlagValue?
    case Responsibilities => v.LinesValue?
    case _ => v.TextValue?
  }

  /** `{ ...exp, [field]: value }`. */
  function WorkSet(e: WorkExperience, f: WorkField, v: WorkValue): (r: WorkExperience)
    requires Fits(f, v)
    ensures WorkGet(r, f) == v
    ensures forall g :: g != f ==> WorkGet(r, g) == WorkGet(e, g)
  {
    match f
    case WorkIdField => e.(id := v.text)
    case Role => e.(role := v.text)
    case Company => e.(company := v.text)
    case WorkLocation => e.(location := v.text)
    case WorkStartDate => e.(startDate := v.text)
    case WorkEndDate => e.(endDate := v.text)
    case Current => e.(current := v.flag)
    case Responsibilities => e.(responsibilities := v.lines)
  }

  lemma WorkFieldsDetermine(a: WorkExperience, b: WorkExperience)
    requires forall f :: WorkGet(a, f) == WorkGet(b, f)
    ensures a == b
  {
    assert WorkGet(a, WorkIdField) == WorkGet(b, WorkIdField);
    assert WorkGet(a, Role) == WorkGet(b, Role);
    assert WorkGet(a, Company) == WorkGet(b, Company);
    assert WorkGet(a, WorkLocation) == WorkGet(b, WorkLocation);
    assert WorkGet(a, WorkStartDate) == WorkGet(b, WorkStartDate);
    assert WorkGet(a, WorkEndDate) == WorkGet(b, WorkEndDate);
    assert WorkGet(a, Current) == WorkGet(b, Current);
    assert WorkGet(a, Responsibilities) == WorkGet(b, Responsibilities);
  }

  /** `keyof Certification`. */
  datatype CertificationField = CertId | CertName | Issuer | CertDate | ExpiryDate

  function CertificationGet(c: Certification, f: CertificationField): Option<string> {
    match f
    case CertId => Some(c.id)
    case CertName => Some(c.name)
    case Issuer => Some(c.issuer)
    case CertDate => Some(c.date)
    case ExpiryDate => c.expiryDate
  }

  function CertificationSet(c: Certification, f: CertificationField, v: string): (r: Certification)
    ensures CertificationGet(r, f) == Some(v)
    ensures forall g :: g != f ==> CertificationGet(r, g) == CertificationGet(c, g)
  {
    match f
    case CertId => c.(id := v)
    case CertName => c.(name := v)
    case Issuer => c.(issuer := v)
    case CertDate => c.(date := v)
    case ExpiryDate => c.(expiryDate := Some(v))
  }

  lemma CertificationFieldsDetermine(a: Certification, b: Certification)
    requires forall f :: CertificationGet(a, f) == CertificationGet(b, f)
    ensures a == b
  {
    assert CertificationGet(a, CertId) == CertificationGet(b, CertId);
    assert CertificationGet(a, CertName) == CertificationGet(b, CertName);
    assert CertificationGet(a, Issuer) == CertificationGet(b, Issuer);
    assert CertificationGet(a, CertDate) == CertificationGet(b, CertDate);
    assert CertificationGet(a, ExpiryDate) == CertificationGet(b, ExpiryDate);
  }

  /** `keyof Language`, with the value each field holds. */
  datatype LanguageEdit = LangIdEdit(id: string) | LangNameEdit(name: string) | LangProficiencyEdit(proficiency: Proficiency)

  function LanguageSet(l: Language, edit: LanguageEdit): (r: Language)
    ensures edit.LangIdEdit? ==> r == Language(edit.id, l.name, l.proficiency)
    ensures edit.LangNameEdit? ==> r == Language(l.id, edit.name, l.proficiency)
    ensures edit.LangProficiencyEdit? ==> r == Language(l.id, l.name, edit.proficiency)
  {
    match edit
    case LangIdEdit(v) => l.(id := v)
    case LangNameEdit(v) => l.(name := v)
    case LangProficiencyEdit(p) => l.(proficiency := p)
  }

  // ------------------------------------------------------- responsibilities

  /** `rs.map((r, i) => i === index ? value : r)`. */
  function ReplaceAt(rs: seq<string>, index: int, value: string): (r: seq<string>)
    ensures 0 <= index < |rs| ==> r == rs[index := value]
    ensures !(0 <= index < |rs|) ==> r == rs
  {
    seq(|rs|, i requires 0 <= i < |rs| => if i == index then value else rs[i])
  }

  /** `rs.filter((_, i) => i !== index)`, positions counted from `start`. */
  function DropPosition(rs: seq<string>, start: int, index: int): seq<string> {
    if rs == [] then []
    else (if start != index then [rs[0]] else []) + DropPosition(rs[1..], start + 1, index)
  }

  /** Filtering out one position removes exactly that element, and an index
      outside the list removes nothing. */
  lemma {:induction false} DropPositionIsSplice(rs: seq<string>, start: int, index: int)
    ensures 0 <= index - start < |rs| ==> DropPosition(rs, start, index) == rs[..index - start] + rs[index - start + 1..]
    ensures !(0 <= index - start < |rs|) ==> DropPosition(rs, start, index) == rs
  {
    if rs != [] {
      DropPositionIsSplice(rs[1..], start + 1, index);
      if start == index {
        assert rs[..0] + rs[1..] == rs[1..];
      } else if 0 <= index - start < |rs| {
        assert rs[1..][..index - start - 1] == rs[1..index - start];
        assert rs[1..][index - start..] == rs[index - start + 1..];
        assert [rs[0]] + rs[1..index - start] == rs[..index - start];
      } else {
        assert [rs[0]] + rs[1..] == rs;
      }
    }
  }

  function RemoveAt(rs: seq<string>, index: int): (r: seq<string>)
    ensures 0 <= index < |rs| ==> r == rs[..index] + rs[index + 1..]
    ensures !(0 <= index < |rs|) ==> r == rs
  {
    DropPositionIsSplice(rs, 0, index);
    DropPosition(rs, 0, index)
  }

  // ------------------------------------------------------------ the resume

  /** The empty resume: every text field empty (the optional links set to
      the empty string) and every list empty. */
  const DefaultResumeData: ResumeData :=
    ResumeData(PersonalInfo("", "", "", "", "", Some(""), Some(""), Some("")), "", [], [], [], [], [], [])

  function UpdatePersonalInfo(d: ResumeData, f: PersonalField, v: string): (r: ResumeData)
    ensures r == d.(personalInfo := r.personalInfo)
    ensures PersonalGet(r.personalInfo, f) == Some(v)
    ensures forall g :: g != f ==> PersonalGet(r.personalInfo, g) == PersonalGet(d.personalInfo, g)
  {
    d.(personalInfo := PersonalSet(d.personalInfo, f, v))
  }

  function UpdateProfileSummary(d: ResumeData, v: string): (r: ResumeData)
    ensures r == d.(profileSummary := v)
  {
    d.(profileSummary := v)
  }

  function AddEducation(d: ResumeData, newId: string): (r: ResumeData)
    ensures r == d.(education := r.education)
    ensures r.education == d.education + [Education(newId, "", "", "", "", "", Some(""))]
  {
    d.(education := d.education + [Education(newId, "", "", "", "", "", Some(""))])
  }

  function UpdateEducation(d: ResumeData, id: string, f: EducationField, v: string): (r: ResumeData)
    ensures r == d.(education := r.education)
    ensures |r.education| == |d.education|
    ensures forall i :: 0 <= i < |d.education| ==>
      r.education[i] == if d.education[i].id == id then EducationSet(d.education[i], f, v) else d.education[i]
  {
    d.(education := UpdateById(d.education, EducationId, id, (e: Education) => EducationSet(e, f, v)))
  }

  function RemoveEducation(d: ResumeData, id: string): (r: ResumeData)
    ensures r == d.(education := r.education)
    ensures forall e :: e in r.education <==> e in d.education && e.id != id
  {
    d.(education := RemoveById(d.education, EducationId, id))
  }

  /** A new work entry: not current, with one empty responsibility line. */
  function NewWorkExperience(newId: string): WorkExperience {
    WorkExperience(newId, "", "", "", "", "", false, [""])
  }

  function AddWorkExperience(d: ResumeData, newId: string): (r: ResumeData)
    ensures r == d.(workExperience := r.workExperience)
    ensures r.workExperience == d.workExperience + [NewWorkExperience(newId)]
  {
    d.(workExperience := d.workExperience + [NewWorkExperience(newId)])
  }

  function UpdateWorkExperience(d: ResumeData, id: string, f: WorkField, v: WorkValue): (r: ResumeData)
    requires Fits(f, v)
    ensures r == d.(workExperience := r.workExperience)
    ensures |r.workExperience| == |d.workExperience|
    ensures forall i :: 0 <= i < |d.workExperience| ==>
      r.workExperience[i] == if d.workExperience[i].id == id then WorkSet(d.workExperience[i], f, v) else d.workExperience[i]
  {
    d.(workExperience := UpdateById(d.workExperience, WorkId, id, (e: WorkExperience) => WorkSet(e, f, v)))
  }

  function RemoveWorkExperience(d: ResumeData, id: string): (r: ResumeData)
    ensures r == d.(workExperience := r.workExperience)
    ensures forall e :: e in r.workExperience <==> e in d.workExperience && e.id != id
  {
    d.(workExperience := RemoveById(d.workExperience, WorkId, id))
  }

  /** Applies `f` to the responsibilities of the entries with id `expId`. */
  function MapResponsibilities(d: ResumeData, expId: string, f: seq<string> -> seq<string>): (r: ResumeData)
    ensures r == d.(workExperience := r.workExperience)
    ensures |r.workExperience| == |d.workExperience|
    ensures forall i :: 0 <= i < |d.workExperience| ==>
      r.workExperience[i] == if d.workExperience[i].id == expId
                             then d.workExperience[i].(responsibilities := f(d.workExperience[i].responsibilities))
                             else d.workExperience[i]
  {
    d.(workExperience := UpdateById(d.workExperience, WorkId, expId,
                                    (e: WorkExperience) => e.(responsibilities := f(e.responsibilities))))
  }

  function AddResponsibility(d: ResumeData, expId: string): ResumeData {
    MapResponsibilities(d, expId, (rs: seq<string>) => rs + [""])
  }

  function UpdateResponsibility(d: ResumeData, expId: string, index: int, v: string): ResumeData {
    MapResponsibilities(d, expId, (rs: seq<string>) => ReplaceAt(rs, index, v))
  }

  function RemoveResponsibility(d: ResumeData, expId: string, index: int): ResumeData {
    MapResponsibilities(d, expId, (rs: seq<string>) => RemoveAt(rs, index))
  }

  /** The three responsibility operations, on the matching entries only:
      adding appends an empty line, updating replaces exactly the indexed
      line, removing drops exactly that line, and an index outside the
      list leaves it as it was. */
  lemma ResponsibilityOperations(d: ResumeData, expId: string, index: int, v: string, i: int)
    requires 0 <= i < |d.workExperience|
    ensures var e := d.workExperience[i];
      && AddResponsibility(d, expId).workExperience[i].responsibilities
         == (if e.id == expId then e.responsibilities + [""] else e.responsibilities)
      && UpdateResponsibility(d, expId, index, v).workExperience[i].responsibilities
         == (if e.id == expId && 0 <= index < |e.responsibilities| then e.responsibilities[index := v] else e.responsibilities)
      && RemoveResponsibility(d, expId, index).workExperience[i].responsibilities
         == (if e.id == expId && 0 <= index < |e.responsibilities|
             then e.responsibilities[..index] + e.responsibilities[index + 1..] else e.responsibilities)
    ensures forall k :: 0 <= k < |d.workExperience| ==>
      WorkGet(RemoveResponsibility(d, expId, index).workExperience[k], Role) == WorkGet(d.workExperience[k], Role)
  {
  }

  function AddSkill(d: ResumeData, newId: string, kind: SkillType): (r: ResumeData)
    ensures r == d.(skills := r.skills)
    ensures r.skills == d.skills + [Skill(newId, "", kind)]
  {
    d.(skills := d.skills + [Skill(newId, "", kind)])
  }

  function UpdateSkill(d: ResumeData, id: string, v: string): (r: ResumeData)
    ensures r == d.(skills := r.skills)
    ensures |r.skills| == |d.skills|
    ensures forall i :: 0 <= i < |d.skills| ==>
      r.skills[i] == if d.skills[i].id == id then Skill(id, v, d.skills[i].kind) else d.skills[i]
  {
    d.(skills := UpdateById(d.skills, SkillId, id, (s: Skill) => s.(name := v)))
  }

  function RemoveSkill(d: ResumeData, id: string): (r: ResumeData)
    ensures r == d.(skills := r.skills)
    ensures forall s :: s in r.skills <==> s in d.skills && s.id != id
  {
    d.(skills := RemoveById(d.skills, SkillId, id))
  }

  function AddCertification(d: ResumeData, newId: string): (r: ResumeData)
    ensures r == d.(certifications := r.certifications)
    ensures r.certifications == d.certifications + [Certification(newId, "", "", "", Some(""))]
  {
    d.(certifications := d.certifications + [Certification(newId, "", "", "", Some(""))])
  }

  function UpdateCertification(d: ResumeData, id: string, f: CertificationField, v: string): (r: ResumeData)
    ensures r == d.(certifications := r.certifications)
    ensures |r.certifications| == |d.certifications|
    ensures forall i :: 0 <= i < |d.certifications| ==>
      r.certifications[i] == if d.certifications[i].id == id then CertificationSet(d.certifications[i], f, v) else d.certifications[i]
  {
    d.(certifications := UpdateById(d.certifications, CertificationId, id, (c: Certification) => CertificationSet(c, f, v)))
  }

  function RemoveCertification(d: ResumeData, id: string): (r: ResumeData)
    ensures r == d.(certifications := r.certifications)
    ensures forall c :: c in r.certifications <==> c in d.certifications && c.id != id
  {
    d.(certifications := RemoveById(d.certifications, CertificationId, id))
  }

  function AddLanguage(d: ResumeData, newId: string): (r: ResumeData)
    ensures r == d.(languages := r.languages)
    ensures r.languages == d.languages + [Language(newId, "", Beginner)]
  {
    d.(languages := d.languages + [Language(newId, "", Beginner)])
  }

  function UpdateLanguage(d: ResumeData, id: string, edit: LanguageEdit): (r: ResumeData)
    ensures r == d.(languages := r.languages)
    ensures |r.languages| == |d.languages|
    ensures forall i :: 0 <= i < |d.languages| ==>
      r.languages[i] == if d.languages[i].id == id then LanguageSet(d.languages[i], edit) else d.languages[i]
  {
    d.(languages := UpdateById(d.languages, LanguageId, id, (l: Language) => LanguageSet(l, edit)))
  }

  function RemoveLanguage(d: ResumeData, id: string): (r: ResumeData)
    ensures r == d.(languages := r.languages)
    ensures forall l :: l in r.languages <==> l in d.languages && l.id != id
  {
    d.(languages := RemoveById(d.languages, LanguageId, id))
  }

  function AddHobby(d: ResumeData, newId: string): (r: ResumeData)
    ensures r == d.(hobbies := r.hobbies)
    ensures r.hobbies == d.hobbies + [Hobby(newId, "")]
  {
    d.(hobbies := d.hobbies + [Hobby(newId, "")])
  }

  function UpdateHobby(d: ResumeData, id: string, v: string): (r: ResumeData)
    ensures r == d.(hobbies := r.hobbies)
    ensures |r.hobbies| == |d.hobbies|
    ensures forall i :: 0 <= i < |d.hobbies| ==>
      r.hobbies[i] == if d.hobbies[i].id == id then Hobby(id, v) else d.hobbies[i]
  {
    d.(hobbies := UpdateById(d.hobbies, HobbyId, id, (h: Hobby) => h.(name := v)))
  }

  function RemoveHobby(d: ResumeData, id: string): (r: ResumeData)
    ensures r == d.(hobbies := r.hobbies)
    ensures forall h :: h in r.hobbies <==> h in d.hobbies && h.id != id
  {
    d.(hobbies := RemoveById(d.hobbies, HobbyId, id))
  }

  /** Deleting the entry just added with an unused id gives back the resume
      as it was before the add. */
  lemma RemoveUndoesAddEntry(d: ResumeData, newId: string)
    requires forall e :: e in d.education ==> e.id != newId
    requires forall e :: e in d.workExperience ==> e.id != newId
    requires forall c :: c in d.certifications ==> c.id != newId
    ensures RemoveEducation(AddEducation(d, newId), newId) == d
    ensures RemoveWorkExperience(AddWorkExperience(d, newId), newId) == d
    ensures RemoveCertification(AddCertification(d, newId), newId) == d
  {
    RemoveUndoesAdd(d.education, Education(newId, "", "", "", "", "", Some("")), EducationId);
    RemoveUndoesAdd(d.workExperience, NewWorkExperience(newId), WorkId);
    RemoveUndoesAdd(d.certifications, Certification(newId, "", "", "", Some("")), CertificationId);
  }

  /** The same for skills, languages and hobbies. */
  lemma RemoveUndoesAddItem(d: ResumeData, newId: string, kind: SkillType)
    requires forall s :: s in d.skills ==> s.id != newId
    requires forall l :: l in d.languages ==> l.id != newId
    requires forall h :: h in d.hobbies ==> h.id != newId
    ensures RemoveSkill(AddSkill(d, newId, kind), newId) == d
    ensures RemoveLanguage(AddLanguage(d, newId), newId) == d
    ensures RemoveHobby(AddHobby(d, newId), newId) == d
  {
    RemoveUndoesAdd(d.skills, Skill(newId, "", kind), SkillId);
    RemoveUndoesAdd(d.languages, Language(newId, "", Beginner), LanguageId);
    RemoveUndoesAdd(d.hobbies, Hobby(newId, ""), HobbyId);
  }

  // -------------------------------------------------------------- filenames

  /** `s.replace(/\s+/g, '_')`: each maximal run of whitespace becomes one
      underscore; `inRun` says the previous character was whitespace. */
  function CollapseWhitespace(s: string, inRun: bool): (r: string)
    ensures forall i :: 0 <= i < |r| ==> !IsWhitespace(r[i])
    ensures |r| <= |s|
  {
    if s == [] then ""
    else if IsWhitespace(s[0]) then (if inRun then "" else "_") + CollapseWhitespace(s[1..], true)
    else [s[0]] + CollapseWhitespace(s[1..], false)
  }

  /** A name without whitespace is kept as it is. */
  lemma {:induction false} CollapseKeepsPlainText(s: string, inRun: bool)
    requires forall i :: 0 <= i < |s| ==> !IsWhitespace(s[i])
    ensures CollapseWhitespace(s, inRun) == s
  {
    if s != [] {
      CollapseKeepsPlainText(s[1..], false);
    }
  }

  /** A leading name part without whitespace passes through unchanged, and
      scanning resumes outside a run. */
  lemma {:induction false} CollapsePlainPrefix(p: string, t: string)
    requires forall i :: 0 <= i < |p| ==> !IsWhitespace(p[i])
    ensures CollapseWhitespace(p + t, false) == p + CollapseWhitespace(t, false)
  {
    if p == [] {
      assert p + t == t;
    } else {
      assert (p + t)[0] == p[0] && (p + t)[1..] == p[1..] + t;
      CollapsePlainPrefix(p[1..], t);
      assert p == [p[0]] + p[1..];
    }
  }

  /** A run of whitespace gives one underscore when it starts the run, and
      nothing more for its later characters. */
  lemma {:induction false} CollapseWhitespaceRun(w: string, t: string, inRun: bool)
    requires w != [] && forall i :: 0 <= i < |w| ==> IsWhitespace(w[i])
    ensures CollapseWhitespace(w + t, inRun) == (if inRun then "" else "_") + CollapseWhitespace(t, true)
    decreases |w|
  {
    assert (w + t)[0] == w[0] && (w + t)[1..] == w[1..] + t;
    if |w| > 1 {
      CollapseWhitespaceRun(w[1..], t, true);
    }
  }

  /** `replace(/\s+/g, '_')` one run at a time: the text before a maximal
      whitespace run is kept, the whole run becomes a single underscore, and
      the rest is collapsed in turn. */
  lemma CollapseRun(p: string, w: string, rest: string)
    requires forall i :: 0 <= i < |p| ==> !IsWhitespace(p[i])
    requires w != [] && forall i :: 0 <= i < |w| ==> IsWhitespace(w[i])
    requires rest == [] || !IsWhitespace(rest[0])
    ensures CollapseWhitespace(p + w + rest, false) == p + "_" + CollapseWhitespace(rest, false)
  {
    assert p + w + rest == p + (w + rest);
    CollapsePlainPrefix(p, w + rest);
    CollapseWhitespaceRun(w, rest, false);
  }

  /** Collapsing twice is collapsing once. */
  lemma CollapseIdempotent(s: string)
    ensures CollapseWhitespace(CollapseWhitespace(s, false), false) == CollapseWhitespace(s, false)
  {
    CollapseKeepsPlainText(CollapseWhitespace(s, false), false);
  }

  /** The download formats and their file extensions. */
  datatype DownloadKind = Pdf | Docx

  function Extension(k: DownloadKind): string {
    match k
    case Pdf => "pdf"
    case Docx => "docx"
  }

  /** The download name: the full name with whitespace runs turned into
      underscores and "_Resume" appended, or plain "resume" when the name is
      empty. */
  function ExportFileName(fullName: string, k: DownloadKind): (r: string)
    ensures fullName == "" ==> r == "resume." + Extension(k)
    ensures fullName != "" ==> r == CollapseWhitespace(fullName, false) + "_Resume." + Extension(k)
    ensures forall i :: 0 <= i < |r| ==> !IsWhitespace(r[i])
  {
    if fullName != "" then CollapseWhitespace(fullName, false) + "_Resume." + Extension(k)
    else "resume." + Extension(k)
  }

  /** A concrete name: the run of a space and a tab becomes one underscore. */
  lemma FileNameExample()
    ensures ExportFileName("A \tB", Docx) == "A_B_Resume.docx"
  {
    CollapseExample();
    assert Extension(Docx) == "docx";
  }

  /** `replace(/\s+/g, '_')` on a concrete name: the space and the tab
      form one run and give one underscore. */
  lemma CollapseExample()
    ensures CollapseWhitespace("A \tB", false) == "A_B"
  {
    assert CollapseWhitespace("B", true) == "B";
    assert CollapseWhitespace("\tB", true) == "B";
    assert CollapseWhitespace(" \tB", false) == "_B";
  }

  // ----------------------------------------------------------------- upload

  /** The file picked for the profile picture: its size in bytes and its
      MIME type. */
  datatype Upload = Upload(size: int, mimeType: string)

  datatype UploadCheck = NoFile | TooLarge | NotImage | Accepted

  const MaxUploadBytes := 5 * 1024 * 1024

  /** The checks of the upload handler, size first. */
  function ValidateUpload(file: Option<Upload>): (r: UploadCheck)
    ensures r == Accepted <==> file.Some? && file.value.size <= 5242880 && StartsWith(file.value.mimeType, "image/")
    ensures r == TooLarge <==> file.Some? && file.value.size > 5242880
    ensures r == NotImage ==> file.Some? && !StartsWith(file.value.mimeType, "image/")
    ensures r == NoFile <==> file.None?
  {
    if file.None? then NoFile
    else if file.value.size > MaxUploadBytes then TooLarge
    else if !StartsWith(file.value.mimeType, "image/") then NotImage
    else Accepted
  }

  // ---------------------------------------------------------------- editor

  /** The selectable templates. */
  datatype TemplateType =
    | Corporate | ModernTech | Creative | Minimalist | Academic | ExecutiveProfile | CreativePortfolio
    | ElegantSidebar | CreativeInfographic | ModernProfessionalHybrid | CreativeShowcaseInfographic
    | EnfoldCorporate | KaidaKim | ValeraClassic

  /** The editor component's state and its handlers. Each handler replaces
      the resume with the updater's result and leaves the other state as it
      was. */
  class ResumeBuilder {
    var resumeData: ResumeData
    var selectedTemplate: TemplateType
    var exportFormat: ExportMode

    constructor ()
      ensures resumeData == DefaultResumeData
      ensures selectedTemplate == Corporate && exportFormat == Normal
    {
      resumeData := DefaultResumeData;
      selectedTemplate := Corporate;
      exportFormat := Normal;
    }

    method SetPersonalInfo(f: PersonalField, v: string)
      modifies this
      ensures resumeData == UpdatePersonalInfo(old(resumeData), f, v)
      ensures selectedTemplate == old(selectedTemplate) && exportFormat == old(exportFormat)
    {
      resumeData := UpdatePersonalInfo(resumeData, f, v);
    }

    method SetProfileSummary(v: string)
      modifies this
      ensures resumeData == UpdateProfileSummary(old(resumeData), v)
      ensures selectedTemplate == old(selectedTemplate) && exportFormat == old(exportFormat)
    {
      resumeData := UpdateProfileSummary(resumeData, v);
    }

    method AddEducationEntry(newId: string)
      modifies this
      ensures resumeData == AddEducation(old(resumeData), newId)
      ensures selectedTemplate == old(selectedTemplate) && exportFormat == old(exportFormat)
    {
      resumeData := AddEducation(resumeData, newId);
    }

    method UpdateEducationEntry(id: string, f: EducationField, v: string)
      modifies this
      ensures resumeData == UpdateEducation(old(resumeData), id, f, v)
      ensures selectedTemplate == old(selectedTemplate) && exportFormat == old(exportFormat)
    {
      resumeData := UpdateEducation(resumeData, id, f, v);
    }

    method RemoveEducationEntry(id: string)
      modifies this
      ensures resumeData == RemoveEducation(old(resumeData), id)
      ensures selectedTemplate == old(selectedTemplate) && exportFormat == old(exportFormat)
    {
      resumeData := RemoveEducation(resumeData, id);
    }

    method AddWorkEntry(newId: string)
      modifies this
      ensures resumeData == AddWorkExperience(old(resumeData), newId)
      ensures selectedTemplate == old(selectedTemplate) && exportFormat == old(exportFormat)
    {
      resumeData := AddWorkExperience(resumeData, newId);
    }

    method UpdateWorkEntry(id: string, f: WorkField, v: WorkValue)
      requires Fits(f, v)
      modifies this
      ensures resumeData == UpdateWorkExperience(old(resumeData), id, f, v)
      ensures selectedTemplate == old(selectedTemplate) && exportFormat == old(exportFormat)
    {
      resumeData := UpdateWorkExperience(resumeData, id, f, v);
    }

    method RemoveWorkEntry(id: string)
      modifies this
      ensures resumeData == RemoveWorkExperience(old(resumeData), id)
      ensures selectedTemplate == old(selectedTemplate) && exportFormat == old(exportFormat)
    {
      resumeData := RemoveWorkExperience(resumeData, id);
    }

    method AddResponsibilityLine(expId: string)
      modifies this
      ensures resumeData == AddResponsibility(old(resumeData), expId)
      ensures selectedTemplate == old(selectedTemplate) && exportFormat == old(exportFormat)
    {
      resumeData := AddResponsibility(resumeData, expId);
    }

    method UpdateResponsibilityLine(expId: string, index: int, v: string)
      modifies this
      ensures resumeData == UpdateResponsibility(old(resumeData), expId, index, v)
      ensures selectedTemplate == old(selectedTemplate) && exportFormat == old(exportFormat)
    {
      resumeData := UpdateResponsibility(resumeData, expId, index, v);
    }

    method RemoveResponsibilityLine(expId: string, index: int)
      modifies this
      ensures resumeData == RemoveResponsibility(old(resumeData), expId, index)
      ensures selectedTemplate == old(selectedTemplate) && exportFormat == old(exportFormat)
    {
      resumeData := RemoveResponsibility(resumeData, expId, index);
    }

    method AddSkillEntry(newId: string, kind: SkillType)
      modifies this
      ensures resumeData == AddSkill(old(resumeData), newId, kind)
      ensures selectedTemplate == old(selectedTemplate) && exportFormat == old(exportFormat)
    {
      resumeData := AddSkill(resumeData, newId, kind);
    }

    method UpdateSkillEntry(id: string, v: string)
      modifies this
      ensures resumeData == UpdateSkill(old(resumeData), id, v)
      ensures selectedTemplate == old(selectedTemplate) && exportFormat == old(exportFormat)
    {
      resumeData := UpdateSkill(resumeData, id, v);
    }

    method RemoveSkillEntry(id: string)
      modifies this
      ensures resumeData == RemoveSkill(old(resumeData), id)
      ensures selectedTemplate == old(selectedTemplate) && exportFormat == old(exportFormat)
    {
      resumeData := RemoveSkill(resumeData, id);
    }

    method AddCertificationEntry(newId: string)
      modifies this
      ensures resumeData == AddCertification(old(resumeData), newId)
      ensures selectedTemplate == old(selectedTemplate) && exportFormat == old(exportFormat)
    {
      resumeData := AddCertification(resumeData, newId);
    }

    method UpdateCertificationEntry(id: string, f: CertificationField, v: string)
      modifies this
      ensures resumeData == UpdateCertification(old(resumeData), id, f, v)
      ensures selectedTemplate == old(selectedTemplate) && exportFormat == old(exportFormat)
    {
      resumeData := UpdateCertification(resumeData, id, f, v);
    }

    method RemoveCertificationEntry(id: string)
      modifies this
      ensures resumeData == RemoveCertification(old(resumeData), id)
      ensures selectedTemplate == old(selectedTemplate) && exportFormat == old(exportFormat)
    {
      resumeData := RemoveCertification(resumeData, id);
    }

    method AddLanguageEntry(newId: string)
      modifies this
      ensures resumeData == AddLanguage(old(resumeData), newId)
      ensures selectedTemplate == old(selectedTemplate) && exportFormat == old(exportFormat)
    {
      resumeData := AddLanguage(resumeData, newId);
    }

    method UpdateLanguageEntry(id: string, edit: LanguageEdit)
      modifies this
      ensures resumeData == UpdateLanguage(old(resumeData), id, edit)
      ensures selectedTemplate == old(selectedTemplate) && exportFormat == old(exportFormat)
    {
      resumeData := UpdateLanguage(resumeData, id, edit);
    }

    method RemoveLanguageEntry(id: string)
      modifies this
      ensures resumeData == RemoveLanguage(old(resumeData), id)
      ensures selectedTemplate == old(selectedTemplate) && exportFormat == old(exportFormat)
    {
      resumeData := RemoveLanguage(resumeData, id);
    }

    method AddHobbyEntry(newId: string)
      modifies this
      ensures resumeData == AddHobby(old(resumeData), newId)
      ensures selectedTemplate == old(selectedTemplate) && exportFormat == old(exportFormat)
    {
      resumeData := AddHobby(resumeData, newId);
    }

    method UpdateHobbyEntry(id: string, v: string)
      modifies this
      ensures resumeData == UpdateHobby(old(resumeData), id, v)
      ensures selectedTemplate == old(selectedTemplate) && exportFormat == old(exportFormat)
    {
      resumeData := UpdateHobby(resumeData, id, v);
    }

    method RemoveHobbyEntry(id: string)
      modifies this
      ensures resumeData == RemoveHobby(old(resumeData), id)
      ensures selectedTemplate == old(selectedTemplate) && exportFormat == old(exportFormat)
    {
      resumeData := RemoveHobby(resumeData, id);
    }

    /** `loadSampleResume`: the sample is passed in. */
    method LoadSample(sample: ResumeData)
      modifies this
      ensures resumeData == sample
      ensures selectedTemplate == old(selectedTemplate) && exportFormat == old(exportFormat)
    {
      resumeData := sample;
    }

    method ClearResume()
      modifies this
      ensures resumeData == DefaultResumeData
      ensures selectedTemplate == old(selectedTemplate) && exportFormat == old(exportFormat)
    {
      resumeData := DefaultResumeData;
    }

    method SelectTemplate(t: TemplateType)
      modifies this
      ensures selectedTemplate == t
      ensures resumeData == old(resumeData) && exportFormat == old(exportFormat)
    {
      selectedTemplate := t;
    }

    method SelectExportFormat(m: ExportMode)
      modifies this
      ensures exportFormat == m
      ensures resumeData == old(resumeData) && selectedTemplate == old(selectedTemplate)
    {
      exportFormat := m;
    }

    /** `handleProfilePictureUpload`: an accepted file's data URL (read by
        the browser, passed in here) becomes the profile picture; a
        rejected or missing file changes nothing. */
    method UploadProfilePicture(file: Option<Upload>, dataUrl: string) returns (check: UploadCheck)
      modifies this
      ensures check == ValidateUpload(file)
      ensures check == Accepted ==> resumeData == UpdatePersonalInfo(old(resumeData), ProfilePicture, dataUrl)
      ensures check != Accepted ==> resumeData == old(resumeData)
      ensures selectedTemplate == old(selectedTemplate) && exportFormat == old(exportFormat)
    {
      check := ValidateUpload(file);
      if check == Accepted {
        resumeData := UpdatePersonalInfo(resumeData, ProfilePicture, dataUrl);
      }
    }

    /** The file name `downloadPDF` and `downloadDOCX` compute from the
        current full name. Only the DOCX download is saved under it; the
        PDF generator takes it as a parameter and never reads it. */
    method DownloadFileName(k: DownloadKind) returns (name: string)
      ensures name == ExportFileName(resumeData.personalInfo.fullName, k)
    {
      name := ExportFileName(resumeData.personalInfo.fullName, k);
    }
  }
}
