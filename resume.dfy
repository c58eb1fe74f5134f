// The resume aggregate that the form edits and every template and exporter
// reads (src/types/resume.ts).
module Resume {

  datatype Option<T> = None | Some(value: T)

  /** An optional string field is shown only when it is present and non-empty
      (JavaScript truthiness of `string | undefined`). */
  predicate Truthy(o: Option<string>) {
    o.Some? && o.value != ""
  }

  datatype PersonalInfo = PersonalInfo(
    fullName: string,
    jobTitle: string,
    email: string,
    phone: string,
    location: string,
    linkedin: Option<string>,
    website: Option<string>,
    profilePicture: Option<string>)

  datatype Education = Education(
    id: string,
    school: string,
    degree: string,
    field: string,
    startDate: string,
    endDate: string,
    gpa: Option<string>)

  datatype WorkExperience = WorkExperience(
    id: string,
    role: string,
    company: string,
    location: string,
    startDate: string,
    endDate: string,
    current: bool,
    responsibilities: seq<string>)

  /** `'hard' | 'soft'` */
  datatype SkillType = Hard | Soft

  datatype Skill = Skill(id: string, name: string, kind: SkillType)

  datatype Certification = Certification(
    id: string,
    name: string,
    issuer: string,
    date: string,
    expiryDate: Option<string>)

  /** `'beginner' | 'intermediate' | 'advanced' | 'native'` */
  datatype Proficiency = Beginner | Intermediate | Advanced | Native

  datatype Language = Language(id: string, name: string, proficiency: Proficiency)

  datatype Hobby = Hobby(id: string, name: string)

  datatype ResumeData = ResumeData(
    personalInfo: PersonalInfo,
    profileSummary: string,
    education: seq<Education>,
    workExperience: seq<WorkExperience>,
    skills: seq<Skill>,
    certifications: seq<Certification>,
    languages: seq<Language>,
    hobbies: seq<Hobby>)

  /** The export mode selector, `'normal' | 'ats'`. */
  datatype ExportMode = Normal | Ats

  /** The string literal of a proficiency, as stored and displayed. */
  function ProficiencyName(p: Proficiency): string {
    match p
    case Beginner => "beginner"
    case Intermediate => "intermediate"
    case Advanced => "advanced"
    case Native => "native"
  }

}
