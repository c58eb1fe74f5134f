// Helpers that several source files define identically: `formatDateRange`
// (docxGenerator.ts and three templates), `getInitials` (four templates),
// the 16-keyword software classifier (docxGenerator.ts and
// ValeraClassicTemplate.tsx), the skill-type filters, the
// blank-responsibility filter, the hobbies-as-projects filter and the
// avatar of the two infographic templates.
module Shared {
  import opened Text
  import opened Resume

  /** `formatDateRange(startDate, endDate, current)`: both dates are passed
      through unmodified; a current entry ends in "Present" whatever its end
      date holds. */
  function FormatDateRange(startDate: string, endDate: string, current: bool): (r: string)
    ensures startDate <= r
    ensures r[|startDate|..] == " - " + (if current then "Present" else endDate)
  {
    if current then startDate + " - Present" else startDate + " - " + endDate
  }

  /** The date text the ATS views and the plain templates write inline,
      `{startDate} - {current ? 'Present' : endDate}`. */
  function WorkDateText(exp: WorkExperience): (r: string)
    ensures r == FormatDateRange(exp.startDate, exp.endDate, exp.current)
  {
    exp.startDate + " - " + (if exp.current then "Present" else exp.endDate)
  }

  /** Responsibilities whose `trim()` is non-empty, verbatim and in order. */
  function NonBlank(rs: seq<string>): (r: seq<string>)
    ensures forall x :: x in r <==> x in rs && !IsBlank(x)
  {
    Filter(rs, (x: string) => !IsBlank(x))
  }

  /** The responsibility list of a job: present only when some line is not
      blank, and then the non-blank lines in their order. */
  function ResponsibilityList(exp: WorkExperience): (r: Option<seq<string>>)
    ensures r.Some? <==> exists k :: 0 <= k < |exp.responsibilities| && !IsBlank(exp.responsibilities[k])
    ensures r.Some? ==> r.value == NonBlank(exp.responsibilities) && r.value != []
  {
    if exists k :: 0 <= k < |exp.responsibilities| && !IsBlank(exp.responsibilities[k])
    then
      var k :| 0 <= k < |exp.responsibilities| && !IsBlank(exp.responsibilities[k]);
      assert exp.responsibilities[k] in NonBlank(exp.responsibilities);
      Some(NonBlank(exp.responsibilities))
    else None
  }

  /** `hobbies.filter(hobby => hobby.name.trim())`. */
  function Projects(hobbies: seq<Hobby>): (r: seq<Hobby>)
    ensures forall h :: h in r <==> h in hobbies && !IsBlank(h.name)
  {
    Filter(hobbies, (h: Hobby) => !IsBlank(h.name))
  }

  /** The fixed list of tool and technology names. */
  const SoftwareKeywords: seq<string> :=
    ["JavaScript", "Python", "Java", "C++", "React", "Node.js", "Angular", "Vue.js",
     "SQL", "Excel", "PowerPoint", "Word", "Photoshop", "Illustrator", "Figma", "Sketch"]

  /** A skill name is a software name when its lowercased form contains the
      lowercased form of some keyword. */
  predicate IsSoftwareName(name: string) {
    exists k :: k in SoftwareKeywords && Contains(ToLower(name), ToLower(k))
  }

  /** Hard skills whose name matches a software keyword. */
  function SoftwareSkills(skills: seq<Skill>): (r: seq<Skill>)
    ensures forall s :: s in r <==> s in skills && s.kind == Hard && IsSoftwareName(s.name)
  {
    Filter(skills, (s: Skill) => s.kind == Hard && IsSoftwareName(s.name))
  }

  /** `skills.filter(skill => skill.type === kind)`. */
  function OfKind(skills: seq<Skill>, kind: SkillType): (r: seq<Skill>)
    ensures forall s :: s in r <==> s in skills && s.kind == kind
  {
    Filter(skills, (s: Skill) => s.kind == kind)
  }

  /** `skills.map(skill => skill.name)`. */
  function SkillNames(skills: seq<Skill>): seq<string> {
    Map(skills, (s: Skill) => s.name)
  }

  /** `word.charAt(0).toUpperCase()`: empty for an empty word. */
  function FirstUpper(word: string): string {
    if word == "" then "" else [UpperChar(word[0])]
  }

  /** `words.map(word => word.charAt(0).toUpperCase()).join('')`. */
  function Initials(words: seq<string>): string {
    if words == [] then "" else FirstUpper(words[0]) + Initials(words[1..])
  }

  /** Independent reference: the upper-cased characters of `s` that follow a
      space (or start `s`, when `atWordStart`) and are not spaces themselves. */
  function WordStarts(s: string, atWordStart: bool): (r: string)
    ensures forall i :: 0 <= i < |r| ==> r[i] != ' ' && !('a' <= r[i] <= 'z')
  {
    if s == [] then ""
    else if s[0] != ' ' && atWordStart then [UpperChar(s[0])] + WordStarts(s[1..], false)
    else WordStarts(s[1..], s[0] == ' ')
  }

  /** Splitting on single spaces and taking first letters is the same as
      picking the characters that start a word. */
  lemma {:induction false} InitialsAreWordStarts(s: string)
    ensures Initials(Split(s, ' ')) == WordStarts(s, true)
    ensures Initials(Split(s, ' ')[1..]) == WordStarts(s, false)
  {
    if s != [] {
      var rest := Split(s[1..], ' ');
      InitialsAreWordStarts(s[1..]);
      if s[0] == ' ' {
        assert Split(s, ' ') == [""] + rest;
        assert Split(s, ' ')[1..] == rest;
      } else {
        var head := [s[0]] + rest[0];
        assert Split(s, ' ') == [head] + rest[1..];
        assert Split(s, ' ')[1..] == rest[1..];
        assert rest == [rest[0]] + rest[1..];
        assert Initials(rest) == FirstUpper(rest[0]) + Initials(rest[1..]);
      }
    }
  }

  /** `getInitials(name)`: at most two characters, the upper-cased first
      characters of the space-separated words in word order; empty words
      (from repeated spaces) contribute nothing. */
  function GetInitials(name: string): (r: string)
    ensures |r| <= 2
    ensures r <= WordStarts(name, true)
    ensures |r| == if |WordStarts(name, true)| < 2 then |WordStarts(name, true)| else 2
  {
    InitialsAreWordStarts(name);
    var all := Initials(Split(name, ' '));
    if |all| <= 2 then all else all[..2]
  }

  // ---------------------------------------------------------------- avatars

  /** What a template draws in the avatar circle: the uploaded picture, a
      monogram, or nothing. */
  datatype Avatar = Photo(src: string, alt: string) | Monogram(text: string) | NoAvatar

  /** The avatar of the two infographic templates: the picture when one is
      set (described by the name, or "Profile Picture"), otherwise the
      initials of the name, or "?" for an empty name. */
  function InitialsAvatar(p: PersonalInfo): (r: Avatar)
    ensures r.Photo? <==> Truthy(p.profilePicture)
    ensures r.Photo? ==>
      r.src == p.profilePicture.value && r.alt == (if p.fullName != "" then p.fullName else "Profile Picture")
    ensures r.Monogram? && p.fullName == "" ==> r.text == "?"
    ensures r.Monogram? && p.fullName != "" ==> r.text == GetInitials(p.fullName)
    ensures r.Monogram? && p.fullName != "" ==> r.text <= WordStarts(p.fullName, true) && |r.text| <= 2
    ensures !r.NoAvatar?
  {
    if Truthy(p.profilePicture) then Photo(p.profilePicture.value, if p.fullName != "" then p.fullName else "Profile Picture")
    else if p.fullName != "" then Monogram(GetInitials(p.fullName))
    else Monogram("?")
  }
}
