// The creative template (CreativeTemplate.tsx): the avatar letter, the
// language bars and the two skill groups.
module CreativeTemplate {
  import opened Text
  import opened Resume
  import opened Shared
  import ElegantTemplate

  /** The header avatar: the picture when one is set, otherwise the first
      letter of the name in upper case, or "Y" for an empty name. */
  function HeaderAvatar(p: PersonalInfo): (r: Avatar)
    ensures r.Photo? <==> Truthy(p.profilePicture)
    ensures r.Photo? ==> r == Photo(p.profilePicture.value, "Profile")
    ensures r.Monogram? ==> |r.text| == 1
    ensures r.Monogram? && p.fullName == "" ==> r.text == "Y"
    ensures r.Monogram? && p.fullName != "" ==> r.text == [UpperChar(p.fullName[0])] && r.text <= ToUpper(p.fullName)
    ensures !r.NoAvatar?
  {
    if Truthy(p.profilePicture) then Photo(p.profilePicture.value, "Profile")
    else if p.fullName != "" then Monogram([UpperChar(p.fullName[0])])
    else Monogram("Y")
  }

  /** The language bar: native 100%, advanced 80%, intermediate 60%, and
      40% for anything else. */
  function ProficiencyWidth(proficiency: string): (r: nat)
    ensures proficiency == "native" ==> r == 100
    ensures proficiency == "advanced" ==> r == 80
    ensures proficiency == "intermediate" ==> r == 60
    ensures proficiency !in {"native", "advanced", "intermediate"} ==> r == 40
  {
    if proficiency == "native" then 100
    else if proficiency == "advanced" then 80
    else if proficiency == "intermediate" then 60
    else 40
  }

  /** For every proficiency a language can hold, this template and the
      elegant sidebar draw bars of the same width; they differ only on
      strings outside the type, such as "fluent". */
  lemma SameBarsAsSidebar(p: Proficiency)
    ensures ProficiencyWidth(ProficiencyName(p)) == ElegantTemplate.LanguageBarWidth(ProficiencyName(p))
    ensures ProficiencyWidth("fluent") != ElegantTemplate.LanguageBarWidth("fluent")
  {
  }

  /** The Technical and Soft Skills groups, each present only when it has
      a skill, with the skill names in order. */
  function SkillGroups(skills: seq<Skill>): (r: (Option<seq<string>>, Option<seq<string>>))
    ensures r.0.Some? <==> exists s :: s in skills && s.kind == Hard
    ensures r.1.Some? <==> exists s :: s in skills && s.kind == Soft
    ensures r.0.Some? ==> r.0.value == SkillNames(OfKind(skills, Hard))
    ensures r.1.Some? ==> r.1.value == SkillNames(OfKind(skills, Soft))
  {
    (Group(skills, Hard), Group(skills, Soft))
  }

  function Group(skills: seq<Skill>, kind: SkillType): (r: Option<seq<string>>)
    ensures r.Some? <==> exists s :: s in skills && s.kind == kind
    ensures r.Some? ==> r.value == SkillNames(OfKind(skills, kind))
  {
    var matching := OfKind(skills, kind);
    if |matching| > 0 then
      assert matching[0] in matching;
      Some(SkillNames(matching))
    else None
  }
}
