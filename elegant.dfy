// The elegant sidebar template (ElegantSidebarTemplate.tsx): the avatar
// choice, the skill bars and the language bars.
module ElegantTemplate {
  import opened Text
  import opened Resume
  import opened Shared

  /** The sidebar avatar: the picture when one is set; otherwise the
      initials, but only for a non-empty name. */
  function SidebarAvatar(p: PersonalInfo): (r: Avatar)
    ensures r.Photo? <==> Truthy(p.profilePicture)
    ensures r.Monogram? <==> !Truthy(p.profilePicture) && p.fullName != ""
    ensures r.Monogram? ==> r.text == GetInitials(p.fullName)
    ensures r.Photo? ==> r.alt == (if p.fullName != "" then p.fullName else "Profile Picture")
  {
    if Truthy(p.profilePicture) then Photo(p.profilePicture.value, if p.fullName != "" then p.fullName else "Profile Picture")
    else if p.fullName != "" then Monogram(GetInitials(p.fullName))
    else NoAvatar
  }

  /** The sidebar avatar and the infographic one agree except for an empty
      name without a picture, where this one draws nothing. */
  lemma AvatarsAgree(p: PersonalInfo)
    ensures SidebarAvatar(p) == InitialsAvatar(p) <==> Truthy(p.profilePicture) || p.fullName != ""
  {
  }

  /** The skills block: present when there is a skill of either type; hard
      skills are drawn at 85% and soft skills at 75%. */
  function SkillBars(skills: seq<Skill>): (r: Option<(seq<(string, nat)>, seq<(string, nat)>)>)
    ensures r.Some? <==> |skills| > 0
    ensures r.Some? ==> |r.value.0| == |OfKind(skills, Hard)| && |r.value.1| == |OfKind(skills, Soft)|
    ensures r.Some? ==> (forall i :: 0 <= i < |r.value.0| ==> r.value.0[i] == (OfKind(skills, Hard)[i].name, 85))
                        && (forall i :: 0 <= i < |r.value.1| ==> r.value.1[i] == (OfKind(skills, Soft)[i].name, 75))
  {
    var hard := OfKind(skills, Hard);
    var soft := OfKind(skills, Soft);
    if |hard| > 0 || |soft| > 0 then
      Some((Map(hard, (s: Skill) => (s.name, 85 as nat)), Map(soft, (s: Skill) => (s.name, 75 as nat))))
    else None
  }

  /** The language bar: the nested conditional on the stored proficiency
      string, with a 50% fallback. */
  function LanguageBarWidth(proficiency: string): (r: nat)
    ensures proficiency == "native" ==> r == 100
    ensures proficiency == "fluent" ==> r == 90
    ensures proficiency == "advanced" ==> r == 80
    ensures proficiency == "intermediate" ==> r == 60
    ensures proficiency == "beginner" ==> r == 40
    ensures proficiency !in {"native", "fluent", "advanced", "intermediate", "beginner"} ==> r == 50
  {
    if proficiency == "native" then 100
    else if proficiency == "fluent" then 90
    else if proficiency == "advanced" then 80
    else if proficiency == "intermediate" then 60
    else if proficiency == "beginner" then 40
    else 50
  }

  /** The rank of a proficiency, from beginner (0) to native (3). */
  function Rank(p: Proficiency): nat {
    match p
    case Beginner => 0
    case Intermediate => 1
    case Advanced => 2
    case Native => 3
  }

  /** For the four proficiencies a language can have, the bar grows with
      the level, and the 90% and 50% branches are never taken. */
  lemma LanguageBarsFollowLevel(p: Proficiency, q: Proficiency)
    ensures LanguageBarWidth(ProficiencyName(p)) in {40, 60, 80, 100}
    ensures Rank(p) < Rank(q) ==> LanguageBarWidth(ProficiencyName(p)) < LanguageBarWidth(ProficiencyName(q))
  {
  }
}
