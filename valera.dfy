// The Valera classic template (ValeraClassicTemplate.tsx): the five-dot
// skill meter, the split of the skills into software and professional ones,
// and the bullets under an education entry. The level-caption helper is
// modelled too, although the template itself never calls it.
module ValeraTemplate {
  import opened Text
  import opened Resume
  import opened Shared

  const FilledDot := "#000000"
  const EmptyDot := "#999999"

  /** How many of the dots are filled. */
  function FilledCount(dots: seq<string>): nat {
    if dots == [] then 0 else FilledCount(dots[..|dots| - 1]) + (if dots[|dots| - 1] == FilledDot then 1 else 0)
  }

  /** `renderSkillDots(level)`: five dots, dot `i` (counted from 1) black
      when `i <= level` and light grey otherwise. */
  method RenderSkillDots(level: int) returns (dots: seq<string>)
    ensures |dots| == 5
    ensures forall k :: 0 <= k < 5 ==> dots[k] == if k + 1 <= level then FilledDot else EmptyDot
    ensures FilledCount(dots) == if level < 0 then 0 else if level > 5 then 5 else level
  {
    dots := [];
    var i := 1;
    while i <= 5
      invariant 1 <= i <= 6
      invariant |dots| == i - 1
      invariant forall k :: 0 <= k < i - 1 ==> dots[k] == if k + 1 <= level then FilledDot else EmptyDot
      invariant FilledCount(dots) == if level < 0 then 0 else if level > i - 1 then i - 1 else level
    {
      var colour := if i <= level then FilledDot else EmptyDot;
      assert (dots + [colour])[..|dots|] == dots;
      dots := dots + [colour];
      i := i + 1;
    }
  }

  /** `getSkillLevelLabel(level)`: a caption for levels 1 to 5, nothing for
      any other value. The template defines it but renders no caption. */
  function SkillLevelLabel(level: int): (r: string)
    ensures r != "" <==> 1 <= level <= 5
    ensures level == 1 ==> r == "Beginner"
    ensures level == 2 ==> r == "Fair"
    ensures level == 3 ==> r == "Good"
    ensures level == 4 ==> r == "Very Good"
    ensures level == 5 ==> r == "Excellent"
  {
    var labels := ["", "Beginner", "Fair", "Good", "Very Good", "Excellent"];
    if 0 <= level < |labels| && labels[level] != "" then labels[level] else ""
  }

  /** The skills whose id no software skill carries. */
  function ProfessionalSkills(skills: seq<Skill>): (r: seq<Skill>)
    ensures forall s :: s in r <==> s in skills && forall t :: t in SoftwareSkills(skills) ==> t.id != s.id
  {
    var software := SoftwareSkills(skills);
    Filter(skills, (s: Skill) => forall t :: t in software ==> t.id != s.id)
  }

  /** When ids are distinct, each skill is listed exactly once: under
      software or under professional skills. */
  lemma SkillsPartition(skills: seq<Skill>, s: Skill)
    requires forall a, b :: a in skills && b in skills && a.id == b.id ==> a == b
    requires s in skills
    ensures s in SoftwareSkills(skills) <==> s !in ProfessionalSkills(skills)
  {
  }

  /** No skill is in both lists, whatever the ids. */
  lemma SkillListsDisjoint(skills: seq<Skill>, s: Skill)
    ensures !(s in SoftwareSkills(skills) && s in ProfessionalSkills(skills))
  {
  }

  /** With a repeated id, a skill can fall out of both lists: a soft skill
      sharing its id with a software skill is shown nowhere. */
  lemma RepeatedIdHidesSkill()
    ensures var skills := [Skill("1", "Python", Hard), Skill("1", "Leadership", Soft)];
      Skill("1", "Leadership", Soft) !in SoftwareSkills(skills)
      && Skill("1", "Leadership", Soft) !in ProfessionalSkills(skills)
  {
    var skills := [Skill("1", "Python", Hard), Skill("1", "Leadership", Soft)];
    assert "python" <= ToLower("Python")[0..];
    assert SoftwareKeywords[1] == "Python";
    assert Skill("1", "Python", Hard) in SoftwareSkills(skills);
  }

  /** The bullets under an education entry: the GPA when it is filled, then
      the award line, which every entry shows. */
  function EducationBullets(edu: Education): (r: seq<string>)
    ensures |r| == if Truthy(edu.gpa) then 2 else 1
    ensures r[|r| - 1] == "Academic Excellence Award"
    ensures Truthy(edu.gpa) ==> r[0] == "GPA: " + edu.gpa.value
  {
    (if Truthy(edu.gpa) then ["GPA: " + edu.gpa.value] else []) + ["Academic Excellence Award"]
  }

  /** The date line of an education entry, which is never current. */
  function EducationDates(edu: Education): (r: string)
    ensures r == edu.startDate + " - " + edu.endDate
  {
    FormatDateRange(edu.startDate, edu.endDate, false)
  }
}
