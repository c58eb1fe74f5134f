// The creative infographic template (CreativeInfographicTemplate.tsx): the
// widths of the technical-skill bars, the projects list, the condition for
// the education block and the ATS switch the template keeps.
module InfographicTemplate {
  import opened Text
  import opened Resume
  import opened Shared

  /** `Math.min(90 + index * 5, 100)`: the bar of the skill at `index`. */
  function SkillBarWidth(index: nat): (r: nat)
    ensures 90 <= r <= 100
    ensures r == 100 <==> index >= 2
  {
    if 90 + index * 5 < 100 then 90 + index * 5 else 100
  }

  /** Later skills never get a shorter bar. */
  lemma SkillBarWidthMonotone(i: nat, j: nat)
    requires i <= j
    ensures SkillBarWidth(i) <= SkillBarWidth(j)
  {
  }

  /** The technical-skill bars: every hard skill's name with its width, in
      the order of the skills. */
  function TechnicalSkillBars(skills: seq<Skill>): (r: seq<(string, nat)>)
    ensures |r| == |OfKind(skills, Hard)|
    ensures forall i :: 0 <= i < |r| ==> r[i] == (OfKind(skills, Hard)[i].name, SkillBarWidth(i))
  {
    var hard := OfKind(skills, Hard);
    seq(|hard|, i requires 0 <= i < |hard| => (hard[i].name, SkillBarWidth(i)))
  }

  /** The education-and-credentials block appears when there is an
      education or a certification entry. */
  predicate EducationBlockShown(data: ResumeData) {
    |data.education| > 0 || |data.certifications| > 0
  }

  /** The template's ATS switch. */
  class InfographicView {
    var atsView: bool

    constructor ()
      ensures !atsView
    {
      atsView := false;
    }

    method ToggleAts()
      modifies this
      ensures atsView == !old(atsView)
    {
      atsView := !atsView;
    }
  }
}
