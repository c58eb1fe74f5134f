// The Kaida Kim template (KaidaKimTemplate.tsx): the section switches the
// template keeps as its own state, the conditions under which the Licenses
// and Activities sections render and the header fallbacks. The
// responsibility lines it renders are those of Shared.ResponsibilityList.
module KaidaKimTemplate {
  import opened Text
  import opened Resume
  import opened Shared

  /** Licenses render when switched on and there is a certification. */
  predicate ShowLicenses(licensesVisible: bool, data: ResumeData) {
    licensesVisible && |data.certifications| > 0
  }

  /** Activities render when switched on and there is a language or a
      hobby. */
  predicate ShowActivities(activitiesVisible: bool, data: ResumeData) {
    activitiesVisible && (|data.languages| > 0 || |data.hobbies| > 0)
  }

  /** `value || fallback`: an empty string falls back. */
  function OrElse(value: string, fallback: string): (r: string)
    ensures value != "" ==> r == value
    ensures value == "" ==> r == fallback
  {
    if value != "" then value else fallback
  }

  /** The name heading and the title under it. */
  function HeaderLines(p: PersonalInfo): (r: (string, string))
    ensures r.0 == (if p.fullName == "" then "YOUR NAME" else p.fullName)
    ensures r.1 == (if p.jobTitle == "" then "Professional Title" else p.jobTitle)
  {
    (OrElse(p.fullName, "YOUR NAME"), OrElse(p.jobTitle, "Professional Title"))
  }

  /** The template's own state: the two section switches and the tips
      panel. */
  class KaidaKimView {
    var licensesVisible: bool
    var activitiesVisible: bool
    var showFormattingTips: bool

    constructor ()
      ensures licensesVisible && activitiesVisible && !showFormattingTips
    {
      licensesVisible := true;
      activitiesVisible := true;
      showFormattingTips := false;
    }

    method ToggleLicenses()
      modifies this
      ensures licensesVisible == !old(licensesVisible)
      ensures activitiesVisible == old(activitiesVisible) && showFormattingTips == old(showFormattingTips)
    {
      licensesVisible := !licensesVisible;
    }

    method ToggleActivities()
      modifies this
      ensures activitiesVisible == !old(activitiesVisible)
      ensures licensesVisible == old(licensesVisible) && showFormattingTips == old(showFormattingTips)
    {
      activitiesVisible := !activitiesVisible;
    }

    method ToggleFormattingTips()
      modifies this
      ensures showFormattingTips == !old(showFormattingTips)
      ensures licensesVisible == old(licensesVisible) && activitiesVisible == old(activitiesVisible)
    {
      showFormattingTips := !showFormattingTips;
    }

    /** Which of the two optional sections the page shows for `data`. */
    method VisibleSections(data: ResumeData) returns (licenses: bool, activities: bool)
      ensures licenses <==> licensesVisible && |data.certifications| > 0
      ensures activities <==> activitiesVisible && (|data.languages| > 0 || |data.hobbies| > 0)
    {
      licenses := ShowLicenses(licensesVisible, data);
      activities := ShowActivities(activitiesVisible, data);
    }
  }
}
