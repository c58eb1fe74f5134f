// The creative showcase infographic template
// (CreativeShowcaseInfographicTemplate.tsx): the tools list capped at eight
// hard skills, the ATS projects section, the three colour themes and the
// view state the template keeps.
module ShowcaseTemplate {
  import opened Text
  import opened Resume
  import opened Shared

  /** The Tools & Software card: present when there is a hard skill, and
      then the first eight hard skills. */
  function ToolsCard(skills: seq<Skill>): (r: Option<seq<Skill>>)
    ensures r.Some? <==> exists s :: s in skills && s.kind == Hard
    ensures r.Some? ==> |r.value| == (if |OfKind(skills, Hard)| < 8 then |OfKind(skills, Hard)| else 8)
    ensures r.Some? ==> r.value <= OfKind(skills, Hard)
  {
    var hard := OfKind(skills, Hard);
    if |hard| > 0 then Some(if |hard| <= 8 then hard else hard[..8])
    else None
  }

  /** The ATS view's Projects section: the names of the hobbies with a
      non-blank name, present only when there is one. */
  function AtsProjects(hobbies: seq<Hobby>): (r: Option<seq<string>>)
    ensures r.Some? <==> exists h :: h in hobbies && !IsBlank(h.name)
    ensures r.Some? ==> |r.value| == |Projects(hobbies)| && forall i :: 0 <= i < |r.value| ==> !IsBlank(r.value[i])
    ensures r.Some? ==> forall i :: 0 <= i < |r.value| ==> r.value[i] == Projects(hobbies)[i].name
  {
    var projects := Projects(hobbies);
    if |projects| > 0 then
      assert projects[0] in projects;
      Some(Map(projects, (h: Hobby) => h.name))
    else None
  }

  /** `'teal' | 'orange' | 'purple'`. */
  datatype ColorTheme = Teal | Orange | Purple

  function ColourName(t: ColorTheme): string {
    match t
    case Teal => "teal"
    case Orange => "orange"
    case Purple => "purple"
  }

  /** The utility classes of a theme. */
  datatype ThemeClasses = ThemeClasses(primary: string, secondary: string, accent: string, text: string,
                                       border: string, light: string, chip: string, icon: string)

  /** `colorThemes[colorTheme]`: every class of a theme uses that theme's
      colour, at fixed shades. */
  function ThemeFor(t: ColorTheme): (r: ThemeClasses)
    ensures var c := ColourName(t);
      && r.primary == "bg-" + c + "-600" && r.secondary == "bg-" + c + "-100" && r.accent == "bg-" + c + "-500"
      && r.text == "text-" + c + "-600" && r.border == "border-" + c + "-200" && r.light == "bg-" + c + "-50"
      && r.chip == "bg-" + c + "-100 text-" + c + "-800" && r.icon == "text-" + c + "-600"
  {
    var c := ColourName(t);
    ThemeClasses("bg-" + c + "-600", "bg-" + c + "-100", "bg-" + c + "-500", "text-" + c + "-600",
                 "border-" + c + "-200", "bg-" + c + "-50", "bg-" + c + "-100 text-" + c + "-800", "text-" + c + "-600")
  }

  /** The template's own state: the ATS switch and the theme. */
  class ShowcaseView {
    var atsView: bool
    var colorTheme: ColorTheme

    constructor ()
      ensures !atsView && colorTheme == Teal
    {
      atsView := false;
      colorTheme := Teal;
    }

    method ToggleAts()
      modifies this
      ensures atsView == !old(atsView) && colorTheme == old(colorTheme)
    {
      atsView := !atsView;
    }

    method SelectTheme(t: ColorTheme)
      modifies this
      ensures colorTheme == t && atsView == old(atsView)
    {
      colorTheme := t;
    }

    /** The classes the page is drawn with. */
    method CurrentTheme() returns (classes: ThemeClasses)
      ensures classes == ThemeFor(colorTheme)
    {
      classes := ThemeFor(colorTheme);
    }
  }
}
