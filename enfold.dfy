// The Enfold corporate template (EnfoldCorporateTemplate.tsx): the year
// labels of the timeline and their most-recent-first order, the entry a
// timeline id resolves to, the headline, the ATS contact lines, and the
// view and theme state the template's buttons flip.
module EnfoldTemplate {
  import opened Text
  import opened Resume

  // --------------------------------------------------------------- timeline

  datatype EntryKind = WorkEntry | EducationEntry

  /** `{ id, years, type }`. */
  datatype TimelineItem = TimelineItem(id: string, years: string, kind: EntryKind)

  /** `date.split('-')[0]`: the year part of a `YYYY-MM` date. */
  function YearOf(date: string): (r: string)
    ensures r == Before(date, '-')
    ensures '-' !in r
  {
    SplitHeadIsBefore(date, '-');
    Split(date, '-')[0]
  }

  /** A current job is labelled with its start year alone; any other job is
      labelled `start-end`, unless its end year reads "Present". */
  function WorkYears(exp: WorkExperience): (r: TimelineItem)
    ensures r.id == exp.id && r.kind == WorkEntry
    ensures exp.current ==> r.years == YearOf(exp.startDate)
    ensures !exp.current && YearOf(exp.endDate) != "Present" ==>
      r.years == YearOf(exp.startDate) + "-" + YearOf(exp.endDate)
    ensures !exp.current && YearOf(exp.endDate) == "Present" ==> r.years == YearOf(exp.startDate)
  {
    var startYear := YearOf(exp.startDate);
    var endYear := if exp.current then "Present" else YearOf(exp.endDate);
    TimelineItem(exp.id, startYear + (if endYear != "Present" then "-" + endYear else ""), WorkEntry)
  }

  /** Education is always labelled `start-end`. */
  function EducationYears(edu: Education): (r: TimelineItem)
    ensures r.id == edu.id && r.kind == EducationEntry
    ensures r.years == YearOf(edu.startDate) + "-" + YearOf(edu.endDate)
  {
    TimelineItem(edu.id, YearOf(edu.startDate) + "-" + YearOf(edu.endDate), EducationEntry)
  }

  /** Cutting at the first `c` of `a + rest` gives `a` when `a` holds no `c`
      and `rest` is empty or starts with `c`. */
  lemma {:induction false} BeforeOfPrefix(a: string, rest: string, c: char)
    requires c !in a
    requires rest == [] || rest[0] == c
    ensures Before(a + rest, c) == a
  {
    if a == [] {
      assert a + rest == rest;
    } else {
      assert (a + rest)[1..] == a[1..] + rest;
      BeforeOfPrefix(a[1..], rest, c);
    }
  }

  /** The year the sort reads from a job's label is its start year. */
  lemma WorkLeadIsStartYear(exp: WorkExperience)
    ensures YearOf(WorkYears(exp).years) == YearOf(exp.startDate)
  {
    var w := WorkYears(exp).years;
    var tail := w[|YearOf(exp.startDate)|..];
    assert w == YearOf(exp.startDate) + tail;
    BeforeOfPrefix(YearOf(exp.startDate), tail, '-');
  }

  /** The year the sort reads from an education label is its start year. */
  lemma EducationLeadIsStartYear(edu: Education)
    ensures YearOf(EducationYears(edu).years) == YearOf(edu.startDate)
  {
    var tail := "-" + YearOf(edu.endDate);
    assert tail[0] == '-';
    assert EducationYears(edu).years == YearOf(edu.startDate) + tail;
    BeforeOfPrefix(YearOf(edu.startDate), tail, '-');
  }

  predicate IsDigits(s: string) {
    s != "" && forall i :: 0 <= i < |s| ==> '0' <= s[i] <= '9'
  }

  /** The decimal value of a digit string: what `parseInt` returns for one. */
  function DigitsValue(s: string): (r: nat)
    requires forall i :: 0 <= i < |s| ==> '0' <= s[i] <= '9'
  {
    if s == [] then 0 else DigitsValue(s[..|s| - 1]) * 10 + (s[|s| - 1] as int - '0' as int)
  }

  /** `parseInt(item.years.split('-')[0])`, for labels whose leading year is
      a digit string. */
  function LeadYear(item: TimelineItem): nat
    requires IsDigits(YearOf(item.years))
  {
    DigitsValue(YearOf(item.years))
  }

  predicate NumericLeads(items: seq<TimelineItem>) {
    forall k :: 0 <= k < |items| ==> IsDigits(YearOf(items[k].years))
  }

  predicate SortedDescending(items: seq<TimelineItem>)
    requires NumericLeads(items)
  {
    forall i, j :: 0 <= i < j < |items| ==> LeadYear(items[i]) >= LeadYear(items[j])
  }

  /** Inserts `x` after every element of `sorted` whose year is at least its
      own, so equal years keep their input order. */
  function Insert(sorted: seq<TimelineItem>, x: TimelineItem): (r: seq<TimelineItem>)
    requires NumericLeads(sorted) && IsDigits(YearOf(x.years))
    ensures multiset(r) == multiset(sorted) + multiset{x}
    ensures forall y :: y in r <==> y == x || y in sorted
    ensures |r| == |sorted| + 1
    ensures NumericLeads(r)
  {
    if sorted == [] then [x]
    else if LeadYear(sorted[|sorted| - 1]) >= LeadYear(x) then sorted + [x]
    else
      var front := sorted[..|sorted| - 1];
      assert sorted == front + [sorted[|sorted| - 1]];
      Insert(front, x) + [sorted[|sorted| - 1]]
  }

  /** The comparator `bYear - aYear` under a stable sort: most recent first. */
  function SortByYear(items: seq<TimelineItem>): (r: seq<TimelineItem>)
    requires NumericLeads(items)
    ensures multiset(r) == multiset(items)
    ensures |r| == |items|
    ensures NumericLeads(r)
  {
    if items == [] then []
    else
      var front := items[..|items| - 1];
      assert items == front + [items[|items| - 1]];
      Insert(SortByYear(front), items[|items| - 1])
  }

  /** Appending an element no later than every element keeps the order. */
  lemma SortedSnoc(s: seq<TimelineItem>, last: TimelineItem)
    requires NumericLeads(s) && IsDigits(YearOf(last.years))
    requires SortedDescending(s)
    requires forall y :: y in s ==> LeadYear(y) >= LeadYear(last)
    ensures NumericLeads(s + [last]) && SortedDescending(s + [last])
  {
    var t := s + [last];
    forall i, j | 0 <= i < j < |t|
      ensures LeadYear(t[i]) >= LeadYear(t[j])
    {
      if j == |s| {
        assert t[i] in s;
      }
    }
  }

  /** In a sorted timeline every element is at least as recent as the last. */
  lemma SortedAboveLast(s: seq<TimelineItem>)
    requires NumericLeads(s) && s != [] && SortedDescending(s)
    ensures forall y :: y in s ==> LeadYear(y) >= LeadYear(s[|s| - 1])
  {
    forall y | y in s
      ensures LeadYear(y) >= LeadYear(s[|s| - 1])
    {
      var j :| 0 <= j < |s| && s[j] == y;
    }
  }

  lemma {:induction false} InsertKeepsOrder(sorted: seq<TimelineItem>, x: TimelineItem)
    requires NumericLeads(sorted) && IsDigits(YearOf(x.years))
    requires SortedDescending(sorted)
    ensures SortedDescending(Insert(sorted, x))
  {
    if sorted == [] {
    } else {
      var last := sorted[|sorted| - 1];
      SortedAboveLast(sorted);
      if LeadYear(last) >= LeadYear(x) {
        SortedSnoc(sorted, x);
      } else {
        var front := sorted[..|sorted| - 1];
        assert SortedDescending(front);
        InsertKeepsOrder(front, x);
        var ins := Insert(front, x);
        assert forall y :: y in front ==> y in sorted;
        assert Insert(sorted, x) == ins + [last];
        SortedSnoc(ins, last);
      }
    }
  }

  /** The sorted timeline is ordered most recent first and is a permutation
      of its input. */
  lemma {:induction false} SortByYearSorted(items: seq<TimelineItem>)
    requires NumericLeads(items)
    ensures SortedDescending(SortByYear(items))
    ensures multiset(SortByYear(items)) == multiset(items)
  {
    if items != [] {
      var front := items[..|items| - 1];
      SortByYearSorted(front);
      InsertKeepsOrder(SortByYear(front), items[|items| - 1]);
    }
  }

  /** Every start date has a numeric year. */
  predicate NumericStartYears(data: ResumeData) {
    && (forall k :: 0 <= k < |data.workExperience| ==> IsDigits(YearOf(data.workExperience[k].startDate)))
    && (forall k :: 0 <= k < |data.education| ==> IsDigits(YearOf(data.education[k].startDate)))
  }

  /** `[...workYears, ...educationYears].sort(...)`. */
  function AllYears(data: ResumeData): (r: seq<TimelineItem>)
    requires NumericStartYears(data)
    ensures |r| == |data.workExperience| + |data.education|
    ensures NumericLeads(r) && SortedDescending(r)
    ensures multiset(r) == multiset(Map(data.workExperience, WorkYears)) + multiset(Map(data.education, EducationYears))
  {
    var items := Map(data.workExperience, WorkYears) + Map(data.education, EducationYears);
    TimelineItemsNumeric(data);
    SortByYearSorted(items);
    SortByYear(items)
  }

  /** Numeric start years give labels whose leading years are numeric. */
  lemma TimelineItemsNumeric(data: ResumeData)
    requires NumericStartYears(data)
    ensures NumericLeads(Map(data.workExperience, WorkYears) + Map(data.education, EducationYears))
  {
    var work := Map(data.workExperience, WorkYears);
    var study := Map(data.education, EducationYears);
    var items := work + study;
    forall k | 0 <= k < |items|
      ensures IsDigits(YearOf(items[k].years))
    {
      if k < |work| {
        assert items[k] == WorkYears(data.workExperience[k]);
        WorkLeadIsStartYear(data.workExperience[k]);
      } else {
        var j := k - |work|;
        assert items[k] == study[j] == EducationYears(data.education[j]);
        EducationLeadIsStartYear(data.education[j]);
      }
    }
  }

  // --------------------------------------------------------------- captions

  /** `xs.find(p)`: the first element that passes, if any. */
  function FindFirst<T(==)>(xs: seq<T>, p: T -> bool): (r: Option<T>)
    ensures r.None? <==> forall k :: 0 <= k < |xs| ==> !p(xs[k])
    ensures r.Some? ==> exists k :: 0 <= k < |xs| && xs[k] == r.value && p(r.value)
                                    && forall j :: 0 <= j < k ==> !p(xs[j])
  {
    if xs == [] then None
    else if p(xs[0]) then Some(xs[0])
    else
      var r := FindFirst(xs[1..], p);
      if r.Some? then
        var k :| 0 <= k < |xs[1..]| && xs[1..][k] == r.value && p(r.value) && forall j :: 0 <= j < k ==> !p(xs[1..][j]);
        assert xs[k + 1] == r.value;
        r
      else r
  }

  /** The caption under a timeline year: the role of the first job with the
      id, else the degree of the first education entry with it, else
      nothing. */
  function TimelineCaption(data: ResumeData, id: string): (r: string)
    ensures (exists k :: 0 <= k < |data.workExperience| && data.workExperience[k].id == id) ==>
      exists k :: 0 <= k < |data.workExperience| && data.workExperience[k].id == id && r == data.workExperience[k].role
                  && forall j :: 0 <= j < k ==> data.workExperience[j].id != id
    ensures ((forall k :: 0 <= k < |data.workExperience| ==> data.workExperience[k].id != id)
             && (exists k :: 0 <= k < |data.education| && data.education[k].id == id)) ==>
      exists k :: 0 <= k < |data.education| && data.education[k].id == id && r == data.education[k].degree
                  && forall j :: 0 <= j < k ==> data.education[j].id != id
    ensures ((forall k :: 0 <= k < |data.workExperience| ==> data.workExperience[k].id != id)
             && (forall k :: 0 <= k < |data.education| ==> data.education[k].id != id)) ==> r == ""
  {
    match FindFirst(data.workExperience, (w: WorkExperience) => w.id == id)
    case Some(w) => w.role
    case None =>
      match FindFirst(data.education, (e: Education) => e.id == id)
      case Some(e) => e.degree
      case None => ""
  }

  /** A timeline id shared by a job and an education entry shows the job. */
  lemma SharedIdShowsRole(data: ResumeData, i: nat, j: nat)
    requires i < |data.workExperience| && j < |data.education|
    requires data.workExperience[i].id == data.education[j].id
    requires forall k :: 0 <= k < |data.workExperience| && data.workExperience[k].id == data.workExperience[i].id ==> k == i
    ensures TimelineCaption(data, data.education[j].id) == data.workExperience[i].role
  {
  }

  // ----------------------------------------------------------------- header

  /** The brand headline under the name. */
  function Headline(jobTitle: string): (r: string)
    ensures jobTitle != "" ==> r == "Driving excellence in " + ToLower(jobTitle)
    ensures jobTitle == "" ==> r == "Driving professional excellence across industries"
  {
    if jobTitle != "" then "Driving excellence in " + ToLower(jobTitle)
    else "Driving professional excellence across industries"
  }

  /** One labelled line when the field is filled, none otherwise. */
  function ContactLine(caption: string, value: string): (r: seq<string>)
    ensures |r| == if value != "" then 1 else 0
    ensures value != "" ==> r == [caption + ": " + value]
  {
    if value != "" then [caption + ": " + value] else []
  }

  function OptionalText(o: Option<string>): (r: string)
    ensures r != "" <==> Truthy(o)
  {
    if o.Some? then o.value else ""
  }

  /** The contact lines of the ATS view: email, phone, location, LinkedIn
      and website, each only when filled, in that order. */
  function AtsContactLines(p: PersonalInfo): (r: seq<string>)
    ensures |r| == OneIf(p.email != "") + OneIf(p.phone != "") + OneIf(p.location != "")
                   + OneIf(Truthy(p.linkedin)) + OneIf(Truthy(p.website))
    ensures p.email != "" ==> r[0] == "Email: " + p.email
    ensures p.phone != "" ==> r[OneIf(p.email != "")] == "Phone: " + p.phone
    ensures p.location != "" ==> r[OneIf(p.email != "") + OneIf(p.phone != "")] == "Location: " + p.location
    ensures Truthy(p.linkedin) ==>
      r[OneIf(p.email != "") + OneIf(p.phone != "") + OneIf(p.location != "")] == "LinkedIn: " + p.linkedin.value
    ensures Truthy(p.website) ==> r[|r| - 1] == "Website: " + p.website.value
  {
    ContactLine("Email", p.email) + ContactLine("Phone", p.phone) + ContactLine("Location", p.location)
    + ContactLine("LinkedIn", OptionalText(p.linkedin)) + ContactLine("Website", OptionalText(p.website))
  }

  // ------------------------------------------------------------------ state

  /** `'navy-gray' | 'dark-green-cream'`. */
  datatype ColorTheme = NavyGray | DarkGreenCream

  datatype Palette = Palette(sidebar: string, primary: string, secondary: string, accent: string, text: string, lightText: string)

  /** `themes[colorTheme]`: the two palettes share the secondary and text
      colours and differ in sidebar, primary and accent. */
  function ThemePalette(t: ColorTheme): (r: Palette)
    ensures r.secondary == "#64748b" && r.text == "#1f2937" && r.lightText == "#6b7280"
    ensures t == NavyGray <==> r.primary == "#1e3a8a"
  {
    match t
    case NavyGray => Palette("#f4f6f8", "#1e3a8a", "#64748b", "#3b82f6", "#1f2937", "#6b7280")
    case DarkGreenCream => Palette("#faf8f3", "#14532d", "#64748b", "#16a34a", "#1f2937", "#6b7280")
  }

  /** The template's own state: the ATS switch and the colour theme. */
  class EnfoldView {
    var atsView: bool
    var colorTheme: ColorTheme

    constructor ()
      ensures !atsView && colorTheme == NavyGray
    {
      atsView := false;
      colorTheme := NavyGray;
    }

    method ToggleAts()
      modifies this
      ensures atsView == !old(atsView) && colorTheme == old(colorTheme)
    {
      atsView := !atsView;
    }

    method SelectTheme(t: ColorTheme)
      modifies this
      ensures colorTheme == t && atsView == old(atsView)
    {
      colorTheme := t;
    }

    /** The palette the page is drawn with. */
    method CurrentPalette() returns (p: Palette)
      ensures p == ThemePalette(colorTheme)
    {
      p := ThemePalette(colorTheme);
    }
  }
}
