// The print exporter (src/utils/pdfGenerator.ts): the preview's DOM subtree
// is walked into clean HTML (`extractContent`), and the mode picks the body
// settings of the printed page. Opening, writing and printing the popup
// window are reduced to the outcome the caller sees.
module PdfExport {
  import opened Text
  import opened Resume

  /** The DOM nodes the walk meets. An element carries its tag, its class
      string, its inline `display` and `visibility`, the `src` and `alt`
      attributes (absent when not set) and its child nodes. */
  datatype Node =
    | TextNode(text: string)
    | Element(tag: string, className: string, display: string, visibility: string,
              src: Option<string>, alt: Option<string>, children: seq<Node>)
    | OtherNode   // comments and every other node type

  /** HTML's ASCII whitespace, which separates the tokens of a class list. */
  predicate IsClassSeparator(c: char) {
    c == ' ' || c == '\t' || c == '\n' || c == '\U{000C}' || c == '\r'
  }

  /** `classList.contains(token)`: `token` is one of the whitespace-separated
      words of the class string (unlike `className.includes`, a substring
      test). */
  predicate HasClassToken(className: string, token: string) {
    exists i :: 0 <= i <= |className| - |token|
      && token <= className[i..]
      && (i == 0 || IsClassSeparator(className[i - 1]))
      && (i + |token| == |className| || IsClassSeparator(className[i + |token|]))
  }

  /** The three ways an element is hidden from the walk. */
  predicate IsHidden(className: string, display: string, visibility: string) {
    HasClassToken(className, "hidden") || display == "none" || visibility == "hidden"
  }

  // ---------------------------------------------------------------- images

  /** The width rule of an embedded image: `w-32` wins over `w-20`, and
      without either the image is capped at 150px. */
  function ImageSize(className: string): (r: string)
    ensures Contains(className, "w-32") ==> r == "width: 128px; height: 128px; "
    ensures !Contains(className, "w-32") && Contains(className, "w-20") ==> r == "width: 80px; height: 80px; "
    ensures !Contains(className, "w-32") && !Contains(className, "w-20") ==> r == "max-width: 150px; max-height: 150px; "
  {
    if Contains(className, "w-32") then "width: 128px; height: 128px; "
    else if Contains(className, "w-20") then "width: 80px; height: 80px; "
    else "max-width: 150px; max-height: 150px; "
  }

  function ImageStyle(className: string): string {
    (if Contains(className, "rounded-full") then "border-radius: 50%; " else "")
    + ImageSize(className)
    + "object-fit: cover; border: 2px solid #d1d5db; display: block; margin: 0 auto;"
  }

  /** The `alt` text, or "Profile Picture" when it is absent or empty. */
  function AltText(alt: Option<string>): (r: string)
    ensures r != ""
    ensures Truthy(alt) ==> r == alt.value
  {
    if Truthy(alt) then alt.value else "Profile Picture"
  }

  function ImageTag(src: string, alt: Option<string>, className: string): string {
    "<img src=\"" + src + "\" alt=\"" + AltText(alt) + "\" style=\"" + ImageStyle(className) + "\" />"
  }

  /** An image is kept only when it is an inline `data:image` URL. */
  predicate EmbeddedImage(src: Option<string>) {
    src.Some? && StartsWith(src.value, "data:image")
  }

  // ---------------------------------------------------------------- colours

  /** What the parent's class string says about the background, tested in
      the walk's order: dark slate, purple, white text, light purple. */
  datatype Backdrop = Slate | Purple | WhiteText | Lavender | Plain

  function BackdropOf(parentClass: string): (r: Backdrop)
    ensures r == Slate <==> Contains(parentClass, "bg-slate-800")
    ensures r == Purple <==> !Contains(parentClass, "bg-slate-800") && Contains(parentClass, "bg-purple-600")
    ensures r == WhiteText <==> !Contains(parentClass, "bg-slate-800") && !Contains(parentClass, "bg-purple-600")
                                && Contains(parentClass, "text-white")
  {
    if Contains(parentClass, "bg-slate-800") then Slate
    else if Contains(parentClass, "bg-purple-600") then Purple
    else if Contains(parentClass, "text-white") then WhiteText
    else if Contains(parentClass, "bg-purple-100") then Lavender
    else Plain
  }

  /** The text colour of a wrapped element on a backdrop. Headings h1-h3 do
      not react to light purple; h4 and strong turn violet on it, p, li and
      span dark purple; p and li are light grey on slate. */
  function TextColor(tag: string, b: Backdrop): string {
    match b
    case Slate => if tag == "p" || tag == "li" then "#e2e8f0" else "#ffffff"
    case Purple => "#ffffff"
    case WhiteText => "#ffffff"
    case Lavender =>
      if tag == "h4" || tag == "strong" || tag == "b" then "#7c3aed"
      else if tag == "p" || tag == "li" || tag == "span" then "#6b21a8"
      else "#000000"
    case Plain => "#000000"
  }

  /** The underline colour of an h3. */
  function BorderColor(b: Backdrop): string {
    match b
    case Slate => "#94a3b8"
    case Purple => "#e9d5ff"
    case WhiteText => "#e9d5ff"
    case Lavender => "#000000"
    case Plain => "#000000"
  }

  // ------------------------------------------------------- div/section table

  /** A row of the container table: every needle must occur in the class
      string for the row's style to apply. */
  datatype DivRule = DivRule(needles: seq<string>, style: string)

  predicate RuleMatches(rule: DivRule, classes: string) {
    forall k :: 0 <= k < |rule.needles| ==> Contains(classes, rule.needles[k])
  }

  /** The style of the first matching row, if any. */
  function FirstMatch(rules: seq<DivRule>, classes: string): Option<string> {
    if rules == [] then None
    else if RuleMatches(rules[0], classes) then Some(rules[0].style)
    else FirstMatch(rules[1..], classes)
  }

  /** The first-match table: rows are tried top to bottom, the first whose
      needles all occur wins, and no match means no row's needles all
      occur. */
  lemma {:induction false} FirstMatchIsFirst(rules: seq<DivRule>, classes: string)
    ensures FirstMatch(rules, classes).None? <==> forall j :: 0 <= j < |rules| ==> !RuleMatches(rules[j], classes)
    ensures FirstMatch(rules, classes).Some? ==>
      exists k :: 0 <= k < |rules| && RuleMatches(rules[k], classes) && FirstMatch(rules, classes).value == rules[k].style
                  && forall j :: 0 <= j < k ==> !RuleMatches(rules[j], classes)
  {
    if rules != [] && !RuleMatches(rules[0], classes) {
      FirstMatchIsFirst(rules[1..], classes);
      if FirstMatch(rules[1..], classes).Some? {
        var k :| 0 <= k < |rules[1..]| && RuleMatches(rules[1..][k], classes)
                 && FirstMatch(rules[1..], classes).value == rules[1..][k].style
                 && forall j :: 0 <= j < k ==> !RuleMatches(rules[1..][j], classes);
        assert forall j :: 0 <= j < k + 1 ==> !RuleMatches(rules[j], classes) by {
          forall j | 0 <= j < k + 1
            ensures !RuleMatches(rules[j], classes)
          {
            if j > 0 {
              assert rules[j] == rules[1..][j - 1];
            }
          }
        }
      } else {
        forall j | 0 <= j < |rules|
          ensures !RuleMatches(rules[j], classes)
        {
          if j > 0 {
            assert rules[j] == rules[1..][j - 1];
          }
        }
      }
    }
  }

  const ContainerRules: seq<DivRule> := [
    DivRule(["flex", "flex-col", "md:flex-row"], "display: flex; flex-direction: row; width: 100%; min-height: 29.7cm;"),
    DivRule(["w-full", "md:w-[35%]", "bg-slate-800"], "width: 35%; background-color: #1e293b; color: #ffffff; padding: 1.5rem; box-sizing: border-box;"),
    DivRule(["w-full", "md:w-[65%]", "bg-white"], "width: 65%; background-color: #ffffff; color: #000000; padding: 1.5rem; box-sizing: border-box;"),
    DivRule(["flex", "items-start"], "display: flex; align-items: flex-start; gap: 20px; margin: 10px 0;"),
    DivRule(["grid", "grid-cols-3"], "display: grid; grid-template-columns: 1fr 2fr; gap: 20px; margin: 10px 0;"),
    DivRule(["space-y-6"], "margin-bottom: 20px;"),
    DivRule(["bg-purple-600", "text-white"], "background-color: #9333ea; color: #ffffff; padding: 4rem 2rem; text-align: center; position: relative; overflow: hidden;"),
    DivRule(["bg-purple-100"], "background-color: #f3e8ff; padding: 1.5rem; border-radius: 8px; border-left: 4px solid #9333ea;"),
    DivRule(["bg-teal-500"], "background-color: #14b8a6; color: #ffffff; padding: 0.5rem; border-radius: 50%; display: inline-block; width: 2rem; height: 2rem; text-align: center; line-height: 1rem;"),
    DivRule(["bg-orange-500"], "background-color: #f97316; color: #ffffff; padding: 0.5rem; border-radius: 50%; display: inline-block; width: 2rem; height: 2rem; text-align: center; line-height: 1rem;"),
    DivRule(["grid", "md:grid-cols-2"], "display: grid; grid-template-columns: 1fr 1fr; gap: 1.5rem; margin: 1rem 0;")
  ]

  /** A container's style: the first matching row, else a plain margin. */
  function ContainerStyle(classes: string): string {
    match FirstMatch(ContainerRules, classes)
    case Some(style) => style
    case None => "margin: 10px 0;"
  }

  // --------------------------------------------------------------- wrapping

  /** The tags the walk rewraps; every other tag is transparent. */
  predicate Wrapped(tag: string) {
    tag in {"h1", "h2", "h3", "h4", "p", "div", "section", "ul", "li", "span", "strong", "b"}
  }

  /** The tag written out: sections become divs and `b` becomes strong. */
  function OutputTag(tag: string): string {
    if tag == "section" then "div" else if tag == "b" then "strong" else tag
  }

  /** The inline style of a rewrapped element. */
  function WrapStyle(tag: string, parentClass: string, classes: string): string {
    var c := TextColor(tag, BackdropOf(parentClass));
    if tag == "h1" then "font-size: 24px; font-weight: bold; margin: 20px 0 10px 0; color: " + c + ";"
    else if tag == "h2" then "font-size: 20px; font-weight: bold; margin: 15px 0 8px 0; color: " + c + ";"
    else if tag == "h3" then "font-size: 18px; font-weight: bold; margin: 12px 0 6px 0; color: " + c
                             + "; border-bottom: 2px solid " + BorderColor(BackdropOf(parentClass)) + "; padding-bottom: 2px;"
    else if tag == "h4" then "font-size: 16px; font-weight: bold; margin: 10px 0 5px 0; color: " + c + ";"
    else if tag == "p" then "font-size: 14px; line-height: 1.5; margin: 8px 0; color: " + c + ";"
    else if tag == "div" || tag == "section" then ContainerStyle(classes)
    else if tag == "ul" then "margin: 8px 0; padding-left: 20px;"
    else if tag == "li" then "font-size: 14px; line-height: 1.4; margin: 4px 0; color: " + c + ";"
    else if tag == "span" then "font-size: 14px; color: " + c + ";"
    else "font-weight: bold; color: " + c + ";"
  }

  /** The switch on the tag, for content that is not blank: a handled tag is
      rewrapped around the content, any other tag passes it through. */
  function Wrap(tag: string, parentClass: string, classes: string, content: string): (r: string)
    ensures !Wrapped(tag) ==> r == content
    ensures Wrapped(tag) ==> Contains(r, content)
  {
    if Wrapped(tag) then
      var open := "<" + OutputTag(tag) + " style=\"" + WrapStyle(tag, parentClass, classes) + "\">";
      assert content <= (open + content + "</" + OutputTag(tag) + ">")[|open|..];
      open + content + "</" + OutputTag(tag) + ">"
    else content
  }

  // ------------------------------------------------------------------ walk

  /** `extractContent`: a text node gives its text verbatim; a hidden
      element gives nothing and its subtree is not visited; images follow
      the mode; any other element gives its children's output, rewrapped by
      its tag, or nothing when that output is blank. `parentClass` is the
      class string of the node's parent element. */
  function Extract(n: Node, parentClass: string, mode: ExportMode): string
    decreases n, 1
  {
    match n
    case TextNode(t) => t
    case OtherNode => ""
    case Element(tag, cls, display, visibility, src, alt, kids) =>
      var tagName := ToLower(tag);
      if IsHidden(cls, display, visibility) then ""
      else if tagName == "img" then
        if mode == Normal && EmbeddedImage(src) then ImageTag(src.value, alt, cls) else ""
      else
        var content := ExtractChildren(kids, cls, mode);
        if IsBlank(content) then "" else Wrap(tagName, parentClass, cls, content)
  }

  /** The children's outputs concatenated in child order. */
  function ExtractChildren(kids: seq<Node>, parentClass: string, mode: ExportMode): string
    decreases kids, 0
  {
    if kids == [] then ""
    else ExtractChildren(kids[..|kids| - 1], parentClass, mode) + Extract(kids[|kids| - 1], parentClass, mode)
  }

  /** The walk as written: recursion on the element's children, whose
      outputs a loop appends to `content`. */
  method ExtractContent(n: Node, parentClass: string, mode: ExportMode) returns (r: string)
    ensures r == Extract(n, parentClass, mode)
    decreases n
  {
    match n {
      case TextNode(t) =>
        r := t;
      case OtherNode =>
        r := "";
      case Element(tag, cls, display, visibility, src, alt, kids) =>
        var tagName := ToLower(tag);
        if IsHidden(cls, display, visibility) {
          return "";
        }
        if mode == Ats && tagName == "img" {
          return "";
        }
        if mode == Normal && tagName == "img" {
          if src.Some? && src.value != "" && StartsWith(src.value, "data:image") {
            return ImageTag(src.value, alt, cls);
          }
          return "";
        }
        var content := "";
        var i := 0;
        while i < |kids|
          invariant 0 <= i <= |kids|
          invariant content == ExtractChildren(kids[..i], cls, mode)
        {
          var child := ExtractContent(kids[i], cls, mode);
          ExtractChildrenStep(kids, i, cls, mode);
          content := content + child;
          i := i + 1;
        }
        assert kids[..|kids|] == kids;
        if !IsBlank(content) {
          r := Wrap(tagName, parentClass, cls, content);
        } else {
          r := "";
        }
    }
  }

  /** The children's output grows by one child's output per step. */
  lemma ExtractChildrenStep(kids: seq<Node>, i: int, parentClass: string, mode: ExportMode)
    requires 0 <= i < |kids|
    ensures ExtractChildren(kids[..i + 1], parentClass, mode)
         == ExtractChildren(kids[..i], parentClass, mode) + Extract(kids[i], parentClass, mode)
  {
    assert kids[..i + 1][..i] == kids[..i];
  }

  // ------------------------------------------------------------- page setup

  /** The settings of the printed page's body. */
  datatype BodySettings = BodySettings(fontFamily: string, fontSize: string, lineHeight: string, padding: string)

  /** ATS output is a conservative serif page with wider margins; normal
      output a sans-serif page with larger text. */
  function BodySettingsFor(mode: ExportMode): (r: BodySettings)
    ensures mode == Ats ==> r == BodySettings("Times New Roman, serif", "12px", "1.4", "0.75in")
    ensures mode == Normal ==> r == BodySettings("Arial, sans-serif", "14px", "1.5", "0.5in")
  {
    if mode == Ats then BodySettings("Times New Roman, serif", "12px", "1.4", "0.75in")
    else BodySettings("Arial, sans-serif", "14px", "1.5", "0.5in")
  }

  /** The printed page: the body settings and the extracted content. */
  datatype CleanPage = CleanPage(body: BodySettings, content: string)

  function CreateCleanHtml(root: Node, parentClass: string, mode: ExportMode): CleanPage {
    CleanPage(BodySettingsFor(mode), Extract(root, parentClass, mode))
  }

  /** What `generatePDF` reports: the page handed to the print window, or
      the message of the error it throws. */
  datatype PdfOutcome = Printed(page: CleanPage) | Failed(message: string)

  const GenericFailure := "Failed to generate PDF. Please try again."

  /** `generatePDF`: the environment checks come first and keep their own
      messages; any failure after that, including a blocked popup, is
      replaced by one generic message. */
  function GeneratePdf(onClient: bool, element: Option<Node>, parentClass: string, popupOpened: bool, mode: ExportMode): (r: PdfOutcome)
    ensures !onClient ==> r == Failed("PDF generation can only be done on the client side")
    ensures onClient && element.None? ==> r == Failed("Resume preview element not found")
    ensures onClient && element.Some? ==> (r.Printed? <==> popupOpened)
    ensures onClient && element.Some? && !popupOpened ==> r == Failed(GenericFailure)
    ensures r.Printed? ==> r.page == CreateCleanHtml(element.value, parentClass, mode)
  {
    if !onClient then Failed("PDF generation can only be done on the client side")
    else if element.None? then Failed("Resume preview element not found")
    else if !popupOpened then Failed(GenericFailure)
    else Printed(CreateCleanHtml(element.value, parentClass, mode))
  }
}
