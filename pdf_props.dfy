// What the print exporter's walk promises: images never reach ATS output,
// an element whose content is blank vanishes, tags outside the switch are
// transparent, and colours and container styles follow the ordered tests.
module PdfProperties {
  import opened Text
  import opened Resume
  import opened PdfExport

  // ---------------------------------------------------------- composition

  /** The output for a run of siblings is the outputs of its parts, joined. */
  lemma {:induction false} ExtractChildrenAppend(a: seq<Node>, b: seq<Node>, parentClass: string, mode: ExportMode)
    ensures ExtractChildren(a + b, parentClass, mode) == ExtractChildren(a, parentClass, mode) + ExtractChildren(b, parentClass, mode)
  {
    if b == [] {
      assert a + b == a;
    } else {
      assert (a + b)[..|a + b| - 1] == a + b[..|b| - 1];
      ExtractChildrenAppend(a, b[..|b| - 1], parentClass, mode);
    }
  }

  // ---------------------------------------------------------- ATS images

  /** The tree with every `img` element replaced by a node that yields
      nothing. */
  function StripImages(n: Node): Node
    decreases n, 1
  {
    match n
    case Element(tag, cls, display, visibility, src, alt, kids) =>
      if ToLower(tag) == "img" then OtherNode
      else Element(tag, cls, display, visibility, src, alt, StripImagesAll(kids))
    case _ => n
  }

  function StripImagesAll(kids: seq<Node>): (r: seq<Node>)
    ensures |r| == |kids|
    decreases kids, 0
  {
    if kids == [] then [] else StripImagesAll(kids[..|kids| - 1]) + [StripImages(kids[|kids| - 1])]
  }

  /** In ATS mode images contribute nothing: removing every image from the
      tree leaves the output unchanged. */
  lemma {:induction false} AtsIgnoresImages(n: Node, parentClass: string)
    ensures Extract(StripImages(n), parentClass, Ats) == Extract(n, parentClass, Ats)
    decreases n, 1
  {
    match n
    case Element(tag, cls, display, visibility, src, alt, kids) =>
      if ToLower(tag) != "img" {
        AtsIgnoresImagesAll(kids, cls);
      }
    case _ =>
  }

  lemma {:induction false} AtsIgnoresImagesAll(kids: seq<Node>, parentClass: string)
    ensures ExtractChildren(StripImagesAll(kids), parentClass, Ats) == ExtractChildren(kids, parentClass, Ats)
    decreases kids, 0
  {
    if kids != [] {
      var front := kids[..|kids| - 1];
      var last := kids[|kids| - 1];
      var stripped := StripImagesAll(kids);
      assert stripped[..|stripped| - 1] == StripImagesAll(front);
      assert stripped[|stripped| - 1] == StripImages(last);
      AtsIgnoresImagesAll(front, parentClass);
      AtsIgnoresImages(last, parentClass);
    }
  }

  /** In normal mode a visible image yields output exactly when its source
      is an inline `data:image` URL. */
  lemma NormalImageKeptIffEmbedded(tag: string, cls: string, display: string, visibility: string,
                                   src: Option<string>, alt: Option<string>, kids: seq<Node>, parentClass: string)
    requires ToLower(tag) == "img" && !IsHidden(cls, display, visibility)
    ensures Extract(Element(tag, cls, display, visibility, src, alt, kids), parentClass, Normal) != "" <==> EmbeddedImage(src)
    ensures EmbeddedImage(src) ==>
      Extract(Element(tag, cls, display, visibility, src, alt, kids), parentClass, Normal) == ImageTag(src.value, alt, cls)
  {
    VisibleImageOutput(tag, cls, display, visibility, src, alt, kids, parentClass);
    if EmbeddedImage(src) {
      ImageTagNonEmpty(src.value, alt, cls);
    }
  }

  /** What a visible image yields in normal mode: its tag when embedded,
      nothing otherwise. */
  lemma VisibleImageOutput(tag: string, cls: string, display: string, visibility: string,
                           src: Option<string>, alt: Option<string>, kids: seq<Node>, parentClass: string)
    requires ToLower(tag) == "img" && !IsHidden(cls, display, visibility)
    ensures Extract(Element(tag, cls, display, visibility, src, alt, kids), parentClass, Normal)
         == if EmbeddedImage(src) then ImageTag(src.value, alt, cls) else ""
  {
  }

  /** The tag written for an image is never empty. */
  lemma ImageTagNonEmpty(src: string, alt: Option<string>, cls: string)
    ensures |ImageTag(src, alt, cls)| > 0
  {
    assert |"<img src=\""| > 0;
  }

  // ------------------------------------------------------ hidden and blank

  /** A hidden element yields nothing, whatever its subtree holds. */
  lemma HiddenSubtreeIgnored(tag: string, cls: string, display: string, visibility: string,
                             src: Option<string>, alt: Option<string>, kids: seq<Node>, kids': seq<Node>,
                             parentClass: string, mode: ExportMode)
    requires IsHidden(cls, display, visibility)
    ensures Extract(Element(tag, cls, display, visibility, src, alt, kids), parentClass, mode) == ""
    ensures Extract(Element(tag, cls, display, visibility, src, alt, kids), parentClass, mode)
         == Extract(Element(tag, cls, display, visibility, src, alt, kids'), parentClass, mode)
  {
  }

  /** A visible element other than an image yields nothing exactly when its
      children's output is blank; a tag outside the switch yields that
      output unwrapped. */
  lemma ElementOutput(tag: string, cls: string, display: string, visibility: string,
                      src: Option<string>, alt: Option<string>, kids: seq<Node>, parentClass: string, mode: ExportMode)
    requires ToLower(tag) != "img" && !IsHidden(cls, display, visibility)
    ensures Extract(Element(tag, cls, display, visibility, src, alt, kids), parentClass, mode) == ""
            <==> IsBlank(ExtractChildren(kids, cls, mode))
    ensures !Wrapped(ToLower(tag)) && !IsBlank(ExtractChildren(kids, cls, mode)) ==>
      Extract(Element(tag, cls, display, visibility, src, alt, kids), parentClass, mode) == ExtractChildren(kids, cls, mode)
  {
    var content := ExtractChildren(kids, cls, mode);
    if !IsBlank(content) {
      assert content != "";
      var r := Wrap(ToLower(tag), parentClass, cls, content);
      if Wrapped(ToLower(tag)) {
        var i :| 0 <= i <= |r| && content <= r[i..];
        assert |r| > 0;
      }
    }
  }

  // --------------------------------------------------------------- colours

  /** h1 and h2 are white exactly when the parent's classes name the slate
      or purple background or white text; otherwise they are black. */
  lemma HeadingWhiteIff(tag: string, parentClass: string)
    requires tag == "h1" || tag == "h2"
    ensures TextColor(tag, BackdropOf(parentClass)) == "#ffffff"
            <==> Contains(parentClass, "bg-slate-800") || Contains(parentClass, "bg-purple-600") || Contains(parentClass, "text-white")
    ensures TextColor(tag, BackdropOf(parentClass)) != "#ffffff" ==> TextColor(tag, BackdropOf(parentClass)) == "#000000"
  {
    assert "#000000"[1] != "#ffffff"[1];
  }

  /** On a light purple parent (and none of the stronger backgrounds), h4
      and strong are violet and p, li and span dark purple; on slate, p and
      li are light grey while the other tags are white. */
  lemma BackdropColours(parentClass: string)
    ensures BackdropOf(parentClass) == Lavender ==>
      TextColor("h4", Lavender) == "#7c3aed" && TextColor("strong", Lavender) == "#7c3aed"
      && TextColor("p", Lavender) == "#6b21a8" && TextColor("li", Lavender) == "#6b21a8" && TextColor("span", Lavender) == "#6b21a8"
      && TextColor("h1", Lavender) == "#000000"
    ensures Contains(parentClass, "bg-slate-800") ==>
      TextColor("p", BackdropOf(parentClass)) == "#e2e8f0" && TextColor("li", BackdropOf(parentClass)) == "#e2e8f0"
      && TextColor("span", BackdropOf(parentClass)) == "#ffffff"
    ensures BackdropOf(parentClass) == Lavender <==>
      !Contains(parentClass, "bg-slate-800") && !Contains(parentClass, "bg-purple-600")
      && !Contains(parentClass, "text-white") && Contains(parentClass, "bg-purple-100")
  {
  }

  // ------------------------------------------------------------ containers

  /** A div or section takes the style of the first row of the container
      table whose needles all occur in its classes, and the plain margin
      when no row matches. */
  lemma ContainerStyleFirstMatch(classes: string)
    ensures (forall j :: 0 <= j < |ContainerRules| ==> !RuleMatches(ContainerRules[j], classes))
            ==> ContainerStyle(classes) == "margin: 10px 0;"
    ensures (exists j :: 0 <= j < |ContainerRules| && RuleMatches(ContainerRules[j], classes)) ==>
      exists k :: 0 <= k < |ContainerRules| && RuleMatches(ContainerRules[k], classes)
                  && ContainerStyle(classes) == ContainerRules[k].style
                  && forall j :: 0 <= j < k ==> !RuleMatches(ContainerRules[j], classes)
  {
    FirstMatchIsFirst(ContainerRules, classes);
  }

  // -------------------------------------------------------------- scenario

  /** A paragraph inside the dark sidebar: the upper-case tag name is
      lower-cased, the paragraph is rewrapped around its text, and the text
      turns light grey. */
  lemma SidebarParagraph()
    ensures Extract(Element("P", "", "", "", None, None, [TextNode("Hi")]), "bg-slate-800", Normal)
         == Wrap("p", "bg-slate-800", "", "Hi")
    ensures TextColor("p", BackdropOf("bg-slate-800")) == "#e2e8f0"
  {
    var kids := [TextNode("Hi")];
    assert kids[..0] == [];
    assert ExtractChildren(kids, "", Normal) == "Hi";
    assert !IsBlank("Hi") by { assert !IsWhitespace("Hi"[0]); }
    assert ToLower("P") == "p";
    assert Contains("bg-slate-800", "bg-slate-800") by { assert "bg-slate-800" <= "bg-slate-800"[0..]; }
  }
}
