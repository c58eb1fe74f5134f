// The markdown-style emphasis scanner that ValeraClassicTemplate.tsx and
// KaidaKimTemplate.tsx both define as `parseFormatting`: `**` toggles bold,
// `_` toggles italic, and the text between markers becomes styled parts.
module Formatting {
  import opened Text

  /** `{ text, bold, italic }`. */
  datatype Part = Part(text: string, bold: bool, italic: bool)

  /** A bold marker starts at `i`: `char === '*' && nextChar === '*'`, where
      the character after the last one is `undefined`. */
  predicate BoldMarkerAt(text: string, i: nat) {
    i + 1 < |text| && text[i] == '*' && text[i + 1] == '*'
  }

  /** `if (currentPart) parts.push(...)`: a part only for collected text. */
  function Flush(current: string, bold: bool, italic: bool): (r: seq<Part>)
    ensures |r| <= 1
    ensures forall k :: 0 <= k < |r| ==> r[k].text != ""
  {
    if current != "" then [Part(current, bold, italic)] else []
  }

  /** The parts the scanner still emits when it stands at `i` with `current`
      collected under the given flags. */
  function Scan(text: string, i: nat, current: string, bold: bool, italic: bool): seq<Part>
    decreases |text| - i
  {
    if i >= |text| then Flush(current, bold, italic)
    else if BoldMarkerAt(text, i) then Flush(current, bold, italic) + Scan(text, i + 2, "", !bold, italic)
    else if text[i] == '_' then Flush(current, bold, italic) + Scan(text, i + 1, "", bold, !italic)
    else Scan(text, i + 1, current + [text[i]], bold, italic)
  }

  /** What `parseFormatting(text)` returns. */
  function Parts(text: string): seq<Part> {
    Scan(text, 0, "", false, false)
  }

  /** `parseFormatting`: the left-to-right loop over the characters. */
  method ParseFormatting(text: string) returns (parts: seq<Part>)
    ensures parts == Parts(text)
  {
    if text == "" {
      return [];
    }
    parts := [];
    var current := "";
    var bold := false;
    var italic := false;
    var i := 0;
    while i < |text|
      invariant 0 <= i <= |text| + 1
      invariant parts + Scan(text, i, current, bold, italic) == Parts(text)
      decreases |text| - i
    {
      var c := text[i];
      if c == '*' && i + 1 < |text| && text[i + 1] == '*' {
        if current != "" {
          parts := parts + [Part(current, bold, italic)];
          current := "";
        }
        bold := !bold;
        i := i + 1;
      } else if c == '_' {
        if current != "" {
          parts := parts + [Part(current, bold, italic)];
          current := "";
        }
        italic := !italic;
      } else {
        current := current + [c];
      }
      i := i + 1;
    }
    if current != "" {
      parts := parts + [Part(current, bold, italic)];
    }
  }

  // ------------------------------------------------------------ properties

  /** The text with every `**` pair (found left to right) and every `_`
      removed; a lone `*` stays. */
  function Plain(text: string, i: nat): string
    decreases |text| - i
  {
    if i >= |text| then ""
    else if BoldMarkerAt(text, i) then Plain(text, i + 2)
    else if text[i] == '_' then Plain(text, i + 1)
    else [text[i]] + Plain(text, i + 1)
  }

  /** The texts of the parts, joined. */
  function Texts(parts: seq<Part>): string {
    if parts == [] then "" else parts[0].text + Texts(parts[1..])
  }

  lemma {:induction false} TextsAppend(a: seq<Part>, b: seq<Part>)
    ensures Texts(a + b) == Texts(a) + Texts(b)
  {
    if a == [] {
      assert a + b == b;
    } else {
      assert (a + b)[0] == a[0];
      assert (a + b)[1..] == a[1..] + b;
      TextsAppend(a[1..], b);
    }
  }

  lemma TextsFlush(current: string, bold: bool, italic: bool)
    ensures Texts(Flush(current, bold, italic)) == current
  {
    if current != "" {
      assert Texts([Part(current, bold, italic)]) == current + Texts([]);
    }
  }

  /** A marker of length `len` at `i` ends the current part and adds
      nothing to the plain text. */
  lemma MarkerStep(text: string, i: nat, len: nat, current: string, bold: bool, italic: bool, bold': bool, italic': bool)
    requires Scan(text, i, current, bold, italic) == Flush(current, bold, italic) + Scan(text, i + len, "", bold', italic')
    requires Plain(text, i) == Plain(text, i + len)
    requires Texts(Scan(text, i + len, "", bold', italic')) == Plain(text, i + len)
    ensures Texts(Scan(text, i, current, bold, italic)) == current + Plain(text, i)
  {
    TextsAppend(Flush(current, bold, italic), Scan(text, i + len, "", bold', italic'));
    TextsFlush(current, bold, italic);
  }

  lemma {:induction false} ScanKeepsPlainText(text: string, i: nat, current: string, bold: bool, italic: bool)
    ensures Texts(Scan(text, i, current, bold, italic)) == current + Plain(text, i)
    decreases |text| - i
  {
    if i >= |text| {
      TextsFlush(current, bold, italic);
    } else if BoldMarkerAt(text, i) {
      ScanKeepsPlainText(text, i + 2, "", !bold, italic);
      MarkerStep(text, i, 2, current, bold, italic, !bold, italic);
    } else if text[i] == '_' {
      ScanKeepsPlainText(text, i + 1, "", bold, !italic);
      MarkerStep(text, i, 1, current, bold, italic, bold, !italic);
    } else {
      ScanKeepsPlainText(text, i + 1, current + [text[i]], bold, italic);
      assert Plain(text, i) == [text[i]] + Plain(text, i + 1);
      assert (current + [text[i]]) + Plain(text, i + 1) == current + ([text[i]] + Plain(text, i + 1));
    }
  }

  /** The parts' texts, joined, are the input with the markers removed:
      every other character survives, in order. */
  lemma PartsKeepPlainText(text: string)
    ensures Texts(Parts(text)) == Plain(text, 0)
  {
    ScanKeepsPlainText(text, 0, "", false, false);
  }

  lemma {:induction false} ScanPartsNonEmpty(text: string, i: nat, current: string, bold: bool, italic: bool)
    ensures forall k :: 0 <= k < |Scan(text, i, current, bold, italic)| ==> Scan(text, i, current, bold, italic)[k].text != ""
    decreases |text| - i
  {
    if i < |text| {
      if BoldMarkerAt(text, i) {
        ScanPartsNonEmpty(text, i + 2, "", !bold, italic);
      } else if text[i] == '_' {
        ScanPartsNonEmpty(text, i + 1, "", bold, !italic);
      } else {
        ScanPartsNonEmpty(text, i + 1, current + [text[i]], bold, italic);
      }
    }
  }

  /** No part is empty, and there are no parts exactly when the text
      consists of markers only (in particular for the empty text). */
  lemma PartsNonEmpty(text: string)
    ensures forall k :: 0 <= k < |Parts(text)| ==> Parts(text)[k].text != ""
    ensures Parts(text) == [] <==> Plain(text, 0) == ""
    ensures text == "" ==> Parts(text) == []
  {
    ScanPartsNonEmpty(text, 0, "", false, false);
    PartsKeepPlainText(text);
    var parts := Parts(text);
    if parts != [] {
      assert Texts(parts) == parts[0].text + Texts(parts[1..]);
    }
  }

  /** Text without markers comes back as one plain part. */
  lemma {:induction false} UnmarkedText(text: string, i: nat, current: string, bold: bool, italic: bool)
    requires i <= |text|
    requires forall j :: i <= j < |text| ==> text[j] != '*' && text[j] != '_'
    requires current + text[i..] != ""
    ensures Scan(text, i, current, bold, italic) == [Part(current + text[i..], bold, italic)]
    decreases |text| - i
  {
    if i < |text| {
      assert !BoldMarkerAt(text, i) && text[i] != '_';
      assert (current + [text[i]]) + text[i + 1..] == current + text[i..];
      UnmarkedText(text, i + 1, current + [text[i]], bold, italic);
    } else {
      assert current + text[i..] == current;
    }
  }

  /** `**x**` with marker-free `x` is one bold part, `_x_` one italic part,
      and marker-free text one plain part. */
  lemma EmphasisExamples(x: string)
    requires x != ""
    requires forall j :: 0 <= j < |x| ==> x[j] != '*' && x[j] != '_'
    ensures Parts(x) == [Part(x, false, false)]
    ensures Parts("**" + x + "**") == [Part(x, true, false)]
    ensures Parts("_" + x + "_") == [Part(x, false, true)]
  {
    UnmarkedText(x, 0, "", false, false);
    assert "" + x[0..] == x;
    BoldExample(x);
    ItalicExample(x);
  }

  /** `**x**` with marker-free `x`: one bold part. */
  lemma BoldExample(x: string)
    requires x != ""
    requires forall j :: 0 <= j < |x| ==> x[j] != '*' && x[j] != '_'
    ensures Parts("**" + x + "**") == [Part(x, true, false)]
  {
    var b := "**" + x + "**";
    var n := |x|;
    assert b[2..n + 2] == x;
    assert BoldMarkerAt(b, 0);
    assert Scan(b, 0, "", false, false) == Scan(b, 2, "", true, false);
    CollectUntilMarker(b, 2, "", true, false, n);
    assert "" + x == x;
    assert BoldMarkerAt(b, n + 2);
    assert Scan(b, n + 2, x, true, false) == [Part(x, true, false)] + Scan(b, n + 4, "", false, false);
  }

  /** `_x_` with marker-free `x`: one italic part. */
  lemma ItalicExample(x: string)
    requires x != ""
    requires forall j :: 0 <= j < |x| ==> x[j] != '*' && x[j] != '_'
    ensures Parts("_" + x + "_") == [Part(x, false, true)]
  {
    var it := "_" + x + "_";
    var n := |x|;
    assert it[1..n + 1] == x;
    assert !BoldMarkerAt(it, 0);
    assert Scan(it, 0, "", false, false) == Scan(it, 1, "", false, true);
    CollectUntilMarker(it, 1, "", false, true, n);
    assert "" + x == x;
    assert !BoldMarkerAt(it, n + 1);
    assert Scan(it, n + 1, x, false, true) == [Part(x, false, true)] + Scan(it, n + 2, "", false, false);
  }

  /** From `i`, marker-free characters up to `i + n` are collected into the
      current part. */
  lemma {:induction false} CollectUntilMarker(text: string, i: nat, current: string, bold: bool, italic: bool, n: nat)
    requires i + n <= |text|
    requires forall j :: i <= j < i + n ==> text[j] != '*' && text[j] != '_'
    ensures Scan(text, i, current, bold, italic) == Scan(text, i + n, current + text[i..i + n], bold, italic)
    decreases n
  {
    if n > 0 {
      assert (current + [text[i]]) + text[i + 1..i + n] == current + text[i..i + n];
      CollectUntilMarker(text, i + 1, current + [text[i]], bold, italic, n - 1);
    } else {
      assert current + text[i..i] == current;
    }
  }

  // ------------------------------------------------------------------ styles

  /** The characters that survive the scan from `i`, each tagged with the
      bold and italic flags in force when it is read: `**` flips bold, `_`
      flips italic, and the markers themselves are dropped. */
  function Styled(text: string, i: nat, bold: bool, italic: bool): seq<(char, bool, bool)>
    decreases |text| - i
  {
    if i >= |text| then []
    else if BoldMarkerAt(text, i) then Styled(text, i + 2, !bold, italic)
    else if text[i] == '_' then Styled(text, i + 1, bold, !italic)
    else [(text[i], bold, italic)] + Styled(text, i + 1, bold, italic)
  }

  /** The characters of `s`, each tagged with the given flags. */
  function Tag(s: string, bold: bool, italic: bool): (r: seq<(char, bool, bool)>)
    ensures |r| == |s|
  {
    seq(|s|, k requires 0 <= k < |s| => (s[k], bold, italic))
  }

  /** What the rendered spans show: each part's characters with the part's
      flags, part after part. */
  function Expand(parts: seq<Part>): seq<(char, bool, bool)> {
    if parts == [] then [] else Tag(parts[0].text, parts[0].bold, parts[0].italic) + Expand(parts[1..])
  }

  lemma {:induction false} ExpandAppend(a: seq<Part>, b: seq<Part>)
    ensures Expand(a + b) == Expand(a) + Expand(b)
  {
    if a == [] {
      assert a + b == b;
    } else {
      assert (a + b)[0] == a[0];
      assert (a + b)[1..] == a[1..] + b;
      ExpandAppend(a[1..], b);
    }
  }

  lemma ExpandFlush(current: string, bold: bool, italic: bool)
    ensures Expand(Flush(current, bold, italic)) == Tag(current, bold, italic)
  {
    if current != "" {
      assert Expand([Part(current, bold, italic)]) == Tag(current, bold, italic) + Expand([]);
    }
  }

  lemma TagSnoc(s: string, c: char, bold: bool, italic: bool)
    ensures Tag(s + [c], bold, italic) == Tag(s, bold, italic) + [(c, bold, italic)]
  {
  }

  /** A marker of length `len` at `i` ends the current part under the old
      flags and continues with the new ones. */
  lemma StyleMarkerStep(text: string, i: nat, len: nat, current: string, bold: bool, italic: bool, bold': bool, italic': bool)
    requires Scan(text, i, current, bold, italic) == Flush(current, bold, italic) + Scan(text, i + len, "", bold', italic')
    requires Styled(text, i, bold, italic) == Styled(text, i + len, bold', italic')
    requires Expand(Scan(text, i + len, "", bold', italic')) == Tag("", bold', italic') + Styled(text, i + len, bold', italic')
    ensures Expand(Scan(text, i, current, bold, italic)) == Tag(current, bold, italic) + Styled(text, i, bold, italic)
  {
    ExpandAppend(Flush(current, bold, italic), Scan(text, i + len, "", bold', italic'));
    ExpandFlush(current, bold, italic);
    assert Tag("", bold', italic') == [];
  }

  lemma {:induction false} ScanStyles(text: string, i: nat, current: string, bold: bool, italic: bool)
    ensures Expand(Scan(text, i, current, bold, italic)) == Tag(current, bold, italic) + Styled(text, i, bold, italic)
    decreases |text| - i
  {
    if i >= |text| {
      ExpandFlush(current, bold, italic);
    } else if BoldMarkerAt(text, i) {
      ScanStyles(text, i + 2, "", !bold, italic);
      StyleMarkerStep(text, i, 2, current, bold, italic, !bold, italic);
    } else if text[i] == '_' {
      ScanStyles(text, i + 1, "", bold, !italic);
      StyleMarkerStep(text, i, 1, current, bold, italic, bold, !italic);
    } else {
      ScanStyles(text, i + 1, current + [text[i]], bold, italic);
      PlainCharStep(text, i, current, bold, italic);
    }
  }

  /** A character that is no marker joins the current span with its flags. */
  lemma PlainCharStep(text: string, i: nat, current: string, bold: bool, italic: bool)
    requires i < |text| && !BoldMarkerAt(text, i) && text[i] != '_'
    requires Expand(Scan(text, i + 1, current + [text[i]], bold, italic))
          == Tag(current + [text[i]], bold, italic) + Styled(text, i + 1, bold, italic)
    ensures Expand(Scan(text, i, current, bold, italic)) == Tag(current, bold, italic) + Styled(text, i, bold, italic)
  {
    var c := text[i];
    var rest := Styled(text, i + 1, bold, italic);
    assert Scan(text, i, current, bold, italic) == Scan(text, i + 1, current + [c], bold, italic);
    assert Styled(text, i, bold, italic) == [(c, bold, italic)] + rest;
    TagSnoc(current, c, bold, italic);
    assert Tag(current + [c], bold, italic) + rest == Tag(current, bold, italic) + ([(c, bold, italic)] + rest);
  }

  /** Every character the parts show carries exactly the flags that the
      `**` and `_` markers before it have switched on: the rendered spans
      are the reference tagging `Styled`, from plain text. */
  lemma PartsCarryStyles(text: string)
    ensures Expand(Parts(text)) == Styled(text, 0, false, false)
  {
    ScanStyles(text, 0, "", false, false);
    assert Tag("", false, false) == [];
  }

  /** Several toggles in one line: `**a**b_c_` shows a bold "a", a plain
      "b" and an italic "c". */
  lemma MixedStylesExample()
    ensures Styled("**a**b_c_", 0, false, false) == [('a', true, false), ('b', false, false), ('c', false, true)]
  {
    var t := "**a**b_c_";
    assert BoldMarkerAt(t, 0) && !BoldMarkerAt(t, 2) && BoldMarkerAt(t, 3);
    assert Styled(t, 9, false, false) == [];
    assert Styled(t, 8, false, true) == [];
    assert Styled(t, 7, false, true) == [('c', false, true)];
    assert Styled(t, 6, false, false) == [('c', false, true)];
    assert Styled(t, 5, false, false) == [('b', false, false), ('c', false, true)];
  }

  /** The classes a part's span gets: " font-bold" for bold, then
      " italic" for italic. */
  function PartClass(p: Part): (r: string)
    ensures |r| == (if p.bold then 10 else 0) + (if p.italic then 7 else 0)
    ensures p.bold ==> StartsWith(r, " font-bold")
  {
    (if p.bold then " font-bold" else "") + (if p.italic then " italic" else "")
  }

  /** The four styles give four distinct class strings. */
  lemma PartClassDistinguishesStyles(p: Part, q: Part)
    requires PartClass(p) == PartClass(q)
    ensures p.bold == q.bold && p.italic == q.italic
  {
  }
}
