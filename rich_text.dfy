/**
 * rich_text_to_md: converts a list of rich-text spans into inline Markdown and
 * collects the page ids the spans link to.
 */
module RichText {
  import opened Wrappers
  import PageIds

  datatype Annotations = Annotations(bold: bool, italic: bool, strikethrough: bool, underline: bool, code: bool)

  /**
   * One rich-text span: its plain text, the page id of a page mention (None for
   * every other span), its href (None when absent or null) and its annotations.
   */
  datatype Span = Span(plain: string, mentionPage: Option<string>, href: Option<string>, annotations: Annotations)

  /** The href is present and non-empty, i.e. truthy. */
  predicate HasHref(s: Span) {
    s.href.Some? && s.href.value != ""
  }

  /** "{PAGE:<id>}", the marker a later pass replaces with the link target. */
  function Placeholder(id: string): string {
    "{PAGE:" + id + "}"
  }

  /** The style wrapping, applied in the order code, bold, italic, strikethrough, underline. */
  function Styled(text: string, a: Annotations): string {
    var t1 := if a.code then "`" + text + "`" else text;
    var t2 := if a.bold then "**" + t1 + "**" else t1;
    var t3 := if a.italic then "*" + t2 + "*" else t2;
    var t4 := if a.strikethrough then "~~" + t3 + "~~" else t3;
    if a.underline then "<u>" + t4 + "</u>" else t4
  }

  /** The markers that open a styled span, outermost (underline) first. */
  function Opening(a: Annotations): string {
    (if a.underline then "<u>" else "") + ((if a.strikethrough then "~~" else "")
    + ((if a.italic then "*" else "") + ((if a.bold then "**" else "") + (if a.code then "`" else ""))))
  }

  /** The markers that close a styled span, innermost (code) first. */
  function Closing(a: Annotations): string {
    (if a.code then "`" else "") + (if a.bold then "**" else "") + (if a.italic then "*" else "")
    + (if a.strikethrough then "~~" else "") + (if a.underline then "</u>" else "")
  }

  /** One optional wrapping layer around text that already sits between markers o and c. */
  lemma Layer(flag: bool, m: string, n: string, o: string, text: string, c: string)
    ensures (if flag then m + (o + text + c) + n else o + text + c)
      == ((if flag then m else "") + o) + text + (c + (if flag then n else ""))
  {
    if flag {
      assert m + (o + text + c) + n == (m + o) + text + (c + n);
    } else {
      assert "" + o == o && c + "" == c;
    }
  }

  /** The wrapping order puts code innermost and underline outermost around the untouched text. */
  lemma StyledNests(text: string, a: Annotations)
    ensures Styled(text, a) == Opening(a) + text + Closing(a)
  {
    Layer(a.code, "`", "`", "", text, "");
    assert "" + text + "" == text;
    var o1, c1 := if a.code then "`" else "", if a.code then "`" else "";
    assert o1 + "" == o1 && "" + c1 == c1;
    Layer(a.bold, "**", "**", o1, text, c1);
    var o2, c2 := (if a.bold then "**" else "") + o1, c1 + (if a.bold then "**" else "");
    Layer(a.italic, "*", "*", o2, text, c2);
    var o3, c3 := (if a.italic then "*" else "") + o2, c2 + (if a.italic then "*" else "");
    Layer(a.strikethrough, "~~", "~~", o3, text, c3);
    var o4, c4 := (if a.strikethrough then "~~" else "") + o3, c3 + (if a.strikethrough then "~~" else "");
    Layer(a.underline, "<u>", "</u>", o4, text, c4);
    var o5, c5 := (if a.underline then "<u>" else "") + o4, c4 + (if a.underline then "</u>" else "");
    assert Opening(a) == o5;
    assert Closing(a) == c5;
  }

  /** Bold and code on "hi" give **`hi`**: code is applied first, so it sits inside. */
  lemma BoldCodeExample()
    ensures Styled("hi", Annotations(bold := true, italic := false, strikethrough := false, underline := false, code := true))
      == "**`hi`**"
  {
  }

  /** The Markdown for one span. */
  function SpanMd(s: Span): string {
    if HasHref(s) then
      match PageIds.NormalizePageId(s.href.value)
      case Ok(pid) => "[" + s.plain + "](" + Placeholder(pid) + ")"
      case Err(_) => "[" + s.plain + "](" + s.href.value + ")"
    else Styled(s.plain, s.annotations)
  }

  /** The page ids one span contributes: its page mention and its href, if that is a page id. */
  function SpanLinks(s: Span): set<string> {
    (if s.mentionPage.Some? then {s.mentionPage.value} else {})
    + (if HasHref(s) && PageIds.NormalizePageId(s.href.value).Ok?
       then {PageIds.NormalizePageId(s.href.value).value} else {})
  }

  /** "".join of the span outputs. */
  function SpansMd(rich: seq<Span>): string {
    if rich == [] then "" else SpansMd(rich[..|rich| - 1]) + SpanMd(rich[|rich| - 1])
  }

  /** The union of the spans' link sets. */
  function SpansLinks(rich: seq<Span>): set<string> {
    if rich == [] then {} else SpansLinks(rich[..|rich| - 1]) + SpanLinks(rich[|rich| - 1])
  }

  /** Any other link keeps its href, ignores the annotations and contributes no page. */
  lemma ExternalHrefSpan(s: Span)
    requires HasHref(s) && PageIds.NormalizePageId(s.href.value).Err?
    ensures SpanMd(s) == "[" + s.plain + "](" + s.href.value + ")"
    ensures SpanLinks(s) == if s.mentionPage.Some? then {s.mentionPage.value} else {}
  {
  }

  /** A span whose href names a page becomes a link to that page's placeholder, and the page is collected. */
  lemma PageHrefSpan(s: Span)
    requires HasHref(s) && PageIds.NormalizePageId(s.href.value).Ok?
    ensures var p := PageIds.NormalizePageId(s.href.value).value;
      SpanMd(s) == "[" + s.plain + "](" + Placeholder(p) + ")" && p in SpanLinks(s) && PageIds.IsCanonical(p)
  {
  }

  /** A page mention without an href is collected but rendered as ordinary styled text. */
  lemma MentionRendersAsText(s: Span)
    requires s.mentionPage.Some? && !HasHref(s)
    ensures s.mentionPage.value in SpanLinks(s)
    ensures SpanMd(s) == Opening(s.annotations) + s.plain + Closing(s.annotations)
  {
    StyledNests(s.plain, s.annotations);
  }

  /** A page id is collected exactly when some span contributes it. */
  lemma {:induction false} SpansLinksMembers(rich: seq<Span>, p: string)
    ensures p in SpansLinks(rich) <==> exists i :: 0 <= i < |rich| && p in SpanLinks(rich[i])
  {
    if rich != [] {
      var init := rich[..|rich| - 1];
      SpansLinksMembers(init, p);
      if p in SpansLinks(rich) && p !in SpanLinks(rich[|rich| - 1]) {
        var i :| 0 <= i < |init| && p in SpanLinks(init[i]);
        assert rich[i] == init[i];
      }
      if exists i :: 0 <= i < |rich| && p in SpanLinks(rich[i]) {
        var i :| 0 <= i < |rich| && p in SpanLinks(rich[i]);
        if i < |init| { assert init[i] == rich[i]; }
      }
    }
  }

  /** The body of rich_text_to_md's loop for one span: its Markdown and the page ids it adds. */
  method SpanToMd(rt: Span) returns (piece: string, found: set<string>)
    ensures piece == SpanMd(rt)
    ensures found == SpanLinks(rt)
  {
    found := {};
    if rt.mentionPage.Some? {
      found := found + {rt.mentionPage.value};
    }
    if HasHref(rt) {
      var norm := PageIds.NormalizePageId(rt.href.value);
      if norm.Ok? {
        found := found + {norm.value};
        piece := "[" + rt.plain + "](" + Placeholder(norm.value) + ")";
      } else {
        piece := "[" + rt.plain + "](" + rt.href.value + ")";
      }
      return;
    }
    var a := rt.annotations;
    piece := rt.plain;
    if a.code { piece := "`" + piece + "`"; }
    if a.bold { piece := "**" + piece + "**"; }
    if a.italic { piece := "*" + piece + "*"; }
    if a.strikethrough { piece := "~~" + piece + "~~"; }
    if a.underline { piece := "<u>" + piece + "</u>"; }
  }

  /** The loop of rich_text_to_md: per-span pieces appended to `out`, joined at the end. */
  method RichTextToMd(rich: seq<Span>) returns (md: string, foundLinks: set<string>)
    ensures md == SpansMd(rich)
    ensures foundLinks == SpansLinks(rich)
  {
    var out: seq<string> := [];
    foundLinks := {};
    for i := 0 to |rich|
      invariant Concat(out) == SpansMd(rich[..i])
      invariant foundLinks == SpansLinks(rich[..i])
    {
      assert rich[..i + 1][..i] == rich[..i];
      var piece, found := SpanToMd(rich[i]);
      foundLinks := foundLinks + found;
      out := out + [piece];
    }
    assert rich[..|rich|] == rich;
    md := Concat(out);
  }

  /** "".join(pieces) */
  function Concat(pieces: seq<string>): string {
    if pieces == [] then "" else Concat(pieces[..|pieces| - 1]) + pieces[|pieces| - 1]
  }
}
