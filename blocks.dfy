/**
 * blocks_to_md: the recursive renderer that turns a hydrated block tree into
 * Markdown and collects the pages it links to; indent_lines for nested list
 * content.
 */
module Blocks {
  import opened Wrappers
  import opened Text
  import opened RichText

  type HeadingLevel = l: int | 1 <= l <= 3 witness 1

  datatype MediaType = Image | File | Pdf | Video | Audio

  /** The block type name, used as the linkText of a captionless non-image media link. */
  function MediaTypeName(m: MediaType): string {
    match m
    case Image => "image"
    case File => "file"
    case Pdf => "pdf"
    case Video => "video"
    case Audio => "audio"
  }

  /**
   * The block types the renderer distinguishes, each with the part of its
   * payload the renderer reads. Strings that the source may find missing or
   * null are "" here when the source only tests their truthiness.
   */
  datatype Kind =
    | Paragraph(rich: seq<Span>)
    | Heading(level: HeadingLevel, rich: seq<Span>)
    | Quote(rich: seq<Span>)
      /** `emoji` is the icon's emoji when the icon is an emoji icon. */
    | Callout(rich: seq<Span>, emoji: Option<string>)
    | BulletedListItem(rich: seq<Span>)
    | NumberedListItem(rich: seq<Span>)
    | ToDo(rich: seq<Span>, checked: bool)
    | Toggle(rich: seq<Span>)
    | Code(rich: seq<Span>, language: string)
    | Divider
      /** `linkType` is the payload's "type" (None when absent); `pageId` is "" when absent. */
    | LinkToPage(linkType: Option<string>, pageId: string)
      /** `title` is "Subpage" when the payload has none. */
    | ChildPage(title: string)
      /** `url` is the external or file URL, "" when there is none. */
    | Media(mediaType: MediaType, caption: seq<Span>, url: string)
    | Bookmark(caption: seq<Span>, url: string)
    | Table
    | TableRow(cells: seq<seq<Span>>)
      /** Any other type; `rich` is the rich_text found under its own payload, if any. */
    | Unsupported(typeName: string, rich: seq<Span>)

  /** A block; `children` is what hydration stored in `_children` (empty when nothing was stored). */
  datatype Block = Block(id: string, kind: Kind, hasChildren: bool, children: seq<Block>)

  datatype RenderResult = RenderResult(md: string, linkedPages: set<string>)

  /** The kinds whose branch calls render_children. */
  predicate RendersChildren(k: Kind) {
    k.Paragraph? || k.Heading? || k.Quote? || k.Callout? || k.BulletedListItem?
    || k.NumberedListItem? || k.ToDo? || k.Toggle? || k.Code? || k.TableRow? || k.Unsupported?
  }

  /** The rich text a block renders from its own payload (captions for media and bookmarks). */
  function OwnRich(k: Kind): seq<Span> {
    match k
    case Paragraph(rich) => rich
    case Heading(_, rich) => rich
    case Quote(rich) => rich
    case Callout(rich, _) => rich
    case BulletedListItem(rich) => rich
    case NumberedListItem(rich) => rich
    case ToDo(rich, _) => rich
    case Toggle(rich) => rich
    case Code(rich, _) => rich
    case Media(_, caption, _) => caption
    case Bookmark(caption, _) => caption
    case Unsupported(_, rich) => rich
    case _ => []
  }

  function IconText(emoji: Option<string>): string {
    if emoji.Some? then emoji.value + " " else ""
  }

  /** Python's f"{x}" of an optional string. */
  function OptText(x: Option<string>): string {
    if x.Some? then x.value else "None"
  }

  function PadLine(line: string, n: nat): string {
    if IsBlank(line) then line else Repeat(' ', n) + line
  }

  /** indent_lines: every non-blank line gets n leading spaces. */
  function IndentLines(text: string, n: nat): (r: string)
    ensures text == "" ==> r == ""
    ensures '\n' !in text ==> r == PadLine(text, n)
  {
    var lines := SplitLines(text);
    if '\n' !in text && text != "" then
      SplitNoNewline(text);
      Join(seq(|lines|, i requires 0 <= i < |lines| => PadLine(lines[i], n)))
    else
      Join(seq(|lines|, i requires 0 <= i < |lines| => PadLine(lines[i], n)))
  }

  /** The lines of the result are the lines of the input, the non-blank ones padded by n spaces. */
  lemma IndentLinesPads(text: string, n: nat)
    ensures text == "" ==> IndentLines(text, n) == ""
    ensures text != "" ==>
      var lines := SplitLines(text);
      |Split(IndentLines(text, n))| == |lines| &&
      forall i :: 0 <= i < |lines| ==>
        Split(IndentLines(text, n))[i] == if IsBlank(lines[i]) then lines[i] else Repeat(' ', n) + lines[i]
  {
    var lines := SplitLines(text);
    var padded := seq(|lines|, i requires 0 <= i < |lines| => PadLine(lines[i], n));
    if text != "" {
      assert |lines| >= 1 by {
        var parts := Split(text);
        if parts[|parts| - 1] == "" && |parts| == 1 {
          JoinSplit(text);
        }
      }
      forall i | 0 <= i < |padded| ensures '\n' !in padded[i] {
        assert '\n' !in lines[i];
        assert '\n' !in Repeat(' ', n);
      }
      SplitJoin(padded);
    }
  }

  // ---------------------------------------------------------------------
  // The renderer as functions: lines per block, Markdown and link set per list.
  // ---------------------------------------------------------------------

  /** The Markdown of a list of blocks: the lines joined, right-stripped, plus one newline. */
  function Md(blocks: seq<Block>): string
    decreases blocks, 2
  {
    RStrip(Join(Lines(blocks))) + "\n"
  }

  /** The lines appended while rendering the blocks in order. */
  function Lines(blocks: seq<Block>): seq<string>
    decreases blocks, 1
  {
    if blocks == [] then [] else Lines(blocks[..|blocks| - 1]) + BlockLines(blocks[|blocks| - 1])
  }

  /** render_children's Markdown: nothing unless the block has children. */
  function ChildMd(b: Block): string
    decreases b, 0
  {
    if b.hasChildren then Md(b.children) else ""
  }

  /** The child Markdown as one more line, when it is not blank. */
  function After(childMd: string): seq<string> {
    if IsBlank(childMd) then [] else [childMd]
  }

  /** The lines rendered for one block. */
  function BlockLines(b: Block): seq<string>
    decreases b, 1
  {
    var text := SpansMd(OwnRich(b.kind));
    var childMd := ChildMd(b);
    match b.kind
    case Paragraph(_) => [TextLine(b.kind, text)] + After(childMd)
    case Heading(_, _) => [TextLine(b.kind, text)] + After(childMd)
    case Quote(_) => [TextLine(b.kind, text)] + After(childMd)
    case Callout(_, _) => [TextLine(b.kind, text)] + After(childMd)
    case BulletedListItem(_) => [RStrip(ListPrefix(b.kind) + " " + text)] + Nested(childMd)
    case NumberedListItem(_) => [RStrip(ListPrefix(b.kind) + " " + text)] + Nested(childMd)
    case ToDo(_, _) => [RStrip(ListPrefix(b.kind) + " " + text)] + Nested(childMd)
    case Toggle(_) => Details(text, childMd)
    case Code(_, language) => [RStrip("```" + language), text, "```"] + After(childMd)
    case Divider => ["---"]
    case LinkToPage(linkType, pageId) =>
      if linkType == Some("page_id") then
        (if pageId != "" then ["- [Linked page](" + Placeholder(pageId) + ")"] else [])
      else ["- Linked: " + OptText(linkType)]
    case ChildPage(title) =>
      if b.id != "" then ["- [" + title + "](" + Placeholder(b.id) + ")"] else []
    case Media(mediaType, _, url) => MediaLines(mediaType, text, url)
    case Bookmark(_, url) => BookmarkLines(text, url)
    case Table => ["<table>"] + RowLines(b.children) + ["</table>"]
    case TableRow(_) => (if IsBlank(text) then [] else [text]) + After(childMd)
    case Unsupported(_, _) => (if IsBlank(text) then [] else [text]) + After(childMd)
  }

  /** The one line of a heading, quote or callout, and of a paragraph ("" when its text is blank). */
  function TextLine(k: Kind, text: string): string {
    match k
    case Heading(level, _) => RStrip(Repeat('#', level) + " " + text)
    case Quote(_) => RStrip("> " + text)
    case Callout(_, emoji) => RStrip("> " + IconText(emoji) + text)
    case _ => if IsBlank(text) then "" else text
  }

  /** The marker before a list item's text. */
  function ListPrefix(k: Kind): string {
    match k
    case NumberedListItem(_) => "1."
    case ToDo(_, checked) => if checked then "- [x]" else "- [ ]"
    case _ => "-"
  }

  /** An image embeds; other media link with the caption, or the type name, as linkText. */
  function MediaLines(mediaType: MediaType, caption: string, url: string): seq<string> {
    if mediaType == Image && url != "" then
      ["![" + (if IsBlank(caption) then "image" else caption) + "](" + url + ")"]
    else if url != "" then
      ["[" + (if Strip(caption) != "" then Strip(caption) else MediaTypeName(mediaType)) + "](" + url + ")"]
    else []
  }

  /** A bookmark links to its URL, labelled by the caption, else the URL itself. */
  function BookmarkLines(caption: string, url: string): seq<string> {
    var linkText := if Strip(caption) != "" then Strip(caption) else if url != "" then url else "bookmark";
    if url != "" then ["[" + linkText + "](" + url + ")"] else []
  }

  /** The child Markdown, indented by two spaces, as one more line when it is not blank. */
  function Nested(childMd: string): seq<string> {
    if IsBlank(childMd) then [] else [IndentLines(childMd, 2)]
  }

  /** The lines a toggle wraps around its child Markdown. */
  function Details(summary: string, childMd: string): seq<string> {
    ["<details>", "<summary>" + summary + "</summary>"]
    + (if IsBlank(childMd) then [] else ["", childMd, ""])
    + ["</details>"]
  }

  /** The <tr> ... </tr> lines of the table_row children, in order; other children are skipped. */
  function RowLines(rows: seq<Block>): seq<string> {
    if rows == [] then [] else RowLines(rows[..|rows| - 1]) + RowOwnLines(rows[|rows| - 1])
  }

  function RowOwnLines(row: Block): seq<string> {
    if row.kind.TableRow? then ["<tr>"] + CellLines(row.kind.cells) + ["</tr>"] else []
  }

  function CellLines(cells: seq<seq<Span>>): seq<string> {
    if cells == [] then [] else CellLines(cells[..|cells| - 1]) + ["<td>" + SpansMd(cells[|cells| - 1]) + "</td>"]
  }

  /** One <td> line per cell, the i-th holding the i-th cell's Markdown. */
  lemma {:induction false} CellLinesClosed(cells: seq<seq<Span>>)
    ensures |CellLines(cells)| == |cells|
    ensures forall i :: 0 <= i < |cells| ==> CellLines(cells)[i] == "<td>" + SpansMd(cells[i]) + "</td>"
  {
    if cells != [] {
      var init := cells[..|cells| - 1];
      CellLinesClosed(init);
      forall i | 0 <= i < |cells| - 1 ensures CellLines(cells)[i] == "<td>" + SpansMd(cells[i]) + "</td>" {
        assert init[i] == cells[i];
      }
    }
  }

  /** Row-major layout: the i-th row's cells are the lines between its <tr> and </tr>. */
  lemma RowLinesTwo(r1: Block, r2: Block)
    requires r1.kind.TableRow? && r2.kind.TableRow?
    ensures RowLines([r1, r2])
         == ["<tr>"] + CellLines(r1.kind.cells) + ["</tr>", "<tr>"] + CellLines(r2.kind.cells) + ["</tr>"]
  {
    assert [r1, r2][..1] == [r1];
    assert [r1][..0] == [];
    assert RowLines([r1]) == RowOwnLines(r1);
    assert RowLines([r1, r2]) == RowOwnLines(r1) + RowOwnLines(r2);
  }

  function RowLinks(rows: seq<Block>): set<string> {
    if rows == [] then {} else RowLinks(rows[..|rows| - 1]) + RowOwnLinks(rows[|rows| - 1])
  }

  function RowOwnLinks(row: Block): set<string> {
    if row.kind.TableRow? then CellLinks(row.kind.cells) else {}
  }

  function CellLinks(cells: seq<seq<Span>>): set<string> {
    if cells == [] then {} else CellLinks(cells[..|cells| - 1]) + SpansLinks(cells[|cells| - 1])
  }

  /** The page ids a block contributes without looking into rendered children. */
  function OwnLinks(b: Block): set<string> {
    match b.kind
    case LinkToPage(linkType, pageId) =>
      if linkType == Some("page_id") && pageId != "" then {pageId} else {}
    case ChildPage(_) => if b.id != "" then {b.id} else {}
    case Table => RowLinks(b.children)
    case _ => SpansLinks(OwnRich(b.kind))
  }

  /** The linked set of a list of blocks. */
  function Linked(blocks: seq<Block>): set<string>
    decreases blocks, 1
  {
    if blocks == [] then {} else Linked(blocks[..|blocks| - 1]) + BlockLinked(blocks[|blocks| - 1])
  }

  /** One block's links: its own, plus its children's when its branch renders them. */
  function BlockLinked(b: Block): set<string>
    decreases b, 1
  {
    OwnLinks(b) + (if RendersChildren(b.kind) then ChildLinked(b) else {})
  }

  function ChildLinked(b: Block): set<string>
    decreases b, 0
  {
    if b.hasChildren then Linked(b.children) else {}
  }

  // ---------------------------------------------------------------------
  // The renderer as the source runs it: loops appending to `lines` and
  // unioning into `linked`, recursing for children.
  // ---------------------------------------------------------------------

  method BlocksToMd(blocks: seq<Block>) returns (res: RenderResult)
    ensures res.md == Md(blocks)
    ensures res.linkedPages == Linked(blocks)
    decreases blocks, 3
  {
    var lines: seq<string> := [];
    var linked: set<string> := {};
    for i := 0 to |blocks|
      invariant lines == Lines(blocks[..i])
      invariant linked == Linked(blocks[..i])
    {
      assert blocks[..i + 1][..i] == blocks[..i];
      lines, linked := RenderBlock(blocks[i], lines, linked);
    }
    assert blocks[..|blocks|] == blocks;
    res := RenderResult(RStrip(Join(lines)) + "\n", linked);
  }

  /** render_children */
  method RenderChildren(b: Block) returns (res: RenderResult)
    ensures res.md == ChildMd(b)
    ensures res.linkedPages == ChildLinked(b)
    decreases b, 0
  {
    if !b.hasChildren {
      return RenderResult("", {});
    }
    res := BlocksToMd(b.children);
  }

  /** One iteration of the loop: the branch for the block's type. */
  method RenderBlock(b: Block, lines: seq<string>, linked: set<string>)
    returns (lines': seq<string>, linked': set<string>)
    ensures lines' == lines + BlockLines(b)
    ensures linked' == linked + BlockLinked(b)
    decreases b, 2
  {
    match b.kind {
      case Paragraph(_) => lines', linked' := RenderTextBlock(b, lines, linked);
      case Heading(_, _) => lines', linked' := RenderTextBlock(b, lines, linked);
      case Quote(_) => lines', linked' := RenderTextBlock(b, lines, linked);
      case Callout(_, _) => lines', linked' := RenderTextBlock(b, lines, linked);
      case BulletedListItem(_) => lines', linked' := RenderListBlock(b, lines, linked);
      case NumberedListItem(_) => lines', linked' := RenderListBlock(b, lines, linked);
      case ToDo(_, _) => lines', linked' := RenderListBlock(b, lines, linked);
      case Toggle(_) => lines', linked' := RenderToggle(b, lines, linked);
      case Code(_, _) => lines', linked' := RenderCodeBlock(b, lines, linked);
      case Divider => lines', linked' := lines + ["---"], linked;
      case LinkToPage(_, _) => lines', linked' := RenderPageLink(b, lines, linked);
      case ChildPage(_) => lines', linked' := RenderPageLink(b, lines, linked);
      case Media(_, _, _) => lines', linked' := RenderMedia(b, lines, linked);
      case Bookmark(_, _) => lines', linked' := RenderBookmark(b, lines, linked);
      case Table => lines', linked' := RenderTable(b, lines, linked);
      case TableRow(_) => lines', linked' := RenderFallback(b, lines, linked);
      case Unsupported(_, _) => lines', linked' := RenderFallback(b, lines, linked);
    }
  }

  /** paragraph, heading_1..3, quote, callout */
  method RenderTextBlock(b: Block, lines: seq<string>, linked: set<string>)
    returns (lines': seq<string>, linked': set<string>)
    requires b.kind.Paragraph? || b.kind.Heading? || b.kind.Quote? || b.kind.Callout?
    ensures lines' == lines + BlockLines(b)
    ensures linked' == linked + BlockLinked(b)
    decreases b, 1
  {
    var text, found := RichTextToMd(OwnRich(b.kind));
    linked' := linked + found;
    var line: string;
    match b.kind {
      case Paragraph(_) =>
        line := if !IsBlank(text) then text else "";
      case Heading(level, _) =>
        line := RStrip(Repeat('#', level) + " " + text);
      case Quote(_) =>
        line := RStrip("> " + text);
      case Callout(_, emoji) =>
        var iconTxt := "";
        if emoji.Some? {
          iconTxt := emoji.value + " ";
        }
        line := RStrip("> " + iconTxt + text);
    }
    var childRes := RenderChildren(b);
    var extra: seq<string> := [];
    if !IsBlank(childRes.md) {
      extra := [childRes.md];
    }
    TextShape(b);
    RenderedLinks(b);
    AppendAssoc(lines, [line], extra);
    lines' := lines + [line] + extra;
    linked' := linked' + childRes.linkedPages;
  }

  /** bulleted_list_item, numbered_list_item, to_do */
  method RenderListBlock(b: Block, lines: seq<string>, linked: set<string>)
    returns (lines': seq<string>, linked': set<string>)
    requires b.kind.BulletedListItem? || b.kind.NumberedListItem? || b.kind.ToDo?
    ensures lines' == lines + BlockLines(b)
    ensures linked' == linked + BlockLinked(b)
    decreases b, 1
  {
    var text, found := RichTextToMd(OwnRich(b.kind));
    linked' := linked + found;
    var prefix: string;
    match b.kind {
      case BulletedListItem(_) => prefix := "-";
      case NumberedListItem(_) => prefix := "1.";
      case ToDo(_, checked) => prefix := if checked then "- [x]" else "- [ ]";
    }
    var childRes := RenderChildren(b);
    var extra: seq<string> := [];
    if !IsBlank(childRes.md) {
      extra := [IndentLines(childRes.md, 2)];
    }
    ListShape(b);
    RenderedLinks(b);
    AppendAssoc(lines, [RStrip(prefix + " " + text)], extra);
    lines' := lines + [RStrip(prefix + " " + text)] + extra;
    linked' := linked' + childRes.linkedPages;
  }

  /** toggle: a <details> element with the text as summary and the children inside. */
  method RenderToggle(b: Block, lines: seq<string>, linked: set<string>)
    returns (lines': seq<string>, linked': set<string>)
    requires b.kind.Toggle?
    ensures lines' == lines + BlockLines(b)
    ensures linked' == linked + BlockLinked(b)
    decreases b, 1
  {
    var Toggle(rich) := b.kind;
    var text, found := RichTextToMd(rich);
    linked' := linked + found;
    var html := ["<details>", "<summary>" + text + "</summary>"];
    var childRes := RenderChildren(b);
    if !IsBlank(childRes.md) {
      html := html + ["", childRes.md, ""];
    }
    html := html + ["</details>"];
    assert BlockLines(b) == html;
    lines' := lines + html;
    linked' := linked' + childRes.linkedPages;
  }

  /** code */
  method RenderCodeBlock(b: Block, lines: seq<string>, linked: set<string>)
    returns (lines': seq<string>, linked': set<string>)
    requires b.kind.Code?
    ensures lines' == lines + BlockLines(b)
    ensures linked' == linked + BlockLinked(b)
    decreases b, 1
  {
    var Code(rich, language) := b.kind;
    var codeText, found := RichTextToMd(rich);
    linked' := linked + found;
    var fence := [RStrip("```" + language), codeText, "```"];
    var childRes := RenderChildren(b);
    linked' := linked' + childRes.linkedPages;
    var extra: seq<string> := [];
    if !IsBlank(childRes.md) {
      extra := [childRes.md];
    }
    CodeShape(b);
    RenderedLinks(b);
    AppendAssoc(lines, fence, extra);
    lines' := lines + fence + extra;
  }

  /** link_to_page and child_page: a list entry pointing at a placeholder. */
  method RenderPageLink(b: Block, lines: seq<string>, linked: set<string>)
    returns (lines': seq<string>, linked': set<string>)
    requires b.kind.LinkToPage? || b.kind.ChildPage?
    ensures lines' == lines + BlockLines(b)
    ensures linked' == linked + BlockLinked(b)
  {
    lines', linked' := lines, linked;
    if b.kind.LinkToPage? {
      if b.kind.linkType == Some("page_id") {
        var pid := b.kind.pageId;
        if pid != "" {
          linked' := linked' + {pid};
          lines' := lines' + ["- [Linked page](" + Placeholder(pid) + ")"];
        }
      } else {
        lines' := lines' + ["- Linked: " + OptText(b.kind.linkType)];
      }
    } else {
      if b.id != "" {
        linked' := linked' + {b.id};
        lines' := lines' + ["- [" + b.kind.title + "](" + Placeholder(b.id) + ")"];
      }
    }
  }

  /** image, file, pdf, video, audio: one link line built from the caption. */
  method RenderMedia(b: Block, lines: seq<string>, linked: set<string>)
    returns (lines': seq<string>, linked': set<string>)
    requires b.kind.Media?
    ensures lines' == lines + BlockLines(b)
    ensures linked' == linked + BlockLinked(b)
  {
    var Media(mediaType, captionRich, url) := b.kind;
    var caption, found := RichTextToMd(captionRich);
    linked' := linked + found;
    lines' := lines;
    if mediaType == Image && url != "" {
      var alt := if !IsBlank(caption) then caption else "image";
      lines' := lines' + ["![" + alt + "](" + url + ")"];
    } else if url != "" {
      var linkText := if Strip(caption) != "" then Strip(caption) else MediaTypeName(mediaType);
      lines' := lines' + ["[" + linkText + "](" + url + ")"];
    }
    assert lines' == lines + MediaLines(mediaType, caption, url);
    MediaShape(b);
    MediaLinkShape(b);
  }

  /** bookmark: a link to the URL, labelled by the caption. */
  method RenderBookmark(b: Block, lines: seq<string>, linked: set<string>)
    returns (lines': seq<string>, linked': set<string>)
    requires b.kind.Bookmark?
    ensures lines' == lines + BlockLines(b)
    ensures linked' == linked + BlockLinked(b)
  {
    var Bookmark(captionRich, url) := b.kind;
    var caption, found := RichTextToMd(captionRich);
    linked' := linked + found;
    lines' := lines;
    var linkText := if Strip(caption) != "" then Strip(caption) else if url != "" then url else "bookmark";
    if url != "" {
      lines' := lines' + ["[" + linkText + "](" + url + ")"];
    }
    assert lines' == lines + BookmarkLines(caption, url);
    BookmarkShape(b);
  }

  lemma MediaShape(b: Block)
    requires b.kind.Media?
    ensures BlockLines(b) == MediaLines(b.kind.mediaType, SpansMd(b.kind.caption), b.kind.url)
  {
    var Media(mediaType, caption, url) := b.kind;
    assert b == Block(b.id, Media(mediaType, caption, url), b.hasChildren, b.children);
  }

  lemma MediaLinkShape(b: Block)
    requires b.kind.Media?
    ensures BlockLinked(b) == SpansLinks(b.kind.caption)
  {
  }

  lemma BookmarkShape(b: Block)
    requires b.kind.Bookmark?
    ensures BlockLines(b) == BookmarkLines(SpansMd(b.kind.caption), b.kind.url)
    ensures BlockLinked(b) == SpansLinks(b.kind.caption)
  {
    var Bookmark(caption, url) := b.kind;
    assert BlockLines(b) == BookmarkLines(SpansMd(caption), url);
  }

  lemma ListShape(b: Block)
    requires b.kind.BulletedListItem? || b.kind.NumberedListItem? || b.kind.ToDo?
    ensures BlockLines(b) == [RStrip(ListPrefix(b.kind) + " " + SpansMd(OwnRich(b.kind)))] + Nested(ChildMd(b))
  {
  }

  lemma TextShape(b: Block)
    requires b.kind.Paragraph? || b.kind.Heading? || b.kind.Quote? || b.kind.Callout?
    ensures BlockLines(b) == [TextLine(b.kind, SpansMd(OwnRich(b.kind)))] + After(ChildMd(b))
  {
  }

  lemma CodeShape(b: Block)
    requires b.kind.Code?
    ensures BlockLines(b) == [RStrip("```" + b.kind.language), SpansMd(b.kind.rich), "```"] + After(ChildMd(b))
  {
  }

  /** A block whose branch renders its children links its own text's pages and its children's. */
  lemma RenderedLinks(b: Block)
    requires RendersChildren(b.kind)
    ensures BlockLinked(b) == SpansLinks(OwnRich(b.kind)) + ChildLinked(b)
  {
  }

  lemma LinkToPageShape(b: Block)
    requires b.kind.LinkToPage?
    ensures var LinkToPage(linkType, pageId) := b.kind;
      BlockLines(b) ==
        (if linkType == Some("page_id") then
           (if pageId != "" then ["- [Linked page](" + Placeholder(pageId) + ")"] else [])
         else ["- Linked: " + OptText(linkType)])
    ensures var LinkToPage(linkType, pageId) := b.kind;
      BlockLinked(b) == if linkType == Some("page_id") && pageId != "" then {pageId} else {}
  {
  }

  lemma ChildPageShape(b: Block)
    requires b.kind.ChildPage?
    ensures BlockLines(b) == if b.id != "" then ["- [" + b.kind.title + "](" + Placeholder(b.id) + ")"] else []
    ensures BlockLinked(b) == if b.id != "" then {b.id} else {}
  {
  }

  lemma TableShape(b: Block)
    requires b.kind.Table?
    ensures BlockLines(b) == ["<table>"] + RowLines(b.children) + ["</table>"]
    ensures BlockLinked(b) == RowLinks(b.children)
  {
    assert b.kind == Table;
  }

  lemma FallbackShape(b: Block)
    requires b.kind.TableRow? || b.kind.Unsupported?
    ensures BlockLines(b) ==
      (if IsBlank(SpansMd(OwnRich(b.kind))) then [] else [SpansMd(OwnRich(b.kind))]) + After(ChildMd(b))
    ensures BlockLinked(b) == SpansLinks(OwnRich(b.kind)) + ChildLinked(b)
  {
    match b.kind {
      case TableRow(_) =>
        assert SpansMd([]) == "" && IsBlank("");
      case Unsupported(_, rich) =>
    }
  }

  /** table: an HTML table of the table_row children, whether or not has_children is set. */
  method RenderTable(b: Block, lines: seq<string>, linked: set<string>)
    returns (lines': seq<string>, linked': set<string>)
    requires b.kind.Table?
    ensures lines' == lines + BlockLines(b)
    ensures linked' == linked + BlockLinked(b)
  {
    TableShape(b);
    var htmlLines, rowLinks := RenderRows(b.children);
    lines' := lines + htmlLines;
    linked' := linked + rowLinks;
  }

  /** The table's loop over its rows, skipping children that are not table_row blocks. */
  method RenderRows(rows: seq<Block>) returns (htmlLines: seq<string>, rowLinks: set<string>)
    ensures htmlLines == ["<table>"] + RowLines(rows) + ["</table>"]
    ensures rowLinks == RowLinks(rows)
  {
    htmlLines := ["<table>"];
    rowLinks := {};
    for r := 0 to |rows|
      invariant htmlLines == ["<table>"] + RowLines(rows[..r])
      invariant rowLinks == RowLinks(rows[..r])
    {
      assert rows[..r + 1][..r] == rows[..r];
      var row := rows[r];
      assert RowLines(rows[..r + 1]) == RowLines(rows[..r]) + RowOwnLines(row);
      assert RowLinks(rows[..r + 1]) == RowLinks(rows[..r]) + RowOwnLinks(row);
      if row.kind.TableRow? {
        var cellLines, cellLinks := RenderRow(row.kind.cells);
        AppendAssoc(["<table>"], RowLines(rows[..r]), cellLines);
        htmlLines := htmlLines + cellLines;
        rowLinks := rowLinks + cellLinks;
      } else {
        assert RowLines(rows[..r]) + RowOwnLines(row) == RowLines(rows[..r]);
      }
    }
    assert rows[..|rows|] == rows;
    htmlLines := htmlLines + ["</table>"];
  }

  /** One <tr> element: a <td> per cell, each cell rendered as rich text. */
  method RenderRow(cells: seq<seq<Span>>) returns (rowLines: seq<string>, rowLinks: set<string>)
    ensures rowLines == ["<tr>"] + CellLines(cells) + ["</tr>"]
    ensures rowLinks == CellLinks(cells)
  {
    rowLines := ["<tr>"];
    rowLinks := {};
    for c := 0 to |cells|
      invariant rowLines == ["<tr>"] + CellLines(cells[..c])
      invariant rowLinks == CellLinks(cells[..c])
    {
      assert cells[..c + 1][..c] == cells[..c];
      var cellMd, found := RichTextToMd(cells[c]);
      rowLinks := rowLinks + found;
      rowLines := rowLines + ["<td>" + cellMd + "</td>"];
    }
    assert cells[..|cells|] == cells;
    rowLines := rowLines + ["</tr>"];
  }

  /** Any other type: its own rich text when there is some, then its children. */
  method RenderFallback(b: Block, lines: seq<string>, linked: set<string>)
    returns (lines': seq<string>, linked': set<string>)
    requires b.kind.TableRow? || b.kind.Unsupported?
    ensures lines' == lines + BlockLines(b)
    ensures linked' == linked + BlockLinked(b)
    decreases b, 1
  {
    var rich := OwnRich(b.kind);
    var text, found := RichTextToMd(rich);
    linked' := linked + found;
    var own: seq<string> := [];
    if !IsBlank(text) {
      own := [text];
    }
    var childRes := RenderChildren(b);
    linked' := linked' + childRes.linkedPages;
    var extra: seq<string> := [];
    if !IsBlank(childRes.md) {
      extra := [childRes.md];
    }
    FallbackShape(b);
    lines' := lines + own + extra;
  }

  // ---------------------------------------------------------------------
  // Properties of the rendering.
  // ---------------------------------------------------------------------

  /** The Markdown of any block list ends in exactly one newline, with no whitespace before it. */
  lemma MdEndsWithOneNewline(blocks: seq<Block>)
    ensures var md := Md(blocks);
      |md| >= 1 && md[|md| - 1] == '\n' && (|md| == 1 || !IsSpace(md[|md| - 2]))
    ensures blocks == [] ==> Md(blocks) == "\n"
  {
    RStripSpec(Join(Lines(blocks)));
  }

  /** Rendering is compositional: the lines of a concatenation are the concatenated lines. */
  lemma {:induction false} LinesAppend(a: seq<Block>, c: seq<Block>)
    ensures Lines(a + c) == Lines(a) + Lines(c)
    ensures Linked(a + c) == Linked(a) + Linked(c)
    decreases |c|
  {
    if c == [] {
      assert a + c == a;
    } else {
      var c' := c[..|c| - 1];
      LinesAppend(a, c');
      assert (a + c)[..|a + c| - 1] == a + c';
      assert (a + c)[|a + c| - 1] == c[|c| - 1];
      AppendAssoc(Lines(a), Lines(c'), BlockLines(c[|c| - 1]));
    }
  }

  lemma SingleBlock(b: Block)
    ensures Lines([b]) == BlockLines(b)
    ensures Linked([b]) == BlockLinked(b)
  {
    assert [b][..0] == [];
  }

  /** A page is linked by a block list exactly when it is linked by one of its blocks. */
  lemma {:induction false} LinkedMembers(blocks: seq<Block>, p: string)
    ensures p in Linked(blocks) <==> exists i :: 0 <= i < |blocks| && p in BlockLinked(blocks[i])
  {
    if blocks != [] {
      var init := blocks[..|blocks| - 1];
      LinkedMembers(init, p);
      if p in Linked(init) {
        var i :| 0 <= i < |init| && p in BlockLinked(init[i]);
        assert blocks[i] == init[i];
      }
      if i :| 0 <= i < |blocks| - 1 && p in BlockLinked(blocks[i]) {
        assert init[i] == blocks[i];
      }
    }
  }

  /** A blank paragraph still produces its empty line, followed by any child Markdown. */
  lemma BlankParagraphKept(before: seq<Block>, b: Block, after: seq<Block>)
    requires b.kind.Paragraph? && IsBlank(SpansMd(b.kind.rich))
    ensures Lines(before + [b] + after) == Lines(before) + [""] + After(ChildMd(b)) + Lines(after)
  {
    TextShape(b);
    assert TextLine(b.kind, SpansMd(b.kind.rich)) == "";
    SingleBlock(b);
    LinesAppend(before, [b]);
    LinesAppend(before + [b], after);
    AppendAssoc(Lines(before), [""], After(ChildMd(b)));
  }

  /** A list item's Markdown starts with its marker: "-", "1.", "- [x]" or "- [ ]". */
  lemma ListItemMarker(b: Block)
    requires b.kind.BulletedListItem? || b.kind.NumberedListItem? || b.kind.ToDo?
    ensures var md, m := Md([b]), ListPrefix(b.kind);
      |md| > |m| && md[..|m|] == m
    ensures b.kind.ToDo? ==> (Md([b])[..5] == "- [x]" <==> b.kind.checked)
  {
    var m := ListPrefix(b.kind);
    ListShape(b);
    SingleBlock(b);
    MarkerThenBreak(m, SpansMd(OwnRich(b.kind)), Lines([b]));
    if b.kind.ToDo? && !b.kind.checked {
      assert Md([b])[..5][3] == ' ';
    }
  }

  /** A heading's Markdown starts with as many '#' as its level, followed by a space or line end. */
  lemma HeadingMarker(b: Block)
    requires b.kind.Heading?
    ensures var md, n := Md([b]), b.kind.level;
      |md| > n && md[..n] == Repeat('#', n) && (md[n] == ' ' || md[n] == '\n')
  {
    var Heading(n, rich) := b.kind;
    var text := SpansMd(rich);
    TextShape(b);
    SingleBlock(b);
    assert TextLine(b.kind, text) == RStrip(Repeat('#', n) + " " + text);
    MarkerThenBreak(Repeat('#', n), text, Lines([b]));
  }

  /**
   * When the first line is rstrip(h + " " + t) for a marker h ending in a
   * non-space, the stripped join starts with h followed by a space or the
   * final newline.
   */
  lemma MarkerThenBreak(h: string, t: string, lines: seq<string>)
    requires h != [] && !IsSpace(h[|h| - 1])
    requires lines != [] && lines[0] == RStrip(h + " " + t)
    ensures var md := RStrip(Join(lines)) + "\n";
      |md| > |h| && md[..|h|] == h && (md[|h|] == ' ' || md[|h|] == '\n')
  {
    var n := |h|;
    var first := h + " " + t;
    var l := RStrip(first);
    var j := Join(lines);
    var r := RStrip(j);
    assert first[..n] == h;
    RStripKeepsPrefix(first, h);
    assert |j| >= |l| && j[..|l|] == l;
    assert j[..n] == h;
    RStripKeepsPrefix(j, h);
    RStripSpec(first);
    RStripSpec(j);
    if |r| > n {
      if |l| > n {
        assert j[n] == first[n] == ' ';
      } else {
        assert |lines| > 1;
        assert j == l + "\n" + Join(lines[1..]);
        assert j[n] == '\n';
      }
    }
  }

  /** A divider renders as a thematic break whatever children it has. */
  lemma DividerMd(b: Block)
    requires b.kind.Divider?
    ensures Md([b]) == "---\n"
  {
    SingleBlock(b);
    assert BlockLines(b) == ["---"];
  }

  /** Media, bookmarks, dividers and page links never render their children, nor collect their links. */
  lemma ChildrenNotRendered(b: Block, children: seq<Block>, hasChildren: bool)
    requires b.kind.Divider? || b.kind.LinkToPage? || b.kind.ChildPage? || b.kind.Media? || b.kind.Bookmark?
    ensures var b' := b.(hasChildren := hasChildren, children := children);
      BlockLines(b') == BlockLines(b) && BlockLinked(b') == BlockLinked(b)
  {
    var b' := b.(hasChildren := hasChildren, children := children);
    match b.kind {
      case Divider =>
      case LinkToPage(_, _) =>
      case ChildPage(_) =>
      case Media(_, _, _) =>
        MediaShape(b);
        MediaLinkShape(b);
        MediaShape(b');
        MediaLinkShape(b');
      case Bookmark(_, _) =>
        BookmarkShape(b);
        BookmarkShape(b');
    }
  }

  /** A table renders its stored children as rows whether or not has_children is set. */
  lemma TableIgnoresHasChildren(b: Block, hasChildren: bool)
    requires b.kind.Table?
    ensures BlockLines(b.(hasChildren := hasChildren)) == BlockLines(b)
    ensures BlockLinked(b.(hasChildren := hasChildren)) == BlockLinked(b)
  {
    TableShape(b);
    TableShape(b.(hasChildren := hasChildren));
  }

  /**
   * link_to_page and child_page put every page they link into the Markdown as
   * a list entry pointing at that page's placeholder.
   */
  lemma PageLinksUsePlaceholders(b: Block)
    requires b.kind.LinkToPage? || b.kind.ChildPage?
    ensures forall p :: p in BlockLinked(b) ==>
      exists linkText :: BlockLines(b) == ["- [" + linkText + "](" + Placeholder(p) + ")"]
    ensures |BlockLinked(b)| <= 1
  {
    if b.kind.LinkToPage? {
      LinkToPageUsesPlaceholder(b);
    } else {
      ChildPageShape(b);
    }
  }

  lemma LinkToPageUsesPlaceholder(b: Block)
    requires b.kind.LinkToPage?
    ensures forall p :: p in BlockLinked(b) ==>
      BlockLines(b) == ["- [" + "Linked page" + "](" + Placeholder(p) + ")"]
    ensures |BlockLinked(b)| <= 1
  {
    LinkToPageShape(b);
    assert "- [" + "Linked page" + "](" == "- [Linked page](";
  }

}
