# Notion exporter core, modelled in Dafny

This project models the sequential core of `main.py`, a tool that exports a
Notion page graph to cross-linked Markdown files. The modelled parts are:

- **Page ids and file names.** `normalize_page_id` finds a page id in a URL or
  id string and puts it in canonical 8-4-4-4-12 lower-case form. `safe_filename`
  builds the output file name from a slug and the first ten id digits.
- **Retry.** `with_retry` is a bounded retry loop. It sorts API statuses into
  three groups: re-raise at once, back off and retry, or re-raise because the
  status is unclassified.
- **Rich text.** `rich_text_to_md` turns rich-text spans into inline Markdown
  and collects the page ids the spans link to.
- **Rendering.** `blocks_to_md` renders a hydrated block tree recursively, one
  branch per block type, and `indent_lines` indents nested list content.
- **Placeholders.** `replace_page_placeholders` is the second pass. It rewrites
  every `{PAGE:<id>}` marker into `./<file>` or a notion.so URL.
- **Fetching.** `fetch_all_block_children` follows the pagination cursors.
  `hydrate_children` recursively fetches the children of blocks that have
  them.
- **The crawl.** `export_graph` runs a FIFO worklist over lower-cased page ids
  with `visited` and `skipped` sets and an `exports` dictionary. It then builds
  the link map and runs the second pass.

Modules:

| module | contents |
|---|---|
| `Wrappers` | Option/Result |
| `Text` | Python's `strip`/`rstrip`/`lstrip`, `lower`, `replace("-", "")`, `"\n".join`, `split`/`splitlines` |
| `PageIds` | `normalize_page_id`, `safe_filename` |
| `Retry` | `with_retry` |
| `RichText` | `rich_text_to_md` |
| `Placeholders` | `replace_page_placeholders` |
| `Blocks` | `blocks_to_md`, `indent_lines` |
| `Fetch` | pagination and hydration |
| `Crawl` | `get_page_title`, the crawl, the link map and the second pass |

The renderer is modelled twice:

- **Specification functions.** `Blocks.BlockLines`, `Blocks.BlockLinked`,
  `Blocks.Md` and `Blocks.Linked` say what each block contributes.
- **The source's own loops.** `Blocks.BlocksToMd`, `Blocks.RenderBlock` and the
  `Render*` methods append to `lines` and union into `linked` as the source
  does. They are proved equal to the functions.

The crawl is modelled the same way:

- **The remote side is a value.** A `Site` maps each readable page id to its
  title text and its paginated block listing. An id outside the site is one
  whose lookup fails with 403/404.
- **The loop.** `Crawl.Crawl` is a `while` loop with the invariant `CrawlInv`.
  It terminates on the lexicographic measure (unseen part of a finite id
  universe, queue length), even when links form cycles.
- **Processing order.** A ghost sequence `order` records the ids in the order
  the loop takes them up (exported or skipped). Each id appears once, and each
  is a seed or a forward link of a page exported earlier in that order. So a
  page that no chain of links reaches from the seeds is never exported.

Two behaviours of the code are easy to misread, and the model follows the
code in both:

- **Bold with code.** A span that is both bold and code is not rendered as
  `` `**hi**` ``. The code applies code first and bold around it
  (main.py:149-152), giving `` **`hi`** ``. `RichText.BoldCodeExample` states
  this result.
- **Rewriting disabled.** With link rewriting off, the resolver does not run
  at all (main.py:593-595). No notion.so fallback URLs are produced, and the
  raw `{PAGE:…}` markers stay in the text. `Crawl.Output` models this.

## Model

| member | source | states |
|---|---|---|
| Text.RStripSpec | main.py:373 | rstrip keeps the longest prefix that does not end in whitespace, and only whitespace is dropped. |
| Text.LStripSpec | main.py:59 | lstrip keeps the longest suffix that does not start with whitespace, and only whitespace is dropped. |
| Text.RStripKeepsPrefix | main.py:227 | Right-stripping never cuts into a prefix that ends in a non-space character. |
| Text.StripEmptyIffBlank | main.py:221 | strip() gives the empty string exactly when the text is all whitespace, which is when the source's truthiness test fails. |
| Text.StripEdges | main.py:500 | The result of strip() neither starts nor ends with whitespace. |
| Text.LowerStrIdempotent | main.py:548 | Lower-casing an id twice changes nothing more than lower-casing it once. |
| Text.RemoveHyphensAppend | main.py:65 | Removing hyphens distributes over concatenation. |
| Text.SplitJoin | main.py:184 | Splitting a newline join of newline-free lines gives back the lines. |
| Text.JoinSplit | main.py:184 | Joining the pieces of a split on newlines gives back the text. |
| PageIds.NormalizePageId | main.py:47-71 | The result is canonical: 36 characters, hyphens at 8, 13, 18 and 23, lower-case hex elsewhere. It is an error exactly when the stripped input has no hyphenated UUID and, with all hyphens removed, no run of 32 hex digits. When there is a UUID, the result is the leftmost one, lower-cased. Otherwise it is the leftmost 32-digit run of the hyphen-free input, lower-cased and hyphenated. |
| PageIds.FindUuid36 | main.py:48-63 | The leftmost match of the hyphenated UUID pattern. It is None only when no position matches. |
| PageIds.FindHex32 | main.py:47-67 | The leftmost run of 32 hex digits. It is None only when there is none. |
| PageIds.LowerMatch36 | main.py:61-63 | The lower-cased UUID match is a canonical id. |
| PageIds.HyphenateMatch32 | main.py:65-71 | The 32-digit match, lower-cased and hyphenated 8-4-4-4-12, is a canonical id. |
| PageIds.Hyphenate | main.py:70-71 | Hyphenation gives 36 characters, and a canonical id when the digits are lower-case hex. |
| PageIds.HyphenateRemoves | main.py:70-71 | Removing the hyphens from a hyphenated digit string gives the digits back, in order. |
| PageIds.NormalizeHex32 | main.py:51-71 | A bare 32-digit hex id comes back as its own digits, lower-cased, in 8-4-4-4-12 groups. |
| PageIds.DashlessRoundTrip | main.py:51-71 | A canonical id written without hyphens normalizes back to the id. |
| PageIds.LowerUuid36 | main.py:61-63 | A hyphenated UUID match, lower-cased, is canonical. |
| PageIds.LowerCanonical | main.py:63 | Lower-casing a canonical id leaves it unchanged. |
| PageIds.CanonicalIsFixedPoint | main.py:51-71 | A canonical id normalizes to itself. |
| PageIds.NormalizeIdempotent | main.py:51-71 | Normalizing a normalized id returns it unchanged. |
| PageIds.BaseName | main.py:78 | The slug, or "untitled" when slugify gives the empty string. It is never empty. |
| PageIds.SafeFilename | main.py:74-80 | The name starts with base + "--" and ends in ".md", and starts with "untitled--" when slugify gives the empty string. For a canonical id it is base + "--" + the first ten hex digits + ".md". |
| PageIds.ShortCanonical | main.py:79 | For a canonical id, the ten-character fragment is its first 8 digits followed by the next 2. |
| PageIds.FilenamesCollide | main.py:74-80 | For one slug, two canonical ids share a file name if and only if their first ten hex digits agree. |
| Retry.WithRetry | main.py:83-104 | At most maxTries calls, and at least one when maxTries > 0. Every call but the last was a transient failure (429/5xx/no status) followed by a sleep with exponent i. The loop stops early only after a success or a non-retried error. A success is returned; a 400/403/404 or unclassified status is raised after that call; the last error is re-raised when the budget runs out; with no budget, `raise None` fails. |
| RichText.SpanToMd | main.py:120-161 | The loop body for one span equals the span's Markdown and its link contribution. |
| RichText.RichTextToMd | main.py:112-163 | The result is the in-order concatenation of the span outputs, and the found set is the union of the span link sets. |
| RichText.StyledNests | main.py:145-159 | Style wrapping puts the text between opening markers (underline outermost) and closing markers (code innermost), in the fixed order code, bold, italic, strikethrough, underline. |
| RichText.BoldCodeExample | main.py:149-152 | Bold and code on "hi" give **`hi`**. |
| RichText.PageHrefSpan | main.py:131-138 | A span whose href normalizes to p renders as [plain]({PAGE:p}) with no annotations, and p (canonical) is collected. |
| RichText.ExternalHrefSpan | main.py:124-143 | A span whose href does not normalize to a page id renders as [plain](href), ignoring its annotations, and collects only its mentioned page, if any. |
| RichText.MentionRendersAsText | main.py:123-128 | A page mention without an href adds its id to the link set but renders as ordinary styled text. |
| RichText.SpansLinksMembers | main.py:120-163 | A page id is collected exactly when some span contributes it. |
| Placeholders.ReplacePlaceholders | main.py:166-179 | The re.sub scan, left to right over non-overlapping markers. Markdown without '{', or shorter than one marker (43 characters), comes back unchanged. ReplaceLeadingPlaceholder, PlainStep, InertUnchanged and ReplaceEmbedded characterise the rest. |
| Placeholders.ReplaceLeadingPlaceholder | main.py:179 | A marker at the front becomes its target, and the scan continues after it. |
| Placeholders.PlainStep | main.py:179 | A character that does not open "{PAGE:" is copied unchanged, and the scan moves on by one character. |
| Placeholders.ReplaceSkipsPlainText | main.py:179 | Text in which no marker can start passes through unchanged before whatever follows. Such text may contain '{', as long as no "{PAGE:" starts in it and no '{' is among its last five characters. |
| Placeholders.InertUnchanged | main.py:179 | Markdown in which no marker can start is returned unchanged, including Markdown with braces. |
| Placeholders.CodeBracesUnchanged | main.py:179 | The code text "f() { return 1; } " passes through unchanged. |
| Placeholders.ResolvesToFile | main.py:171-177 | The marker of a canonical id with a non-empty map entry becomes "./" + that file name. |
| Placeholders.ResolvesToNotion | main.py:171-176 | The marker of a canonical id that is not mapped (always the case with an empty map) becomes the notion.so URL. |
| Placeholders.ReplaceEmbedded | main.py:166-179 | Replacing the markers embedded in text gives the same result as resolving each page reference directly. Text outside markers is unchanged, and it may hold braces as long as no marker can start in it. |
| Placeholders.CanonicalFitsPattern | main.py:179 | Every canonical id matches the marker's [0-9a-f-]{36} pattern. |
| Blocks.IndentLines | main.py:182-184 | The empty text stays empty, and a single line without a newline is padded by n spaces unless blank. IndentLinesPads gives the line-by-line form. |
| Blocks.IndentLinesPads | main.py:182-184 | The output has the input's lines. Non-blank lines get n leading spaces and blank lines are kept as they are; the empty text stays empty. |
| Blocks.BlocksToMd | main.py:193-374 | The render loop returns rstrip("\n".join(lines)) + "\n" and the union of the blocks' link sets. |
| Blocks.RenderChildren | main.py:208-213 | render_children gives empty output without has_children; otherwise it renders the stored children. |
| Blocks.RenderBlock | main.py:203-371 | One iteration appends the block's lines and unions its links, for every block type. |
| Blocks.RenderTextBlock | main.py:215-242 | Paragraph, heading, quote or callout: one line, then the child Markdown when it is not blank; links from the text and the children. |
| Blocks.RenderListBlock | main.py:244-274 | A list item or to-do: rstrip(prefix + " " + text), then the child Markdown indented by two spaces when it is not blank. |
| Blocks.RenderToggle | main.py:244-268 | A toggle: <details>, <summary>text</summary>, the child Markdown between blank lines when it is not blank, then </details>. |
| Blocks.RenderCodeBlock | main.py:276-287 | A code block: a fence with the language, the text and a closing fence, then the child Markdown. |
| Blocks.RenderPageLink | main.py:292-311 | link_to_page and child_page: a list entry to the page's placeholder; the id is collected when it is non-empty. |
| Blocks.RenderMedia | main.py:313-330 | Media: an image embed, or a link labelled with the caption or the type name. There is no line without a URL, and caption links are collected. |
| Blocks.RenderBookmark | main.py:332-339 | A bookmark: a link labelled with the caption, else the URL; no line without a URL. |
| Blocks.RenderTable | main.py:341-357 | A table emits <table>, each table_row's cells as <tr>/<td> lines in row-major order, then </table>, skipping non-row children. |
| Blocks.RenderRows | main.py:344-357 | The row loop produces exactly RowLines and RowLinks. |
| Blocks.RenderRow | main.py:349-355 | One row: <tr>, one <td>cell</td> per cell in order, </tr>; the cell links are collected. |
| Blocks.CellLinesClosed | main.py:349-355 | A row has one <td> line per cell, and the i-th holds the i-th cell's Markdown. |
| Blocks.RowLinesTwo | main.py:343-356 | Two table rows give <tr>, the first row's cells, </tr>, <tr>, the second row's cells, </tr>, in row-major order. |
| Blocks.RenderFallback | main.py:359-371 | Any other type (and a table_row outside a table): its rich text when not blank, then its children. |
| Blocks.LinkToPageUsesPlaceholder | main.py:292-303 | link_to_page links at most one page, and then its only line points at that page's placeholder. |
| Blocks.MdEndsWithOneNewline | main.py:373 | The Markdown ends in exactly one newline with no whitespace before it; an empty list renders "\n". |
| Blocks.LinesAppend | main.py:203-373 | Rendering is compositional over concatenated block lists, for both lines and links. |
| Blocks.LinkedMembers | main.py:203-374 | A page is in the linked set exactly when some block of the list links it. |
| Blocks.BlankParagraphKept | main.py:220-242 | A blank paragraph still contributes its empty line, followed by its child Markdown when that is not blank. |
| Blocks.HeadingMarker | main.py:225-227 | A heading's Markdown starts with as many '#' as its level, followed by a space or the final newline. |
| Blocks.ListItemMarker | main.py:248-270 | A list item's Markdown starts with "-", "1.", "- [x]" or "- [ ]"; a to-do starts with "- [x]" exactly when checked. |
| Blocks.DividerMd | main.py:289-290 | A divider renders as "---\n" whatever its children. |
| Blocks.ChildrenNotRendered | main.py:289-339 | Dividers, page links, child pages, media and bookmarks give the same lines and links whatever children they have. |
| Blocks.TableIgnoresHasChildren | main.py:341-344 | A table renders its stored children as rows whether or not has_children is set. |
| Blocks.PageLinksUsePlaceholders | main.py:292-311 | link_to_page and child_page link at most one page, and their line is a list entry pointing at that page's placeholder. |
| Fetch.FetchAllBlockChildren | main.py:382-401 | The results are the in-order concatenation of all responses up to the first one without has_more. The first request has no cursor; each later one carries the previous response's next_cursor. |
| Fetch.PaginateItems | main.py:389-401 | Following the cursors of a server-paged list yields exactly the list. |
| Fetch.PaginateCursors | main.py:389-398 | The k-th follow-up request resumes where page k+1 of the list starts. |
| Fetch.HydrateChildren | main.py:404-416 | Every block with children and an id gets its fetched children, hydrated recursively; blocks without an id are skipped. |
| Fetch.HydrateBlock | main.py:404-416 | Hydration keeps id, type and has_children, and stores children only under blocks with has_children and an id. |
| Fetch.ResponseStep | main.py:389-399 | The response after k cursor-following requests has more pages and carries the k-th cursor, and the next response is its rest. |
| Fetch.HydrateList | main.py:404-416 | Hydrating a list keeps its length, and every hydrated block is consistent. |
| Fetch.HydrateListElements | main.py:406-415 | The list is hydrated element by element, in order. |
| Fetch.HydrateServe | main.py:404-416 | Hydrating a tree served back by the API gives back every consistent tree unchanged. |
| Crawl.PageTitle | main.py:494-502 | The title is the stripped title text, or "Untitled" when it is missing or blank; it never starts or ends with whitespace. |
| Crawl.GetPageTitle | main.py:475-502 | None exactly when the page cannot be read (403/404). |
| Crawl.Forward | main.py:569 | Forward links are exactly the non-empty linked ids, lower-cased: each one comes from such an id, and every such id gives one. |
| Crawl.ExportPage | main.py:564-579 | One page is fetched, hydrated and rendered into the export record defined by ExportOf. |
| Crawl.Enqueue | main.py:582-584 | Only forward links neither visited nor skipped are appended, each once, after the existing queue. |
| Crawl.Crawl | main.py:547-584 | Terminates. Exports and skipped ids are disjoint. Every export is its readable page's record, and every skipped id is unreadable. Every seed and every forward link of an export ends up exported or skipped. A ghost order lists the exported and skipped ids, each exactly once, and each id in it is a seed or a forward link of a page exported earlier in the order. So exactly the ids reachable from the seeds are processed, each once. |
| Crawl.CrawlStep | main.py:547-584 | One iteration keeps the loop invariant and the processing-order invariant, and decreases the measure (unseen ids, queue length). |
| Crawl.ExportOf | main.py:564-579 | An export record holds the page's id and title, safe_filename of the two, and lower-case, non-empty forward links. |
| Crawl.CrawlStart | main.py:527-547 | The loop invariant holds for the seed queue with nothing visited, skipped or exported. |
| Crawl.CrawlDone | main.py:547-584 | With an empty queue, the invariant gives the crawl's postconditions. |
| Crawl.SeenStep | main.py:548-551 | Popping an already visited or skipped id keeps the invariant. |
| Crawl.SkipStep | main.py:554-558 | Skipping an unreadable id keeps the invariant. |
| Crawl.ExportStep | main.py:560-584 | Exporting a readable page and enqueueing its unseen forward links keeps the invariant. |
| Crawl.Progress | main.py:560-584 | Exporting a new id shrinks the set of universe ids not yet seen. |
| Crawl.SkipProgress | main.py:554-558 | Skipping a new id shrinks the set of universe ids not yet seen. |
| Crawl.DiscoveredGrows | main.py:573-584 | Every id discovered before an export is still discovered after it. |
| Crawl.PoppedDiscovered | main.py:548 | The id popped next was discovered from a seed or an export's forward link, and the exports are exactly the visited ids. |
| Crawl.OrderAdd | main.py:548-558 | Taking up a new, discovered id keeps every entry of the order distinct and found before. |
| Crawl.OrderExport | main.py:573-579 | Recording a new export keeps every entry of the order found before. |
| Crawl.OrderSkip | main.py:554-558 | Skipping the popped id appends it to the order and keeps the order invariant. |
| Crawl.OrderExportStep | main.py:560-579 | Exporting the popped id appends it to the order and keeps the order invariant. |
| Crawl.LoweredAppend | main.py:582-584 | Appending lower-case ids adds exactly those ids to the queue's id set. |
| Crawl.LinkMap | main.py:587 | The link map's keys are the exported ids, and each maps to its file name. |
| Crawl.Output | main.py:591-595 | The text written for a page: with rewriting on, its Markdown with the markers replaced, else its raw Markdown. Markdown in which no marker can start is written unchanged either way. WritePass and PlaceholderResolution characterise the rest. |
| Crawl.WritePass | main.py:590-595 | Each exported page's text is its raw Markdown with placeholders resolved, or untouched when rewriting is off. |
| Crawl.ExportGraph | main.py:519-595 | The crawl's guarantees, including the processing order, plus a link map over exactly the exported ids and one output per export. |
| Crawl.PlaceholderResolution | main.py:171-177 | With rewriting on, a canonical id's marker resolves to the page's own file when it was exported, and to notion.so otherwise. |

## Left out

- The Notion client (`notion.pages`, `notion.blocks`, `notion.databases`) is network I/O. It is replaced by values: a `Site` of readable pages, and paginated `Listing`s per block.
- `detect_id_type` and `get_database_pages` are left out. They sniff error messages and query databases over the network. The crawl takes its initial queue (`seeds`) as a parameter.
- Retry.WithRetry does not model the sleep itself or its float length `base_sleep * 2**i`. It records only the exponent `i`.
- `get_page_title` re-raises errors other than 403/404. The model only has readable pages and 403/404 ones. Any other error aborts the whole run in the source.
- Failures inside `fetch_all_block_children` and `hydrate_children` are not modelled. A 403/404 on a block listing, or an exhausted retry budget, aborts the whole run in the source. The model's listings always answer.
- File system effects are left out: `os.makedirs`, the written files, the `<!-- Exported from … -->` header, and `_INDEX.md`. `Crawl.Output` is the text before the header is prepended.
- `main` and `argparse` are command-line plumbing.
- `print` progress output is left out.
- `slugify` comes from a foreign library. It is a function parameter.
- The general regex engine is left out. Only the two UUID patterns and the placeholder pattern are modelled, as explicit scans.
- Text.SplitLines treats only '\n' as a line break. Python's `str.splitlines` also breaks on '\r', '\x0b', '\x0c', '\x1c'-'\x1e', '\x85', '\u2028' and '\u2029'.
- Text.LowerStr lower-cases ASCII letters only. Python's `str.lower` is Unicode-aware. Page ids and the placeholder pattern are ASCII.
- Fetch.HydrateChildren returns a new tree. The source stores `_children` into the block dictionaries in place; aliasing of those dictionaries is not modelled.
- The `link_map` parameter of `rich_text_to_md` and `blocks_to_md` is dropped, and so is `depth`. The source never reads them.
- Crawl.Enqueue appends the forward links in an arbitrary order (`:|`). The source iterates a Python set, whose order is unspecified.
- Crawl.WritePass takes the exports in an arbitrary order. The source iterates the `exports` dict, which keeps insertion order, so the files are written in crawl order. The model's order is harmless: each output depends only on its own record and the link map, and the result is a map.
