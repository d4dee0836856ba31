/**
 * The crawl in export_graph: a FIFO worklist over page ids that exports each
 * reachable, accessible page once, then a second pass that resolves the
 * placeholders against the link map of exported files.
 */
module Crawl {
  import opened Wrappers
  import opened Text
  import opened PageIds
  import opened Blocks
  import opened Fetch
  import opened Placeholders
  import RichText

  /**
   * A page the integration can read: the plain text of its title property
   * (None when it has none) and the listing of its content blocks.
   */
  datatype RemotePage = RemotePage(titleText: Option<string>, listing: Listing<RemoteBlock>)

  /** The workspace as the crawl sees it: pages it can read, by lower-case id. */
  type Site = map<string, RemotePage>

  /** The title of a readable page: the stripped title text, or "Untitled". */
  function PageTitle(titleText: Option<string>): (title: string)
    ensures title != "" && !IsSpace(title[0]) && !IsSpace(title[|title| - 1])
    ensures titleText.Some? && !IsBlank(titleText.value) ==> title == Strip(titleText.value)
    ensures titleText.None? || IsBlank(titleText.value) ==> title == "Untitled"
  {
    var untitled := "Untitled";
    assert untitled[0] == 'U' && untitled[|untitled| - 1] == 'd';
    if titleText.Some? then
      var t := Strip(titleText.value);
      StripEmptyIffBlank(titleText.value);
      StripEdges(titleText.value);
      if t != "" then t else untitled
    else untitled
  }

  /** get_page_title: None exactly when the page cannot be read (403 or 404). */
  function GetPageTitle(site: Site, pid: string): (r: Option<string>)
    ensures r.None? <==> pid !in site
    ensures r.Some? ==> r.value == PageTitle(site[pid].titleText)
  {
    if pid in site then Some(PageTitle(site[pid].titleText)) else None
  }

  datatype PageExport = PageExport(
    pageId: string,
    title: string,
    filename: string,
    mdRaw: string,
    forwardLinks: set<string>)

  /** The linked ids, lower-cased, without empty ones. */
  function Forward(linked: set<string>): (fwd: set<string>)
    ensures forall x :: x in fwd ==> x != "" && LowerStr(x) == x
    ensures forall x :: x in linked && x != "" ==> LowerStr(x) in fwd
    ensures forall y :: y in fwd ==> exists x :: x in linked && x != "" && y == LowerStr(x)
  {
    var fwd := set x | x in linked && x != "" :: LowerStr(x);
    assert forall x :: x in fwd ==> LowerStr(x) == x by {
      forall x | x in fwd ensures LowerStr(x) == x {
        var y :| y in linked && y != "" && x == LowerStr(y);
        LowerStrIdempotent(y);
      }
    }
    fwd
  }

  /** The export record of a readable page. */
  function ExportOf(slugify: string -> string, pid: string, page: RemotePage): (e: PageExport)
    ensures e.pageId == pid && e.title == PageTitle(page.titleText)
    ensures e.filename == SafeFilename(slugify, e.title, pid)
    ensures forall x :: x in e.forwardLinks ==> x != "" && LowerStr(x) == x
  {
    var blocks := HydrateList(Items(page.listing));
    var title := PageTitle(page.titleText);
    PageExport(pid, title, SafeFilename(slugify, title, pid), Md(blocks), Forward(Linked(blocks)))
  }

  /** Fetch, hydrate and render one page, as the body of the crawl loop does. */
  method ExportPage(slugify: string -> string, pid: string, title: string, page: RemotePage) returns (e: PageExport)
    requires title == PageTitle(page.titleText)
    ensures e == ExportOf(slugify, pid, page)
  {
    var blocks, _ := FetchAllBlockChildren(page.listing);
    var hydrated := HydrateChildren(blocks);
    var render := BlocksToMd(hydrated);
    var forward := set x | x in render.linkedPages && x != "" :: LowerStr(x);
    var filename := SafeFilename(slugify, title, pid);
    e := PageExport(pid, title, filename, render.md, forward);
  }

  /** The ids a queue holds, lower-cased as they are when popped. */
  function Lowered(queue: seq<string>): set<string> {
    set x | x in queue :: LowerStr(x)
  }

  /** The record each readable page is exported as. */
  ghost function Expected(slugify: string -> string, site: Site): (planned: map<string, PageExport>)
    ensures planned.Keys == site.Keys
    ensures forall p :: p in planned ==> planned[p] == ExportOf(slugify, p, site[p])
  {
    map p | p in site :: ExportOf(slugify, p, site[p])
  }

  /** Every id the crawl can ever meet: the seeds and every forward link of an expected export. */
  ghost function Universe(seeds: seq<string>, planned: map<string, PageExport>): set<string> {
    Lowered(seeds) + (set p, x | p in planned && x in planned[p].forwardLinks :: x)
  }

  /** An id is discovered by a seed or by a forward link of an exported page. */
  ghost predicate Discovered(seeds: seq<string>, exports: map<string, PageExport>, p: string) {
    p in Lowered(seeds) || exists q :: q in exports && p in exports[q].forwardLinks
  }

  /**
   * The enqueue loop: the forward links neither visited nor skipped are
   * appended, each once, in the set's iteration order.
   */
  method Enqueue(queue: seq<string>, forward: set<string>, visited: set<string>, skipped: set<string>)
    returns (queue': seq<string>)
    ensures |queue'| >= |queue| && queue'[..|queue|] == queue
    ensures forall i :: |queue| <= i < |queue'| ==>
      queue'[i] in forward && queue'[i] !in visited && queue'[i] !in skipped
    ensures forall f :: f in forward && f !in visited && f !in skipped ==> f in queue'[|queue|..]
    ensures forall i, j :: |queue| <= i < j < |queue'| ==> queue'[i] != queue'[j]
  {
    queue' := queue;
    var rest := forward;
    while rest != {}
      invariant rest <= forward
      invariant |queue'| >= |queue| && queue'[..|queue|] == queue
      invariant forall i :: |queue| <= i < |queue'| ==>
        queue'[i] in forward - rest && queue'[i] !in visited && queue'[i] !in skipped
      invariant forall f :: f in forward - rest && f !in visited && f !in skipped ==> f in queue'[|queue|..]
      invariant forall i, j :: |queue| <= i < j < |queue'| ==> queue'[i] != queue'[j]
      decreases |rest|
    {
      var f :| f in rest;
      if f !in visited && f !in skipped {
        queue' := queue' + [f];
        assert queue'[|queue|..] == queue'[|queue|..|queue'| - 1] + [f];
      }
      rest := rest - {f};
    }
  }

  /** Every id in `ids` is discovered. */
  ghost predicate AllDiscovered(seeds: seq<string>, exports: map<string, PageExport>, ids: set<string>) {
    forall p :: p in ids ==> Discovered(seeds, exports, p)
  }

  /** Every exported record is the expected one. */
  ghost predicate ExportsAgree(planned: map<string, PageExport>, exports: map<string, PageExport>) {
    forall p :: p in exports ==> p in planned && exports[p] == planned[p]
  }

  /** Every exported record is the export of its readable page. */
  ghost predicate ExportsMatch(slugify: string -> string, site: Site, exports: map<string, PageExport>) {
    forall p :: p in exports ==> p in site && exports[p] == ExportOf(slugify, p, site[p])
  }

  /** Every forward link of an exported page lies in `seen`. */
  ghost predicate LinksWithin(exports: map<string, PageExport>, seen: set<string>) {
    forall p, q :: p in exports && q in exports[p].forwardLinks ==> q in seen
  }

  /** The ids seen or still queued. */
  ghost function Reached(visited: set<string>, skipped: set<string>, queue: seq<string>): set<string> {
    visited + skipped + Lowered(queue)
  }

  /**
   * The bookkeeping half of the loop invariant: exported pages are the
   * visited ones and carry their planned records; skipped pages are
   * unreadable; nothing is both; every id met lies in the universe.
   */
  ghost predicate FrameInv(planned: map<string, PageExport>, U: set<string>,
                           visited: set<string>, skipped: set<string>, queue: seq<string>,
                           exports: map<string, PageExport>)
  {
    && visited == exports.Keys
    && visited !! skipped
    && visited + skipped <= U
    && Lowered(queue) <= U
    && ExportsAgree(planned, exports)
    && (forall p :: p in skipped ==> p !in planned)
  }

  /**
   * The reachability half: every seed and every forward link of an export
   * has been reached, and every reached id was discovered.
   */
  ghost predicate ReachInv(seeds: seq<string>, exports: map<string, PageExport>, reached: set<string>) {
    && Lowered(seeds) <= reached
    && LinksWithin(exports, reached)
    && AllDiscovered(seeds, exports, reached)
  }

  /** The invariant of the crawl loop. */
  ghost predicate CrawlInv(seeds: seq<string>, planned: map<string, PageExport>, U: set<string>,
                           visited: set<string>, skipped: set<string>, queue: seq<string>,
                           exports: map<string, PageExport>)
  {
    FrameInv(planned, U, visited, skipped, queue, exports)
    && ReachInv(seeds, exports, Reached(visited, skipped, queue))
  }

  /**
   * export_graph's first pass: pop an id, lower-case it, skip it if already
   * seen, skip and remember it if unreadable, else export it and enqueue the
   * forward links not yet seen. The seeds are the ids the crawl starts from:
   * the root page, or the pages of the root database.
   */
  method Crawl(site: Site, seeds: seq<string>, slugify: string -> string)
    returns (exports: map<string, PageExport>, skipped: set<string>, ghost order: seq<string>)
    ensures exports.Keys !! skipped
    ensures ExportsMatch(slugify, site, exports)
    ensures forall p :: p in skipped ==> p !in site
    ensures Lowered(seeds) <= exports.Keys + skipped
    ensures LinksWithin(exports, exports.Keys + skipped)
    ensures AllDiscovered(seeds, exports, exports.Keys + skipped)
    ensures forall i, j :: 0 <= i < j < |order| ==> order[i] != order[j]
    ensures forall p :: p in order <==> p in exports.Keys + skipped
    ensures forall k :: 0 <= k < |order| ==> FoundBefore(seeds, exports, order, k)
  {
    var visited: set<string> := {};
    skipped := {};
    var queue: seq<string> := seeds;
    exports := map[];
    order := [];
    ghost var planned := Expected(slugify, site);
    ghost var U := Universe(seeds, planned);
    CrawlStart(seeds, planned);

    while queue != []
      invariant CrawlInv(seeds, planned, U, visited, skipped, queue, exports)
      invariant OrderInv(seeds, exports, visited + skipped, order)
      decreases |U - (visited + skipped)|, |queue|
    {
      visited, skipped, queue, exports, order :=
        CrawlStep(site, seeds, slugify, planned, U, visited, skipped, queue, exports, order);
    }
    CrawlDone(seeds, planned, U, visited, skipped, exports);
  }

  /** One iteration of the crawl loop. */
  method CrawlStep(site: Site, seeds: seq<string>, slugify: string -> string,
                   ghost planned: map<string, PageExport>, ghost U: set<string>,
                   visited: set<string>, skipped: set<string>, queue: seq<string>,
                   exports: map<string, PageExport>, ghost order: seq<string>)
    returns (visited': set<string>, skipped': set<string>, queue': seq<string>,
             exports': map<string, PageExport>, ghost order': seq<string>)
    requires planned == Expected(slugify, site)
    requires U == Universe(seeds, planned)
    requires queue != []
    requires CrawlInv(seeds, planned, U, visited, skipped, queue, exports)
    requires OrderInv(seeds, exports, visited + skipped, order)
    ensures CrawlInv(seeds, planned, U, visited', skipped', queue', exports')
    ensures OrderInv(seeds, exports', visited' + skipped', order')
    ensures |U - (visited' + skipped')| < |U - (visited + skipped)|
      || (visited' + skipped' == visited + skipped && |queue'| < |queue|)
  {
    var pid := LowerStr(queue[0]);
    if pid in visited || pid in skipped {
      SeenStep(seeds, planned, U, visited, skipped, queue, exports);
      return visited, skipped, queue[1..], exports, order;
    }
    var title := GetPageTitle(site, pid);
    if title.None? {
      SkipStep(seeds, planned, U, visited, skipped, queue, exports);
      SkipProgress(U, visited, skipped, queue);
      OrderSkip(seeds, planned, U, visited, skipped, queue, exports, order);
      return visited, skipped + {pid}, queue[1..], exports, order + [pid];
    }
    var e := ExportPage(slugify, pid, title.value, site[pid]);
    var rest := queue[1..];
    queue' := Enqueue(rest, e.forwardLinks, visited + {pid}, skipped);
    ExportStep(seeds, planned, U, visited, skipped, queue, exports, pid, e, rest, queue');
    Progress(U, visited, skipped, queue);
    OrderExportStep(seeds, planned, U, visited, skipped, queue, exports, order, e);
    order' := order + [pid];
    exports' := exports[pid := e];
    visited' := visited + {pid};
    skipped' := skipped;
  }

  /**
   * The id at order[k] is a seed or a forward link of a page exported earlier
   * in the order: processing follows links out of the seeds only.
   */
  ghost predicate FoundBefore(seeds: seq<string>, exports: map<string, PageExport>, order: seq<string>, k: int)
    requires 0 <= k < |order|
  {
    order[k] in Lowered(seeds)
    || exists j :: 0 <= j < k && order[j] in exports && order[k] in exports[order[j]].forwardLinks
  }

  /** `order` lists each processed id once, in the order the loop took them up. */
  ghost predicate OrderInv(seeds: seq<string>, exports: map<string, PageExport>, processed: set<string>, order: seq<string>) {
    && (forall i, j :: 0 <= i < j < |order| ==> order[i] != order[j])
    && (forall p :: p in order <==> p in processed)
    && (forall k :: 0 <= k < |order| ==> FoundBefore(seeds, exports, order, k))
  }

  /** Skipping the popped id appends it to the order. */
  lemma OrderSkip(seeds: seq<string>, planned: map<string, PageExport>, U: set<string>,
                  visited: set<string>, skipped: set<string>, queue: seq<string>,
                  exports: map<string, PageExport>, order: seq<string>)
    requires CrawlInv(seeds, planned, U, visited, skipped, queue, exports)
    requires OrderInv(seeds, exports, visited + skipped, order)
    requires queue != [] && LowerStr(queue[0]) !in visited + skipped
    ensures OrderInv(seeds, exports, visited + (skipped + {LowerStr(queue[0])}), order + [LowerStr(queue[0])])
  {
    var pid := LowerStr(queue[0]);
    PoppedDiscovered(seeds, planned, U, visited, skipped, queue, exports);
    OrderAdd(seeds, exports, visited + skipped, order, pid);
    assert visited + (skipped + {pid}) == visited + skipped + {pid};
  }

  /** Exporting the popped id appends it to the order. */
  lemma OrderExportStep(seeds: seq<string>, planned: map<string, PageExport>, U: set<string>,
                        visited: set<string>, skipped: set<string>, queue: seq<string>,
                        exports: map<string, PageExport>, order: seq<string>, e: PageExport)
    requires CrawlInv(seeds, planned, U, visited, skipped, queue, exports)
    requires OrderInv(seeds, exports, visited + skipped, order)
    requires queue != [] && LowerStr(queue[0]) !in visited + skipped
    ensures OrderInv(seeds, exports[LowerStr(queue[0]) := e], visited + {LowerStr(queue[0])} + skipped,
                     order + [LowerStr(queue[0])])
  {
    var pid := LowerStr(queue[0]);
    PoppedDiscovered(seeds, planned, U, visited, skipped, queue, exports);
    OrderAdd(seeds, exports, visited + skipped, order, pid);
    OrderExport(seeds, exports, visited + skipped + {pid}, order + [pid], pid, e);
    assert visited + {pid} + skipped == visited + skipped + {pid};
  }

  /** The id popped next was discovered, and the exports are the visited pages. */
  lemma PoppedDiscovered(seeds: seq<string>, planned: map<string, PageExport>, U: set<string>,
                         visited: set<string>, skipped: set<string>, queue: seq<string>,
                         exports: map<string, PageExport>)
    requires CrawlInv(seeds, planned, U, visited, skipped, queue, exports)
    requires queue != []
    ensures Discovered(seeds, exports, LowerStr(queue[0]))
    ensures exports.Keys == visited
  {
    PopFront(queue);
  }

  /** Taking up a new, discovered id keeps the order invariant. */
  lemma OrderAdd(seeds: seq<string>, exports: map<string, PageExport>, processed: set<string>,
                 order: seq<string>, pid: string)
    requires OrderInv(seeds, exports, processed, order)
    requires pid !in processed && exports.Keys <= processed
    requires Discovered(seeds, exports, pid)
    ensures OrderInv(seeds, exports, processed + {pid}, order + [pid])
  {
    var order' := order + [pid];
    forall k | 0 <= k < |order'| ensures FoundBefore(seeds, exports, order', k) {
      if k < |order| {
        assert order'[k] == order[k];
        assert FoundBefore(seeds, exports, order, k);
        if order[k] !in Lowered(seeds) {
          var j :| 0 <= j < k && order[j] in exports && order[k] in exports[order[j]].forwardLinks;
          assert order'[j] == order[j];
        }
      } else if pid !in Lowered(seeds) {
        var q :| q in exports && pid in exports[q].forwardLinks;
        assert q in order;
        var j :| 0 <= j < |order| && order[j] == q;
        assert order'[j] == q;
      }
    }
  }

  /** Recording a new export keeps the order invariant. */
  lemma OrderExport(seeds: seq<string>, exports: map<string, PageExport>, processed: set<string>,
                    order: seq<string>, pid: string, e: PageExport)
    requires OrderInv(seeds, exports, processed, order)
    requires pid !in exports
    ensures OrderInv(seeds, exports[pid := e], processed, order)
  {
    var exports' := exports[pid := e];
    forall k | 0 <= k < |order| ensures FoundBefore(seeds, exports', order, k) {
      assert FoundBefore(seeds, exports, order, k);
      if order[k] !in Lowered(seeds) {
        var j :| 0 <= j < k && order[j] in exports && order[k] in exports[order[j]].forwardLinks;
        assert order[j] in exports' && exports'[order[j]] == exports[order[j]];
      }
    }
  }

  lemma CrawlStart(seeds: seq<string>, planned: map<string, PageExport>)
    ensures CrawlInv(seeds, planned, Universe(seeds, planned), {}, {}, seeds, map[])
  {
    var none: map<string, PageExport> := map[];
    assert Reached({}, {}, seeds) == Lowered(seeds);
    assert AllDiscovered(seeds, none, Lowered(seeds));
  }

  lemma CrawlDone(seeds: seq<string>, planned: map<string, PageExport>, U: set<string>,
                  visited: set<string>, skipped: set<string>, exports: map<string, PageExport>)
    requires CrawlInv(seeds, planned, U, visited, skipped, [], exports)
    ensures visited == exports.Keys
    ensures exports.Keys !! skipped
    ensures ExportsAgree(planned, exports)
    ensures forall p :: p in skipped ==> p !in planned
    ensures Lowered(seeds) <= exports.Keys + skipped
    ensures LinksWithin(exports, exports.Keys + skipped)
    ensures AllDiscovered(seeds, exports, exports.Keys + skipped)
  {
    var empty: seq<string> := [];
    assert Lowered(empty) == {};
    assert Reached(visited, skipped, empty) == exports.Keys + skipped;
  }

  /** Popping an id already seen changes nothing but the queue. */
  lemma SeenStep(seeds: seq<string>, planned: map<string, PageExport>, U: set<string>,
                 visited: set<string>, skipped: set<string>, queue: seq<string>,
                 exports: map<string, PageExport>)
    requires CrawlInv(seeds, planned, U, visited, skipped, queue, exports)
    requires queue != [] && LowerStr(queue[0]) in visited + skipped
    ensures CrawlInv(seeds, planned, U, visited, skipped, queue[1..], exports)
  {
    PopFront(queue);
    assert Reached(visited, skipped, queue[1..]) == Reached(visited, skipped, queue);
  }

  /** An unreadable id moves from the queue to `skipped`, one more of the universe seen. */
  lemma SkipStep(seeds: seq<string>, planned: map<string, PageExport>, U: set<string>,
                 visited: set<string>, skipped: set<string>, queue: seq<string>,
                 exports: map<string, PageExport>)
    requires CrawlInv(seeds, planned, U, visited, skipped, queue, exports)
    requires queue != [] && LowerStr(queue[0]) !in visited + skipped && LowerStr(queue[0]) !in planned
    ensures CrawlInv(seeds, planned, U, visited, skipped + {LowerStr(queue[0])}, queue[1..], exports)
  {
    SkipFrame(planned, U, visited, skipped, queue, exports);
    SkipReach(seeds, exports, visited, skipped, queue);
  }

  lemma SkipFrame(planned: map<string, PageExport>, U: set<string>,
                  visited: set<string>, skipped: set<string>, queue: seq<string>,
                  exports: map<string, PageExport>)
    requires FrameInv(planned, U, visited, skipped, queue, exports)
    requires queue != [] && LowerStr(queue[0]) !in visited + skipped && LowerStr(queue[0]) !in planned
    ensures FrameInv(planned, U, visited, skipped + {LowerStr(queue[0])}, queue[1..], exports)
    ensures LowerStr(queue[0]) in U
  {
    PopFront(queue);
  }

  lemma SkipReach(seeds: seq<string>, exports: map<string, PageExport>,
                  visited: set<string>, skipped: set<string>, queue: seq<string>)
    requires ReachInv(seeds, exports, Reached(visited, skipped, queue))
    requires queue != []
    ensures ReachInv(seeds, exports, Reached(visited, skipped + {LowerStr(queue[0])}, queue[1..]))
  {
    PopFront(queue);
    assert Reached(visited, skipped + {LowerStr(queue[0])}, queue[1..]) == Reached(visited, skipped, queue);
  }

  /** Seeing the id at the head of the queue for the first time leaves less of the universe unseen. */
  lemma Progress(U: set<string>, visited: set<string>, skipped: set<string>, queue: seq<string>)
    requires queue != [] && Lowered(queue) <= U
    requires LowerStr(queue[0]) !in visited + skipped
    ensures |U - (visited + {LowerStr(queue[0])} + skipped)| < |U - (visited + skipped)|
  {
    var pid := LowerStr(queue[0]);
    PopFront(queue);
    SeeOneMore(U, visited + skipped, pid);
    assert visited + {pid} + skipped == visited + skipped + {pid};
  }

  /** Skipping the id at the head of the queue leaves less of the universe unseen. */
  lemma SkipProgress(U: set<string>, visited: set<string>, skipped: set<string>, queue: seq<string>)
    requires queue != [] && Lowered(queue) <= U
    requires LowerStr(queue[0]) !in visited + skipped
    ensures |U - (visited + (skipped + {LowerStr(queue[0])}))| < |U - (visited + skipped)|
  {
    var pid := LowerStr(queue[0]);
    PopFront(queue);
    SeeOneMore(U, visited + skipped, pid);
    assert visited + (skipped + {pid}) == visited + skipped + {pid};
  }

  lemma SeeOneMore(U: set<string>, seen: set<string>, pid: string)
    requires pid in U && pid !in seen
    ensures |U - (seen + {pid})| < |U - seen|
  {
    assert U - (seen + {pid}) == (U - seen) - {pid};
  }

  /** A readable id is exported; its unseen forward links join the queue. */
  lemma ExportStep(seeds: seq<string>, planned: map<string, PageExport>, U: set<string>,
                   visited: set<string>, skipped: set<string>, queue: seq<string>,
                   exports: map<string, PageExport>, pid: string, e: PageExport,
                   rest: seq<string>, queue': seq<string>)
    requires U == Universe(seeds, planned)
    requires CrawlInv(seeds, planned, U, visited, skipped, queue, exports)
    requires queue != [] && pid == LowerStr(queue[0]) && rest == queue[1..]
    requires pid !in visited + skipped && pid in planned && e == planned[pid]
    requires forall x :: x in e.forwardLinks ==> LowerStr(x) == x
    requires |queue'| >= |rest| && queue'[..|rest|] == rest
    requires forall i :: |rest| <= i < |queue'| ==>
      queue'[i] in e.forwardLinks && queue'[i] !in visited + {pid} && queue'[i] !in skipped
    requires forall f :: f in e.forwardLinks && f !in visited + {pid} && f !in skipped ==> f in queue'[|rest|..]
    ensures CrawlInv(seeds, planned, U, visited + {pid}, skipped, queue', exports[pid := e])
  {
    ExportFrame(seeds, planned, U, visited, skipped, queue, exports, pid, e, rest, queue');
    ExportReach(seeds, exports, visited, skipped, queue, pid, e, rest, queue');
  }

  lemma ExportFrame(seeds: seq<string>, planned: map<string, PageExport>, U: set<string>,
                    visited: set<string>, skipped: set<string>, queue: seq<string>,
                    exports: map<string, PageExport>, pid: string, e: PageExport,
                    rest: seq<string>, queue': seq<string>)
    requires U == Universe(seeds, planned)
    requires FrameInv(planned, U, visited, skipped, queue, exports)
    requires queue != [] && pid == LowerStr(queue[0]) && rest == queue[1..]
    requires pid !in visited + skipped && pid in planned && e == planned[pid]
    requires forall x :: x in e.forwardLinks ==> LowerStr(x) == x
    requires |queue'| >= |rest| && queue'[..|rest|] == rest
    requires forall i :: |rest| <= i < |queue'| ==> queue'[i] in e.forwardLinks
    ensures FrameInv(planned, U, visited + {pid}, skipped, queue', exports[pid := e])
  {
    PopFront(queue);
    ForwardInUniverse(seeds, planned, pid);
    QueueSets(visited, skipped, pid, queue, rest, queue', e.forwardLinks);
    var exports' := exports[pid := e];
    assert ExportsAgree(planned, exports');
  }

  lemma ExportReach(seeds: seq<string>, exports: map<string, PageExport>,
                    visited: set<string>, skipped: set<string>, queue: seq<string>,
                    pid: string, e: PageExport, rest: seq<string>, queue': seq<string>)
    requires ReachInv(seeds, exports, Reached(visited, skipped, queue))
    requires queue != [] && pid == LowerStr(queue[0]) && rest == queue[1..]
    requires pid !in exports
    requires forall x :: x in e.forwardLinks ==> LowerStr(x) == x
    requires |queue'| >= |rest| && queue'[..|rest|] == rest
    requires forall i :: |rest| <= i < |queue'| ==> queue'[i] in e.forwardLinks
    requires forall f :: f in e.forwardLinks && f !in visited + {pid} && f !in skipped ==> f in queue'[|rest|..]
    ensures ReachInv(seeds, exports[pid := e], Reached(visited + {pid}, skipped, queue'))
  {
    var reached := Reached(visited, skipped, queue);
    var added := Appended(rest, queue');
    QueueSets(visited, skipped, pid, queue, rest, queue', e.forwardLinks);
    ExportLinks(exports, pid, e, visited + {pid}, skipped, rest, queue');
    ExportDiscovered(seeds, exports, pid, e, reached, added);
  }

  /** The ids an enqueue appended to `rest`. */
  function Appended(rest: seq<string>, queue': seq<string>): set<string>
    requires |queue'| >= |rest|
  {
    set i | |rest| <= i < |queue'| :: queue'[i]
  }

  /** How popping one id and appending forward links changes the ids reached. */
  lemma QueueSets(visited: set<string>, skipped: set<string>, pid: string, queue: seq<string>,
                  rest: seq<string>, queue': seq<string>, fwd: set<string>)
    requires queue != [] && pid == LowerStr(queue[0]) && rest == queue[1..]
    requires |queue'| >= |rest| && queue'[..|rest|] == rest
    requires forall i :: |rest| <= i < |queue'| ==> queue'[i] in fwd
    requires forall x :: x in fwd ==> LowerStr(x) == x
    ensures Appended(rest, queue') <= fwd
    ensures Lowered(queue') == Lowered(rest) + Appended(rest, queue')
    ensures Reached(visited, skipped, queue) == visited + {pid} + skipped + Lowered(rest)
    ensures Reached(visited + {pid}, skipped, queue') == Reached(visited, skipped, queue) + Appended(rest, queue')
  {
    PopFront(queue);
    LoweredAppend(rest, queue');
  }

  /** The new export's forward links are reached after the enqueue. */
  lemma ExportLinks(exports: map<string, PageExport>, pid: string, e: PageExport,
                    visited: set<string>, skipped: set<string>, rest: seq<string>, queue': seq<string>)
    requires pid in visited
    requires LinksWithin(exports, visited + skipped + Lowered(rest))
    requires |queue'| >= |rest| && queue'[..|rest|] == rest
    requires forall f :: f in e.forwardLinks && f !in visited && f !in skipped ==> f in queue'[|rest|..]
    requires forall i :: |rest| <= i < |queue'| ==> queue'[i] in e.forwardLinks
    requires forall x :: x in e.forwardLinks ==> LowerStr(x) == x
    ensures LinksWithin(exports[pid := e], visited + skipped + Lowered(queue'))
  {
    LoweredAppend(rest, queue');
    var exports' := exports[pid := e];
    forall p, q | p in exports' && q in exports'[p].forwardLinks
      ensures q in visited + skipped + Lowered(queue')
    {
      if p != pid {
        assert p in exports && exports'[p] == exports[p];
        assert q in visited + skipped + Lowered(rest);
      } else if q !in visited && q !in skipped {
        var tail := queue'[|rest|..];
        var j :| 0 <= j < |tail| && tail[j] == q;
        assert queue'[|rest| + j] == q;
        assert q in Appended(rest, queue');
      }
    }
  }

  /** Everything seen or queued stays discovered, and the enqueued ids are discovered by the new export. */
  lemma ExportDiscovered(seeds: seq<string>, exports: map<string, PageExport>, pid: string, e: PageExport,
                         reached: set<string>, added: set<string>)
    requires AllDiscovered(seeds, exports, reached)
    requires added <= e.forwardLinks
    requires pid !in exports
    ensures AllDiscovered(seeds, exports[pid := e], reached + added)
  {
    DiscoveredGrows(seeds, exports, exports[pid := e], reached);
    forall p | p in added ensures Discovered(seeds, exports[pid := e], p) {
      assert p in exports[pid := e][pid].forwardLinks;
    }
  }

  lemma PopFront(queue: seq<string>)
    requires queue != []
    ensures Lowered(queue) == {LowerStr(queue[0])} + Lowered(queue[1..])
  {
    assert queue == [queue[0]] + queue[1..];
  }

  lemma ForwardInUniverse(seeds: seq<string>, planned: map<string, PageExport>, pid: string)
    requires pid in planned
    ensures planned[pid].forwardLinks <= Universe(seeds, planned)
  {
  }

  /** Adding exports keeps every discovered id discovered. */
  lemma DiscoveredGrows(seeds: seq<string>, exports: map<string, PageExport>, exports': map<string, PageExport>, ids: set<string>)
    requires forall q :: q in exports ==> q in exports' && exports'[q] == exports[q]
    requires AllDiscovered(seeds, exports, ids)
    ensures AllDiscovered(seeds, exports', ids)
  {
    forall p | p in ids ensures Discovered(seeds, exports', p) {
      if p !in Lowered(seeds) {
        var q :| q in exports && p in exports[q].forwardLinks;
        assert q in exports';
      }
    }
  }

  /** The link map: each exported page id to its file name. */
  function LinkMap(exports: map<string, PageExport>): (linkMap: map<string, string>)
    ensures linkMap.Keys == exports.Keys
    ensures forall p :: p in linkMap ==> linkMap[p] == exports[p].filename
  {
    map p | p in exports :: exports[p].filename
  }

  /**
   * With link rewriting on, a placeholder for a canonical id resolves to the
   * page's own file when the page was exported, and to notion.so otherwise
   * (a skipped page never yields a broken local link).
   */
  lemma PlaceholderResolution(slugify: string -> string, site: Site, exports: map<string, PageExport>, p: string)
    requires ExportsMatch(slugify, site, exports) && IsCanonical(p)
    ensures p in exports ==>
      ReplacePlaceholders(RichText.Placeholder(p), LinkMap(exports)) == "./" + exports[p].filename
    ensures p !in exports ==>
      ReplacePlaceholders(RichText.Placeholder(p), LinkMap(exports)) == NotionUrl(p)
  {
    var linkMap := LinkMap(exports);
    if p in exports {
      assert linkMap[p] == exports[p].filename != "";
      ResolvesToFile(p, linkMap);
    } else {
      ResolvesToNotion(p, linkMap);
    }
  }

  /** The text export_graph's second pass writes for a page. */
  function Output(e: PageExport, linkMap: map<string, string>, rewriteLinks: bool): (r: string)
    ensures Inert(e.mdRaw) ==> r == e.mdRaw
  {
    if rewriteLinks then
      if Inert(e.mdRaw) then InertUnchanged(e.mdRaw, linkMap); ReplacePlaceholders(e.mdRaw, linkMap)
      else ReplacePlaceholders(e.mdRaw, linkMap)
    else e.mdRaw
  }

  /** The second pass: every export's text, with placeholders resolved when rewriting links. */
  method WritePass(exports: map<string, PageExport>, linkMap: map<string, string>, rewriteLinks: bool)
    returns (outputs: map<string, string>)
    ensures outputs.Keys == exports.Keys
    ensures forall p :: p in outputs ==> outputs[p] == Output(exports[p], linkMap, rewriteLinks)
  {
    outputs := map[];
    var todo := exports.Keys;
    while todo != {}
      invariant todo <= exports.Keys
      invariant outputs.Keys == exports.Keys - todo
      invariant forall p :: p in outputs ==> outputs[p] == Output(exports[p], linkMap, rewriteLinks)
      decreases |todo|
    {
      var pid :| pid in todo;
      var md := exports[pid].mdRaw;
      if rewriteLinks {
        md := ReplacePlaceholders(md, linkMap);
      }
      outputs := outputs[pid := md];
      todo := todo - {pid};
    }
  }

  /** export_graph: crawl, build the link map, produce each page's text. */
  method ExportGraph(site: Site, seeds: seq<string>, slugify: string -> string, rewriteLinks: bool)
    returns (exports: map<string, PageExport>, skipped: set<string>,
             linkMap: map<string, string>, outputs: map<string, string>, ghost order: seq<string>)
    ensures exports.Keys !! skipped
    ensures ExportsMatch(slugify, site, exports)
    ensures forall p :: p in skipped ==> p !in site
    ensures Lowered(seeds) <= exports.Keys + skipped
    ensures LinksWithin(exports, exports.Keys + skipped)
    ensures AllDiscovered(seeds, exports, exports.Keys + skipped)
    ensures forall i, j :: 0 <= i < j < |order| ==> order[i] != order[j]
    ensures forall p :: p in order <==> p in exports.Keys + skipped
    ensures forall k :: 0 <= k < |order| ==> FoundBefore(seeds, exports, order, k)
    ensures linkMap == LinkMap(exports)
    ensures outputs.Keys == exports.Keys
    ensures forall p :: p in outputs ==> outputs[p] == Output(exports[p], linkMap, rewriteLinks)
  {
    exports, skipped, order := Crawl(site, seeds, slugify);
    linkMap := LinkMap(exports);
    outputs := WritePass(exports, linkMap, rewriteLinks);
  }

  /** Appended ids that are lower-case already enter the queue's id set as they are. */
  lemma LoweredAppend(queue: seq<string>, queue': seq<string>)
    requires |queue'| >= |queue| && queue'[..|queue|] == queue
    requires forall i :: |queue| <= i < |queue'| ==> LowerStr(queue'[i]) == queue'[i]
    ensures Lowered(queue') == Lowered(queue) + Appended(queue, queue')
  {
  }
}
