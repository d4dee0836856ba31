/**
 * Fetching a block's children page by page and hydrating a block tree with
 * them. The remote side is a value: each block carries the paginated listing
 * the API would return for its children.
 */
module Fetch {
  import opened Wrappers
  import opened Blocks

  /** The page size requested from the children endpoint. */
  const PageSize: nat := 100

  /**
   * The successive responses to a paginated listing: every response but the
   * last has has_more set, and carries the next_cursor it hands back.
   */
  datatype Listing<T> =
    | Final(results: seq<T>)
    | More(results: seq<T>, nextCursor: Option<string>, rest: Listing<T>)

  /** All results of a listing, in the order the pages deliver them. */
  function Items<T>(l: Listing<T>): seq<T> {
    match l
    case Final(rs) => rs
    case More(rs, _, rest) => rs + Items(rest)
  }

  /** The number of responses in a listing. */
  function PageCount<T>(l: Listing<T>): (n: nat)
    ensures n >= 1
  {
    match l
    case Final(_) => 1
    case More(_, _, rest) => 1 + PageCount(rest)
  }

  /** The next_cursor handed back by response k. */
  function NextCursor<T>(l: Listing<T>, k: nat): Option<string>
    requires k < PageCount(l) - 1
  {
    match l
    case More(_, c, rest) => if k == 0 then c else NextCursor(rest, k - 1)
  }

  /**
   * fetch_all_block_children: one request per response, the first without a
   * cursor and each later one with the cursor the previous response handed
   * back; the results are concatenated in order.
   */
  method FetchAllBlockChildren<T>(listing: Listing<T>) returns (results: seq<T>, cursors: seq<Option<string>>)
    ensures results == Items(listing)
    ensures |cursors| == PageCount(listing)
    ensures cursors[0] == None
    ensures forall k :: 0 < k < |cursors| ==> cursors[k] == NextCursor(listing, k - 1)
  {
    results := [];
    var cursor: Option<string> := None;
    cursors := [];
    var resp := listing;
    while true
      invariant results + Items(resp) == Items(listing)
      invariant |cursors| + PageCount(resp) == PageCount(listing)
      invariant cursors == [] ==> resp == listing && cursor == None
      invariant forall k :: 0 < k < |cursors| ==> cursors[k] == NextCursor(listing, k - 1)
      invariant cursors != [] ==> cursors[0] == None
      invariant cursors != [] ==> cursor == NextCursor(listing, |cursors| - 1)
      invariant ResponseAt(listing, |cursors|) == resp
      decreases PageCount(resp)
    {
      cursors := cursors + [cursor];
      match resp {
        case Final(rs) =>
          results := results + rs;
          return;
        case More(rs, next, rest) =>
          ResponseStep(listing, |cursors| - 1);
          results := results + rs;
          cursor := next;
          resp := rest;
      }
    }
  }

  /** The k-th response of a listing. */
  function ResponseAt<T>(l: Listing<T>, k: nat): Listing<T>
    requires k < PageCount(l)
    ensures PageCount(ResponseAt(l, k)) == PageCount(l) - k
  {
    if k == 0 then l else ResponseAt(l.rest, k - 1)
  }

  /** Response k+1 follows response k, which hands back the k-th next_cursor. */
  lemma {:induction false} ResponseStep<T>(l: Listing<T>, k: nat)
    requires k < PageCount(l) - 1
    ensures ResponseAt(l, k).More?
    ensures ResponseAt(l, k).nextCursor == NextCursor(l, k)
    ensures ResponseAt(l, k + 1) == ResponseAt(l, k).rest
    decreases k
  {
    if k > 0 {
      ResponseStep(l.rest, k - 1);
    }
  }

  // ---------------------------------------------------------------------
  // The server side of pagination, as a reference for the client loop.
  // ---------------------------------------------------------------------

  /**
   * How the API pages a result list: PageSize results per response, each
   * cursor an opaque token naming the position where the next page starts.
   */
  function Paginate<T>(xs: seq<T>, from: nat, cursorAt: nat -> string): (l: Listing<T>)
    requires from <= |xs|
    decreases |xs| - from
  {
    if |xs| - from <= PageSize then Final(xs[from..])
    else More(xs[from..from + PageSize], Some(cursorAt(from + PageSize)), Paginate(xs, from + PageSize, cursorAt))
  }

  /** Following the cursors through a paginated list yields exactly the list. */
  lemma {:induction false} PaginateItems<T>(xs: seq<T>, from: nat, cursorAt: nat -> string)
    requires from <= |xs|
    ensures Items(Paginate(xs, from, cursorAt)) == xs[from..]
    ensures PageCount(Paginate(xs, from, cursorAt)) == if |xs| - from <= PageSize then 1 else 1 + PageCount(Paginate(xs, from + PageSize, cursorAt))
    decreases |xs| - from
  {
    if |xs| - from > PageSize {
      PaginateItems(xs, from + PageSize, cursorAt);
      assert xs[from..from + PageSize] + xs[from + PageSize..] == xs[from..];
    }
  }

  /** The k-th request after the first resumes at position (k * PageSize) of the list. */
  lemma {:induction false} PaginateCursors<T>(xs: seq<T>, from: nat, cursorAt: nat -> string, k: nat)
    requires from <= |xs|
    requires k < PageCount(Paginate(xs, from, cursorAt)) - 1
    ensures NextCursor(Paginate(xs, from, cursorAt), k) == Some(cursorAt(from + (k + 1) * PageSize))
    decreases k
  {
    if k > 0 {
      PaginateCursors(xs, from + PageSize, cursorAt, k - 1);
    }
  }

  // ---------------------------------------------------------------------
  // Hydration.
  // ---------------------------------------------------------------------

  /**
   * A block as the API returns it: its own fields, and the listing the
   * children endpoint would return for its id.
   */
  datatype RemoteBlock = RemoteBlock(id: string, kind: Kind, hasChildren: bool, childListing: Listing<RemoteBlock>)

  function Size(r: RemoteBlock): nat {
    1 + SizeListing(r.childListing)
  }

  function SizeListing(l: Listing<RemoteBlock>): nat {
    match l
    case Final(rs) => SizeList(rs)
    case More(rs, _, rest) => SizeList(rs) + SizeListing(rest)
  }

  function SizeList(rs: seq<RemoteBlock>): nat {
    if rs == [] then 0 else SizeList(rs[..|rs| - 1]) + Size(rs[|rs| - 1])
  }

  lemma {:induction false} SizeListAppend(a: seq<RemoteBlock>, c: seq<RemoteBlock>)
    ensures SizeList(a + c) == SizeList(a) + SizeList(c)
    decreases |c|
  {
    if c == [] {
      assert a + c == a;
    } else {
      SizeListAppend(a, c[..|c| - 1]);
      assert (a + c)[..|a + c| - 1] == a + c[..|c| - 1];
    }
  }

  lemma {:induction false} SizeItems(l: Listing<RemoteBlock>)
    ensures SizeList(Items(l)) == SizeListing(l)
  {
    match l {
      case Final(_) =>
      case More(rs, _, rest) =>
        SizeItems(rest);
        SizeListAppend(rs, Items(rest));
    }
  }

  lemma {:induction false} SizeElement(rs: seq<RemoteBlock>, i: nat)
    requires i < |rs|
    ensures Size(rs[i]) <= SizeList(rs)
    decreases |rs|
  {
    if i < |rs| - 1 {
      SizeElement(rs[..|rs| - 1], i);
    }
  }

  /** A block with the children hydrate_children stores under `_children`. */
  function HydrateBlock(r: RemoteBlock): (b: Block)
    ensures b.id == r.id && b.kind == r.kind && b.hasChildren == r.hasChildren
    ensures Consistent(b)
    decreases Size(r), 0
  {
    var kids := if r.hasChildren && r.id != "" then
      (SizeItems(r.childListing); HydrateList(Items(r.childListing)))
    else [];
    Block(r.id, r.kind, r.hasChildren, kids)
  }

  /** hydrate_children over a list: one hydrated block per remote block, in order. */
  function HydrateList(rs: seq<RemoteBlock>): (bs: seq<Block>)
    ensures |bs| == |rs|
    ensures forall i :: 0 <= i < |bs| ==> Consistent(bs[i])
    decreases SizeList(rs), 1
  {
    if rs == [] then []
    else
      SizeElement(rs, |rs| - 1);
      HydrateList(rs[..|rs| - 1]) + [HydrateBlock(rs[|rs| - 1])]
  }

  /** Hydrating a list hydrates each of its blocks. */
  lemma {:induction false} HydrateListElements(rs: seq<RemoteBlock>)
    ensures forall i :: 0 <= i < |rs| ==> HydrateList(rs)[i] == HydrateBlock(rs[i])
  {
    if rs != [] {
      HydrateListElements(rs[..|rs| - 1]);
    }
  }

  /** Children are stored only under a block that has children and an id. */
  predicate Consistent(b: Block) {
    (b.children != [] ==> b.hasChildren && b.id != "") &&
    forall i :: 0 <= i < |b.children| ==> Consistent(b.children[i])
  }

  /**
   * hydrate_children: for every block that has children and an id, fetch its
   * children and hydrate them in turn; a block without an id is skipped.
   */
  method HydrateChildren(blocks: seq<RemoteBlock>) returns (hydrated: seq<Block>)
    ensures hydrated == HydrateList(blocks)
    decreases SizeList(blocks)
  {
    hydrated := [];
    for i := 0 to |blocks|
      invariant |hydrated| == i
      invariant forall j :: 0 <= j < i ==> hydrated[j] == HydrateBlock(blocks[j])
    {
      var r := blocks[i];
      var kids: seq<Block> := [];
      if r.hasChildren && r.id != "" {
        var fetched, _ := FetchAllBlockChildren(r.childListing);
        SizeItems(r.childListing);
        SizeElement(blocks, i);
        kids := HydrateChildren(fetched);
      }
      hydrated := hydrated + [Block(r.id, r.kind, r.hasChildren, kids)];
    }
    HydrateListElements(blocks);
  }

  /** A block as a server would serve it back: all children in one response. */
  function Serve(b: Block): (r: RemoteBlock)
    ensures r.id == b.id && r.kind == b.kind && r.hasChildren == b.hasChildren
  {
    RemoteBlock(b.id, b.kind, b.hasChildren, Final(ServeList(b.children)))
  }

  function ServeList(bs: seq<Block>): (rs: seq<RemoteBlock>)
    ensures |rs| == |bs|
    ensures forall i :: 0 <= i < |bs| ==> rs[i] == Serve(bs[i])
  {
    if bs == [] then [] else ServeList(bs[..|bs| - 1]) + [Serve(bs[|bs| - 1])]
  }

  /** Hydrating a served tree gives back every consistent tree unchanged. */
  lemma {:induction false} HydrateServe(b: Block)
    requires Consistent(b)
    ensures HydrateBlock(Serve(b)) == b
  {
    var r := Serve(b);
    if b.hasChildren && b.id != "" {
      var kids := HydrateList(ServeList(b.children));
      HydrateListElements(ServeList(b.children));
      forall i | 0 <= i < |b.children| ensures kids[i] == b.children[i] {
        HydrateServe(b.children[i]);
      }
      assert kids == b.children;
    } else {
      assert b.children == [];
    }
  }
}
