/** Fetching every track edge of a source playlist across cursor-paginated
    pages (`get_paginated_track_list`). The HTTP responses are an input:
    `pages[k]` is the `data.playlist` object of the k-th response. */
module Pagination {
  import opened Options

  /** A page holding exactly this many edges is taken to be followed by another. */
  const PageSize: nat := 50

  /** One track entry of a listing, with the pagination token that follows it. */
  datatype Edge = Edge(node: string, cursor: string)

  datatype PlaylistMeta = PlaylistMeta(id: string, title: string)

  /** A playlist object: its metadata and its `tracks.edges`. */
  datatype Playlist = Playlist(meta: PlaylistMeta, edges: seq<Edge>)

  /** A completed fetch: the assembled playlist and the URLs requested, in order. */
  datatype Fetch = Fetch(playlist: Playlist, urls: seq<string>)

  function TracksUrl(base: string, playlistId: string): string
  {
    base + "/playlists/" + playlistId + "/tracks"
  }

  /** The request URL; an empty cursor (absent or falsy) adds no query string. */
  function PageUrl(base: string, playlistId: string, cursor: string): (r: string)
    ensures |r| >= |TracksUrl(base, playlistId)| && r[..|TracksUrl(base, playlistId)|] == TracksUrl(base, playlistId)
    ensures |r| == |TracksUrl(base, playlistId)| <==> cursor == ""
  {
    TracksUrl(base, playlistId) + (if cursor != "" then "?cursor=" + cursor else "")
  }

  /** The first response supplies the whole playlist object; a later one only
      appends its edges to the playlist gathered so far. */
  function Accumulate(acc: Option<Playlist>, page: Playlist): (r: Playlist)
    ensures r.edges == EdgesSoFar(acc) + page.edges
    ensures r.meta == (if acc.Some? then acc.value.meta else page.meta)
  {
    match acc
    case None => page
    case Some(p) => p.(edges := p.edges + page.edges)
  }

  function Prefixed(urls: seq<string>, r: Option<Fetch>): Option<Fetch>
  {
    match r
    case None => None
    case Some(f) => Some(f.(urls := urls + f.urls))
  }

  /** The recursion of the source: request a page, merge it, and recurse with the
      last edge's cursor while the page is full. `None` when the responses run out
      before a page that is not full: the source would keep requesting. */
  function Paginate(base: string, playlistId: string, acc: Option<Playlist>,
                    cursor: string, pages: seq<Playlist>): (r: Option<Fetch>)
    ensures r.Some? ==> pages != [] && r.value.urls != [] && r.value.urls[0] == PageUrl(base, playlistId, cursor)
    decreases |pages|
  {
    if pages == [] then None
    else
      var url := PageUrl(base, playlistId, cursor);
      var edges := pages[0].edges;
      var merged := Accumulate(acc, pages[0]);
      if |edges| == PageSize then
        Prefixed([url], Paginate(base, playlistId, Some(merged), edges[|edges| - 1].cursor, pages[1..]))
      else
        Some(Fetch(merged, [url]))
  }

  /** Reference definition: the index of the first page that is not full. */
  function FirstShort(pages: seq<Playlist>): (r: Option<nat>)
    ensures r.Some? ==> r.value < |pages| && |pages[r.value].edges| != PageSize
    ensures forall j :: 0 <= j < |pages| && (r.None? || j < r.value) ==> |pages[j].edges| == PageSize
  {
    if pages == [] then None
    else if |pages[0].edges| != PageSize then Some(0)
    else
      match FirstShort(pages[1..])
      case None => None
      case Some(k) => Some(k + 1)
  }

  /** The edges of the given pages, concatenated in order. */
  function AllEdges(pages: seq<Playlist>): seq<Edge>
  {
    if pages == [] then [] else pages[0].edges + AllEdges(pages[1..])
  }

  function EdgesSoFar(acc: Option<Playlist>): seq<Edge>
  {
    match acc
    case None => []
    case Some(p) => p.edges
  }

  /** The cursor sent with the j-th request: the caller's for the first, and the
      cursor of the last edge of the previous page after that. */
  function RequestCursor(cursor: string, pages: seq<Playlist>, j: nat): string
    requires j <= |pages|
  {
    if j == 0 then cursor
    else
      var e := pages[j - 1].edges;
      if e == [] then "" else e[|e| - 1].cursor
  }

  /** The fetch completes exactly when some page is not full, and it then issues
      one request per page up to and including that page. */
  lemma {:induction false} PaginateStops(base: string, playlistId: string, acc: Option<Playlist>,
                                         cursor: string, pages: seq<Playlist>)
    ensures Paginate(base, playlistId, acc, cursor, pages).Some? <==> FirstShort(pages).Some?
    ensures Paginate(base, playlistId, acc, cursor, pages).Some? ==>
      |Paginate(base, playlistId, acc, cursor, pages).value.urls| == FirstShort(pages).value + 1
    decreases |pages|
  {
    if pages != [] {
      var edges := pages[0].edges;
      if |edges| == PageSize {
        PaginateStops(base, playlistId, Some(Accumulate(acc, pages[0])), edges[|edges| - 1].cursor, pages[1..]);
      }
    }
  }

  /** Between two requests the page just received was full, and the last request's
      page was not: another page is requested if and only if the current one holds
      exactly `PageSize` edges. */
  lemma ContinuesIffFull(base: string, playlistId: string, acc: Option<Playlist>,
                         cursor: string, pages: seq<Playlist>)
    requires Paginate(base, playlistId, acc, cursor, pages).Some?
    ensures var f := Paginate(base, playlistId, acc, cursor, pages).value;
      |f.urls| <= |pages| &&
      forall j :: 0 <= j < |f.urls| ==> (j + 1 < |f.urls| <==> |pages[j].edges| == PageSize)
  {
    PaginateStops(base, playlistId, acc, cursor, pages);
  }

  /** The assembled edges are the edges gathered before, followed by the edges of
      every fetched page in order. */
  lemma {:induction false} PaginateEdges(base: string, playlistId: string, acc: Option<Playlist>,
                                         cursor: string, pages: seq<Playlist>)
    requires FirstShort(pages).Some?
    ensures Paginate(base, playlistId, acc, cursor, pages).Some?
    ensures Paginate(base, playlistId, acc, cursor, pages).value.playlist.edges ==
      EdgesSoFar(acc) + AllEdges(pages[..FirstShort(pages).value + 1])
    decreases |pages|
  {
    var edges := pages[0].edges;
    var merged := Accumulate(acc, pages[0]);
    var k := FirstShort(pages).value;
    if |edges| == PageSize {
      var rest := pages[1..];
      PaginateEdges(base, playlistId, Some(merged), edges[|edges| - 1].cursor, rest);
      assert pages[..k + 1] == [pages[0]] + rest[..k];
      assert AllEdges(pages[..k + 1]) == edges + AllEdges(rest[..k]);
    } else {
      assert pages[..1] == [pages[0]];
      assert AllEdges(pages[..1]) == edges + AllEdges([]);
    }
  }

  /** The metadata comes from the first response only (or from the playlist the
      caller passed in); later pages contribute edges alone. */
  lemma {:induction false} PaginateMeta(base: string, playlistId: string, acc: Option<Playlist>,
                                        cursor: string, pages: seq<Playlist>)
    requires Paginate(base, playlistId, acc, cursor, pages).Some?
    ensures pages != []
    ensures Paginate(base, playlistId, acc, cursor, pages).value.playlist.meta ==
      (if acc.Some? then acc.value.meta else pages[0].meta)
    decreases |pages|
  {
    var edges := pages[0].edges;
    if |edges| == PageSize {
      PaginateMeta(base, playlistId, Some(Accumulate(acc, pages[0])), edges[|edges| - 1].cursor, pages[1..]);
    }
  }

  /** The j-th request goes to the tracks URL of the playlist, with `?cursor=`
      and the j-th request cursor appended when that cursor is not empty. */
  lemma {:induction false} PaginateUrls(base: string, playlistId: string, acc: Option<Playlist>,
                                        cursor: string, pages: seq<Playlist>)
    requires Paginate(base, playlistId, acc, cursor, pages).Some?
    ensures var f := Paginate(base, playlistId, acc, cursor, pages).value;
      |f.urls| <= |pages| &&
      forall j :: 0 <= j < |f.urls| ==> f.urls[j] == PageUrl(base, playlistId, RequestCursor(cursor, pages, j))
    decreases |pages|
  {
    var edges := pages[0].edges;
    if |edges| == PageSize {
      var next := edges[|edges| - 1].cursor;
      var rest := pages[1..];
      PaginateUrls(base, playlistId, Some(Accumulate(acc, pages[0])), next, rest);
      var f := Paginate(base, playlistId, acc, cursor, pages).value;
      forall j | 0 < j < |f.urls|
        ensures f.urls[j] == PageUrl(base, playlistId, RequestCursor(cursor, pages, j))
      {
        assert RequestCursor(next, rest, j - 1) == RequestCursor(cursor, pages, j);
      }
    }
  }

  lemma PrefixedTwice(a: seq<string>, b: seq<string>, r: Option<Fetch>)
    ensures Prefixed(a, Prefixed(b, r)) == Prefixed(a + b, r)
  {
    if r.Some? {
      assert a + (b + r.value.urls) == (a + b) + r.value.urls;
    }
  }

  lemma PrefixedNil(r: Option<Fetch>)
    ensures Prefixed([], r) == r
  {
    if r.Some? {
      assert [] + r.value.urls == r.value.urls;
    }
  }

  /** The fetch as a loop with an accumulator: it requests pages in order, merges
      each into the playlist gathered so far, and stops after the first page that
      is not full. */
  method FetchPlaylist(base: string, playlistId: string, initial: Option<Playlist>,
                       cursor: string, pages: seq<Playlist>) returns (r: Option<Fetch>)
    ensures r == Paginate(base, playlistId, initial, cursor, pages)
  {
    var acc := initial;
    var cur := cursor;
    var urls: seq<string> := [];
    var i := 0;
    assert pages[i..] == pages;
    PrefixedNil(Paginate(base, playlistId, acc, cur, pages));
    while i < |pages|
      invariant 0 <= i <= |pages|
      invariant Paginate(base, playlistId, initial, cursor, pages) ==
        Prefixed(urls, Paginate(base, playlistId, acc, cur, pages[i..]))
    {
      assert pages[i..][1..] == pages[i + 1..];
      var url := PageUrl(base, playlistId, cur);
      var edges := pages[i].edges;
      var merged := Accumulate(acc, pages[i]);
      if |edges| != PageSize {
        return Some(Fetch(merged, urls + [url]));
      }
      var next := edges[|edges| - 1].cursor;
      PrefixedTwice(urls, [url], Paginate(base, playlistId, Some(merged), next, pages[i + 1..]));
      acc, cur, urls := Some(merged), next, urls + [url];
      i := i + 1;
    }
    return None;
  }
}
