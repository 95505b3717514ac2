/** Worked instances of the migration: a playlist spread over three pages, and a
    small track list with one track that cannot be found. */
module Scenarios {
  import opened Options
  import Chunking
  import Pagination
  import Migration

  function FullPage(meta: Pagination.PlaylistMeta, n: nat): Pagination.Playlist
  {
    Pagination.Playlist(meta, seq(n, i => Pagination.Edge("track", "next")))
  }

  /** Pages of 50, 50 and 30 edges: three requests, the second and third with the
      cursor of the previous page's last edge, and 130 edges in all. */
  lemma ThreePages(base: string, playlistId: string, meta: Pagination.PlaylistMeta)
    ensures var pages := [FullPage(meta, 50), FullPage(meta, 50), FullPage(meta, 30)];
      var r := Pagination.Paginate(base, playlistId, None, "", pages);
      && r.Some?
      && r.value.urls == [Pagination.TracksUrl(base, playlistId),
                          Pagination.TracksUrl(base, playlistId) + "?cursor=next",
                          Pagination.TracksUrl(base, playlistId) + "?cursor=next"]
      && |r.value.playlist.edges| == 130
      && r.value.playlist.meta == meta
  {
    var p50, p30 := FullPage(meta, 50), FullPage(meta, 30);
    var pages := [p50, p50, p30];
    assert pages[1..] == [p50, p30] && pages[1..][1..] == [p30] && [p30][1..] == [];
    assert Pagination.FirstShort([p30]) == Some(0);
    assert Pagination.FirstShort([p50, p30]) == Some(1);
    assert Pagination.FirstShort(pages) == Some(2);
    Pagination.PaginateStops(base, playlistId, None, "", pages);
    Pagination.PaginateEdges(base, playlistId, None, "", pages);
    Pagination.PaginateUrls(base, playlistId, None, "", pages);
    Pagination.PaginateMeta(base, playlistId, None, "", pages);
    assert pages[..3] == pages;
    assert Pagination.AllEdges([p30]) == p30.edges + Pagination.AllEdges([]);
    assert Pagination.AllEdges([p50, p30]) == p50.edges + Pagination.AllEdges([p30]);
    assert Pagination.AllEdges(pages) == p50.edges + Pagination.AllEdges([p50, p30]);
    assert "?cursor=" + "next" == "?cursor=next";
    assert Pagination.RequestCursor("", pages, 1) == "next";
    assert Pagination.RequestCursor("", pages, 2) == "next";
    var url := Pagination.TracksUrl(base, playlistId);
    var urls := Pagination.Paginate(base, playlistId, None, "", pages).value.urls;
    assert url + "" == url;
    assert urls[0] == url && urls[1] == url + "?cursor=next" && urls[2] == url + "?cursor=next";
  }

  /** Three tracks of which the second is not found: one request with the two URIs
      of the tracks found, in track order. */
  lemma TwoOfThreeSent(playlistId: string)
    ensures Migration.AddRequests(playlistId, [Some(Migration.Hit("a", "A", "X")), None, Some(Migration.Hit("c", "C", "Z"))]) ==
      [Migration.AddRequest(playlistId, ["spotify:track:a", "spotify:track:c"])]
  {
    var h0, h2 := Some(Migration.Hit("a", "A", "X")), Some(Migration.Hit("c", "C", "Z"));
    var hits := [h0, None, h2];
    assert Chunking.Min(0 + Migration.ChunkSize, 3) == 3;
    assert hits[0..3] == hits;
    var batches: seq<seq<Option<Migration.Hit>>> := [hits];
    assert Chunking.ChunksFrom(hits, Migration.ChunkSize, 0 + Migration.ChunkSize) == [];
    assert Chunking.ChunksFrom(hits, Migration.ChunkSize, 0) == [hits[0..3]] + [];
    assert Chunking.ChunkList(hits, Migration.ChunkSize) == batches;
    assert batches[1..] == [];
    Uris3(h0, h2);
    assert Migration.Emit(playlistId, batches) ==
      Migration.BatchRequest(playlistId, hits) + Migration.Emit(playlistId, []);
  }

  lemma Uris3(h0: Option<Migration.Hit>, h2: Option<Migration.Hit>)
    requires h0 == Some(Migration.Hit("a", "A", "X")) && h2 == Some(Migration.Hit("c", "C", "Z"))
    ensures Migration.Uris([h0, None, h2]) == ["spotify:track:a", "spotify:track:c"]
  {
    var hits := [h0, None, h2];
    assert hits[..2] == [h0, None] && [h0, None][..1] == [h0] && [h0][..0] == [];
    assert Migration.TrackUri("a") == "spotify:track:a" && Migration.TrackUri("c") == "spotify:track:c";
    assert Migration.Uris([h0]) == ["spotify:track:a"];
    assert Migration.Uris([h0, None]) == ["spotify:track:a"];
  }

  /** The same three tracks leave one failed entry, for the second track. */
  lemma TwoOfThreeFailed()
    ensures Migration.Concat(Migration.FailedEntries(
      [Migration.Track("X", "A", None), Migration.Track("Y", "B", None), Migration.Track("Z", "C", None)],
      [Some(Migration.Hit("a", "A", "X")), None, Some(Migration.Hit("c", "C", "Z"))])) == "<li>Y - B</li>"
  {
    var h0, h2 := Some(Migration.Hit("a", "A", "X")), Some(Migration.Hit("c", "C", "Z"));
    var hits := [h0, None, h2];
    assert hits[..2] == [h0, None] && [h0, None][..1] == [h0] && [h0][..0] == [];
    var t0, t1, t2 := Migration.Track("X", "A", None), Migration.Track("Y", "B", None), Migration.Track("Z", "C", None);
    var ts := [t0, t1, t2];
    assert ts[..2] == [t0, t1] && [t0, t1][..1] == [t0] && [t0][..0] == [];
    var entry := Migration.FailedEntry(t1);
    assert entry == "<li>Y - B</li>";
    assert Migration.FailedEntries([t0], [h0]) == [];
    assert Migration.FailedEntries([t0, t1], [h0, None]) == [entry];
    assert Migration.FailedEntries(ts, hits) == [entry];
    assert [entry][..0] == [];
    assert Migration.Concat([entry]) == "" + entry;
  }
}
