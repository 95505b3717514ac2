/** Matching the source tracks on the destination catalogue and writing the
    matches to the destination playlist in batches (`add_tracks_to_spotify_playlist`).
    The search endpoint is an oracle (one answer per track, in processing order);
    the add-to-playlist POSTs are returned as a sequence of requests. */
module Migration {
  import opened Options
  import Chunking

  /** Tracks are matched and written in batches of this size. */
  const ChunkSize: nat := 100
  const SearchType: string := "track"
  const SearchLimit: nat := 1

  datatype Translation = Translation(artist: string, title: string)

  /** A track of the migration list; `translation` is the matched destination track. */
  datatype Track = Track(artist: string, title: string, translation: Option<Translation>)

  /** The first item of a search answer: its id, its name and its first artist's name. */
  datatype Hit = Hit(id: string, name: string, artist: string)

  /** The parameters of one search request. */
  datatype SearchRequest = SearchRequest(q: string, kind: string, limit: nat)

  /** The body of one add-tracks POST to a destination playlist. */
  datatype AddRequest = AddRequest(playlistId: string, uris: seq<string>)

  /** The search for a track asks for one track matching "title - artist". */
  function SearchFor(t: Track): SearchRequest
  {
    SearchRequest(t.title + " - " + t.artist, SearchType, SearchLimit)
  }

  function TrackUri(id: string): string
  {
    "spotify:track:" + id
  }

  /** The display line recorded for a track that could not be found. */
  function FailedEntry(t: Track): string
  {
    "<li>" + t.artist + " - " + t.title + "</li>"
  }

  /** A found track takes the artist and name of the first result as its
      translation; a track not found is left as it was. */
  function Translate(t: Track, hit: Option<Hit>): Track
  {
    match hit
    case None => t
    case Some(h) => t.(translation := Some(Translation(h.artist, h.name)))
  }

  /** Progress after `count` of `total` tracks, in percent, in exact arithmetic. */
  function Percent(count: nat, total: nat): real
    requires total > 0
  {
    (count as real) * 100.0 / (total as real)
  }

  function UriOf(hit: Option<Hit>): seq<string>
  {
    match hit
    case None => []
    case Some(h) => [TrackUri(h.id)]
  }

  /** The URIs of the found tracks, in track order. */
  function Uris(hits: seq<Option<Hit>>): seq<string>
  {
    if hits == [] then [] else Uris(hits[..|hits| - 1]) + UriOf(hits[|hits| - 1])
  }

  /** The number of tracks not found. */
  function Misses(hits: seq<Option<Hit>>): nat
  {
    if hits == [] then 0 else Misses(hits[..|hits| - 1]) + (if hits[|hits| - 1].None? then 1 else 0)
  }

  /** One failed-track entry per track not found, in track order. */
  function FailedEntries(ts: seq<Track>, hits: seq<Option<Hit>>): seq<string>
    requires |ts| == |hits|
  {
    if ts == [] then []
    else
      FailedEntries(ts[..|ts| - 1], hits[..|hits| - 1]) +
      (if hits[|hits| - 1].None? then [FailedEntry(ts[|ts| - 1])] else [])
  }

  function Concat(ss: seq<string>): string
  {
    if ss == [] then "" else Concat(ss[..|ss| - 1]) + ss[|ss| - 1]
  }

  /** The requests a batch produces: one holding its URIs if it has any, none otherwise. */
  function BatchRequest(playlistId: string, batch: seq<Option<Hit>>): (r: seq<AddRequest>)
    ensures |r| <= 1 && AllUris(r) == Uris(batch)
    ensures forall rq :: rq in r ==> rq.playlistId == playlistId && rq.uris != []
  {
    if Uris(batch) == [] then [] else [AddRequest(playlistId, Uris(batch))]
  }

  /** The requests of a sequence of batches, batch by batch. */
  function Emit(playlistId: string, batches: seq<seq<Option<Hit>>>): seq<AddRequest>
  {
    if batches == [] then [] else BatchRequest(playlistId, batches[0]) + Emit(playlistId, batches[1..])
  }

  /** The add-requests of a whole migration: the tracks are chunked by 100 first. */
  function AddRequests(playlistId: string, hits: seq<Option<Hit>>): seq<AddRequest>
  {
    Emit(playlistId, Chunking.ChunkList(hits, ChunkSize))
  }

  /** All URIs sent, over all requests, in order. */
  function AllUris(requests: seq<AddRequest>): seq<string>
  {
    if requests == [] then [] else requests[0].uris + AllUris(requests[1..])
  }

  // ---------------------------------------------------------------------------
  // Progress

  /** Progress lies between 0 and 100 and reaches 100 exactly after the last track. */
  lemma PercentBounds(count: nat, total: nat)
    requires 0 < total && count <= total
    ensures 0.0 <= Percent(count, total) <= 100.0
    ensures Percent(count, total) == 100.0 <==> count == total
  {
    var t := total as real;
    var p := Percent(count, total);
    assert p * t == (count as real) * 100.0;
    if p > 100.0 {
      MulStrict(100.0, p, t);
    }
    if count == total {
      assert p * t == 100.0 * t;
    }
    if count < total {
      assert (count as real) * 100.0 < 100.0 * t;
      if p >= 100.0 {
        MulMono(100.0, p, t);
      }
    }
  }

  /** Progress is positive once a track has been processed. */
  lemma PercentPositive(count: nat, total: nat)
    requires 0 < count && 0 < total
    ensures Percent(count, total) > 0.0
  {
  }

  /** The progress shown after a track lies in (0, 100] and is 100 exactly after the last one. */
  lemma PercentShown(count: nat, total: nat)
    requires 0 < count <= total
    ensures 0.0 < Percent(count, total) <= 100.0 && (Percent(count, total) == 100.0 <==> count == total)
  {
    PercentBounds(count, total);
    PercentPositive(count, total);
  }

  lemma MulStrict(a: real, b: real, t: real)
    requires t > 0.0 && a < b
    ensures a * t < b * t
  {
  }

  lemma MulMono(a: real, b: real, t: real)
    requires t > 0.0 && a <= b
    ensures a * t <= b * t
  {
  }

  /** Processing more tracks never lowers the progress. */
  lemma PercentMonotone(k: nat, k': nat, total: nat)
    requires 0 < total && k <= k'
    ensures Percent(k, total) <= Percent(k', total)
  {
    var t := total as real;
    assert Percent(k', total) - Percent(k, total) == ((k' - k) as real) * 100.0 / t;
  }

  // ---------------------------------------------------------------------------
  // Matches and failures

  lemma {:induction false} UrisAppend(a: seq<Option<Hit>>, b: seq<Option<Hit>>)
    ensures Uris(a + b) == Uris(a) + Uris(b)
    decreases |b|
  {
    if b == [] {
      assert a + b == a;
    } else {
      var b' := b[..|b| - 1];
      assert (a + b)[..|a + b| - 1] == a + b';
      UrisAppend(a, b');
    }
  }

  /** Every track is either found (one URI) or missed. */
  lemma {:induction false} UrisMisses(hits: seq<Option<Hit>>)
    ensures |Uris(hits)| + Misses(hits) == |hits|
    decreases |hits|
  {
    if hits != [] {
      UrisMisses(hits[..|hits| - 1]);
    }
  }

  /** Exactly one failed-track entry per track not found. */
  lemma {:induction false} FailedEntriesCount(ts: seq<Track>, hits: seq<Option<Hit>>)
    requires |ts| == |hits|
    ensures |FailedEntries(ts, hits)| == Misses(hits)
    decreases |ts|
  {
    if ts != [] {
      FailedEntriesCount(ts[..|ts| - 1], hits[..|hits| - 1]);
    }
  }

  lemma {:induction false} AllUrisAppend(a: seq<AddRequest>, b: seq<AddRequest>)
    ensures AllUris(a + b) == AllUris(a) + AllUris(b)
  {
    if a == [] {
      assert a + b == b;
    } else {
      assert (a + b)[1..] == a[1..] + b;
      AllUrisAppend(a[1..], b);
    }
  }

  /** The requests of a sequence of batches carry exactly the URIs of its found
      tracks, in order. */
  lemma {:induction false} EmitCarriesUris(playlistId: string, batches: seq<seq<Option<Hit>>>)
    ensures AllUris(Emit(playlistId, batches)) == Uris(Chunking.Flatten(batches))
  {
    if batches != [] {
      var head := BatchRequest(playlistId, batches[0]);
      EmitCarriesUris(playlistId, batches[1..]);
      AllUrisAppend(head, Emit(playlistId, batches[1..]));
      UrisAppend(batches[0], Chunking.Flatten(batches[1..]));
      assert AllUris(head) == Uris(batches[0]) by {
        if head != [] {
          assert head[1..] == [];
        }
      }
    }
  }

  /** The add-requests of a migration carry the URI of every found track, in
      track order, and nothing else. */
  lemma RequestsCarryMatches(playlistId: string, hits: seq<Option<Hit>>)
    ensures AllUris(AddRequests(playlistId, hits)) == Uris(hits)
  {
    EmitCarriesUris(playlistId, Chunking.ChunkList(hits, ChunkSize));
    Chunking.ChunkFlatten(hits, ChunkSize);
  }

  /** Conservation: URIs sent plus failed entries recorded equals the number of tracks. */
  lemma Conservation(playlistId: string, ts: seq<Track>, hits: seq<Option<Hit>>)
    requires |ts| == |hits|
    ensures |AllUris(AddRequests(playlistId, hits))| + |FailedEntries(ts, hits)| == |ts|
  {
    RequestsCarryMatches(playlistId, hits);
    UrisMisses(hits);
    FailedEntriesCount(ts, hits);
  }

  lemma EmitCons(playlistId: string, batch: seq<Option<Hit>>, rest: seq<seq<Option<Hit>>>)
    ensures Emit(playlistId, [batch] + rest) == BatchRequest(playlistId, batch) + Emit(playlistId, rest)
  {
    assert ([batch] + rest)[1..] == rest;
  }

  lemma {:induction false} EmitAppend(playlistId: string, a: seq<seq<Option<Hit>>>, b: seq<seq<Option<Hit>>>)
    ensures Emit(playlistId, a + b) == Emit(playlistId, a) + Emit(playlistId, b)
  {
    if a == [] {
      assert a + b == b;
    } else {
      assert (a + b)[1..] == a[1..] + b;
      EmitAppend(playlistId, a[1..], b);
    }
  }

  /** Batch c contributes its own requests, and nothing else, between those of the
      batches before it and those of the batches after it: exactly one request with
      exactly its URIs when it has a match, none when it has not. */
  lemma BatchContribution(playlistId: string, batches: seq<seq<Option<Hit>>>, c: nat)
    requires c < |batches|
    ensures Emit(playlistId, batches) ==
      Emit(playlistId, batches[..c]) + BatchRequest(playlistId, batches[c]) + Emit(playlistId, batches[c + 1..])
  {
    assert batches == batches[..c] + ([batches[c]] + batches[c + 1..]);
    EmitAppend(playlistId, batches[..c], [batches[c]] + batches[c + 1..]);
    assert ([batches[c]] + batches[c + 1..])[1..] == batches[c + 1..];
  }

  lemma {:induction false} UrisBound(hits: seq<Option<Hit>>)
    ensures |Uris(hits)| <= |hits|
    decreases |hits|
  {
    if hits != [] {
      UrisBound(hits[..|hits| - 1]);
    }
  }

  /** Of batches no longer than n, each request goes to the playlist, holds between
      1 and n URIs, and there are at most as many requests as batches. */
  lemma {:induction false} EmitShape(playlistId: string, batches: seq<seq<Option<Hit>>>, n: nat)
    requires forall j :: 0 <= j < |batches| ==> |batches[j]| <= n
    ensures |Emit(playlistId, batches)| <= |batches|
    ensures forall r :: r in Emit(playlistId, batches) ==> r.playlistId == playlistId && 0 < |r.uris| <= n
  {
    if batches != [] {
      EmitShape(playlistId, batches[1..], n);
      UrisBound(batches[0]);
    }
  }

  /** A migration sends at most ceil(|hits| / 100) requests, each to the given
      playlist with between 1 and 100 URIs. */
  lemma RequestsShape(playlistId: string, hits: seq<Option<Hit>>)
    ensures |AddRequests(playlistId, hits)| <= (|hits| + ChunkSize - 1) / ChunkSize
    ensures forall r :: r in AddRequests(playlistId, hits) ==>
      r.playlistId == playlistId && 0 < |r.uris| <= ChunkSize
  {
    Chunking.ChunkSizes(hits, ChunkSize);
    Chunking.ChunkCount(hits, ChunkSize);
    EmitShape(playlistId, Chunking.ChunkList(hits, ChunkSize), ChunkSize);
  }

  /** With no track found there is no add-request at all. */
  lemma NoMatchNoRequest(playlistId: string, hits: seq<Option<Hit>>)
    requires forall i :: 0 <= i < |hits| ==> hits[i].None?
    ensures AddRequests(playlistId, hits) == []
  {
    NoMatchNoUris(hits);
    RequestsCarryMatches(playlistId, hits);
    RequestsShape(playlistId, hits);
  }

  lemma {:induction false} NoMatchNoUris(hits: seq<Option<Hit>>)
    requires forall i :: 0 <= i < |hits| ==> hits[i].None?
    ensures Uris(hits) == []
    decreases |hits|
  {
    if hits != [] {
      NoMatchNoUris(hits[..|hits| - 1]);
    }
  }

  // ---------------------------------------------------------------------------
  // The migration state and the loop that drives it

  /** The process-wide migration state: the track list being migrated, the
      progress percentage and the failed-tracks display string. */
  class MigrationState {
    var tracks: seq<Track>
    var progress: real
    var failedTracks: string

    constructor (tracks: seq<Track>, progress: real, failedTracks: string)
      ensures this.tracks == tracks && this.progress == progress && this.failedTracks == failedTracks
    {
      this.tracks := tracks;
      this.progress := progress;
      this.failedTracks := failedTracks;
    }

    /** Processes track i, the (i+1)-th of the list, given the search answer for it:
        sets the progress, records the search, and either translates the track and
        returns its URI or records it as failed. */
    method ProcessTrack(i: nat, hit: Option<Hit>) returns (search: SearchRequest, uri: Option<string>)
      requires i < |tracks|
      modifies this
      ensures progress == Percent(i + 1, |old(tracks)|)
      ensures search == SearchFor(old(tracks)[i])
      ensures tracks == old(tracks)[i := Translate(old(tracks)[i], hit)]
      ensures uri == (if hit.Some? then Some(TrackUri(hit.value.id)) else None)
      ensures hit.None? ==> failedTracks == old(failedTracks) + FailedEntry(old(tracks)[i])
      ensures hit.Some? ==> failedTracks == old(failedTracks)
    {
      progress := Percent(i + 1, |tracks|);
      search := SearchFor(tracks[i]);
      match hit
      case Some(h) =>
        uri := Some(TrackUri(h.id));
        tracks := tracks[i := tracks[i].(translation := Some(Translation(h.artist, h.name)))];
      case None =>
        uri := None;
        failedTracks := failedTracks + FailedEntry(tracks[i]);
    }

    /** Processes the `size` tracks of one chunk, starting at index `start`, and
        collects the URIs of those found. The progress afterwards is that of the
        chunk's last track: it lies in (0, 100] and is 100 exactly when the chunk
        ends the list. */
    method ProcessChunk(ghost tracks0: seq<Track>, ghost failed0: string,
                        hits: seq<Option<Hit>>, start: nat, size: nat)
      returns (searches: seq<SearchRequest>, trackIds: seq<string>)
      requires start + size <= |hits|
      requires Matched(tracks, failedTracks, tracks0, failed0, hits, start)
      modifies this
      ensures Matched(tracks, failedTracks, tracks0, failed0, hits, start + size)
      ensures size == 0 ==> progress == old(progress)
      ensures size > 0 ==> 0.0 < progress <= 100.0 && (progress == 100.0 <==> start + size == |tracks0|)
      ensures searches == SearchesFor(tracks0[start..start + size])
      ensures trackIds == Uris(hits[start..start + size])
    {
      searches, trackIds := [], [];
      var count := start;
      while count < start + size
        invariant start <= count <= start + size
        invariant Matched(tracks, failedTracks, tracks0, failed0, hits, count)
        invariant count == start ==> progress == old(progress)
        invariant count > start ==> 0.0 < progress <= 100.0 && (progress == 100.0 <==> count == |tracks0|)
        invariant searches == SearchesFor(tracks0[start..count])
        invariant trackIds == UrisBetween(hits, start, count)
      {
        ghost var tracksBefore, failedBefore, searchesBefore, idsBefore := tracks, failedTracks, searches, trackIds;
        var search, uri := ProcessTrack(count, hits[count]);
        TrackDone(tracks0, failed0, hits, count, tracksBefore, failedBefore, tracks, failedTracks, progress);
        count := count + 1;
        searches := searches + [search];
        if uri.Some? {
          trackIds := trackIds + [uri.value];
        }
        TrackRecorded(tracks0, hits, start, count - 1, searchesBefore, search, searches, idsBefore, uri, trackIds);
      }
      UrisBetweenSlice(hits, start, start + size);
    }

    /** One round of the chunk loop: processes the tracks of chunk c, which start
        at index `count`, then sends the add-request for its matches, if any. */
    method MigrateChunk(ghost tracks0: seq<Track>, ghost failed0: string,
                        playlistId: string, hits: seq<Option<Hit>>, chunks: seq<seq<Track>>, c: nat,
                        count: nat, searches: seq<SearchRequest>, requests: seq<AddRequest>)
      returns (count': nat, searches': seq<SearchRequest>, requests': seq<AddRequest>)
      requires |tracks0| == |hits| && c < |chunks|
      requires chunks[c..] == Chunking.ChunksFrom(tracks0, ChunkSize, count)
      requires Matched(tracks, failedTracks, tracks0, failed0, hits, count)
      requires searches == SearchesFor(tracks0[..count])
      requires AddRequests(playlistId, hits) ==
        requests + Emit(playlistId, Chunking.ChunksFrom(hits, ChunkSize, count))
      modifies this
      ensures count' == count + |chunks[c]|
      ensures chunks[c + 1..] == Chunking.ChunksFrom(tracks0, ChunkSize, count')
      ensures Matched(tracks, failedTracks, tracks0, failed0, hits, count')
      ensures count' > 0 && (progress == 100.0 <==> count' == |tracks0|)
      ensures searches' == SearchesFor(tracks0[..count'])
      ensures AddRequests(playlistId, hits) ==
        requests' + Emit(playlistId, Chunking.ChunksFrom(hits, ChunkSize, count'))
    {
      var chunk := chunks[c];
      ChunkStep(chunks, c, tracks0, count);
      var chunkSearches, trackIds := ProcessChunk(tracks0, failed0, hits, count, |chunk|);
      count' := count + |chunk|;
      searches' := searches + chunkSearches;
      requests' := requests;
      if trackIds != [] {
        requests' := requests' + [AddRequest(playlistId, trackIds)];
      }
      RoundDone(playlistId, tracks0, hits, chunks, c, count, searches, requests, chunkSearches, trackIds,
                count', searches', requests');
    }

    /** Migrates the whole track list: chunks it by 100, processes each track of each
        chunk in order, and emits one add-request per chunk that has a match. */
    method AddTracks(playlistId: string, hits: seq<Option<Hit>>)
      returns (searches: seq<SearchRequest>, requests: seq<AddRequest>)
      requires |hits| == |tracks|
      modifies this
      ensures |tracks| == |old(tracks)|
      ensures forall i :: 0 <= i < |tracks| ==> tracks[i] == Translate(old(tracks)[i], hits[i])
      ensures failedTracks == old(failedTracks) + Concat(FailedEntries(old(tracks), hits))
      ensures progress == if old(tracks) == [] then old(progress) else 100.0
      ensures |searches| == |old(tracks)|
      ensures forall i :: 0 <= i < |searches| ==> searches[i] == SearchFor(old(tracks)[i])
      ensures requests == AddRequests(playlistId, hits)
    {
      ghost var tracks0, failed0, progress0 := tracks, failedTracks, progress;
      var chunks := Chunking.ChunkList(tracks, ChunkSize);
      var total := |tracks|;
      var count: nat := 0;
      searches, requests := [], [];
      assert tracks == PartlyTranslated(tracks0, hits, 0);
      assert searches == SearchesFor(tracks0[..0]);
      var c := 0;
      while c < |chunks|
        invariant 0 <= c <= |chunks| && total == |tracks0|
        invariant chunks[c..] == Chunking.ChunksFrom(tracks0, ChunkSize, count)
        invariant Matched(tracks, failedTracks, tracks0, failed0, hits, count)
        invariant count == 0 ==> progress == progress0
        invariant count > 0 ==> (progress == 100.0 <==> count == total)
        invariant searches == SearchesFor(tracks0[..count])
        invariant AddRequests(playlistId, hits) ==
          requests + Emit(playlistId, Chunking.ChunksFrom(hits, ChunkSize, count))
      {
        count, searches, requests := MigrateChunk(tracks0, failed0, playlistId, hits,
                                                  chunks, c, count, searches, requests);
        c := c + 1;
      }
      assert count == total;
      MigrationDone(tracks0, failed0, hits, tracks, failedTracks, searches);
    }
  }

  // ---------------------------------------------------------------------------
  // The state part-way through a migration, stated on indices

  /** Tracks before index k translated against their search answers, the rest as they were. */
  ghost function PartlyTranslated(ts: seq<Track>, hits: seq<Option<Hit>>, k: nat): seq<Track>
    requires |ts| == |hits|
  {
    seq(|ts|, i requires 0 <= i < |ts| => if i < k then Translate(ts[i], hits[i]) else ts[i])
  }

  /** One search per track, in order. */
  function SearchesFor(ts: seq<Track>): seq<SearchRequest>
  {
    seq(|ts|, i requires 0 <= i < |ts| => SearchFor(ts[i]))
  }

  lemma SearchesStep(ts: seq<Track>, a: nat, b: nat)
    requires a <= b <= |ts|
    ensures SearchesFor(ts[..a]) + SearchesFor(ts[a..b]) == SearchesFor(ts[..b])
  {
  }

  /** The failed-tracks text recorded for the first k tracks. */
  ghost function FailedLogUpTo(ts: seq<Track>, hits: seq<Option<Hit>>, k: nat): string
    requires |ts| == |hits| && k <= |ts|
  {
    if k == 0 then ""
    else if hits[k - 1].None? then FailedLogUpTo(ts, hits, k - 1) + FailedEntry(ts[k - 1])
    else FailedLogUpTo(ts, hits, k - 1)
  }

  /** The URIs of the found tracks with index in [lo, hi). */
  ghost function UrisBetween(hits: seq<Option<Hit>>, lo: nat, hi: nat): seq<string>
    requires lo <= hi <= |hits|
    decreases hi - lo
  {
    if hi == lo then []
    else if hits[hi - 1].Some? then UrisBetween(hits, lo, hi - 1) + [TrackUri(hits[hi - 1].value.id)]
    else UrisBetween(hits, lo, hi - 1)
  }

  /** The tracks and the failed-tracks text once the first `count` tracks of
      `tracks0` have been processed against `hits`, from failed-tracks text `failed0`. */
  ghost predicate Matched(tracks: seq<Track>, failedTracks: string,
                          tracks0: seq<Track>, failed0: string,
                          hits: seq<Option<Hit>>, count: nat)
  {
    && count <= |tracks0| == |hits|
    && tracks == PartlyTranslated(tracks0, hits, count)
    && failedTracks == failed0 + FailedLogUpTo(tracks0, hits, count)
  }

  /** Processing track k, as `ProcessTrack` does, takes the state after k tracks
      to the state after k + 1, and shows a progress in (0, 100], reaching 100
      exactly after the last track. */
  lemma TrackDone(ts: seq<Track>, failed0: string, hits: seq<Option<Hit>>, k: nat,
                  tracks: seq<Track>, failedTracks: string, tracks': seq<Track>, failedTracks': string,
                  progress: real)
    requires k < |ts| && Matched(tracks, failedTracks, ts, failed0, hits, k)
    requires tracks' == tracks[k := Translate(tracks[k], hits[k])]
    requires hits[k].None? ==> failedTracks' == failedTracks + FailedEntry(tracks[k])
    requires hits[k].Some? ==> failedTracks' == failedTracks
    requires progress == Percent(k + 1, |tracks|)
    ensures tracks[k] == ts[k]
    ensures Matched(tracks', failedTracks', ts, failed0, hits, k + 1)
    ensures 0.0 < progress <= 100.0 && (progress == 100.0 <==> k + 1 == |ts|)
  {
    assert tracks[k] == ts[k];
    assert tracks' == PartlyTranslated(ts, hits, k + 1);
    PercentShown(k + 1, |ts|);
  }

  /** Recording track k's search and, when it was found, its URI extends the
      searches and URIs of the tracks from `start` by those of track k. */
  lemma TrackRecorded(ts: seq<Track>, hits: seq<Option<Hit>>, start: nat, k: nat,
                      searches: seq<SearchRequest>, search: SearchRequest, searches': seq<SearchRequest>,
                      ids: seq<string>, uri: Option<string>, ids': seq<string>)
    requires start <= k < |ts| == |hits|
    requires searches == SearchesFor(ts[start..k]) && search == SearchFor(ts[k])
    requires searches' == searches + [search]
    requires ids == UrisBetween(hits, start, k)
    requires uri == if hits[k].Some? then Some(TrackUri(hits[k].value.id)) else None
    requires ids' == if uri.Some? then ids + [uri.value] else ids
    ensures searches' == SearchesFor(ts[start..k + 1])
    ensures ids' == UrisBetween(hits, start, k + 1)
  {
  }

  lemma {:induction false} UrisBetweenSlice(hits: seq<Option<Hit>>, lo: nat, hi: nat)
    requires lo <= hi <= |hits|
    ensures UrisBetween(hits, lo, hi) == Uris(hits[lo..hi])
    decreases hi - lo
  {
    if hi > lo {
      UrisBetweenSlice(hits, lo, hi - 1);
      SliceSnoc(hits, lo, hi);
      UrisSnoc(hits[lo..hi - 1], hits[hi - 1]);
    }
  }

  lemma SliceSnoc<T>(s: seq<T>, lo: nat, hi: nat)
    requires lo < hi <= |s|
    ensures s[lo..hi] == s[lo..hi - 1] + [s[hi - 1]]
  {
  }

  lemma UrisSnoc(hits: seq<Option<Hit>>, hit: Option<Hit>)
    ensures Uris(hits + [hit]) == Uris(hits) + UriOf(hit)
  {
    assert (hits + [hit])[..|hits|] == hits;
  }

  lemma {:induction false} FailedLogMatches(ts: seq<Track>, hits: seq<Option<Hit>>, k: nat)
    requires |ts| == |hits| && k <= |ts|
    ensures FailedLogUpTo(ts, hits, k) == Concat(FailedEntries(ts[..k], hits[..k]))
  {
    if k > 0 {
      FailedLogMatches(ts, hits, k - 1);
      assert ts[..k][..k - 1] == ts[..k - 1] && hits[..k][..k - 1] == hits[..k - 1];
      var before := FailedEntries(ts[..k - 1], hits[..k - 1]);
      if hits[k - 1].None? {
        assert (before + [FailedEntry(ts[k - 1])])[..|before|] == before;
      } else {
        assert before + [] == before;
      }
    }
  }

  lemma AppendAssoc<T>(a: seq<T>, b: seq<T>, c: seq<T>)
    ensures a + (b + c) == (a + b) + c
  {
  }

  /** One step through the chunks: the chunk at index c covers the tracks from
      `start` to `stop`, and the chunks after it begin at `stop`. */
  lemma ChunkStep(chunks: seq<seq<Track>>, c: nat, ts: seq<Track>, start: nat)
    requires c < |chunks| && chunks[c..] == Chunking.ChunksFrom(ts, ChunkSize, start)
    ensures start < |ts|
    ensures chunks[c] == ts[start..Chunking.Min(start + ChunkSize, |ts|)]
    ensures chunks[c + 1..] == Chunking.ChunksFrom(ts, ChunkSize, Chunking.Min(start + ChunkSize, |ts|))
  {
    assert chunks[c + 1..] == chunks[c..][1..];
    assert Chunking.ChunksFrom(ts, ChunkSize, start + ChunkSize) ==
      Chunking.ChunksFrom(ts, ChunkSize, Chunking.Min(start + ChunkSize, |ts|));
  }

  /** Once every track has been processed, each is translated against its
      search answer, the failed-tracks text has one entry per track not found,
      and there was one search per track. */
  lemma MigrationDone(ts: seq<Track>, failed0: string, hits: seq<Option<Hit>>,
                      tracks: seq<Track>, failedTracks: string, searches: seq<SearchRequest>)
    requires Matched(tracks, failedTracks, ts, failed0, hits, |ts|)
    requires searches == SearchesFor(ts[..|ts|])
    ensures |tracks| == |ts|
    ensures forall i :: 0 <= i < |tracks| ==> tracks[i] == Translate(ts[i], hits[i])
    ensures failedTracks == failed0 + Concat(FailedEntries(ts, hits))
    ensures |searches| == |ts|
    ensures forall i :: 0 <= i < |searches| ==> searches[i] == SearchFor(ts[i])
  {
    FailedLogMatches(ts, hits, |ts|);
    assert ts[..|ts|] == ts && hits[..|hits|] == hits;
  }

  /** The bookkeeping of one round of the chunk loop: after chunk c, which starts
      at `start`, the next chunk starts at `start + |chunks[c]|`, the searches so
      far are those of the tracks before it, and the requests so far are a prefix
      of those of the whole migration. */
  lemma RoundDone(playlistId: string, ts: seq<Track>, hits: seq<Option<Hit>>, chunks: seq<seq<Track>>,
                  c: nat, start: nat, searches: seq<SearchRequest>, requests: seq<AddRequest>,
                  chunkSearches: seq<SearchRequest>, trackIds: seq<string>,
                  stop: nat, searches': seq<SearchRequest>, requests': seq<AddRequest>)
    requires |ts| == |hits| && c < |chunks|
    requires chunks[c..] == Chunking.ChunksFrom(ts, ChunkSize, start)
    requires searches == SearchesFor(ts[..start])
    requires AddRequests(playlistId, hits) ==
      requests + Emit(playlistId, Chunking.ChunksFrom(hits, ChunkSize, start))
    requires stop == start + |chunks[c]| <= |ts|
    requires chunkSearches == SearchesFor(ts[start..stop])
    requires trackIds == Uris(hits[start..stop])
    requires searches' == searches + chunkSearches
    requires requests' == if trackIds != [] then requests + [AddRequest(playlistId, trackIds)] else requests
    ensures chunks[c + 1..] == Chunking.ChunksFrom(ts, ChunkSize, stop)
    ensures searches' == SearchesFor(ts[..stop])
    ensures AddRequests(playlistId, hits) ==
      requests' + Emit(playlistId, Chunking.ChunksFrom(hits, ChunkSize, stop))
  {
    ChunkStep(chunks, c, ts, start);
    assert stop == Chunking.Min(start + ChunkSize, |ts|) == Chunking.Min(start + ChunkSize, |hits|);
    SearchesStep(ts, start, stop);
    RequestsStep(playlistId, hits, requests, start, trackIds);
    if trackIds == [] {
      assert requests + [] == requests;
    }
  }

  /** Emitting the request of the chunk from `start` keeps the requests sent so far
      a prefix of the requests of the whole migration. */
  lemma RequestsStep(playlistId: string, hits: seq<Option<Hit>>, done: seq<AddRequest>,
                     start: nat, trackIds: seq<string>)
    requires start < |hits|
    requires AddRequests(playlistId, hits) == done + Emit(playlistId, Chunking.ChunksFrom(hits, ChunkSize, start))
    requires trackIds == Uris(hits[start..Chunking.Min(start + ChunkSize, |hits|)])
    ensures AddRequests(playlistId, hits) ==
      (done + (if trackIds != [] then [AddRequest(playlistId, trackIds)] else [])) +
      Emit(playlistId, Chunking.ChunksFrom(hits, ChunkSize, Chunking.Min(start + ChunkSize, |hits|)))
  {
    var stop := Chunking.Min(start + ChunkSize, |hits|);
    var rest := Chunking.ChunksFrom(hits, ChunkSize, stop);
    assert Chunking.ChunksFrom(hits, ChunkSize, start + ChunkSize) == rest;
    EmitCons(playlistId, hits[start..stop], rest);
    AppendAssoc(done, BatchRequest(playlistId, hits[start..stop]), Emit(playlistId, rest));
  }
}
