# Playlist migration core, modelled in Dafny

This project models the core of `util.py` from the Amazon Music to Spotify
playlist migrator. It has three parts:

- `chunk_list`, which splits a list into consecutive slices of a fixed size
  (module `Chunking`, file `chunking.dfy`);
- `get_paginated_track_list`, which fetches a source playlist page by page:
  it follows the cursor of the last edge while a page holds exactly 50
  edges, and appends each later page's edges to the playlist object of the
  first response (module `Pagination`, file `pagination.dfy`);
- the batch, match and write loop of `add_tracks_to_spotify_playlist`
  (module `Migration`, file `migration.dfy`). It chunks the migration list by
  100 and searches each track. On a hit it records the translation and the
  `spotify:track:<id>` URI. On a miss it appends `<li>artist - title</li>` to
  the failed-tracks string. As it starts the k-th track, before that track's
  search, it sets the progress percentage to k/total·100. After each chunk
  with at least one match it sends one add-tracks request.

The global migration state (`settings.TRACK_TRANSLATION`, `settings.PROGRESS`,
`settings.FAILED_TRACKS`) is the class `Migration.MigrationState`, and its
methods update its fields in place. Two inputs stand in for the network:

- the search endpoint is an oracle `hits: seq<Option<Hit>>`, one answer per
  track in processing order, where `None` means an empty `items` list;
- the paginated responses are a sequence `pages` of playlist objects.

The search requests and add-tracks requests the code would send are returned
as sequences, so the contracts can state them. `scenarios.dfy` holds two
worked instances. `options.dfy` holds the `Option` type.

The main results:

- chunking is lossless and order-preserving;
- the fetch stops exactly at the first page that is not full, and returns
  all the edges in order under the first page's metadata;
- the requests carry exactly the URIs of the found tracks, in order, in at
  most ceil(n/100) requests of 1 to 100 URIs each;
- every track is either sent or listed as failed;
- as the k-th track is started, the progress is set to k/total·100. These
  values lie in (0, 100], do not decrease in k, and reach 100 at the last
  track, so 100 already shows while the last search, the last request and
  the final pause are pending. The progress is never reset, so for an empty
  list it keeps its starting value.

## Model

| member | source | states |
|---|---|---|
| Chunking.ChunksFrom | util.py:16-17 | the slices `lst[i:i+n]` for i, i+n, i+2n, ... while i < len(lst), the last cut off at the end (a definition; its properties are the `ChunksFrom*` lemmas) |
| Chunking.ChunkList | util.py:14-17 | `chunk_list(lst, n)`: the slices from index 0 (a definition; its properties are the `Chunk*` lemmas) |
| Chunking.ChunkCount | util.py:14-17 | `chunk_list(lst, n)` yields ceil(\|lst\| / n) chunks |
| Chunking.ChunkSizes | util.py:14-17 | every chunk is non-empty and holds at most n elements; all but the last hold exactly n |
| Chunking.ChunkFlatten | util.py:14-17 | concatenating the chunks gives back the list: nothing lost, duplicated or reordered |
| Chunking.ChunkAt | util.py:14-17 | chunk j is the slice `lst[j*n : j*n+n]`, cut off at the end of the list |
| Chunking.ChunksFromCount | util.py:16-17 | from index i on there are ceil((\|lst\|-i)/n) chunks |
| Chunking.ChunksFromSizes | util.py:16-17 | the size bounds of the chunks, from any start index |
| Chunking.ChunksFromFlatten | util.py:16-17 | the chunks from index i on concatenate to `lst[i:]` |
| Chunking.ChunksFromAt | util.py:16-17 | the j-th chunk from index i on starts at i + j*n |
| Pagination.PageUrl | util.py:41-43 | the request URL starts with `<base>/playlists/<id>/tracks` and is longer than it exactly when the cursor is not empty (then `?cursor=<cursor>` follows) |
| Pagination.Accumulate | util.py:51-55 | the merged playlist's edges are those gathered so far followed by the page's; its metadata is that of the playlist passed in, or else of the page |
| Pagination.Paginate | util.py:39-64 | the recursion of the source over the given responses; when it completes, its first request goes to the URL for the caller's cursor |
| Pagination.FetchPlaylist | util.py:39-64 | the iterative fetch (accumulator, cursor, request list) returns exactly what the recursive definition `Paginate` of the source's recursion returns |
| Pagination.FirstShort | util.py:57 | the index it returns is that of the first page whose edge count is not 50; every page before it is full |
| Pagination.PaginateStops | util.py:57-62 | the fetch completes if and only if some page is not full, and it then makes exactly one request per page up to and including the first page that is not full |
| Pagination.ContinuesIffFull | util.py:57-62 | a further page is requested after page j if and only if page j holds exactly 50 edges |
| Pagination.PaginateEdges | util.py:51-55 | the result's edges are those the caller passed in, followed by the edges of every fetched page, in page order |
| Pagination.PaginateMeta | util.py:52-55 | the playlist metadata is that of the first response, or that of the playlist the caller passed in; later pages contribute only edges |
| Pagination.PaginateUrls | util.py:41-43 | request j goes to `<base>/playlists/<id>/tracks`, with `?cursor=` plus the previous page's last cursor (the caller's cursor for the first request) when that cursor is not empty |
| Pagination.PrefixedTwice | util.py:62-64 | prefixing the request lists of nested calls composes by concatenation |
| Pagination.PrefixedNil | util.py:62-64 | proof helper for `FetchPlaylist`: an empty prefix leaves a fetch unchanged |
| Migration.Percent | util.py:117-118 | the progress `count / total * 100` in exact arithmetic (a definition; its properties are the `Percent*` lemmas) |
| Migration.PercentBounds | util.py:117-118 | progress `count/total*100` lies in [0, 100] and equals 100 exactly when count equals total |
| Migration.PercentPositive | util.py:117-118 | the value set as a track is started is positive |
| Migration.PercentShown | util.py:117-118 | the value set as track k is started lies in (0, 100] and is 100 exactly for the last track |
| Migration.PercentMonotone | util.py:117-118 | the value set when a later track is started is never lower than that set for an earlier one |
| Migration.SearchFor | util.py:123 | the search parameters for a track: query "title - artist", type `track`, limit 1 (a definition) |
| Migration.TrackUri | util.py:129-130 | the URI `spotify:track:<id>` of a found track (a definition) |
| Migration.Translate | util.py:131 | a found track gets the first result's first artist and name as its translation; a missed one is left as it was (a definition) |
| Migration.FailedEntry | util.py:135 | the display line `<li>artist - title</li>` of a missed track (a definition) |
| Migration.BatchRequest | util.py:138-149 | a chunk yields at most one request; it carries exactly the chunk's found URIs, goes to the given playlist, and is absent when there are none |
| Migration.AddRequests | util.py:105-149 | the requests of the whole migration: chunk the answers by 100 and take each chunk's request in order (a definition; its properties are `RequestsCarryMatches`, `RequestsShape`, `BatchContribution`, `Conservation` and `NoMatchNoRequest`) |
| Migration.UrisAppend | util.py:128-130 | the found-track URIs of two consecutive runs of tracks are those of the first followed by those of the second |
| Migration.UrisMisses | util.py:128-135 | every track is either found (one URI) or missed |
| Migration.FailedEntriesCount | util.py:133-135 | exactly one failed entry is recorded per track not found |
| Migration.AllUrisAppend | util.py:138-142 | the URIs of two request lists concatenate |
| Migration.EmitCarriesUris | util.py:111-142 | the requests of any sequence of batches carry exactly the URIs of its found tracks, in order |
| Migration.RequestsCarryMatches | util.py:105-142 | over a whole migration the add-requests carry the URI of every found track, in track order, and nothing else |
| Migration.Conservation | util.py:105-142 | URIs sent plus failed entries recorded equals the number of tracks |
| Migration.EmitCons | util.py:111-142 | proof helper: the first batch's requests come before those of the remaining batches |
| Migration.EmitAppend | util.py:111-142 | the requests of consecutive runs of batches concatenate |
| Migration.BatchContribution | util.py:111-149 | chunk c contributes, between the requests of the chunks before and after it, exactly one request with exactly its URIs when it has a match, and none otherwise |
| Migration.UrisBound | util.py:115-130 | a batch yields at most one URI per track |
| Migration.EmitShape | util.py:138-142 | for batches of at most n tracks, every request goes to the given playlist with 1 to n URIs, and there are at most as many requests as batches |
| Migration.RequestsShape | util.py:105-142 | a migration sends at most ceil(n/100) requests, each to the given playlist with between 1 and 100 URIs |
| Migration.NoMatchNoRequest | util.py:138-149 | with no track found, no add-request is sent |
| Migration.NoMatchNoUris | util.py:128-135 | with no track found, no URI is collected |
| Migration.MigrationState.constructor | util.py:105-109 | the migration state starts from the given track list, progress and failed-tracks string |
| Migration.MigrationState.ProcessTrack | util.py:115-135 | for track i: the progress becomes Percent(i+1, total); the search asks for "title - artist", type track, limit 1; on a hit the track gets the first result's artist and name as its translation, and the URI `spotify:track:<id>` is returned; on a miss the track is unchanged and its `<li>` entry is appended to the failed string |
| Migration.MigrationState.ProcessChunk | util.py:115-135 | processing the tracks of a chunk extends the translated prefix and the failed log by exactly that chunk; it returns that chunk's searches and the URIs of its found tracks in order; progress lies in (0, 100] and is 100 exactly when the chunk ends the list |
| Migration.MigrationState.MigrateChunk | util.py:111-149 | one round of the chunk loop: it advances the chunk position, the translated prefix, the failed log and the searches by one chunk, and it extends the requests sent so that they stay a prefix of `AddRequests` |
| Migration.MigrationState.AddTracks | util.py:103-153 | the whole migration: every track is translated against its own search answer; the failed string gains one entry per miss, in order; the progress is 100 (or unchanged for an empty list); one search per track, in order; the requests sent are exactly `AddRequests`, one per chunk of 100 that has a match |
| Migration.SearchesStep | util.py:115-126 | the searches of a run of tracks are those of its first part followed by those of the rest |
| Migration.TrackDone | util.py:115-135 | processing track k takes the state after k tracks to the state after k+1, with progress in (0, 100] and equal to 100 exactly after the last track |
| Migration.TrackRecorded | util.py:126-130 | recording track k's search and URI extends the chunk's searches and URIs by that track |
| Migration.UrisBetweenSlice | util.py:115-130 | the URIs collected from index lo to hi are those of the slice `hits[lo:hi]` |
| Migration.UrisSnoc | util.py:128-130 | appending one track appends its URI, if found |
| Migration.FailedLogMatches | util.py:133-135 | the failed log built track by track is the concatenation of the failed entries of the prefix |
| Migration.ChunkStep | util.py:105-111 | chunk c covers the tracks from its start index up to 100 further, and the remaining chunks start where it ends |
| Migration.MigrationDone | util.py:111-135 | once every track is processed, each is translated against its own answer, the failed log is complete, and there is one search per track |
| Migration.RoundDone | util.py:111-149 | after chunk c, the searches, the chunk position and the requests-prefix invariant hold at the chunk's end |
| Migration.RequestsStep | util.py:137-149 | sending the request of the chunk that starts at `start`, when it has a match, keeps the requests sent a prefix of `AddRequests` |
| Scenarios.ThreePages | util.py:39-64 | pages of 50, 50 and 30 edges take three requests, the second and third with `?cursor=next`, and give 130 edges under the first page's metadata |
| Scenarios.TwoOfThreeSent | util.py:103-149 | three tracks with the second not found give one request, holding the two found URIs in track order |
| Scenarios.Uris3 | util.py:128-130 | the URIs collected from answers hit, miss, hit are the two hits' URIs in order |
| Scenarios.TwoOfThreeFailed | util.py:133-135 | the same three tracks leave the single failed entry `<li>Y - B</li>` |

## Left out

- HTTP, JSON parsing, headers and tokens: responses are inputs (`pages`, `hits`) and requests are outputs (`Fetch.urls`, `SearchRequest`, `AddRequest`).
- The status-code check after the add-tracks POST (util.py:143-147) only logs, so it is not modelled; every request is taken to be sent.
- Logging at util.py:67, 104, 107, 113, 119, 132, 134, 139, 144-145, 147, 149 and 152 is not modelled; it has no effect on state.
- `time.sleep` between pages and between chunks is not modelled: it has no observable effect on the state.
- `generate_random_string`, `query_artist_spotify` and `create_spotify_playlist` are outside this model.
- The Flask session and the `settings` globals become fields of `MigrationState` and parameters (`base`, `playlistId`).
- URL encoding of query parameters is not modelled: the search's `q` is the raw "title - artist" string, and the cursor is appended verbatim.
- Progress is a Python float. It is modelled as an exact real `count * 100 / total`. That equals the float value except for rounding; at count == total both give exactly 100.
- A falsy cursor (`None` or "") is modelled as the empty string. A falsy `playlist` argument (`None` or `{}`) is modelled as `None`.
- Pagination.FetchPlaylist: the loop has no recursion-depth limit, while the source calls itself once per full page (util.py:62), so under Python's default limit of 1000 frames it raises `RecursionError` on playlists of roughly 950 or more full pages; the model returns normally for any number of pages.
- Pagination.Paginate: when the responses run out before a page that is not full, the result is `None`. The source would keep requesting pages, so the model does not say what happens then.
- The source mutates the caller's playlist dict in place, and reaches the migration list's track dicts through the chunk slices (aliasing). The model passes the playlist by value and simply indexes the track list.
- Chunking.ChunksFrom requires a positive chunk size; Python's `range` raises for a step of 0, and the source always uses 100.
- Migration.MigrationState.AddTracks requires one search answer per track (`|hits| == |tracks|`), since the oracle replaces one search call per track.
- Migration.MigrationState.ProcessChunk: its progress contract states the range (0, 100] and "100 exactly at the list's end", not the exact value Percent(start+size, total); ProcessTrack states the exact value.
- Migration.MigrationState.MigrateChunk: its progress contract states only that progress is 100 exactly when the chunk ends the list, not the exact value.
