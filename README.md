# Jamify playlist generation, modelled in Dafny

Jamify builds a Spotify playlist from a free-text description. Keyphrases are
extracted from the description, and each keyphrase is searched for public
playlists. The tracks of those playlists are ranked by how often they occur.
The ranked tracks are then put into a temporary playlist, which the user either
saves (renames) or discards (deletes).

This project models the two parts of the program that hold logic. Everything else
is treated as an input.

- **The Spotify client, `app/spotify.py`.** It is modelled in `wrappers.dfy`,
  `ranking.dfy` and `spotify.dfy`.
  - `searchForPlaylists` is the method `Spotify.SearchForPlaylists`. It is proved
    against the function `Spotify.Gather`.
  - `getPotentialTracks` is the method `Spotify.GetPotentialTracks`, with its inner
    loop in `Spotify.CountListing`. It is proved against `Spotify.PotentialTracks`.
  - Both methods really loop and update a dictionary or list. The dictionary is a
    `map` of counts plus a `seq` holding its key order (the order Python iterates
    a dict's keys in).
  - `sorted(tracks, key=tracks.get, reverse=True)[:size]` is modelled by two
    functions. `Ranking.SortDesc` is a stable insertion sort on descending count.
    `Ranking.PySlice` is Python's slice, including a negative `size`.
  - Each HTTP request is a total function from its parameter (a keyphrase or a
    playlist id) to an `Outcome`: either `Raised`, or `Resp(status, items)`.
  - The call logs (`searched`, `fetched`) record which requests were issued.
  - The status classifiers of `getUserID`, `createTempPlaylist`, `updatePlaylist`
    and `deletePlaylist` are plain functions of the response.
- **The provisioning workflow, `app/routes.py`.** It is modelled in `routes.dfy` as
  the class `Routes.App`.
  - The class holds three things: the Flask `session` (a map from strings to
    strings, where an absent key stands for `None`), a log of every external call
    in order, and the page the request ends on.
  - `preview_playlist` is `PreviewPlaylist`, which continues in `Populate`.
  - `save_playlist` is `SavePlaylist`, which settles the name in `NamePlaylist` and
    finishes in `Rename`. `discard_playlist` is `DiscardPlaylist`.
  - Each collaborator's answer is a parameter: the keyphrase generator, the
    suggested name, and the Spotify responses. The track-URI comprehension, the
    description suffix and `str.strip()` are pure functions.

The model keeps the code's behaviour, including its quirks:

- A track listing answered with a status other than 200 is skipped and ranking
  continues. Only a request that raises aborts the ranking.
- A track's count is the number of items that carry its id, across every fetched
  listing. It is not the number of distinct playlists. Playlist ids are not
  deduplicated, so a playlist returned by two searches is fetched and counted twice.
- The cleanup delete after a failed search or ranking targets the request's `id`
  query argument, not the playlist just created. It is issued only when that
  argument and the token are both truthy. A preview form posted without `?id=`
  therefore leaves the new playlist behind.
- The commit calls `updatePlaylist` twice with the same arguments. The first
  result is ignored.
- The preview checks the token with `is None`, so an empty token passes. Save and
  discard check it for truthiness.
- The keyphrase generator can return `None`. That case is not handled: it raises
  inside `searchForPlaylists`, after the playlist was created (page `ServerError`).
- When `numSongs` is negative, Python's `[:size]` drops elements from the end. The
  result can then hold more than 100 ids. The bound `min(numSongs, 100)` is proved
  for `numSongs >= 0`, and the exact length is proved for negative `numSongs`.

## Model

| member | source | states |
|---|---|---|
| `Spotify.SearchForPlaylists` | app/spotify.py:10-28 | The loop returns what `Gather` gives: the playlists and the keyphrases searched. The result is `Some` iff every search answered 200. In that case it is the concatenation of the searches' `items` in keyphrase order, and every keyphrase was searched. |
| `Spotify.GatherSucceedsIff` | app/spotify.py:15-27 | The aggregation succeeds iff every keyphrase's search answered 200. On success every keyphrase was searched. An empty keyphrase list gives `Some([])`. |
| `Spotify.GatherConcat` | app/spotify.py:23-24 | On success the result equals `AllItems`, an independent front-to-back concatenation of each search's `items`. |
| `Spotify.GatherStopsAtFailure` | app/spotify.py:18-27 | On failure the keyphrases searched are a non-empty prefix of the input. The last of them failed (it raised or was not 200), and every earlier one answered 200. |
| `Spotify.GatherStops` | app/spotify.py:20-22 | Once a search failed, the later keyphrases change nothing: they are never searched. |
| `Spotify.GetPotentialTracks` | app/spotify.py:33-68 | The nested loops over entries and items, followed by the sort and the slice, return exactly `PotentialTracks`. The playlist ids fetched are exactly those of the reference walk `Scan`. |
| `Spotify.PotentialTracks` | app/spotify.py:33-68 | The result of `getPotentialTracks` is `None` exactly when the walk over the entries aborted, because a fetch raised. Otherwise it is a prefix of the ranking of the tallied ids. |
| `Spotify.CountListing` | app/spotify.py:57-64 | Tallying one listing leaves the counter equal to `Tally` of the ids seen so far plus the listing's counted ids, and its key order equal to their first-seen `Dedup`. |
| `Spotify.PlaylistId` | app/spotify.py:38-45 | An entry is fetched iff it is an object whose `id` is truthy, and then under that id. |
| `Spotify.Counted` | app/spotify.py:58-64 | An item counts only under its track's non-empty `id`. It never counts for a missing `track` or `id`. With `excludeExplicit` it never counts for a track flagged explicit. A missing flag counts as not explicit. Every other item with a track id counts. |
| `Spotify.ScanAppend` | app/spotify.py:36-66 | Ranking over `a + b` equals ranking over `a` and then, unless it aborted, over `b`. Ids and fetches are concatenated. |
| `Spotify.ScanAbortIff` | app/spotify.py:49-53 | The walk gives up iff the fetch of some fetched entry raised. |
| `Spotify.AbortIff` | app/spotify.py:49-53 | `getPotentialTracks` returns `None` iff the fetch of some valid entry raised. |
| `Spotify.InvalidEntrySkipped` | app/spotify.py:38-45 | Inserting a non-object entry, or one with a falsy `id`, anywhere changes neither the result nor the fetches. |
| `Spotify.NonOkListingSkipped` | app/spotify.py:56-66 | Inserting an entry whose listing answers with a status other than 200 leaves the tallied ids unchanged. Its fetch is still issued, and ranking continues. |
| `Spotify.FetchesEveryValidEntry` | app/spotify.py:36-50 | When nothing raises, one fetch is issued per valid entry, in order, repeated ids included. |
| `Spotify.CountMeaning` | app/spotify.py:57-64 | A track's count equals `ListingCount`: the number of items carrying its id, over every listing answered 200. Repeats within a listing and repeated entries all add. |
| `Spotify.ExcludeExplicitIsDropExplicit` | app/spotify.py:60-61 | Ranking with `excludeExplicit` is exactly ranking, without the filter, a catalog whose listings have every explicit item removed. |
| `Spotify.RankedResult` | app/spotify.py:35-68 | The result is a prefix of the full ranking. It has exactly `min(numSongs, 100, len(ranking))` ids when `numSongs >= 0`, and the exact Python slice length when `numSongs` is negative. It has no duplicate ids, its counts are non-increasing, and every id in it was counted at least once. |
| `Spotify.EmptyInputs` | app/spotify.py:34-68 | No entries, or no id left after filtering, gives `Some([])`, not `None`. |
| `Spotify.GetUserID` | app/spotify.py:88-93 | Status 200 gives the profile's `id`. Any other status gives `None`. |
| `Spotify.CreateTempPlaylist` | app/spotify.py:106-116 | 403 gives the sentinel `"whitelist needed"`. Any other status except 201 gives `None`. 201 gives the response's `id`. |
| `Spotify.UpdatePlaylist` | app/spotify.py:146-149 | Success iff the status is 200. |
| `Spotify.DeletePlaylist` | app/spotify.py:158-161 | Success iff the status is 200. |
| `Ranking.TallyCounts` | app/spotify.py:64 | After the `tracks[id] = tracks.get(id, 0) + 1` updates, an id is a key iff it was recorded, and its count is its number of occurrences. |
| `Ranking.RecordOne` | app/spotify.py:64 | One update adds 1 to the id's count. It appends the id to the key order iff the id was not yet a key. |
| `Ranking.Dedup` | app/spotify.py:64 | The dictionary's key order holds exactly the recorded ids, each once. |
| `Ranking.DedupFirstSeen` | app/spotify.py:64 | Keys are ordered by the position of their first occurrence, that is, playlist order and then item order. |
| `Ranking.InsertPerm` | app/spotify.py:68 | One insertion step of the sort adds the inserted key and keeps every other key. |
| `Ranking.SortDescCorrect` | app/spotify.py:68 | `sorted(..., key=tracks.get, reverse=True)` gives non-increasing counts. It is a permutation of the keys and keeps distinct keys distinct. For every count, the keys with that count keep their input order (stability). |
| `Ranking.SortDesc` | app/spotify.py:68 | `sorted(keys, key=tracks.get, reverse=True)` returns a permutation of the keys. Order and stability are stated by `SortDescCorrect`. |
| `Ranking.RankedCorrect` | app/spotify.py:64-68 | The ranking lists every tallied id exactly once, by non-increasing number of occurrences. Ids with equal counts appear in first-seen order. |
| `Ranking.PySlice` | app/spotify.py:68 | `s[:n]` is a prefix of `s`. Its length is `min(n, len(s))` for `n >= 0` and `max(len(s) + n, 0)` otherwise. |
| `Routes.App.PreviewPlaylist` | app/routes.py:66-86 | With no token: redirect to login, no call made. With keyphrases exactly `["none"]`: error page after the keyphrase call only, before any user lookup, create, search or delete. The allow-list sentinel gives the whitelist form, and any other falsy id gives the create error; both come after the lookup and create calls only. Keyphrases of `None` raise after the create. Otherwise the request goes on as `Populate` states. |
| `Routes.App.Populate` | app/routes.py:88-113 | If the search or the ranking gives `None`, the fetch error page is shown and `add` is never called. A delete is issued only when the token and the `id` query argument are both truthy, and it targets that argument. Otherwise the URIs of the ranked ids are added to the created playlist, and the session gains `playlist_description` and `playlist_id`. |
| `Routes.App.SavePlaylist` | app/routes.py:137-162 | A blank name is replaced by the generated name; this call happens before the token check. With no truthy token: redirect to login. Otherwise two identical updates are sent with name and description plus the attribution, whatever the first result. `playlist_description` is popped and the success page shown. A missing session description or name field raises. |
| `Routes.App.NamePlaylist` | app/routes.py:140-145 | The name is the stripped form field. When that is blank, it is the generated name instead, and exactly one name-generation call is made. The session and the page are unchanged. |
| `Routes.App.Rename` | app/routes.py:147-162 | With no truthy token: redirect to login, no call made, session unchanged. Otherwise two identical updates carry the chosen name and the description plus the attribution, whatever the first result. Then `playlist_description` is popped and the success page is shown. |
| `Routes.App.DiscardPlaylist` | app/routes.py:166-174 | A delete is issued, and `playlist_description` popped, exactly when the token and `id` are both truthy. The discarded page is always shown. |
| `Routes.TrackURIs` | app/routes.py:107 | One URI per ranked id, in the same order, each `"spotify:track:" + id`. |
| `Routes.TrackURIsRoundTrip` | app/routes.py:107 | Removing the prefix from each URI gives back the ranked id at the same position. |
| `Routes.FullDescription` | app/routes.py:151 | The saved description is the original description followed by `". Playlist generated by Jamify."`. |
| `Routes.Strip` | app/routes.py:140 | `str.strip()` never lengthens the name. A non-empty result neither starts nor ends with whitespace. |
| `Routes.StripLeftDrops` | app/routes.py:140 | Every character `strip()` removes at the front is whitespace. |
| `Routes.StripRightDrops` | app/routes.py:140 | Every character `strip()` removes at the back is whitespace. |
| `Routes.StripEmptyIff` | app/routes.py:140-145 | The stripped name is empty, so a generated name is used, iff the name is whitespace only. A non-empty stripped name neither starts nor ends with whitespace. |

## Left out

- Spotify.GetPotentialTracks: the listing for a playlist id is a function of that id. A playlist returned twice therefore gets the same listing both times, although two real requests could answer differently.
- Spotify.SearchForPlaylists: likewise, a repeated keyphrase gets the same answer both times.
- HTTP transport: URLs, headers, JSON bodies and `response.json()` failures are left out. Each request is an abstract outcome.
- Requests in `getUserID`, `createTempPlaylist`, `addTracksToPlaylist`, `updatePlaylist` and `deletePlaylist` are assumed to answer. An exception from them is not caught by the Python code and would end the request with a server error.
- `addTracksToPlaylist` (app/spotify.py:119-127) only prints its result. It appears as an `AddTracks` call in the log.
- The results of `deletePlaylist` and of both `updatePlaylist` calls are never acted on by the routes (the first is only printed), so their statuses are not inputs of the workflow. `Spotify.UpdatePlaylist` and `Spotify.DeletePlaylist` model the classifiers on their own.
- OAuth is not part of this model: `getTokenFromCode`, and the `login`, `callback` and `logout` routes. Neither are the page-only routes `home`, `create_playlist`, `return_to_preview`, `save_playlist_form` and `whitelist_form`.
- `submit_email` and its mail sending are left out.
- `app/gpt_integration.py` is not part of this model. The keyphrases and the suggested name are inputs, with `None` standing for a generator that raised.
- Listing items that are not JSON objects are left out (`item.get` in app/spotify.py would raise on them). So are ids of a JSON type other than string, and Python truthiness of other values.
- Form parsing is left out: `int(request.form.get('playlistSize'))` raising, and a missing description field.
- Template rendering and redirects are reduced to the page reached. Debug printing is left out.
