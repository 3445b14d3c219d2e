/**
 * The playlist provisioning workflow of app/routes.py: `preview_playlist` (create a
 * temporary playlist, search, rank, populate), `save_playlist` (commit: rename) and
 * `discard_playlist` (delete). The Flask session is a dictionary of strings, every
 * call to the catalog or to the name/keyphrase generator is appended to a call log,
 * and the page the request ends on is recorded. What each collaborator answers is an
 * input of the route.
 */
module Routes {
  import opened Wrappers
  import opened Spotify

  const AccessTokenKey := "access_token"
  const PlaylistDescriptionKey := "playlist_description"
  const PlaylistIdKey := "playlist_id"

  /** The keyphrase list that signals that no keyphrases could be extracted. */
  const NoKeyphrases := ["none"]

  const TrackPrefix := "spotify:track:"
  const Attribution := ". Playlist generated by Jamify."

  /** The page (or redirect) a request ends on. `ServerError` is an uncaught Python exception. */
  datatype Page =
    | Home
    | RedirectLogin
    | ErrorProcessing
    | WhitelistForm
    | ErrorCreate
    | ErrorFetch
    | Preview(playlistID: string, description: string)
    | Success
    | Discarded
    | ServerError

  /** An external call, with the arguments that matter to the workflow. */
  datatype Call =
    | GenerateKeyphrases(description: string)
    | GetUser
    | CreatePlaylist(userID: Option<string>)
    | Search(keyphrase: string)
    | FetchTracks(playlistID: string)
    | AddTracks(playlistID: string, uris: seq<string>)
    | Update(target: Option<string>, name: Option<string>, newDescription: string)
    | Delete(playlistID: string)
    | GeneratePlaylistName(description: string)

  /** What the collaborators of `preview_playlist` answer. */
  datatype Collaborators = Collaborators(
    keyphrases: Option<seq<string>>,           // `generateKeyphrases(description)`; None when it raised
    user: Response,                            // the user-profile request
    create: Response,                          // the playlist-creation request
    search: string -> Outcome<Entry>,          // one playlist search per keyphrase
    listing: string -> Outcome<Item>)          // one track listing per playlist id

  /** `[f"spotify:track:{track}" for track in tracks]`. */
  function TrackURIs(ids: seq<string>): (uris: seq<string>)
    ensures |uris| == |ids|
    ensures forall i :: 0 <= i < |ids| ==> uris[i] == TrackPrefix + ids[i]
  {
    if ids == [] then [] else [TrackPrefix + ids[0]] + TrackURIs(ids[1..])
  }

  /** The track id a track URI names. */
  function TrackIdOf(uri: string): string
  {
    if |uri| >= |TrackPrefix| && uri[..|TrackPrefix|] == TrackPrefix then uri[|TrackPrefix|..] else uri
  }

  /** The URIs name exactly the ranked tracks, in order. */
  lemma TrackURIsRoundTrip(ids: seq<string>)
    ensures forall i :: 0 <= i < |ids| ==> TrackIdOf(TrackURIs(ids)[i]) == ids[i]
  {
    forall i | 0 <= i < |ids|
      ensures TrackIdOf(TrackURIs(ids)[i]) == ids[i]
    {
      var u := TrackURIs(ids)[i];
      assert u[..|TrackPrefix|] == TrackPrefix && u[|TrackPrefix|..] == ids[i];
    }
  }

  /** `f"{description}. Playlist generated by Jamify."`. */
  function FullDescription(description: string): (full: string)
    ensures |full| == |description| + |Attribution|
    ensures full[..|description|] == description && full[|description|..] == Attribution
  {
    description + Attribution
  }

  /** The characters Python's `str.strip()` removes (`str.isspace`). */
  predicate IsSpace(c: char)
  {
    || ('\t' <= c <= '\r') || ('\U{1c}' <= c <= ' ')
    || c == '\U{85}' || c == '\U{a0}' || c == '\U{1680}'
    || ('\U{2000}' <= c <= '\U{200a}')
    || c == '\U{2028}' || c == '\U{2029}' || c == '\U{202f}' || c == '\U{205f}' || c == '\U{3000}'
  }

  function StripLeft(s: string): (r: string)
    ensures |r| <= |s| && r == s[|s| - |r|..]
    ensures r != [] ==> !IsSpace(r[0])
  {
    if s != [] && IsSpace(s[0]) then
      var r := StripLeft(s[1..]);
      assert s[1..][|s| - 1 - |r|..] == s[|s| - |r|..];
      r
    else s
  }

  /** Everything `StripLeft` drops is whitespace. */
  lemma {:induction false} StripLeftDrops(s: string)
    ensures forall i :: 0 <= i < |s| - |StripLeft(s)| ==> IsSpace(s[i])
  {
    if s != [] && IsSpace(s[0]) {
      StripLeftDrops(s[1..]);
      forall i | 1 <= i < |s| - |StripLeft(s)|
        ensures IsSpace(s[i])
      {
        assert s[i] == s[1..][i - 1];
      }
    }
  }

  function StripRight(s: string): (r: string)
    ensures |r| <= |s| && r == s[..|r|]
    ensures r != [] ==> !IsSpace(r[|r| - 1])
  {
    if s != [] && IsSpace(s[|s| - 1]) then StripRight(s[..|s| - 1]) else s
  }

  /** Everything `StripRight` drops is whitespace. */
  lemma {:induction false} StripRightDrops(s: string)
    ensures forall i :: |StripRight(s)| <= i < |s| ==> IsSpace(s[i])
  {
    if s != [] && IsSpace(s[|s| - 1]) {
      StripRightDrops(s[..|s| - 1]);
      forall i | |StripRight(s)| <= i < |s| - 1
        ensures IsSpace(s[i])
      {
        assert s[i] == s[..|s| - 1][i];
      }
    }
  }

  /** `str.strip()`: `s` without its leading and trailing whitespace. */
  function Strip(s: string): (r: string)
    ensures |r| <= |s|
    ensures r != [] ==> !IsSpace(r[0]) && !IsSpace(r[|r| - 1])
  {
    StripRight(StripLeft(s))
  }

  /** The stripped name is empty iff the name is whitespace only. */
  lemma StripEmptyIff(s: string)
    ensures Strip(s) == "" <==> forall i :: 0 <= i < |s| ==> IsSpace(s[i])
    ensures Strip(s) != "" ==> !IsSpace(Strip(s)[0]) && !IsSpace(Strip(s)[|Strip(s)| - 1])
  {
    var l := StripLeft(s);
    if l == [] {
      StripLeftDrops(s);
    } else {
      assert s[|s| - |l|] == l[0];
      StripRightKeeps(l);
      assert Strip(s)[0] == l[0];
    }
  }

  /** `StripRight` keeps a string that starts with a non-whitespace character non-empty. */
  lemma {:induction false} StripRightKeeps(s: string)
    requires s != [] && !IsSpace(s[0])
    ensures StripRight(s) != []
  {
    if |s| > 1 && IsSpace(s[|s| - 1]) {
      assert s[..|s| - 1][0] == s[0];
      StripRightKeeps(s[..|s| - 1]);
    }
  }

  /** The compensating delete of a failed preview: the `id` query argument, if it and the token are truthy. */
  function Cleanup(session: map<string, string>, argId: Option<string>): seq<Call>
  {
    if Truthy(Get(session, AccessTokenKey)) && Truthy(argId) then [Delete(argId.value)] else []
  }

  function SearchCalls(ks: seq<string>): (calls: seq<Call>)
    ensures |calls| == |ks| && forall i :: 0 <= i < |ks| ==> calls[i] == Search(ks[i])
  {
    if ks == [] then [] else [Search(ks[0])] + SearchCalls(ks[1..])
  }

  function FetchCalls(ids: seq<string>): (calls: seq<Call>)
    ensures |calls| == |ids| && forall i :: 0 <= i < |ids| ==> calls[i] == FetchTracks(ids[i])
  {
    if ids == [] then [] else [FetchTracks(ids[0])] + FetchCalls(ids[1..])
  }

  /** `preview_playlist` gets past the token check and the keyphrase sentinel. */
  predicate Proceeds(session: map<string, string>, env: Collaborators)
  {
    AccessTokenKey in session && env.keyphrases != Some(NoKeyphrases)
  }

  /** The calls up to the creation of the temporary playlist. */
  function Created(calls0: seq<Call>, description: string, env: Collaborators): seq<Call>
  {
    calls0 + [GenerateKeyphrases(description), GetUser, CreatePlaylist(GetUserID(env.user))]
  }

  /**
   * The state after populating playlist `playlistID`, from `session0` and the calls `calls0`
   * made so far: the searches issued, then (if the search succeeded) the listings fetched,
   * then either the compensating delete and the fetch error page, or the add of the ranked
   * tracks, the preview page and the session entries.
   */
  ghost predicate Populated(session0: map<string, string>, calls0: seq<Call>,
                            session: map<string, string>, calls: seq<Call>, page: Page,
                            playlistID: string, keywords: seq<string>, description: string, numSongs: int,
                            excludeExplicit: bool, argId: Option<string>, env: Collaborators)
  {
    var g := Gather(keywords, env.search);
    var searched := calls0 + SearchCalls(g.searched);
    if g.found.None? then
      page == ErrorFetch && calls == searched + Cleanup(session0, argId) && session == session0
    else
      var fetched := searched + FetchCalls(Scan(g.found.value, env.listing, excludeExplicit).fetched);
      match PotentialTracks(g.found.value, env.listing, numSongs, excludeExplicit)
      case None =>
        page == ErrorFetch && calls == fetched + Cleanup(session0, argId) && session == session0
      case Some(tracks) =>
        && page == Preview(playlistID, description)
        && calls == fetched + [AddTracks(playlistID, TrackURIs(tracks))]
        && session == session0[PlaylistDescriptionKey := description][PlaylistIdKey := playlistID]
  }

  /** The name the commit uses: the stripped name field, or the generated name when that is blank. */
  function ChosenName(stripped: string, suggestedName: Option<string>): Option<string>
  {
    if stripped == "" then suggestedName else Some(stripped)
  }

  /** The name generation the commit asks for: one, exactly when the stripped name is blank. */
  function NamingCalls(stripped: string, description: string): seq<Call>
  {
    if stripped == "" then [GeneratePlaylistName(description)] else []
  }

  class App {
    var session: map<string, string>
    var calls: seq<Call>
    var page: Page

    constructor (session0: map<string, string>)
      ensures session == session0 && calls == [] && page == Home
    {
      session := session0;
      calls := [];
      page := Home;
    }

    /**
     * `preview_playlist`: with a token, extract keyphrases; unless they are the sentinel,
     * look the user up and create the temporary playlist; stop on the allow-list sentinel
     * or a falsy id; otherwise go on to `Populate`. A token of None (absent) redirects to
     * login; an empty token does not.
     */
    method PreviewPlaylist(description: string, numSongs: int, excludeExplicit: bool, argId: Option<string>,
                           env: Collaborators)
      modifies this
      ensures AccessTokenKey !in old(session) ==>
                page == RedirectLogin && calls == old(calls) && session == old(session)
      ensures AccessTokenKey in old(session) && env.keyphrases == Some(NoKeyphrases) ==>
                page == ErrorProcessing && calls == old(calls) + [GenerateKeyphrases(description)]
                && session == old(session)
      ensures Proceeds(old(session), env) && CreateTempPlaylist(env.create) == Some(WhitelistNeeded) ==>
                page == WhitelistForm && calls == Created(old(calls), description, env) && session == old(session)
      ensures Proceeds(old(session), env) && CreateTempPlaylist(env.create) != Some(WhitelistNeeded)
              && !Truthy(CreateTempPlaylist(env.create)) ==>
                page == ErrorCreate && calls == Created(old(calls), description, env) && session == old(session)
      ensures Proceeds(old(session), env) && CreateTempPlaylist(env.create) != Some(WhitelistNeeded)
              && Truthy(CreateTempPlaylist(env.create)) && env.keyphrases.None? ==>
                page == ServerError && calls == Created(old(calls), description, env) && session == old(session)
      ensures Proceeds(old(session), env) && CreateTempPlaylist(env.create) != Some(WhitelistNeeded)
              && Truthy(CreateTempPlaylist(env.create)) && env.keyphrases.Some? ==>
                Populated(old(session), Created(old(calls), description, env), session, calls, page,
                          CreateTempPlaylist(env.create).value, env.keyphrases.value,
                          description, numSongs, excludeExplicit, argId, env)
    {
      var accessToken := Get(session, AccessTokenKey);
      if accessToken.None? {
        page := RedirectLogin;
        return;
      }
      calls := calls + [GenerateKeyphrases(description)];
      var keywords := env.keyphrases;
      if keywords == Some(NoKeyphrases) {
        page := ErrorProcessing;
        return;
      }
      var userID := GetUserID(env.user);
      calls := calls + [GetUser, CreatePlaylist(userID)];
      assert calls == Created(old(calls), description, env);
      var playlistID := CreateTempPlaylist(env.create);
      if playlistID == Some(WhitelistNeeded) {
        page := WhitelistForm;
        return;
      }
      if !Truthy(playlistID) {
        page := ErrorCreate;
        return;
      }
      if keywords.None? {
        // iterating over None raises inside searchForPlaylists
        page := ServerError;
        return;
      }
      Populate(playlistID.value, keywords.value, description, numSongs, excludeExplicit, argId, env);
    }

    /**
     * The second half of `preview_playlist`, after the playlist was created: search and
     * rank; if either gives None, issue the compensating delete on the `id` query
     * argument (not on the new playlist) when it and the token are truthy, and show the
     * fetch error; otherwise add the ranked tracks to the new playlist and remember it and
     * the description in the session.
     */
    method Populate(playlistID: string, keywords: seq<string>, description: string, numSongs: int,
                    excludeExplicit: bool, argId: Option<string>, env: Collaborators)
      modifies this
      ensures Populated(old(session), old(calls), session, calls, page, playlistID, keywords,
                        description, numSongs, excludeExplicit, argId, env)
    {
      var playlists, searched := SearchForPlaylists(keywords, env.search);
      calls := calls + SearchCalls(searched);
      if playlists.None? {
        calls := calls + Cleanup(session, argId);
        page := ErrorFetch;
        return;
      }
      var tracks, fetched := GetPotentialTracks(playlists.value, env.listing, numSongs, excludeExplicit);
      calls := calls + FetchCalls(fetched);
      if tracks.None? {
        calls := calls + Cleanup(session, argId);
        page := ErrorFetch;
        return;
      }
      var trackURIs := TrackURIs(tracks.value);
      calls := calls + [AddTracks(playlistID, trackURIs)];
      session := session[PlaylistDescriptionKey := description];
      session := session[PlaylistIdKey := playlistID];
      page := Preview(playlistID, description);
    }

    /**
     * `save_playlist`: a blank name is replaced by a generated one (before the token is
     * checked); with a token the playlist is renamed, twice with the same arguments whatever
     * the first answer, and the description is dropped from the session. A missing
     * session description or name field raises.
     */
    method SavePlaylist(formId: Option<string>, formName: Option<string>, suggestedName: Option<string>)
      modifies this
      ensures PlaylistDescriptionKey !in old(session) || formName.None? ==>
                page == ServerError && calls == old(calls) && session == old(session)
      ensures PlaylistDescriptionKey in old(session) && formName.Some? && !Truthy(Get(old(session), AccessTokenKey)) ==>
                && page == RedirectLogin
                && calls == old(calls) + NamingCalls(Strip(formName.value), old(session)[PlaylistDescriptionKey])
                && session == old(session)
      ensures PlaylistDescriptionKey in old(session) && formName.Some? && Truthy(Get(old(session), AccessTokenKey)) ==>
                var description := old(session)[PlaylistDescriptionKey];
                var update := Update(formId, ChosenName(Strip(formName.value), suggestedName), FullDescription(description));
                && page == Success
                && calls == old(calls) + NamingCalls(Strip(formName.value), description) + [update, update]
                && session == old(session) - {PlaylistDescriptionKey}
    {
      var playlistID := formId;
      if PlaylistDescriptionKey !in session || formName.None? {
        page := ServerError;
        return;
      }
      var description := session[PlaylistDescriptionKey];
      var playlistName := NamePlaylist(formName.value, description, suggestedName);
      Rename(playlistID, playlistName, description);
    }

    /**
     * The head of `save_playlist`: the stripped name field, or, when that is blank, the
     * name generated from the description (`suggestedName` is that generator's answer).
     */
    method NamePlaylist(name: string, description: string, suggestedName: Option<string>)
      returns (playlistName: Option<string>)
      modifies this
      ensures playlistName == ChosenName(Strip(name), suggestedName)
      ensures calls == old(calls) + NamingCalls(Strip(name), description)
      ensures session == old(session) && page == old(page)
    {
      var stripped := Strip(name);
      playlistName := Some(stripped);
      if stripped == "" {
        calls := calls + [GeneratePlaylistName(description)];
        playlistName := suggestedName;
      }
    }

    /**
     * The tail of `save_playlist`, once the name is settled: without a truthy token, redirect
     * to login; otherwise rename the playlist twice and drop the description from the session.
     */
    method Rename(playlistID: Option<string>, playlistName: Option<string>, description: string)
      modifies this
      ensures !Truthy(Get(old(session), AccessTokenKey)) ==>
                page == RedirectLogin && calls == old(calls) && session == old(session)
      ensures Truthy(Get(old(session), AccessTokenKey)) ==>
                var update := Update(playlistID, playlistName, FullDescription(description));
                && page == Success
                && calls == old(calls) + [update, update]
                && session == old(session) - {PlaylistDescriptionKey}
    {
      var accessToken := Get(session, AccessTokenKey);
      if !Truthy(accessToken) {
        page := RedirectLogin;
        return;
      }
      var fullDescription := FullDescription(description);
      calls := calls + [Update(playlistID, playlistName, fullDescription)];
      // the first result is only printed, so the second update follows whatever it was
      fullDescription := FullDescription(description);
      calls := calls + [Update(playlistID, playlistName, fullDescription)];
      session := session - {PlaylistDescriptionKey};
      page := Success;
    }

    /** `discard_playlist`: with a truthy token and `id` argument, delete that playlist and drop the description. */
    method DiscardPlaylist(argId: Option<string>)
      modifies this
      ensures page == Discarded
      ensures Truthy(Get(old(session), AccessTokenKey)) && Truthy(argId) ==>
                calls == old(calls) + [Delete(argId.value)] && session == old(session) - {PlaylistDescriptionKey}
      ensures !(Truthy(Get(old(session), AccessTokenKey)) && Truthy(argId)) ==>
                calls == old(calls) && session == old(session)
    {
      var playlistID := argId;
      var accessToken := Get(session, AccessTokenKey);
      if Truthy(accessToken) && Truthy(playlistID) {
        calls := calls + [Delete(playlistID.value)];
        session := session - {PlaylistDescriptionKey};
      }
      page := Discarded;
    }
  }
}
