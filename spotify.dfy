/**
 * The Spotify Web API client of app/spotify.py: the playlist search aggregator
 * (`searchForPlaylists`), the track frequency ranker (`getPotentialTracks`) and the
 * status classifiers of `getUserID`, `createTempPlaylist`, `updatePlaylist` and
 * `deletePlaylist`. Every HTTP request is an input: a function from the request's
 * parameter (keyphrase or playlist id) to its outcome.
 */
module Spotify {
  import opened Wrappers
  import opened Ranking

  /** One element of a search result's `items`: not a JSON object, or an object with an optional `id`. */
  datatype Entry = NotAnObject | Playlist(id: Option<string>)

  /** The `track` object of a listing item: its `id` and its `explicit` flag (either may be absent). */
  datatype Track = Track(id: Option<string>, explicit: Option<bool>)

  /** One element of a track listing's `items`; `track` is absent, `null` or an object. */
  datatype Item = Item(track: Option<Track>)

  /**
   * One GET request: it raised, or it answered with a status code and the `items`
   * list of its JSON body (an absent list reads as empty, as `.get("items", [])` does).
   */
  datatype Outcome<T> = Raised | Resp(status: int, items: seq<T>)

  /** A response read for its status code and the `id` field of its JSON body. */
  datatype Response = Response(status: int, id: Option<string>)

  predicate Ok<T>(o: Outcome<T>)
  {
    o.Resp? && o.status == 200
  }

  // ---------------------------------------------------------------------------
  // searchForPlaylists (app/spotify.py:10-28)
  // ---------------------------------------------------------------------------

  /** What a run of the search loop has produced: the playlists (None once it gave up) and the keyphrases searched. */
  datatype Gathered = Gathered(found: Option<seq<Entry>>, searched: seq<string>)

  /** The search loop over `ks`, one keyphrase at a time. */
  function Gather(ks: seq<string>, search: string -> Outcome<Entry>): Gathered
  {
    if ks == [] then Gathered(Some([]), [])
    else
      var g := Gather(ks[..|ks| - 1], search);
      var k := ks[|ks| - 1];
      if g.found.None? then g
      else match search(k)
        case Raised => Gathered(None, g.searched + [k])
        case Resp(status, items) =>
          Gathered(if status == 200 then Some(g.found.value + items) else None, g.searched + [k])
  }

  /** Reference definition: the `items` of every keyphrase's search, in keyphrase order. */
  function AllItems(ks: seq<string>, search: string -> Outcome<Entry>): seq<Entry>
    requires forall i :: 0 <= i < |ks| ==> Ok(search(ks[i]))
  {
    if ks == [] then []
    else
      assert Ok(search(ks[0]));
      search(ks[0]).items + AllItems(ks[1..], search)
  }

  lemma {:induction false} AllItemsAppend(ks: seq<string>, search: string -> Outcome<Entry>)
    requires ks != []
    requires forall i :: 0 <= i < |ks| ==> Ok(search(ks[i]))
    ensures AllItems(ks, search) == AllItems(ks[..|ks| - 1], search) + search(ks[|ks| - 1]).items
  {
    var init := ks[..|ks| - 1];
    var last := search(ks[|ks| - 1]).items;
    if |ks| == 1 {
      assert init == [] && ks[1..] == [];
      assert AllItems(ks, search) == search(ks[0]).items + [];
    } else {
      var tail := ks[1..];
      AllItemsAppend(tail, search);
      assert tail[..|tail| - 1] == init[1..];
      assert tail[|tail| - 1] == ks[|ks| - 1];
      assert init[0] == ks[0];
      calc {
        AllItems(ks, search);
        search(ks[0]).items + AllItems(tail, search);
        search(ks[0]).items + (AllItems(init[1..], search) + last);
        (search(init[0]).items + AllItems(init[1..], search)) + last;
        AllItems(init, search) + last;
      }
    }
  }

  /** Once the loop has given up, later keyphrases change nothing: they are never searched. */
  lemma {:induction false} GatherStops(ks: seq<string>, n: nat, search: string -> Outcome<Entry>)
    requires n <= |ks|
    requires Gather(ks[..n], search).found.None?
    ensures Gather(ks, search) == Gather(ks[..n], search)
    decreases |ks|
  {
    if n < |ks| {
      var init := ks[..|ks| - 1];
      assert init[..n] == ks[..n];
      GatherStops(init, n, search);
    } else {
      assert ks[..n] == ks;
    }
  }

  /** The aggregation succeeds iff every search answered 200, and then every keyphrase was searched. */
  lemma {:induction false} GatherSucceedsIff(ks: seq<string>, search: string -> Outcome<Entry>)
    ensures Gather(ks, search).found.Some? <==> forall i :: 0 <= i < |ks| ==> Ok(search(ks[i]))
    ensures Gather(ks, search).found.Some? ==> Gather(ks, search).searched == ks
    ensures ks == [] ==> Gather(ks, search).found == Some([])
  {
    if ks != [] {
      var init := ks[..|ks| - 1];
      var k := ks[|ks| - 1];
      GatherSucceedsIff(init, search);
      var g := Gather(init, search);
      if g.found.None? {
        assert Gather(ks, search) == g;
        var i :| 0 <= i < |init| && !Ok(search(init[i]));
        assert init[i] == ks[i];
      } else if !Ok(search(k)) {
        assert Gather(ks, search).found.None?;
      } else {
        forall i | 0 <= i < |ks|
          ensures Ok(search(ks[i]))
        {
          if i < |init| {
            assert init[i] == ks[i];
          }
        }
        assert Gather(ks, search).searched == init + [k];
        assert init + [k] == ks;
      }
    }
  }

  /** On success the result is the concatenation of every search's `items`, in keyphrase order. */
  lemma {:induction false} GatherConcat(ks: seq<string>, search: string -> Outcome<Entry>)
    requires Gather(ks, search).found.Some?
    ensures forall i :: 0 <= i < |ks| ==> Ok(search(ks[i]))
    ensures Gather(ks, search).found.value == AllItems(ks, search)
  {
    GatherSucceedsIff(ks, search);
    if ks != [] {
      var init := ks[..|ks| - 1];
      GatherConcat(init, search);
      AllItemsAppend(ks, search);
    }
  }

  /**
   * On failure the searches stop at the first failing keyphrase: the keyphrases searched are a
   * non-empty prefix of `ks`, the last of them failed and every earlier one answered 200.
   */
  lemma {:induction false} GatherStopsAtFailure(ks: seq<string>, search: string -> Outcome<Entry>)
    requires Gather(ks, search).found.None?
    ensures var s := Gather(ks, search).searched;
            && 0 < |s| <= |ks| && s == ks[..|s|] && !Ok(search(s[|s| - 1]))
            && forall i :: 0 <= i < |s| - 1 ==> Ok(search(s[i]))
  {
    assert ks != [];
    var init := ks[..|ks| - 1];
    var k := ks[|ks| - 1];
    var g := Gather(init, search);
    if g.found.None? {
      assert Gather(ks, search) == g;
      GatherStopsAtFailure(init, search);
      assert ks[..|g.searched|] == init[..|g.searched|];
    } else {
      GatherSucceedsIff(init, search);
      assert !Ok(search(k));
      assert Gather(ks, search).searched == init + [k] == ks;
      assert forall i :: 0 <= i < |ks| - 1 ==> ks[i] == init[i];
    }
  }

  /** `searchForPlaylists`: one search per keyphrase, extending the result with each search's `items`. */
  method SearchForPlaylists(keyphrases: seq<string>, search: string -> Outcome<Entry>)
    returns (playlists: Option<seq<Entry>>, searched: seq<string>)
    ensures Gathered(playlists, searched) == Gather(keyphrases, search)
    ensures playlists.Some? <==> forall i :: 0 <= i < |keyphrases| ==> Ok(search(keyphrases[i]))
    ensures playlists.Some? ==> playlists.value == AllItems(keyphrases, search) && searched == keyphrases
  {
    GatherSucceedsIff(keyphrases, search);
    if Gather(keyphrases, search).found.Some? {
      GatherConcat(keyphrases, search);
    }
    var found: seq<Entry> := [];
    searched := [];
    for i := 0 to |keyphrases|
      invariant Gather(keyphrases[..i], search) == Gathered(Some(found), searched)
    {
      assert keyphrases[..i + 1][..i] == keyphrases[..i];
      var k := keyphrases[i];
      searched := searched + [k];
      var response := search(k);
      if response.Raised? || response.status != 200 {
        GatherStops(keyphrases, i + 1, search);
        playlists := None;
        return;
      }
      found := found + response.items;
    }
    assert keyphrases[..|keyphrases|] == keyphrases;
    playlists := Some(found);
  }

  // ---------------------------------------------------------------------------
  // getPotentialTracks (app/spotify.py:33-68)
  // ---------------------------------------------------------------------------

  /** The id a playlist entry is fetched under; None for an entry the ranker skips. */
  function PlaylistId(p: Entry): (r: Option<string>)
    ensures r.Some? <==> p.Playlist? && Truthy(p.id)
    ensures r.Some? ==> r == p.id
  {
    match p
    case NotAnObject => None
    case Playlist(id) => if Truthy(id) then id else None
  }

  /** The track id an item adds to the tally, if any. */
  function Counted(item: Item, excludeExplicit: bool): (r: Option<string>)
    ensures r.Some? ==> r.value != "" && item.track.Some? && item.track.value.id == r
    ensures r.Some? && excludeExplicit ==> item.track.value.explicit != Some(true)
    ensures (item.track.Some? && Truthy(item.track.value.id)
             && !(excludeExplicit && item.track.value.explicit == Some(true))) ==> r.Some?
  {
    match item.track
    case None => None
    case Some(track) =>
      if excludeExplicit && track.explicit == Some(true) then None
      else if Truthy(track.id) then track.id else None
  }

  /** The ids one listing adds to the tally, in item order. */
  function ItemIds(items: seq<Item>, excludeExplicit: bool): seq<string>
  {
    if items == [] then []
    else
      var init := ItemIds(items[..|items| - 1], excludeExplicit);
      match Counted(items[|items| - 1], excludeExplicit)
      case None => init
      case Some(k) => init + [k]
  }

  lemma ItemIdsStep(items: seq<Item>, j: nat, excludeExplicit: bool)
    requires j < |items|
    ensures ItemIds(items[..j + 1], excludeExplicit)
         == ItemIds(items[..j], excludeExplicit)
            + match Counted(items[j], excludeExplicit) case None => [] case Some(k) => [k]
  {
    assert items[..j + 1][..j] == items[..j];
  }

  /** What a run of the ranking loop has produced: the ids tallied so far, in order (None once a fetch raised), and the playlist ids fetched. */
  datatype Walk = Walk(occ: Option<seq<string>>, fetched: seq<string>)

  /** One pass of the ranking loop, over entry `p`, after the loop has produced `w`. */
  function Visit(w: Walk, p: Entry, fetch: string -> Outcome<Item>, excludeExplicit: bool): Walk
  {
    if w.occ.None? then w
    else match PlaylistId(p)
      case None => w
      case Some(id) =>
        match fetch(id)
        case Raised => Walk(None, w.fetched + [id])
        case Resp(status, items) =>
          Walk(if status == 200 then Some(w.occ.value + ItemIds(items, excludeExplicit)) else w.occ,
               w.fetched + [id])
  }

  /** The ranking loop over the playlist entries `ps`, one entry at a time. */
  function Scan(ps: seq<Entry>, fetch: string -> Outcome<Item>, excludeExplicit: bool): Walk
  {
    if ps == [] then Walk(Some([]), [])
    else Visit(Scan(ps[..|ps| - 1], fetch, excludeExplicit), ps[|ps| - 1], fetch, excludeExplicit)
  }

  lemma ScanStep(ps: seq<Entry>, i: nat, fetch: string -> Outcome<Item>, excludeExplicit: bool)
    requires i < |ps|
    ensures Scan(ps[..i + 1], fetch, excludeExplicit)
         == Visit(Scan(ps[..i], fetch, excludeExplicit), ps[i], fetch, excludeExplicit)
  {
    assert ps[..i + 1][..i] == ps[..i];
  }

  /** `getPotentialTracks`: the tallied ids by descending count, ties first-seen first, cut to `min(numSongs, 100)`. */
  function PotentialTracks(ps: seq<Entry>, fetch: string -> Outcome<Item>, numSongs: int, excludeExplicit: bool)
    : (r: Option<seq<string>>)
    ensures r.None? <==> Scan(ps, fetch, excludeExplicit).occ.None?
    ensures r.Some? ==> r.value <= Ranked(Scan(ps, fetch, excludeExplicit).occ.value)
  {
    match Scan(ps, fetch, excludeExplicit).occ
    case None => None
    case Some(occ) => Some(PySlice(Ranked(occ), Min(numSongs, 100)))
  }

  /** Running the loop over `a + b` is running it over `a`, then (unless it gave up) over `b`. */
  function Then(x: Walk, y: Walk): Walk
  {
    if x.occ.None? then x
    else if y.occ.None? then Walk(None, x.fetched + y.fetched)
    else Walk(Some(x.occ.value + y.occ.value), x.fetched + y.fetched)
  }

  lemma {:induction false} ScanAppend(a: seq<Entry>, b: seq<Entry>, fetch: string -> Outcome<Item>, excludeExplicit: bool)
    ensures Scan(a + b, fetch, excludeExplicit) == Then(Scan(a, fetch, excludeExplicit), Scan(b, fetch, excludeExplicit))
    decreases |b|
  {
    if b == [] {
      assert a + b == a;
      var x := Scan(a, fetch, excludeExplicit);
      assert x.fetched + [] == x.fetched;
      assert x.occ.Some? ==> x.occ.value + [] == x.occ.value;
    } else {
      var b' := b[..|b| - 1];
      assert (a + b)[..|a + b| - 1] == a + b';
      assert (a + b)[|a + b| - 1] == b[|b| - 1];
      ScanAppend(a, b', fetch, excludeExplicit);
      var x, y := Scan(a, fetch, excludeExplicit), Scan(b', fetch, excludeExplicit);
      if x.occ.Some? && y.occ.Some? {
        match PlaylistId(b[|b| - 1])
        case None =>
        case Some(id) =>
          assert x.fetched + y.fetched + [id] == x.fetched + (y.fetched + [id]);
          match fetch(id)
          case Raised =>
          case Resp(status, items) =>
            assert x.occ.value + y.occ.value + ItemIds(items, excludeExplicit)
                == x.occ.value + (y.occ.value + ItemIds(items, excludeExplicit));
      }
    }
  }

  lemma ScanStops(ps: seq<Entry>, n: nat, fetch: string -> Outcome<Item>, excludeExplicit: bool)
    requires n <= |ps|
    requires Scan(ps[..n], fetch, excludeExplicit).occ.None?
    ensures Scan(ps, fetch, excludeExplicit) == Scan(ps[..n], fetch, excludeExplicit)
  {
    assert ps == ps[..n] + ps[n..];
    ScanAppend(ps[..n], ps[n..], fetch, excludeExplicit);
  }

  /** The fetch of entry `p` raises. */
  predicate Raises(p: Entry, fetch: string -> Outcome<Item>)
  {
    PlaylistId(p).Some? && fetch(PlaylistId(p).value).Raised?
  }

  lemma {:induction false} ScanAbortIff(ps: seq<Entry>, fetch: string -> Outcome<Item>, excludeExplicit: bool)
    ensures Scan(ps, fetch, excludeExplicit).occ.None? <==> exists i :: 0 <= i < |ps| && Raises(ps[i], fetch)
  {
    if ps != [] {
      var init := ps[..|ps| - 1];
      ScanAbortIff(init, fetch, excludeExplicit);
      if exists i :: 0 <= i < |init| && Raises(init[i], fetch) {
        var i :| 0 <= i < |init| && Raises(init[i], fetch);
        assert ps[i] == init[i];
      }
      if exists i :: 0 <= i < |ps| && Raises(ps[i], fetch) {
        var i :| 0 <= i < |ps| && Raises(ps[i], fetch);
        if i < |init| {
          assert init[i] == ps[i];
        }
      }
    }
  }

  /** Skip vs. abort: the ranking gives up (returns None) iff the fetch of some fetched entry raised. */
  lemma AbortIff(ps: seq<Entry>, fetch: string -> Outcome<Item>, numSongs: int, excludeExplicit: bool)
    ensures PotentialTracks(ps, fetch, numSongs, excludeExplicit).None?
        <==> exists i :: 0 <= i < |ps| && Raises(ps[i], fetch)
  {
    ScanAbortIff(ps, fetch, excludeExplicit);
  }

  /** Skip: a non-object entry, or one with a falsy `id`, is neither fetched nor counted. */
  lemma InvalidEntrySkipped(a: seq<Entry>, p: Entry, b: seq<Entry>, fetch: string -> Outcome<Item>, excludeExplicit: bool)
    requires p.NotAnObject? || !Truthy(p.id)
    ensures Scan(a + [p] + b, fetch, excludeExplicit) == Scan(a + b, fetch, excludeExplicit)
  {
    ScanAppend(a + [p], b, fetch, excludeExplicit);
    ScanAppend(a, [p], fetch, excludeExplicit);
    ScanAppend(a, b, fetch, excludeExplicit);
  }

  /** Skip: a listing answered with a status other than 200 is fetched but adds nothing, and ranking goes on. */
  lemma NonOkListingSkipped(a: seq<Entry>, p: Entry, b: seq<Entry>, fetch: string -> Outcome<Item>, excludeExplicit: bool)
    requires PlaylistId(p).Some? && fetch(PlaylistId(p).value).Resp? && fetch(PlaylistId(p).value).status != 200
    requires Scan(a, fetch, excludeExplicit).occ.Some?
    ensures Scan(a + [p] + b, fetch, excludeExplicit).occ == Scan(a + b, fetch, excludeExplicit).occ
    ensures Scan(a + [p] + b, fetch, excludeExplicit).fetched
         == Scan(a, fetch, excludeExplicit).fetched + [PlaylistId(p).value] + Scan(b, fetch, excludeExplicit).fetched
  {
    ScanAppend(a + [p], b, fetch, excludeExplicit);
    ScanAppend(a, [p], fetch, excludeExplicit);
    ScanAppend(a, b, fetch, excludeExplicit);
  }

  /** The ids of the entries that are fetched when nothing raises: every valid entry, repeats included. */
  function FetchedIds(ps: seq<Entry>): seq<string>
  {
    if ps == [] then []
    else (match PlaylistId(ps[0]) case None => [] case Some(id) => [id]) + FetchedIds(ps[1..])
  }

  lemma {:induction false} FetchesEveryValidEntry(ps: seq<Entry>, fetch: string -> Outcome<Item>, excludeExplicit: bool)
    requires Scan(ps, fetch, excludeExplicit).occ.Some?
    ensures Scan(ps, fetch, excludeExplicit).fetched == FetchedIds(ps)
  {
    if ps != [] {
      assert ps == [ps[0]] + ps[1..];
      ScanAppend([ps[0]], ps[1..], fetch, excludeExplicit);
      FetchesEveryValidEntry(ps[1..], fetch, excludeExplicit);
      assert [ps[0]][..0] == [];
    }
  }

  /** Reference count: the items of `items` that carry track id `k` and are not filtered out. */
  function CountIn(items: seq<Item>, excludeExplicit: bool, k: string): nat
  {
    if items == [] then 0
    else (if Counted(items[0], excludeExplicit) == Some(k) then 1 else 0) + CountIn(items[1..], excludeExplicit, k)
  }

  /** Reference count over entries: each fetched listing answered with 200 contributes its own count. */
  function ListingCount(ps: seq<Entry>, fetch: string -> Outcome<Item>, excludeExplicit: bool, k: string): nat
  {
    if ps == [] then 0
    else
      var here :=
        match PlaylistId(ps[0])
        case None => 0
        case Some(id) => if Ok(fetch(id)) then CountIn(fetch(id).items, excludeExplicit, k) else 0;
      here + ListingCount(ps[1..], fetch, excludeExplicit, k)
  }

  lemma {:induction false} CountInAppend(a: seq<Item>, b: seq<Item>, excludeExplicit: bool, k: string)
    ensures CountIn(a + b, excludeExplicit, k) == CountIn(a, excludeExplicit, k) + CountIn(b, excludeExplicit, k)
  {
    if a != [] {
      assert (a + b)[1..] == a[1..] + b;
      CountInAppend(a[1..], b, excludeExplicit, k);
    } else {
      assert a + b == b;
    }
  }

  lemma {:induction false} ItemIdsCount(items: seq<Item>, excludeExplicit: bool, k: string)
    ensures multiset(ItemIds(items, excludeExplicit))[k] == CountIn(items, excludeExplicit, k)
  {
    if items != [] {
      var init := items[..|items| - 1];
      var last := items[|items| - 1];
      var added := Counted(last, excludeExplicit);
      ItemIdsCount(init, excludeExplicit, k);
      assert items == init + [last];
      CountInAppend(init, [last], excludeExplicit, k);
      assert [last][1..] == [];
      assert CountIn([last], excludeExplicit, k) == if added == Some(k) then 1 else 0;
      if added.Some? {
        assert ItemIds(items, excludeExplicit) == ItemIds(init, excludeExplicit) + [added.value];
      } else {
        assert ItemIds(items, excludeExplicit) == ItemIds(init, excludeExplicit);
      }
    }
  }

  /**
   * What a count means: the tally of `k` is the number of items carrying `k`, over every
   * listing answered with 200; repeats within a listing and repeated entries all add.
   */
  lemma {:induction false} CountMeaning(ps: seq<Entry>, fetch: string -> Outcome<Item>, excludeExplicit: bool, k: string)
    requires Scan(ps, fetch, excludeExplicit).occ.Some?
    ensures Cnt(Tally(Scan(ps, fetch, excludeExplicit).occ.value), k) == ListingCount(ps, fetch, excludeExplicit, k)
  {
    TallyCounts(Scan(ps, fetch, excludeExplicit).occ.value, k);
    OccurrencesCount(ps, fetch, excludeExplicit, k);
  }

  lemma {:induction false} OccurrencesCount(ps: seq<Entry>, fetch: string -> Outcome<Item>, excludeExplicit: bool, k: string)
    requires Scan(ps, fetch, excludeExplicit).occ.Some?
    ensures multiset(Scan(ps, fetch, excludeExplicit).occ.value)[k] == ListingCount(ps, fetch, excludeExplicit, k)
  {
    if ps != [] {
      assert ps == [ps[0]] + ps[1..];
      ScanAppend([ps[0]], ps[1..], fetch, excludeExplicit);
      OccurrencesCount(ps[1..], fetch, excludeExplicit, k);
      assert [ps[0]][..0] == [];
      match PlaylistId(ps[0])
      case None =>
      case Some(id) =>
        if Ok(fetch(id)) {
          ItemIdsCount(fetch(id).items, excludeExplicit, k);
        }
    }
  }

  /** A listing with its explicit tracks removed. */
  function NonExplicit(items: seq<Item>): seq<Item>
  {
    if items == [] then []
    else
      var last := items[|items| - 1];
      NonExplicit(items[..|items| - 1])
        + (if last.track.Some? && last.track.value.explicit == Some(true) then [] else [last])
  }

  /** The catalog with every listing's explicit tracks removed. */
  function DropExplicit(fetch: string -> Outcome<Item>): string -> Outcome<Item>
  {
    id => match fetch(id) case Raised => Raised case Resp(status, items) => Resp(status, NonExplicit(items))
  }

  lemma {:induction false} ItemIdsNonExplicit(items: seq<Item>)
    ensures ItemIds(items, true) == ItemIds(NonExplicit(items), false)
  {
    if items != [] {
      var init := items[..|items| - 1];
      var last := items[|items| - 1];
      ItemIdsNonExplicit(init);
      var ne := NonExplicit(init);
      if !(last.track.Some? && last.track.value.explicit == Some(true)) {
        assert NonExplicit(items) == ne + [last];
        assert (ne + [last])[..|ne + [last]| - 1] == ne;
        assert Counted(last, true) == Counted(last, false);
      } else {
        assert NonExplicit(items) == ne;
        assert Counted(last, true).None?;
      }
    }
  }

  /**
   * The explicit filter: excluding explicit tracks is exactly ranking a catalog from
   * which every explicit item was removed, with all other items counted as before.
   */
  lemma {:induction false} ExcludeExplicitIsDropExplicit(ps: seq<Entry>, fetch: string -> Outcome<Item>)
    ensures Scan(ps, fetch, true) == Scan(ps, DropExplicit(fetch), false)
  {
    if ps != [] {
      ExcludeExplicitIsDropExplicit(ps[..|ps| - 1], fetch);
      match PlaylistId(ps[|ps| - 1])
      case None =>
      case Some(id) =>
        if fetch(id).Resp? {
          ItemIdsNonExplicit(fetch(id).items);
        }
    }
  }

  /**
   * The result: at most `min(numSongs, 100)` ids when `numSongs >= 0`, no id twice, a
   * prefix of the full ranking, non-increasing in count, and every id in it was
   * counted at least once.
   */
  lemma RankedResult(ps: seq<Entry>, fetch: string -> Outcome<Item>, numSongs: int, excludeExplicit: bool)
    requires PotentialTracks(ps, fetch, numSongs, excludeExplicit).Some?
    ensures var r := PotentialTracks(ps, fetch, numSongs, excludeExplicit).value;
            var occ := Scan(ps, fetch, excludeExplicit).occ.value;
            && (numSongs >= 0 ==> |r| == Min(Min(numSongs, 100), |Ranked(occ)|))
            && (numSongs < 0 ==> |r| == if |Ranked(occ)| + numSongs < 0 then 0 else |Ranked(occ)| + numSongs)
            && r <= Ranked(occ)
            && Distinct(r)
            && SortedDesc(r, Tally(occ))
            && (forall x :: x in r ==> ListingCount(ps, fetch, excludeExplicit, x) > 0)
  {
    var occ := Scan(ps, fetch, excludeExplicit).occ.value;
    var r := PySlice(Ranked(occ), Min(numSongs, 100));
    PrefixKeeps(occ, r);
    forall x | x in r
      ensures ListingCount(ps, fetch, excludeExplicit, x) > 0
    {
      CountMeaning(ps, fetch, excludeExplicit, x);
      TallyCounts(occ, x);
    }
  }

  /** A prefix of the ranking of `occ` is distinct, sorted, and holds only ids of `occ`. */
  lemma PrefixKeeps(occ: seq<string>, r: seq<string>)
    requires r <= Ranked(occ)
    ensures Distinct(r) && SortedDesc(r, Tally(occ))
    ensures forall x :: x in r ==> x in occ
  {
    RankedCorrect(occ);
    assert forall i :: 0 <= i < |r| ==> r[i] == Ranked(occ)[i];
  }

  /** Empty inputs: no entries, or nothing left after filtering, give the empty list, not None. */
  lemma EmptyInputs(ps: seq<Entry>, fetch: string -> Outcome<Item>, numSongs: int, excludeExplicit: bool)
    ensures PotentialTracks([], fetch, numSongs, excludeExplicit) == Some([])
    ensures Scan(ps, fetch, excludeExplicit).occ == Some([]) ==> PotentialTracks(ps, fetch, numSongs, excludeExplicit) == Some([])
  {
  }

  /** The ids seen after item `j` are those seen before it, plus its id when it counts. */
  lemma SeenStep(occ: seq<string>, items: seq<Item>, j: nat, excludeExplicit: bool)
    requires j < |items|
    ensures Counted(items[j], excludeExplicit).None? ==>
              occ + ItemIds(items[..j + 1], excludeExplicit) == occ + ItemIds(items[..j], excludeExplicit)
    ensures Counted(items[j], excludeExplicit).Some? ==>
              occ + ItemIds(items[..j + 1], excludeExplicit)
              == occ + ItemIds(items[..j], excludeExplicit) + [Counted(items[j], excludeExplicit).value]
  {
    ItemIdsStep(items, j, excludeExplicit);
  }

  /**
   * The inner loop of `getPotentialTracks`: adds one listing's items to the dictionary
   * `counts` (whose key order is `order`), skipping items with no track, explicit tracks
   * when they are excluded, and tracks with no id.
   */
  method CountListing(counts: map<string, nat>, order: seq<string>, items: seq<Item>, excludeExplicit: bool,
                      ghost occ: seq<string>)
    returns (counts': map<string, nat>, order': seq<string>)
    requires counts == Tally(occ) && order == Dedup(occ)
    ensures counts' == Tally(occ + ItemIds(items, excludeExplicit))
    ensures order' == Dedup(occ + ItemIds(items, excludeExplicit))
  {
    counts', order' := counts, order;
    ghost var seen := occ;
    assert items[..0] == [] && occ + [] == occ;
    for j := 0 to |items|
      invariant seen == occ + ItemIds(items[..j], excludeExplicit)
      invariant counts' == Tally(seen) && order' == Dedup(seen)
    {
      SeenStep(occ, items, j, excludeExplicit);
      var track := items[j].track;
      if track.Some? {
        if excludeExplicit && track.value.explicit == Some(true) {
          continue;
        }
        var trackID := track.value.id;
        if Truthy(trackID) {
          var k := trackID.value;
          RecordOne(seen, k);
          if k !in counts' {
            order' := order' + [k];
          }
          counts' := counts'[k := Cnt(counts', k) + 1];
          seen := seen + [k];
        }
      }
    }
    assert items[..|items|] == items;
  }

  /** `getPotentialTracks`: tallies the tracks of each playlist into a dictionary, then sorts and cuts it. */
  method GetPotentialTracks(playlists: seq<Entry>, fetch: string -> Outcome<Item>, numSongs: int, excludeExplicit: bool)
    returns (tracks: Option<seq<string>>, fetched: seq<string>)
    ensures tracks == PotentialTracks(playlists, fetch, numSongs, excludeExplicit)
    ensures fetched == Scan(playlists, fetch, excludeExplicit).fetched
  {
    var counts: map<string, nat> := map[];
    var order: seq<string> := [];  // the dictionary's key order
    var size := Min(numSongs, 100);
    fetched := [];
    ghost var occ: seq<string> := [];
    for i := 0 to |playlists|
      invariant Scan(playlists[..i], fetch, excludeExplicit) == Walk(Some(occ), fetched)
      invariant counts == Tally(occ) && order == Dedup(occ)
    {
      ScanStep(playlists, i, fetch, excludeExplicit);
      var p := playlists[i];
      if p.NotAnObject? {
        continue;
      }
      var playlistID := p.id;
      if !Truthy(playlistID) {
        continue;
      }
      var id := playlistID.value;
      fetched := fetched + [id];
      var response := fetch(id);
      if response.Raised? {
        ScanStops(playlists, i + 1, fetch, excludeExplicit);
        tracks := None;
        return;
      }
      if response.status == 200 {
        counts, order := CountListing(counts, order, response.items, excludeExplicit, occ);
        occ := occ + ItemIds(response.items, excludeExplicit);
      }
    }
    assert playlists[..|playlists|] == playlists;
    tracks := Some(PySlice(SortDesc(order, counts), size));
  }

  // ---------------------------------------------------------------------------
  // Status classifiers (app/spotify.py:84-161)
  // ---------------------------------------------------------------------------

  /** The sentinel `createTempPlaylist` returns when the account is not allow-listed. */
  const WhitelistNeeded := "whitelist needed"

  /** `getUserID`: the profile's id on 200, otherwise None. */
  function GetUserID(response: Response): (userID: Option<string>)
    ensures response.status == 200 ==> userID == response.id
    ensures response.status != 200 ==> userID.None?
  {
    if response.status != 200 then None else response.id
  }

  /** `createTempPlaylist`: the sentinel on 403, None on any other status but 201, the new id on 201. */
  function CreateTempPlaylist(response: Response): (playlistID: Option<string>)
    ensures response.status == 403 ==> playlistID == Some(WhitelistNeeded)
    ensures response.status != 403 && response.status != 201 ==> playlistID.None?
    ensures response.status == 201 ==> playlistID == response.id
  {
    if response.status == 403 then Some(WhitelistNeeded)
    else if response.status != 201 then None
    else response.id
  }

  /** `updatePlaylist`: succeeded iff the status is 200. */
  function UpdatePlaylist(status: int): (success: bool)
    ensures success <==> status == 200
  {
    status == 200
  }

  /** `deletePlaylist`: succeeded iff the status is 200. */
  function DeletePlaylist(status: int): (success: bool)
    ensures success <==> status == 200
  {
    status == 200
  }
}
