/**
 * The home page (src/app/page.tsx): the recommendation playlists built from the listening
 * history by a background worker, with a skeleton playlist standing in while a request is
 * out; the "recently played" tiles; and playing a recommendation.
 *
 * The list updates are functions; the page's refs, the worker and `localStorage` are the
 * fields of `Home`, and each effect is one method, run after the commit that changed what it
 * depends on.
 */
module HomePage {
  import opened Types
  import opened TrackLists
  import NumberText
  import PlayerContext

  /** `RECOMMENDATION_REFRESH_THRESHOLD`: new tracks in the history that warrant a new request. */
  const RefreshThreshold: nat := 5
  /** `MAX_PLAYLISTS`: recommendation playlists kept. */
  const MaxPlaylists: nat := 3
  /** The id prefix of the stand-in tracks of a skeleton playlist. */
  const SkeletonPrefix: string := "skeleton-"

  datatype RecPlaylist = RecPlaylist(playlistTitle: string, tracks: seq<Track>)

  /** What the worker posts back: an error, or a titled list of recommended tracks. */
  datatype WorkerReply = WorkerError(error: string) | Recommended(playlistTitle: string, recommendations: seq<Track>)

  /** A history entry as it is posted to the worker. */
  datatype Summary = Summary(title: string, artist: string)

  /** An entry of the placeholder image list. */
  datatype Image = Image(id: string, description: string, imageUrl: string, imageHint: string)

  /** A "recently played" tile: a placeholder image, or a track of the history. */
  datatype Item = Item(id: string, description: string, imageUrl: string, imageHint: string, track: Option<Track>, isPlaceholder: bool)

  function Min(a: nat, b: nat): nat
  {
    if a < b then a else b
  }

  /** `id.startsWith('skeleton-')`. */
  predicate IsSkeletonId(id: string)
  {
    |SkeletonPrefix| <= |id| && id[..|SkeletonPrefix|] == SkeletonPrefix
  }

  /** `p.tracks[0]?.id.startsWith('skeleton-')`: the test the list updates and the save guard use. */
  predicate HeadIsSkeleton(p: RecPlaylist)
  {
    |p.tracks| > 0 && IsSkeletonId(p.tracks[0].id)
  }

  /** `p.tracks.some(t => t.id.startsWith('skeleton-'))`: the test the rendering uses. */
  predicate HasSkeletonTrack(p: RecPlaylist)
  {
    exists i :: 0 <= i < |p.tracks| && IsSkeletonId(p.tracks[i].id)
  }

  /** `p.tracks[0]?.id`. */
  function FirstId(p: RecPlaylist): Option<string>
  {
    if |p.tracks| == 0 then None else Some(p.tracks[0].id)
  }

  /** Two playlists count as the same recommendation when title and first track id agree. */
  predicate SameRecommendation(p: RecPlaylist, q: RecPlaylist)
  {
    p.playlistTitle == q.playlistTitle && FirstId(p) == FirstId(q)
  }

  /** `prev.map(p => isSkeleton(p) ? np : p)`: every skeleton playlist becomes `np`, the rest stay in place. */
  function ReplaceSkeletons(prev: seq<RecPlaylist>, np: RecPlaylist): (r: seq<RecPlaylist>)
    ensures |r| == |prev|
    ensures forall i :: 0 <= i < |prev| && HeadIsSkeleton(prev[i]) ==> r[i] == np
    ensures forall i :: 0 <= i < |prev| && !HeadIsSkeleton(prev[i]) ==> r[i] == prev[i]
    decreases |prev|
  {
    if |prev| == 0 then []
    else
      var rest := ReplaceSkeletons(prev[1..], np);
      var r := [if HeadIsSkeleton(prev[0]) then np else prev[0]] + rest;
      assert forall i :: 1 <= i < |r| ==> r[i] == rest[i - 1];
      r
  }

  predicate HasSameRecommendation(ps: seq<RecPlaylist>, np: RecPlaylist)
  {
    exists i :: 0 <= i < |ps| && SameRecommendation(ps[i], np)
  }

  /**
   * The updater a non-empty worker result runs: skeletons become the new playlist, the new
   * playlist is appended unless the same recommendation is already there, and only the last
   * `MAX_PLAYLISTS` are kept.
   */
  function MergeRecommendation(prev: seq<RecPlaylist>, np: RecPlaylist): (r: seq<RecPlaylist>)
    ensures |r| <= MaxPlaylists
  {
    var updated := ReplaceSkeletons(prev, np);
    var grown := if HasSameRecommendation(updated, np) then updated else updated + [np];
    LastN(grown, MaxPlaylists)
  }

  /** A result arriving while a skeleton is shown takes the skeleton's place: nothing is appended or dropped. */
  lemma MergeIntoSkeleton(prev: seq<RecPlaylist>, np: RecPlaylist, k: nat)
    requires |prev| <= MaxPlaylists && k < |prev| && HeadIsSkeleton(prev[k])
    ensures MergeRecommendation(prev, np) == ReplaceSkeletons(prev, np)
    ensures MergeRecommendation(prev, np)[k] == np
  {
    var updated := ReplaceSkeletons(prev, np);
    assert SameRecommendation(updated[k], np);
  }

  /**
   * Without a skeleton and without the same recommendation, the new playlist is appended at
   * the end and the oldest ones beyond `MAX_PLAYLISTS` fall off.
   */
  lemma MergeAppends(prev: seq<RecPlaylist>, np: RecPlaylist)
    requires forall i :: 0 <= i < |prev| ==> !HeadIsSkeleton(prev[i]) && !SameRecommendation(prev[i], np)
    ensures MergeRecommendation(prev, np) == LastN(prev + [np], MaxPlaylists)
    ensures MergeRecommendation(prev, np)[|MergeRecommendation(prev, np)| - 1] == np
  {
    var updated := ReplaceSkeletons(prev, np);
    assert updated == prev;
    assert !HasSameRecommendation(updated, np);
  }

  /**
   * Without a skeleton and with the same recommendation already in the list, a result
   * changes nothing.
   */
  lemma MergeKeepsDuplicate(prev: seq<RecPlaylist>, np: RecPlaylist)
    requires |prev| <= MaxPlaylists
    requires forall i :: 0 <= i < |prev| ==> !HeadIsSkeleton(prev[i])
    requires HasSameRecommendation(prev, np)
    ensures MergeRecommendation(prev, np) == prev
  {
    var updated := ReplaceSkeletons(prev, np);
    assert updated == prev;
  }

  /** From a list of at most `MAX_PLAYLISTS`, the merged list always holds the new recommendation. */
  lemma MergeHoldsRecommendation(prev: seq<RecPlaylist>, np: RecPlaylist)
    requires |prev| <= MaxPlaylists
    ensures HasSameRecommendation(MergeRecommendation(prev, np), np)
  {
    var updated := ReplaceSkeletons(prev, np);
    var r := MergeRecommendation(prev, np);
    if HasSameRecommendation(updated, np) {
      assert r == updated;
    } else {
      var grown := updated + [np];
      assert r[|r| - 1] == grown[|grown| - 1] == np;
      assert SameRecommendation(r[|r| - 1], np);
    }
  }

  /** `ps.filter(p => !isSkeleton(p))`, the updater every worker reply ends with. */
  function DropSkeletons(ps: seq<RecPlaylist>): (r: seq<RecPlaylist>)
    ensures |r| <= |ps|
    ensures forall i :: 0 <= i < |r| ==> !HeadIsSkeleton(r[i])
    decreases |ps|
  {
    if |ps| == 0 then []
    else
      var rest := DropSkeletons(ps[..|ps| - 1]);
      if HeadIsSkeleton(ps[|ps| - 1]) then rest else rest + [ps[|ps| - 1]]
  }

  /** Dropping skeletons keeps every other playlist as often as it occurred. */
  lemma {:induction false} DropSkeletonsKeeps(ps: seq<RecPlaylist>, p: RecPlaylist)
    requires !HeadIsSkeleton(p)
    ensures multiset(DropSkeletons(ps))[p] == multiset(ps)[p]
    decreases |ps|
  {
    if |ps| > 0 {
      DropSkeletonsKeeps(ps[..|ps| - 1], p);
      assert ps == ps[..|ps| - 1] + [ps[|ps| - 1]];
    }
  }

  /** Dropping skeletons keeps the other playlists in their original order. */
  lemma {:induction false} DropSkeletonsSubsequence(ps: seq<RecPlaylist>)
    ensures IsSubsequence(DropSkeletons(ps), ps)
    decreases |ps|
  {
    if |ps| > 0 {
      var init, last := ps[..|ps| - 1], ps[|ps| - 1];
      DropSkeletonsSubsequence(init);
      assert ps == init + [last];
      if HeadIsSkeleton(last) {
        SubsequenceExtend(DropSkeletons(init), init, last);
      } else {
        SubsequenceSnoc(DropSkeletons(init), init, last);
      }
    }
  }

  /** A list without skeletons is left as it is. */
  lemma {:induction false} DropSkeletonsNone(ps: seq<RecPlaylist>)
    requires forall i :: 0 <= i < |ps| ==> !HeadIsSkeleton(ps[i])
    ensures DropSkeletons(ps) == ps
    decreases |ps|
  {
    if |ps| > 0 {
      DropSkeletonsNone(ps[..|ps| - 1]);
      assert ps == ps[..|ps| - 1] + [ps[|ps| - 1]];
    }
  }

  /**
   * The playlists after a worker reply: a non-empty result is merged, an empty one or an
   * error adds nothing, and in every case no skeleton is left.
   */
  function AfterReply(prev: seq<RecPlaylist>, reply: WorkerReply): (r: seq<RecPlaylist>)
    ensures forall i :: 0 <= i < |r| ==> !HeadIsSkeleton(r[i])
    ensures !(reply.Recommended? && |reply.recommendations| > 0) ==> r == DropSkeletons(prev)
  {
    var merged :=
      if reply.Recommended? && |reply.recommendations| > 0
      then MergeRecommendation(prev, RecPlaylist(reply.playlistTitle, reply.recommendations))
      else prev;
    DropSkeletons(merged)
  }

  /** The ids of the tracks of a list. */
  function IdSet(ts: seq<Track>): set<string>
  {
    set i | 0 <= i < |ts| :: ts[i].id
  }

  /** The ids of the history, `new Set(recentTracks.map(t => t.id))`. */
  function RecentIds(recents: seq<DbRecent>): set<string>
  {
    set i | 0 <= i < |recents| :: recents[i].track.id
  }

  /** The history's ids, or none while the history has not loaded. */
  function RecentIdsOrNone(recents: Option<seq<DbRecent>>): set<string>
  {
    if recents.None? then {} else RecentIds(recents.value)
  }

  /** The "seen" ids after a successful result: the history's ids together with the recommended ones. */
  function SeenAfterResult(recents: Option<seq<DbRecent>>, recommended: seq<Track>): (seen: set<string>)
    ensures forall id :: id in seen <==> id in RecentIdsOrNone(recents) || exists i :: 0 <= i < |recommended| && recommended[i].id == id
  {
    RecentIdsOrNone(recents) + IdSet(recommended)
  }

  /** The history's ids the last request did not know of. */
  function NewlyPlayed(recents: seq<DbRecent>, seen: set<string>): set<string>
  {
    RecentIds(recents) - seen
  }

  /**
   * The fetch effect's test: not while a request is out, and either nothing is recommended
   * yet and there is a history, or at least `RECOMMENDATION_REFRESH_THRESHOLD` ids of the
   * history are new.
   */
  predicate ShouldFetch(recs: seq<RecPlaylist>, recents: seq<DbRecent>, seen: set<string>, isFetching: bool)
  {
    && !isFetching
    && ((|recs| == 0 && |recents| > 0) || |NewlyPlayed(recents, seen)| >= RefreshThreshold)
  }

  /** The effect's guard against an empty history never fires: the test already implies a history. */
  lemma EmptyHistoryGuardUnreachable(recs: seq<RecPlaylist>, recents: seq<DbRecent>, seen: set<string>, isFetching: bool)
    requires ShouldFetch(recs, recents, seen, isFetching)
    ensures |recents| > 0
  {
  }

  /** Once the seen ids are the history's ids, that history alone never reaches the threshold. */
  lemma SeenHistoryDoesNotRefetch(recs: seq<RecPlaylist>, recents: seq<DbRecent>, recommended: seq<Track>)
    requires |recs| > 0
    ensures !ShouldFetch(recs, recents, RecentIds(recents), false)
    ensures !ShouldFetch(recs, recents, SeenAfterResult(Some(recents), recommended), false)
  {
    assert NewlyPlayed(recents, RecentIds(recents)) == {};
    assert NewlyPlayed(recents, SeenAfterResult(Some(recents), recommended)) == {};
  }

  /** The stand-in track `i` of the skeleton made at time `stamp`. */
  function SkeletonTrack(stamp: nat, i: nat): Track
  {
    Track(SkeletonPrefix + NumberText.NatToString(stamp) + "-" + NumberText.NatToString(i), "Loading...", 0.0, "", "...", "", 0)
  }

  /** The skeleton playlist shown while a request is out: six stand-in tracks. */
  function SkeletonPlaylist(stamp: nat): (p: RecPlaylist)
    ensures |p.tracks| == 6
    ensures forall i :: 0 <= i < 6 ==> p.tracks[i] == SkeletonTrack(stamp, i)
  {
    RecPlaylist("Curating new music...", seq(6, i requires 0 <= i < 6 => SkeletonTrack(stamp, i)))
  }

  /** Every stand-in track is marked as a skeleton, so both tests recognise the skeleton playlist. */
  lemma SkeletonIsRecognised(stamp: nat)
    ensures forall i :: 0 <= i < 6 ==> IsSkeletonId(SkeletonPlaylist(stamp).tracks[i].id)
    ensures HeadIsSkeleton(SkeletonPlaylist(stamp)) && HasSkeletonTrack(SkeletonPlaylist(stamp))
  {
    forall i | 0 <= i < 6
      ensures IsSkeletonId(SkeletonPlaylist(stamp).tracks[i].id)
    {
      var id := SkeletonTrack(stamp, i).id;
      assert id == SkeletonPrefix + (NumberText.NatToString(stamp) + "-" + NumberText.NatToString(i));
      assert id[..|SkeletonPrefix|] == SkeletonPrefix;
    }
    assert IsSkeletonId(SkeletonPlaylist(stamp).tracks[0].id);
  }

  /** The updater a request runs: the last `MAX_PLAYLISTS - 1` playlists, then the skeleton. */
  function AfterTrigger(prev: seq<RecPlaylist>, stamp: nat): (r: seq<RecPlaylist>)
    ensures 1 <= |r| <= MaxPlaylists
  {
    LastN(prev, MaxPlaylists - 1) + [SkeletonPlaylist(stamp)]
  }

  /** While a request is out the list is never saved: it holds a skeleton. */
  lemma TriggerNotPersisted(prev: seq<RecPlaylist>, stamp: nat)
    ensures !IsPersistable(AfterTrigger(prev, stamp))
  {
    SkeletonIsRecognised(stamp);
    var r := AfterTrigger(prev, stamp);
    assert HeadIsSkeleton(r[|r| - 1]);
  }

  /**
   * A request answered with a playlist that is not itself a skeleton: the answer takes the
   * skeleton's place at the end of the list, and at most `MAX_PLAYLISTS` remain.
   */
  lemma TriggerThenResult(prev: seq<RecPlaylist>, stamp: nat, title: string, tracks: seq<Track>)
    requires |tracks| > 0 && !IsSkeletonId(tracks[0].id)
    ensures var r := AfterReply(AfterTrigger(prev, stamp), Recommended(title, tracks));
            1 <= |r| <= MaxPlaylists && r[|r| - 1] == RecPlaylist(title, tracks)
  {
    var np := RecPlaylist(title, tracks);
    var t := AfterTrigger(prev, stamp);
    SkeletonIsRecognised(stamp);
    assert HeadIsSkeleton(t[|t| - 1]);
    MergeIntoSkeleton(t, np, |t| - 1);
    var merged := MergeRecommendation(t, np);
    assert merged[|merged| - 1] == np;
    assert !HeadIsSkeleton(np);
  }

  /** A request answered with an error or nothing: the skeleton goes and the kept playlists stay. */
  lemma TriggerThenNothing(prev: seq<RecPlaylist>, stamp: nat, reply: WorkerReply)
    requires !(reply.Recommended? && |reply.recommendations| > 0)
    ensures AfterReply(AfterTrigger(prev, stamp), reply) == DropSkeletons(LastN(prev, MaxPlaylists - 1))
  {
    SkeletonIsRecognised(stamp);
    var t := AfterTrigger(prev, stamp);
    assert t[..|t| - 1] == LastN(prev, MaxPlaylists - 1);
  }

  /** The list as it is posted to the worker: title and artist of each history entry. */
  function Summaries(recents: seq<DbRecent>): (r: seq<Summary>)
    ensures |r| == |recents|
    ensures forall i :: 0 <= i < |r| ==> r[i] == Summary(recents[i].track.title, recents[i].track.artist)
  {
    seq(|recents|, i requires 0 <= i < |recents| => Summary(recents[i].track.title, recents[i].track.artist))
  }

  /** `recent.slice(0, 10)`: at most the ten most recent entries are posted. */
  function Posted(recents: seq<DbRecent>): (r: seq<Summary>)
    ensures |r| == Min(10, |recents|)
    ensures r == Summaries(recents)[..|r|]
  {
    Summaries(recents)[..Min(10, |recents|)]
  }

  /** The save effect's test: something to save and no skeleton in it. */
  predicate IsPersistable(recs: seq<RecPlaylist>)
  {
    |recs| > 0 && forall i :: 0 <= i < |recs| ==> !HeadIsSkeleton(recs[i])
  }

  /** After a reply the list is saved exactly when it is not empty. */
  lemma ReplyPersistedIffNonEmpty(prev: seq<RecPlaylist>, reply: WorkerReply)
    ensures IsPersistable(AfterReply(prev, reply)) <==> |AfterReply(prev, reply)| > 0
  {
  }

  /** The tile of a placeholder image. */
  function PlaceholderItem(p: Image): Item
  {
    Item(p.id, p.description, p.imageUrl, p.imageHint, None, true)
  }

  /** The tile of the `i`-th history entry: its own thumbnail, else placeholder `(4 + i) mod N`. */
  function RecentItem(r: DbRecent, i: nat, placeholders: seq<Image>): Item
    requires |placeholders| > 0
  {
    var image := if r.track.thumbnail != "" then r.track.thumbnail else placeholders[(4 + i) % |placeholders|].imageUrl;
    Item(r.track.id, r.track.title, image, "album cover", Some(r.track), false)
  }

  /**
   * `recentlyPlayedItems`: without a history the first four placeholders; otherwise the
   * first four history entries, in order, each carrying its track.
   */
  function RecentlyPlayedItems(recents: Option<seq<DbRecent>>, placeholders: seq<Image>): (items: seq<Item>)
    requires |placeholders| > 0
    ensures recents.None? || |recents.value| == 0 ==>
              |items| == Min(4, |placeholders|) && forall i :: 0 <= i < |items| ==> items[i] == PlaceholderItem(placeholders[i])
    ensures recents.Some? && |recents.value| > 0 ==>
              |items| == Min(4, |recents.value|) && forall i :: 0 <= i < |items| ==> items[i] == RecentItem(recents.value[i], i, placeholders)
  {
    if recents.None? || |recents.value| == 0 then
      seq(Min(4, |placeholders|), i requires 0 <= i < Min(4, |placeholders|) => PlaceholderItem(placeholders[i]))
    else
      var rs := recents.value;
      seq(Min(4, |rs|), i requires 0 <= i < Min(4, |rs|) => RecentItem(rs[i], i, placeholders))
  }

  /**
   * The tiles are placeholders exactly when there is no history; a history tile carries a
   * track of the history and is never without an image when no placeholder is.
   */
  lemma RecentlyPlayedItemsShape(recents: Option<seq<DbRecent>>, placeholders: seq<Image>, i: nat)
    requires |placeholders| > 0 && i < |RecentlyPlayedItems(recents, placeholders)|
    ensures var item := RecentlyPlayedItems(recents, placeholders)[i];
            && (item.isPlaceholder <==> recents.None? || |recents.value| == 0)
            && (item.isPlaceholder <==> item.track.None?)
            && (!item.isPlaceholder ==> item.track.value == recents.value[i].track)
            && ((forall j :: 0 <= j < |placeholders| ==> placeholders[j].imageUrl != "") ==> item.imageUrl != "")
  {
    var item := RecentlyPlayedItems(recents, placeholders)[i];
    if recents.Some? && |recents.value| > 0 {
      var j := (4 + i) % |placeholders|;
      assert 0 <= j < |placeholders|;
    }
  }

  /** `getFallbackPlaylists()`: one playlist of the first six placeholder images, none playable. */
  function FallbackPlaylists(placeholders: seq<Image>): (r: seq<RecPlaylist>)
    ensures |r| == 1 && |r[0].tracks| == Min(6, |placeholders|)
    ensures forall i :: 0 <= i < |r[0].tracks| ==> r[0].tracks[i].id == placeholders[i].id && r[0].tracks[i].url == ""
  {
    var n := Min(6, |placeholders|);
    [RecPlaylist("Popular Playlists",
      seq(n, i requires 0 <= i < n => Track(placeholders[i].id, placeholders[i].description, 0.0, placeholders[i].imageUrl, "Various Artists", "", 0)))]
  }

  /** `currentPlaylists`: the recommendations; else nothing while there is a history; else the fallback. */
  function CurrentPlaylists(recs: seq<RecPlaylist>, recents: Option<seq<DbRecent>>, placeholders: seq<Image>): (r: seq<RecPlaylist>)
    ensures |recs| > 0 ==> r == recs
    ensures |recs| == 0 && recents.Some? && |recents.value| > 0 ==> r == []
  {
    if |recs| > 0 then recs
    else if recents.Some? && |recents.value| > 0 then []
    else FallbackPlaylists(placeholders)
  }

  /** `displayPlaylists`: the playlists without a stand-in track. */
  function DisplayPlaylists(ps: seq<RecPlaylist>): (r: seq<RecPlaylist>)
    ensures |r| <= |ps|
    ensures forall i :: 0 <= i < |r| ==> !HasSkeletonTrack(r[i])
    decreases |ps|
  {
    if |ps| == 0 then []
    else
      var rest := DisplayPlaylists(ps[..|ps| - 1]);
      if HasSkeletonTrack(ps[|ps| - 1]) then rest else rest + [ps[|ps| - 1]]
  }

  /** The shown playlists keep their original order. */
  lemma {:induction false} DisplayPlaylistsSubsequence(ps: seq<RecPlaylist>)
    ensures IsSubsequence(DisplayPlaylists(ps), ps)
    decreases |ps|
  {
    if |ps| > 0 {
      var init, last := ps[..|ps| - 1], ps[|ps| - 1];
      DisplayPlaylistsSubsequence(init);
      assert ps == init + [last];
      if HasSkeletonTrack(last) {
        SubsequenceExtend(DisplayPlaylists(init), init, last);
      } else {
        SubsequenceSnoc(DisplayPlaylists(init), init, last);
      }
    }
  }

  /** Every playlist without a stand-in track is shown, as often as it occurs. */
  lemma {:induction false} DisplayPlaylistsKeeps(ps: seq<RecPlaylist>, p: RecPlaylist)
    requires !HasSkeletonTrack(p)
    ensures multiset(DisplayPlaylists(ps))[p] == multiset(ps)[p]
    decreases |ps|
  {
    if |ps| > 0 {
      DisplayPlaylistsKeeps(ps[..|ps| - 1], p);
      assert ps == ps[..|ps| - 1] + [ps[|ps| - 1]];
    }
  }

  /** `showSkeleton`: some playlist has a stand-in track. */
  predicate ShowSkeleton(ps: seq<RecPlaylist>)
  {
    exists i :: 0 <= i < |ps| && HasSkeletonTrack(ps[i])
  }

  /** The skeleton is shown exactly when a playlist is held back from display. */
  lemma {:induction false} SkeletonShownIffHeldBack(ps: seq<RecPlaylist>)
    ensures ShowSkeleton(ps) <==> |DisplayPlaylists(ps)| < |ps|
    decreases |ps|
  {
    if |ps| > 0 {
      var init := ps[..|ps| - 1];
      SkeletonShownIffHeldBack(init);
      assert forall i :: 0 <= i < |init| ==> init[i] == ps[i];
      if ShowSkeleton(init) {
        var i :| 0 <= i < |init| && HasSkeletonTrack(init[i]);
        assert HasSkeletonTrack(ps[i]);
      }
      if ShowSkeleton(ps) && !HasSkeletonTrack(ps[|ps| - 1]) {
        var i :| 0 <= i < |ps| && HasSkeletonTrack(ps[i]);
        assert i < |init| && HasSkeletonTrack(init[i]);
      }
    }
  }

  /** While a request is out, the page shows the skeleton. */
  lemma SkeletonShownAfterTrigger(prev: seq<RecPlaylist>, stamp: nat, recents: Option<seq<DbRecent>>, placeholders: seq<Image>)
    ensures ShowSkeleton(CurrentPlaylists(AfterTrigger(prev, stamp), recents, placeholders))
  {
    SkeletonIsRecognised(stamp);
    var t := AfterTrigger(prev, stamp);
    assert HasSkeletonTrack(t[|t| - 1]);
  }

  /** `playlist.tracks.filter(t => t.url)`: the tracks that can be streamed, in order. */
  function PlayableTracks(ts: seq<Track>): (r: seq<Track>)
    ensures |r| <= |ts|
    ensures forall i :: 0 <= i < |r| ==> r[i].url != ""
    decreases |ts|
  {
    if |ts| == 0 then []
    else
      var rest := PlayableTracks(ts[..|ts| - 1]);
      if ts[|ts| - 1].url != "" then rest + [ts[|ts| - 1]] else rest
  }

  /** Every track with a URL is kept as often as it occurred. */
  lemma {:induction false} PlayableTracksKeeps(ts: seq<Track>, t: Track)
    requires t.url != ""
    ensures multiset(PlayableTracks(ts))[t] == multiset(ts)[t]
    decreases |ts|
  {
    if |ts| > 0 {
      PlayableTracksKeeps(ts[..|ts| - 1], t);
      assert ts == ts[..|ts| - 1] + [ts[|ts| - 1]];
    }
  }

  /** The playable tracks keep their order in the playlist. */
  lemma {:induction false} PlayableTracksSubsequence(ts: seq<Track>)
    ensures IsSubsequence(PlayableTracks(ts), ts)
    decreases |ts|
  {
    if |ts| > 0 {
      var init, last := ts[..|ts| - 1], ts[|ts| - 1];
      PlayableTracksSubsequence(init);
      assert ts == init + [last];
      if last.url != "" {
        SubsequenceSnoc(PlayableTracks(init), init, last);
      } else {
        SubsequenceExtend(PlayableTracks(init), init, last);
      }
    }
  }

  /** The playlist record a recommendation is played as: titled and keyed by its title, holding the playable tracks. */
  function RecommendationSource(playlist: RecPlaylist, now: string): (p: DbPlaylist)
    ensures p.id == playlist.playlistTitle && p.name == playlist.playlistTitle
    ensures |p.tracks| == |PlayableTracks(playlist.tracks)|
    ensures forall i :: 0 <= i < |p.tracks| ==> p.tracks[i].track == PlayableTracks(playlist.tracks)[i]
  {
    var playable := PlayableTracks(playlist.tracks);
    DbPlaylist(playlist.playlistTitle, playlist.playlistTitle, now, now,
               seq(|playable|, i requires 0 <= i < |playable| => PlaylistTrack(playable[i], None)))
  }

  /** `handlePlayRecommendation`: nothing for a track without a URL; else it plays within the playable tracks of its playlist. */
  method HandlePlayRecommendation(player: PlayerContext.Player, t: Track, playlist: RecPlaylist, now: string)
    requires player.Valid()
    modifies player`queue, player`source, player`playQueue, player`shuffledPlayQueue, player`currentTrack,
             player`recentWrites
    ensures player.Valid()
    ensures t.url == "" ==> player.QueueStateUnchanged()
    ensures t.url != "" ==>
              player.PlayTrackPost(t, PlayableTracks(playlist.tracks),
                                   PlayerContext.FromPlaylist(RecommendationSource(playlist, now)), now)
  {
    if t.url == "" {
      return;
    }
    player.PlayTrack(t, PlayableTracks(playlist.tracks), PlayerContext.FromPlaylist(RecommendationSource(playlist, now)), now);
  }

  /** The tracks of the history, the queue a history tile plays in. */
  function RecentQueue(recents: seq<DbRecent>): (q: seq<Track>)
    ensures |q| == |recents| && forall i :: 0 <= i < |q| ==> q[i] == recents[i].track
  {
    seq(|recents|, i requires 0 <= i < |recents| => recents[i].track)
  }

  /** `handlePlayRecent`: a placeholder tile, or one clicked before the history loaded, does nothing; else the whole history is the queue. */
  method HandlePlayRecent(player: PlayerContext.Player, item: Item, recents: Option<seq<DbRecent>>, now: string)
    requires player.Valid()
    modifies player`queue, player`source, player`playQueue, player`shuffledPlayQueue, player`currentTrack,
             player`recentWrites
    ensures player.Valid()
    ensures item.isPlaceholder || item.track.None? || recents.None? ==> player.QueueStateUnchanged()
    ensures !item.isPlaceholder && item.track.Some? && recents.Some? ==>
              player.PlayTrackPost(item.track.value, RecentQueue(recents.value), PlayerContext.FromRecent, now)
  {
    if item.isPlaceholder || item.track.None? || recents.None? {
      return;
    }
    player.PlayTrack(item.track.value, RecentQueue(recents.value), PlayerContext.FromRecent, now);
  }

  /** The ids of every track of a list of playlists, `flatMap(p => p.tracks.map(t => t.id))`. */
  function AllTrackIds(ps: seq<RecPlaylist>): set<string>
  {
    set i, j | 0 <= i < |ps| && 0 <= j < |ps[i].tracks| :: ps[i].tracks[j].id
  }

  /**
   * The page's own state: the React state (`recommendations`, `isFetching`), the
   * `lastRecTrackIds` ref, the history the live query last delivered, the worker (a
   * generation number: a new worker is a new number, and a terminated worker never answers),
   * the request it owes a reply to, the messages posted to it, and `localStorage`.
   */
  class Home {
    var recommendations: seq<RecPlaylist>
    var isFetching: bool
    var lastRecTrackIds: set<string>
    var recentTracks: Option<seq<DbRecent>>
    var worker: nat
    var inFlight: Option<nat>
    var posted: seq<seq<Summary>>
    var stored: Option<seq<RecPlaylist>>

    /** A request is out exactly when a reply is owed, and then it is owed by the live worker. */
    ghost predicate Valid()
      reads this
    {
      inFlight == if isFetching then Some(worker) else None
    }

    /** The first render, with whatever `localStorage` holds (a value that does not parse counts as nothing). */
    constructor(stored: Option<seq<RecPlaylist>>)
      ensures Valid()
      ensures recommendations == [] && !isFetching && lastRecTrackIds == {} && recentTracks == None
      ensures inFlight == None && posted == [] && this.stored == stored
    {
      recommendations := [];
      isFetching := false;
      lastRecTrackIds := {};
      recentTracks := None;
      worker := 0;
      inFlight := None;
      posted := [];
      this.stored := stored;
    }

    /** The mount effect: saved recommendations are restored and all their track ids count as seen. */
    method RestoreSaved()
      modifies this`recommendations, this`lastRecTrackIds
      ensures stored.Some? ==> recommendations == stored.value && lastRecTrackIds == AllTrackIds(stored.value)
      ensures stored.None? ==> recommendations == old(recommendations) && lastRecTrackIds == old(lastRecTrackIds)
    {
      if stored.Some? {
        recommendations := stored.value;
        lastRecTrackIds := AllTrackIds(stored.value);
      }
    }

    /** The save effect: only a non-empty list without a skeleton is written. */
    method SaveEffect()
      modifies this`stored
      ensures IsPersistable(recommendations) ==> stored == Some(recommendations)
      ensures !IsPersistable(recommendations) ==> stored == old(stored)
    {
      if IsPersistable(recommendations) {
        stored := Some(recommendations);
      }
    }

    /**
     * The live query delivers a new history, with the worker kept: the effect that owns the
     * worker does not restart it, and reads the history when a reply comes. A reply that was
     * owed is still owed.
     */
    method RecentsChanged(recents: seq<DbRecent>)
      requires Valid()
      modifies this`recentTracks
      ensures Valid()
      ensures recentTracks == Some(recents)
    {
      recentTracks := Some(recents);
    }

    /**
     * The live query delivers a new history, as the page is written: the worker effect
     * depends on the history, so its cleanup terminates the worker and a new one is made.
     * A request that was out is then never answered, while `isFetching` stays set, so the
     * fetch effect stays off as well.
     */
    method RecentsChangedAsWritten(recents: seq<DbRecent>)
      requires Valid()
      modifies this`recentTracks, this`worker
      ensures recentTracks == Some(recents) && worker == old(worker) + 1
      ensures old(isFetching) ==> isFetching && inFlight != Some(worker) && !Valid()
      ensures !old(isFetching) ==> Valid()
    {
      recentTracks := Some(recents);
      worker := worker + 1;
    }

    /**
     * The fetch effect, `stamp` being `Date.now()`: when the test holds, the skeleton goes
     * in, at most ten history entries are posted to the worker, and the history's ids become
     * the seen ids. Nothing happens before the history has loaded or while a request is out.
     */
    method FetchEffect(stamp: nat) returns (started: bool)
      modifies this`isFetching, this`recommendations, this`posted, this`inFlight, this`lastRecTrackIds
      ensures started <==> recentTracks.Some? && ShouldFetch(old(recommendations), recentTracks.value, old(lastRecTrackIds), old(isFetching))
      ensures started ==>
                && isFetching && inFlight == Some(worker) && Valid()
                && recommendations == AfterTrigger(old(recommendations), stamp)
                && posted == old(posted) + [Posted(recentTracks.value)]
                && lastRecTrackIds == RecentIds(recentTracks.value)
      ensures !started ==>
                && isFetching == old(isFetching) && inFlight == old(inFlight) && recommendations == old(recommendations)
                && posted == old(posted) && lastRecTrackIds == old(lastRecTrackIds)
    {
      started := false;
      if recentTracks.None? {
        return;
      }
      var recents := recentTracks.value;
      if ShouldFetch(recommendations, recents, lastRecTrackIds, isFetching) {
        EmptyHistoryGuardUnreachable(recommendations, recents, lastRecTrackIds, isFetching);
        if |recents| == 0 && |recommendations| > 0 {
          return;
        }
        isFetching := true;
        recommendations := AfterTrigger(recommendations, stamp);
        posted := posted + [Posted(recents)];
        inFlight := Some(worker);
        lastRecTrackIds := RecentIds(recents);
        started := true;
      }
    }

    /**
     * The live worker answers the request it owes: the playlists are updated, a non-empty
     * result makes the history's and the recommended ids the seen ids, and the request is
     * over.
     */
    method Reply(reply: WorkerReply)
      requires inFlight == Some(worker)
      modifies this`recommendations, this`lastRecTrackIds, this`isFetching, this`inFlight
      ensures Valid() && !isFetching && inFlight == None
      ensures recommendations == AfterReply(old(recommendations), reply)
      ensures reply.Recommended? && |reply.recommendations| > 0 ==>
                lastRecTrackIds == SeenAfterResult(recentTracks, reply.recommendations)
      ensures !(reply.Recommended? && |reply.recommendations| > 0) ==> lastRecTrackIds == old(lastRecTrackIds)
    {
      if reply.Recommended? && |reply.recommendations| > 0 {
        lastRecTrackIds := SeenAfterResult(recentTracks, reply.recommendations);
      }
      isFetching := false;
      inFlight := None;
      recommendations := AfterReply(recommendations, reply);
    }
  }
}
