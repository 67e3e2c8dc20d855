/**
 * The playlist and download record rules the three track components share
 * (src/components/music/track-actions.tsx, track-item.tsx and player-full.tsx): a track
 * joins a playlist at the end and only once, leaves it by id with the order of the rest
 * kept, a playlist is created only under a name that is not blank, and a download record is
 * written only for a track that is not downloaded yet.
 */
module Library {
  import opened Types
  import Store
  import TrackLists

  /** JavaScript's white space and line terminators: what `\s` matches and `trim` removes. */
  predicate IsSpace(c: char)
  {
    || c == '\t' || c == '\n' || c == '\U{B}' || c == '\U{C}' || c == '\r' || c == ' '
    || c == '\U{A0}' || c == '\U{1680}' || ('\U{2000}' <= c <= '\U{200A}')
    || c == '\U{2028}' || c == '\U{2029}' || c == '\U{202F}' || c == '\U{205F}' || c == '\U{3000}'
    || c == '\U{FEFF}'
  }

  function TrimStart(s: string): (r: string)
    ensures |r| <= |s| && r == s[|s| - |r|..]
    ensures |r| > 0 ==> !IsSpace(r[0])
    ensures forall i :: 0 <= i < |s| - |r| ==> IsSpace(s[i])
    decreases |s|
  {
    if |s| > 0 && IsSpace(s[0]) then TrimStart(s[1..]) else s
  }

  function TrimEnd(s: string): (r: string)
    ensures |r| <= |s| && r == s[..|r|]
    ensures |r| > 0 ==> !IsSpace(r[|r| - 1])
    ensures forall i :: |r| <= i < |s| ==> IsSpace(s[i])
    decreases |s|
  {
    if |s| > 0 && IsSpace(s[|s| - 1]) then TrimEnd(s[..|s| - 1]) else s
  }

  /** `s.trim()`. */
  function Trim(s: string): string
  {
    TrimEnd(TrimStart(s))
  }

  /** A name is blank when it is nothing but white space. */
  predicate IsBlank(name: string)
  {
    forall i :: 0 <= i < |name| ==> IsSpace(name[i])
  }

  /** `name.trim() === ''` holds exactly for the blank names; otherwise the trimmed name neither starts nor ends with white space. */
  lemma TrimEmptyIffBlank(name: string)
    ensures Trim(name) == "" <==> IsBlank(name)
    ensures Trim(name) != "" ==> !IsSpace(Trim(name)[0]) && !IsSpace(Trim(name)[|Trim(name)| - 1])
  {
    var a := TrimStart(name);
    var b := TrimEnd(a);
    if b == "" {
      assert |a| == 0;
    }
    if IsBlank(name) {
      assert |a| == 0;
    }
    if |b| > 0 {
      assert b[0] == a[0];
    }
  }

  /** Some entry of the playlist has this track id. */
  predicate HasTrack(tracks: seq<PlaylistTrack>, id: string)
  {
    exists i :: 0 <= i < |tracks| && tracks[i].track.id == id
  }

  /** No two entries of the playlist share a track id. */
  predicate DistinctTrackIds(tracks: seq<PlaylistTrack>)
  {
    forall i, j :: 0 <= i < j < |tracks| ==> tracks[i].track.id != tracks[j].track.id
  }

  /**
   * The playlist's tracks after adding `t` at time `addedAt`: unchanged when an entry has
   * `t`'s id, else `[...tracks, {...t, addedAt}]`.
   */
  function AppendIfAbsent(tracks: seq<PlaylistTrack>, t: Track, addedAt: string): (r: seq<PlaylistTrack>)
    ensures HasTrack(r, t.id)
  {
    if HasTrack(tracks, t.id) then tracks
    else
      var r := tracks + [PlaylistTrack(t, Some(addedAt))];
      assert r[|tracks|].track.id == t.id;
      r
  }

  /**
   * Adding never loses or reorders an entry: the old entries are a prefix of the new list,
   * which is longer by one exactly when the id was absent, and ids stay distinct.
   */
  lemma AppendIfAbsentSpec(tracks: seq<PlaylistTrack>, t: Track, addedAt: string)
    ensures var r := AppendIfAbsent(tracks, t, addedAt);
            |r| == (if HasTrack(tracks, t.id) then |tracks| else |tracks| + 1) && r[..|tracks|] == tracks
    ensures !HasTrack(tracks, t.id) ==>
              AppendIfAbsent(tracks, t, addedAt)[|tracks|] == PlaylistTrack(t, Some(addedAt))
    ensures DistinctTrackIds(tracks) ==> DistinctTrackIds(AppendIfAbsent(tracks, t, addedAt))
  {
    var r := AppendIfAbsent(tracks, t, addedAt);
    if !HasTrack(tracks, t.id) {
      forall i, j | 0 <= i < j < |r| && DistinctTrackIds(tracks)
        ensures r[i].track.id != r[j].track.id
      {
        if j == |tracks| {
          assert r[i] == tracks[i];
        }
      }
    }
  }

  /** `tracks.filter(t => t.id !== id)`. */
  function RemoveById(tracks: seq<PlaylistTrack>, id: string): (r: seq<PlaylistTrack>)
    ensures !HasTrack(r, id)
    ensures |r| <= |tracks|
    decreases |tracks|
  {
    if |tracks| == 0 then []
    else
      var rest := RemoveById(tracks[1..], id);
      if tracks[0].track.id == id then rest
      else
        var r := [tracks[0]] + rest;
        assert forall i :: 1 <= i < |r| ==> r[i] == rest[i - 1];
        r
  }

  /** Removing by id keeps every entry with another id, as often as it occurred. */
  lemma {:induction false} RemoveByIdKeepsOthers(tracks: seq<PlaylistTrack>, id: string, x: PlaylistTrack)
    requires x.track.id != id
    ensures multiset(RemoveById(tracks, id))[x] == multiset(tracks)[x]
    decreases |tracks|
  {
    if |tracks| > 0 {
      RemoveByIdKeepsOthers(tracks[1..], id, x);
      assert tracks == [tracks[0]] + tracks[1..];
    }
  }

  /** The entries left after removing by id keep their original order. */
  lemma {:induction false} RemoveByIdSubsequence(tracks: seq<PlaylistTrack>, id: string)
    ensures TrackLists.IsSubsequence(RemoveById(tracks, id), tracks)
    decreases |tracks|
  {
    if |tracks| > 0 {
      RemoveByIdSubsequence(tracks[1..], id);
      var rest := RemoveById(tracks[1..], id);
      if tracks[0].track.id != id {
        assert RemoveById(tracks, id)[1..] == rest;
      } else {
        assert |rest| > 0 ==> rest[0] != tracks[0];
      }
    }
  }

  /** Removing an id that is not there changes nothing. */
  lemma {:induction false} RemoveByIdAbsent(tracks: seq<PlaylistTrack>, id: string)
    requires !HasTrack(tracks, id)
    ensures RemoveById(tracks, id) == tracks
    decreases |tracks|
  {
    if |tracks| > 0 {
      assert forall i :: 0 <= i < |tracks| - 1 ==> tracks[1..][i] == tracks[i + 1];
      RemoveByIdAbsent(tracks[1..], id);
      assert tracks[0].track.id != id;
      assert tracks == [tracks[0]] + tracks[1..];
    }
  }

  /** Removing a track just added to a playlist that did not hold it restores the playlist. */
  lemma {:induction false} RemoveUndoesAppend(tracks: seq<PlaylistTrack>, t: Track, addedAt: string)
    requires !HasTrack(tracks, t.id)
    ensures RemoveById(AppendIfAbsent(tracks, t, addedAt), t.id) == tracks
    decreases |tracks|
  {
    var e := PlaylistTrack(t, Some(addedAt));
    if |tracks| == 0 {
      assert AppendIfAbsent(tracks, t, addedAt) == [e];
      assert [e][1..] == [];
    } else {
      assert forall i :: 0 <= i < |tracks| - 1 ==> tracks[1..][i] == tracks[i + 1];
      RemoveUndoesAppend(tracks[1..], t, addedAt);
      var r := tracks + [e];
      assert AppendIfAbsent(tracks, t, addedAt) == r;
      assert r[1..] == tracks[1..] + [e];
      assert AppendIfAbsent(tracks[1..], t, addedAt) == tracks[1..] + [e];
      assert tracks[0].track.id != t.id;
      assert tracks == [tracks[0]] + tracks[1..];
    }
  }

  /** The record a successful offline save writes: the track, its blob and the blob's type and size, and the track's own URL. */
  function DownloadRecord(t: Track, blob: Blob, now: string): (d: DbDownload)
    ensures d.track == t && d.originalUrl == t.url && d.size == |blob.bytes| && d.mimeType == blob.mimeType
  {
    DbDownload(t, blob, blob.mimeType, |blob.bytes|, now, t.url)
  }

  /**
   * Adding `t` to the playlist `p` as the component last read it: nothing when an entry has
   * its id; else the record of `p.id` gets `p`'s tracks with `t` appended.
   */
  method AddToPlaylist(db: Store.Database, p: DbPlaylist, t: Track, now: string)
    requires db.Valid()
    modifies db`playlists
    ensures db.Valid()
    ensures HasTrack(p.tracks, t.id) ==> db.playlists == old(db.playlists)
    ensures !HasTrack(p.tracks, t.id) && p.id in old(db.playlists) ==>
              db.playlists == old(db.playlists)[p.id := old(db.playlists)[p.id].(tracks := AppendIfAbsent(p.tracks, t, now), updatedAt := now)]
    ensures p.id !in old(db.playlists) ==> db.playlists == old(db.playlists)
  {
    if !HasTrack(p.tracks, t.id) {
      db.UpdatePlaylistTracks(p.id, AppendIfAbsent(p.tracks, t, now), now);
    }
  }

  /**
   * Creating a playlist named `name` holding `t`: nothing for a blank name; otherwise a
   * new record under the fresh id (refused if the id exists) with exactly one entry.
   */
  method CreatePlaylist(db: Store.Database, name: string, newId: string, t: Track, now: string) returns (created: bool)
    requires db.Valid()
    modifies db`playlists
    ensures db.Valid()
    ensures created <==> Trim(name) != "" && newId !in old(db.playlists)
    ensures created ==> db.playlists == old(db.playlists)[newId := DbPlaylist(newId, name, now, now, [PlaylistTrack(t, Some(now))])]
    ensures !created ==> db.playlists == old(db.playlists)
  {
    created := false;
    if Trim(name) != "" {
      created := db.AddPlaylist(DbPlaylist(newId, name, now, now, [PlaylistTrack(t, Some(now))]));
    }
  }

  /** Removing the track id from the stored playlist `playlistId`, if that playlist exists. */
  method RemoveFromPlaylist(db: Store.Database, playlistId: string, trackId: string, now: string)
    requires db.Valid()
    modifies db`playlists
    ensures db.Valid()
    ensures playlistId in old(db.playlists) ==>
              db.playlists == old(db.playlists)[playlistId := old(db.playlists)[playlistId].(
                                tracks := RemoveById(old(db.playlists)[playlistId].tracks, trackId), updatedAt := now)]
    ensures playlistId !in old(db.playlists) ==> db.playlists == old(db.playlists)
  {
    if playlistId in db.playlists {
      var p := db.playlists[playlistId];
      db.UpdatePlaylistTracks(playlistId, RemoveById(p.tracks, trackId), now);
    }
  }

  /**
   * Saving `t` for offline use: nothing when it is downloaded already or the blob could not
   * be fetched (`fetched` is `None`); else its download record is added.
   */
  method SaveForOffline(db: Store.Database, t: Track, fetched: Option<Blob>, now: string)
    requires db.Valid()
    modifies db`downloads
    ensures db.Valid()
    ensures t.id in old(db.downloads) || fetched.None? ==> db.downloads == old(db.downloads)
    ensures t.id !in old(db.downloads) && fetched.Some? ==>
              db.downloads == old(db.downloads)[t.id := DownloadRecord(t, fetched.value, now)]
  {
    if t.id !in db.downloads && fetched.Some? {
      var _ := db.AddDownload(DownloadRecord(t, fetched.value, now));
    }
  }

  /** Removing `t`'s download, only when there is one. */
  method RemoveDownload(db: Store.Database, id: string)
    requires db.Valid()
    modifies db`downloads
    ensures db.Valid()
    ensures db.downloads == old(db.downloads) - {id}
    ensures id !in old(db.downloads) ==> db.downloads == old(db.downloads)
  {
    if id in db.downloads {
      db.DeleteDownload(id);
    }
  }
}
