/**
 * The full-screen player (src/components/music/player-full.tsx): the "playing from" caption,
 * picking a track from the queue sheet, and the playlist and download actions for the
 * current track, each a no-op while nothing is current.
 */
module PlayerFull {
  import opened Types
  import opened TrackLists
  import PlayerContext
  import Library
  import Store

  /** The caption over the artwork: a title line and a name line. */
  datatype Caption = Caption(title: string, name: string)

  /** `getPlayerSource(source)`: one caption per kind of source; a playlist shows its name, a search its query in quotes. */
  function SourceCaption(source: PlayerContext.Source): (c: Caption)
    ensures source.FromPlaylist? ==> c == Caption("Playing from Playlist", source.playlist.name)
    ensures source.FromSearch? ==> c == Caption("Playing from Search", "\"" + source.query + "\"")
  {
    match source
    case FromPlaylist(p) => Caption("Playing from Playlist", p.name)
    case FromSearch(q) => Caption("Playing from Search", "\"" + q + "\"")
    case FromDownloads => Caption("Playing from", "Downloads")
    case FromRecent => Caption("Playing from", "Recently Played")
    case FromUnknown => Caption("Now Playing", "Unknown Source")
  }

  /**
   * The caption tells the kind of source apart, and for a search also the query: equal
   * captions come from sources of the same kind, and searches with equal captions are the
   * same search.
   */
  lemma CaptionDistinguishesSources(a: PlayerContext.Source, b: PlayerContext.Source)
    requires SourceCaption(a) == SourceCaption(b)
    ensures a.FromPlaylist? == b.FromPlaylist? && a.FromSearch? == b.FromSearch?
    ensures a.FromDownloads? == b.FromDownloads? && a.FromRecent? == b.FromRecent? && a.FromUnknown? == b.FromUnknown?
    ensures a.FromSearch? ==> a == b
    ensures a.FromPlaylist? ==> a.playlist.name == b.playlist.name
  {
    var ca, cb := SourceCaption(a), SourceCaption(b);
    assert ca.title == cb.title && ca.name == cb.name;
    assert |"Playing from Playlist"| == 21 && |"Playing from Search"| == 19 && |"Playing from"| == 12;
    assert "Downloads"[0] != "Recently Played"[0];
    if a.FromSearch? && b.FromSearch? {
      assert a.query == ca.name[1..|ca.name| - 1];
      assert b.query == cb.name[1..|cb.name| - 1];
    }
  }

  /** `queue.find(t => t.id === id)`: the first track with that id, if any. */
  function FindById(q: seq<Track>, id: string): (r: Option<Track>)
    ensures r.Some? <==> HasId(q, id)
    ensures r.Some? ==> r.value.id == id && r.value in q
    ensures r.Some? ==> IndexOfId(q, id) >= 0 && r.value == q[IndexOfId(q, id)]
  {
    IndexOfIdFound(q, id);
    var i := IndexOfId(q, id);
    if i == -1 then None else Some(q[i])
  }

  /**
   * `handleSelectTrack(id)`: a track of the queue is played within the current context,
   * which is therefore kept as it is; an id not in the queue does nothing.
   */
  method SelectTrack(player: PlayerContext.Player, id: string, now: string)
    requires player.Valid()
    modifies player`queue, player`source, player`playQueue, player`shuffledPlayQueue, player`currentTrack,
             player`recentWrites
    ensures player.Valid()
    ensures !HasId(old(player.queue), id) ==> player.QueueStateUnchanged()
    ensures HasId(old(player.queue), id) ==>
              && player.PlayTrackPost(FindById(old(player.queue), id).value, old(player.queue), old(player.source), now)
              && player.queue == old(player.queue) && player.source == old(player.source)
              && player.currentTrack == FindById(old(player.queue), id)
  {
    var found := FindById(player.queue, id);
    if found.Some? {
      PlayerContext.SameContextKept(player.queue, player.source, found.value);
      player.PlayTrack(found.value, player.queue, player.source, now);
    }
  }

  /** `handleAddToPlaylist(p)`: nothing without a current track; otherwise the shared rule for adding it. */
  method HandleAddToPlaylist(db: Store.Database, current: Option<Track>, p: DbPlaylist, now: string)
    requires db.Valid()
    modifies db`playlists
    ensures db.Valid()
    ensures current.None? || Library.HasTrack(p.tracks, current.value.id) || p.id !in old(db.playlists) ==>
              db.playlists == old(db.playlists)
    ensures current.Some? && !Library.HasTrack(p.tracks, current.value.id) && p.id in old(db.playlists) ==>
              db.playlists == old(db.playlists)[p.id := old(db.playlists)[p.id].(
                                tracks := Library.AppendIfAbsent(p.tracks, current.value, now), updatedAt := now)]
  {
    if current.Some? {
      Library.AddToPlaylist(db, p, current.value, now);
    }
  }

  /** `handleCreatePlaylist()`: nothing for a blank name or without a current track. */
  method HandleCreatePlaylist(db: Store.Database, current: Option<Track>, name: string, newId: string, now: string)
    returns (created: bool)
    requires db.Valid()
    modifies db`playlists
    ensures db.Valid()
    ensures created <==> current.Some? && Library.Trim(name) != "" && newId !in old(db.playlists)
    ensures created ==>
              db.playlists == old(db.playlists)[newId := DbPlaylist(newId, name, now, now, [PlaylistTrack(current.value, Some(now))])]
    ensures !created ==> db.playlists == old(db.playlists)
  {
    created := false;
    if current.Some? {
      created := Library.CreatePlaylist(db, name, newId, current.value, now);
    }
  }

  /** `handleSaveForOffline()`: nothing without a current track, when it is downloaded already, or when the fetch failed. */
  method HandleSaveForOffline(db: Store.Database, current: Option<Track>, fetched: Option<Blob>, now: string)
    requires db.Valid()
    modifies db`downloads
    ensures db.Valid()
    ensures current.None? || current.value.id in old(db.downloads) || fetched.None? ==> db.downloads == old(db.downloads)
    ensures current.Some? && current.value.id !in old(db.downloads) && fetched.Some? ==>
              db.downloads == old(db.downloads)[current.value.id := Library.DownloadRecord(current.value, fetched.value, now)]
  {
    if current.Some? {
      Library.SaveForOffline(db, current.value, fetched, now);
    }
  }

  /** `handleRemoveFromDownloads()`: only a current track that is downloaded loses its record. */
  method HandleRemoveFromDownloads(db: Store.Database, current: Option<Track>)
    requires db.Valid()
    modifies db`downloads
    ensures db.Valid()
    ensures current.None? ==> db.downloads == old(db.downloads)
    ensures current.Some? ==> db.downloads == old(db.downloads) - {current.value.id}
  {
    if current.Some? {
      Library.RemoveDownload(db, current.value.id);
    }
  }
}
