/**
 * One row of a track list (src/components/music/track-item.tsx): its duration label, whether
 * it is the player's current track, and its playlist and download handlers, which follow
 * the shared rules of `Library`.
 */
module TrackItem {
  import opened Types
  import opened NumberText
  import opened TrackLists
  import PlayerContext
  import SeekBar
  import Library
  import Store

  /** `formatDuration(seconds)`: NaN and negative values (minus infinity included) show as `0:00`. */
  function FormatDuration(x: Num): (r: string)
    ensures x.NaN? || x == NegInfinity || (x.Finite? && x.value < 0.0) ==> r == "0:00"
  {
    if x.NaN? || x == NegInfinity || (x.Finite? && x.value < 0.0) then "0:00" else ClockText(x)
  }

  /**
   * The two formatters agree except on negative values, where the seek bar prints a minus
   * sign and the track row prints `0:00`: no duration label is ever signed.
   */
  lemma FormatDurationVersusFormatTime(x: Num)
    ensures !(x == NegInfinity || (x.Finite? && x.value < 0.0)) ==> FormatDuration(x) == SeekBar.FormatTime(x)
    ensures x.Finite? && x.value < 0.0 ==> FormatDuration(x) == "0:00" && SeekBar.FormatTime(x)[0] == '-'
    ensures FormatDuration(x)[0] != '-'
  {
    if x.Finite? && x.value < 0.0 {
      SeekBar.FormatTimeNegative(x.value);
    }
    if x.Finite? && x.value >= 0.0 {
      var m, s := ClockTextReadsBack(x.value);
      NatToStringRoundTrip(m);
    }
  }

  /** `isActive`: the row shows the player's current track (same id). */
  predicate IsActive(current: Option<Track>, t: Track)
  {
    current.Some? && current.value.id == t.id
  }

  /** `isCurrentlyPlaying`: active and the player is playing. */
  predicate IsCurrentlyPlaying(current: Option<Track>, isPlaying: bool, t: Track)
  {
    IsActive(current, t) && isPlaying
  }

  /**
   * In a list without repeated ids at most one row is active, hence at most one row shows
   * as playing; and with no current track none is.
   */
  lemma AtMostOneActive(q: seq<Track>, current: Option<Track>, isPlaying: bool, i: nat, j: nat)
    requires PlayerContext.DistinctIds(q) && i < |q| && j < |q|
    ensures IsActive(current, q[i]) && IsActive(current, q[j]) ==> i == j
    ensures IsCurrentlyPlaying(current, isPlaying, q[i]) && IsCurrentlyPlaying(current, isPlaying, q[j]) ==> i == j
    ensures current.None? ==> !IsActive(current, q[i])
  {
    if i < j {
      assert q[i].id != q[j].id;
    } else if j < i {
      assert q[j].id != q[i].id;
    }
  }

  /** Where the row is shown; removal from a playlist is offered only inside one. */
  datatype ItemContext = InSearch | InPlaylist(playlistId: string) | InDownloads

  /** `handleRemoveFromPlaylist`: only in a playlist's own list, and only while that playlist exists. */
  method HandleRemoveFromPlaylist(db: Store.Database, t: Track, context: ItemContext, now: string)
    requires db.Valid()
    modifies db`playlists
    ensures db.Valid()
    ensures !context.InPlaylist? || context.playlistId !in old(db.playlists) ==> db.playlists == old(db.playlists)
    ensures context.InPlaylist? && context.playlistId in old(db.playlists) ==>
              db.playlists == old(db.playlists)[context.playlistId := old(db.playlists)[context.playlistId].(
                                tracks := Library.RemoveById(old(db.playlists)[context.playlistId].tracks, t.id),
                                updatedAt := now)]
  {
    if context.InPlaylist? {
      Library.RemoveFromPlaylist(db, context.playlistId, t.id, now);
    }
  }

  /**
   * `handleDownload`: a track already in the downloads table is not fetched again; otherwise
   * the fetched blob (`None` when resolving or fetching failed) is stored with the track.
   */
  method HandleDownload(db: Store.Database, t: Track, fetched: Option<Blob>, now: string)
    requires db.Valid()
    modifies db`downloads
    ensures db.Valid()
    ensures t.id in old(db.downloads) || fetched.None? ==> db.downloads == old(db.downloads)
    ensures t.id !in old(db.downloads) && fetched.Some? ==>
              db.downloads == old(db.downloads)[t.id := Library.DownloadRecord(t, fetched.value, now)]
              && db.downloads[t.id].originalUrl == t.url
  {
    Library.SaveForOffline(db, t, fetched, now);
  }
}
