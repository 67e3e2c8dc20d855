/**
 * The records of the music player (src/lib/types.ts): a search-result track, and the
 * three kinds of record kept on the device (downloads, playlists, recently played).
 */
module Types {

  datatype Option<+T> = None | Some(value: T)

  /** A JavaScript number as far as this model needs it: the special values and a finite value (exact, not IEEE). */
  datatype Num = NaN | PosInfinity | NegInfinity | Finite(value: real)

  /** A track as the backend returns it; two tracks are "the same track" when their ids agree. */
  datatype Track = Track(
    id: string,
    title: string,
    duration: real,
    thumbnail: string,
    artist: string,
    url: string,
    viewCount: int)

  /** A binary payload with its MIME type; its size is the number of bytes. */
  datatype Blob = Blob(bytes: seq<bv8>, mimeType: string)

  /** A track saved for offline playback, keyed by the track's id. */
  datatype DbDownload = DbDownload(
    track: Track,
    blob: Blob,
    mimeType: string,
    size: nat,
    downloadedAt: string,
    originalUrl: string)

  /** A playlist entry: the track plus the time it was added (absent on playlists built on the fly). */
  datatype PlaylistTrack = PlaylistTrack(track: Track, addedAt: Option<string>)

  datatype DbPlaylist = DbPlaylist(
    id: string,
    name: string,
    createdAt: string,
    updatedAt: string,
    tracks: seq<PlaylistTrack>)

  /** A recently-played entry: the track, when it was last started and the last known position in seconds. */
  datatype DbRecent = DbRecent(track: Track, lastPlayedAt: string, position: real)
}
