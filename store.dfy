/**
 * The on-device database (src/lib/db.ts): three tables, each an abstract map from the
 * record's primary key (`id`) to the record. The operations are the record-level ones the
 * player and the components use: `put` (upsert), `add` (fails on an existing key),
 * `update` (changes an existing record, does nothing on a missing key) and `delete`.
 */
module Store {
  import opened Types

  /**
   * A write to the `recent` table as the player issues it, without awaiting it: `put` of a
   * whole record, or `update(id, {position})`.
   */
  datatype RecentWrite = PutRecent(record: DbRecent) | UpdatePosition(id: string, position: real)

  /** Every record of the `recent` table sits under its own track's id. */
  ghost predicate RecentKeyed(recent: map<string, DbRecent>)
  {
    forall k :: k in recent ==> recent[k].track.id == k
  }

  /** The `recent` table after one write: `put` upserts, `update` changes only an existing record. */
  function ApplyRecentWrite(recent: map<string, DbRecent>, w: RecentWrite): (r: map<string, DbRecent>)
    ensures RecentKeyed(recent) ==> RecentKeyed(r)
    ensures w.PutRecent? ==> r.Keys == recent.Keys + {w.record.track.id} && r[w.record.track.id] == w.record
    ensures w.PutRecent? ==> forall k :: k in recent && k != w.record.track.id ==> r[k] == recent[k]
    ensures w.UpdatePosition? ==> r.Keys == recent.Keys
    ensures w.UpdatePosition? ==> forall k :: k in recent ==>
              r[k] == if k == w.id then recent[k].(position := w.position) else recent[k]
  {
    match w
    case PutRecent(rec) => recent[rec.track.id := rec]
    case UpdatePosition(id, position) =>
      if id in recent then recent[id := recent[id].(position := position)] else recent
  }

  /** The `recent` table after a sequence of writes, applied in the order they were issued. */
  function ApplyRecentWrites(recent: map<string, DbRecent>, ws: seq<RecentWrite>): (r: map<string, DbRecent>)
    decreases |ws|
  {
    if |ws| == 0 then recent else ApplyRecentWrites(ApplyRecentWrite(recent, ws[0]), ws[1..])
  }

  /** Applying writes one batch after another is applying them all at once. */
  lemma {:induction false} ApplyRecentWritesAppend(recent: map<string, DbRecent>, ws: seq<RecentWrite>, vs: seq<RecentWrite>)
    ensures ApplyRecentWrites(recent, ws + vs) == ApplyRecentWrites(ApplyRecentWrites(recent, ws), vs)
    decreases |ws|
  {
    if |ws| > 0 {
      assert (ws + vs)[0] == ws[0] && (ws + vs)[1..] == ws[1..] + vs;
      ApplyRecentWritesAppend(ApplyRecentWrite(recent, ws[0]), ws[1..], vs);
    } else {
      assert ws + vs == vs;
    }
  }

  /** However many writes the player issues, every record stays under its own track's id. */
  lemma {:induction false} ApplyRecentWritesKeyed(recent: map<string, DbRecent>, ws: seq<RecentWrite>)
    requires RecentKeyed(recent)
    ensures RecentKeyed(ApplyRecentWrites(recent, ws))
    decreases |ws|
  {
    if |ws| > 0 {
      ApplyRecentWritesKeyed(ApplyRecentWrite(recent, ws[0]), ws[1..]);
    }
  }

  class Database {
    var downloads: map<string, DbDownload>
    var playlists: map<string, DbPlaylist>
    var recent: map<string, DbRecent>

    /** Every record sits under its own primary key. */
    ghost predicate Valid()
      reads this
    {
      && (forall k :: k in downloads ==> downloads[k].track.id == k)
      && (forall k :: k in playlists ==> playlists[k].id == k)
      && RecentKeyed(recent)
    }

    constructor ()
      ensures Valid()
      ensures downloads == map[] && playlists == map[] && recent == map[]
    {
      downloads, playlists, recent := map[], map[], map[];
    }

    /** `db.recent.put(r)`: insert or replace the record of `r.track.id`. */
    method PutRecent(r: DbRecent)
      requires Valid()
      modifies this`recent
      ensures Valid()
      ensures recent == old(recent)[r.track.id := r]
    {
      recent := recent[r.track.id := r];
    }

    /** `db.recent.update(id, {position})`: only an existing record changes. */
    method UpdateRecentPosition(id: string, position: real)
      requires Valid()
      modifies this`recent
      ensures Valid()
      ensures id in old(recent) ==> recent == old(recent)[id := old(recent)[id].(position := position)]
      ensures id !in old(recent) ==> recent == old(recent)
    {
      if id in recent {
        recent := recent[id := recent[id].(position := position)];
      }
    }

    /** `db.downloads.add(d)`: refused (a constraint error) when the key is already present. */
    method AddDownload(d: DbDownload) returns (ok: bool)
      requires Valid()
      modifies this`downloads
      ensures Valid()
      ensures ok == (d.track.id !in old(downloads))
      ensures downloads == if ok then old(downloads)[d.track.id := d] else old(downloads)
    {
      ok := d.track.id !in downloads;
      if ok {
        downloads := downloads[d.track.id := d];
      }
    }

    /** `db.downloads.delete(id)`: removing a missing key is not an error. */
    method DeleteDownload(id: string)
      requires Valid()
      modifies this`downloads
      ensures Valid()
      ensures downloads == old(downloads) - {id}
    {
      downloads := downloads - {id};
    }

    /** `db.playlists.add(p)`: refused when the key is already present. */
    method AddPlaylist(p: DbPlaylist) returns (ok: bool)
      requires Valid()
      modifies this`playlists
      ensures Valid()
      ensures ok == (p.id !in old(playlists))
      ensures playlists == if ok then old(playlists)[p.id := p] else old(playlists)
    {
      ok := p.id !in playlists;
      if ok {
        playlists := playlists[p.id := p];
      }
    }

    /** `db.playlists.update(id, {tracks, updatedAt})`: does nothing when no playlist has that id. */
    method UpdatePlaylistTracks(id: string, tracks: seq<PlaylistTrack>, updatedAt: string)
      requires Valid()
      modifies this`playlists
      ensures Valid()
      ensures id in old(playlists) ==>
                playlists == old(playlists)[id := old(playlists)[id].(tracks := tracks, updatedAt := updatedAt)]
      ensures id !in old(playlists) ==> playlists == old(playlists)
    {
      if id in playlists {
        playlists := playlists[id := playlists[id].(tracks := tracks, updatedAt := updatedAt)];
      }
    }
  }
}
