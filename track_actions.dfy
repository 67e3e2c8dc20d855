/**
 * The actions menu of a track (src/components/music/track-actions.tsx): the file name a
 * browser download gets, and the playlist and download handlers (the record rules are
 * those of `Library`; this menu adds the context check for removal).
 */
module TrackActions {
  import opened Types
  import Library
  import Store

  predicate IsAsciiAlnum(c: char)
  {
    ('a' <= c <= 'z') || ('A' <= c <= 'Z') || ('0' <= c <= '9')
  }

  /** What the sanitiser keeps from a title: `[a-zA-Z0-9\s-]`. */
  predicate IsKept(c: char)
  {
    IsAsciiAlnum(c) || Library.IsSpace(c) || c == '-'
  }

  /** The characters a file name made by the sanitiser may contain. */
  predicate IsFileNameChar(c: char)
  {
    IsAsciiAlnum(c) || c == '-' || c == '_'
  }

  /** The characters of a title that survive into the file name unchanged. */
  predicate IsWordChar(c: char)
  {
    IsAsciiAlnum(c) || c == '-'
  }

  /** `s.replace(/[^a-zA-Z0-9\s-]/g, '')`. */
  function StripDisallowed(s: string): (r: string)
    ensures forall i :: 0 <= i < |r| ==> IsKept(r[i])
    decreases |s|
  {
    if |s| == 0 then ""
    else if IsKept(s[0]) then [s[0]] + StripDisallowed(s[1..])
    else StripDisallowed(s[1..])
  }

  /**
   * `s.replace(/\s+/g, '_')`: every maximal run of white space becomes one underscore.
   * `inRun` says whether the character before `s` was white space of the current run.
   */
  function CollapseSpaces(s: string, inRun: bool): string
    decreases |s|
  {
    if |s| == 0 then ""
    else if Library.IsSpace(s[0]) then
      if inRun then CollapseSpaces(s[1..], true) else "_" + CollapseSpaces(s[1..], true)
    else [s[0]] + CollapseSpaces(s[1..], false)
  }

  /** The sanitised title: disallowed characters dropped, white-space runs made underscores. */
  function SafeTitle(title: string): string
  {
    CollapseSpaces(StripDisallowed(title), false)
  }

  /** `${safeTitle}.mp3`. */
  function DownloadFileName(t: Track): (name: string)
    ensures |name| >= 4 && name[|name| - 4..] == ".mp3"
    ensures name[..|name| - 4] == SafeTitle(t.title)
  {
    SafeTitle(t.title) + ".mp3"
  }

  /** White space is neither kept as it is nor an underscore. */
  lemma SpaceIsNoWord(c: char)
    requires Library.IsSpace(c)
    ensures !IsWordChar(c) && c != '_'
  {
  }

  /** On kept characters the collapse yields only file-name characters. */
  lemma {:induction false} CollapseSpacesChars(s: string, inRun: bool)
    requires forall i :: 0 <= i < |s| ==> IsKept(s[i])
    ensures forall i :: 0 <= i < |CollapseSpaces(s, inRun)| ==> IsFileNameChar(CollapseSpaces(s, inRun)[i])
    decreases |s|
  {
    if |s| > 0 {
      var r := CollapseSpaces(s, inRun);
      var next := Library.IsSpace(s[0]);
      CollapseSpacesChars(s[1..], next);
      var tail := CollapseSpaces(s[1..], next);
      assert r == tail || r == [r[0]] + tail;
      assert forall i :: 1 <= i < |r| && r == [r[0]] + tail ==> r[i] == tail[i - 1];
    }
  }

  /**
   * On kept characters the collapse starts with an underscore exactly when a run of white
   * space starts with the input; inside a run it never does.
   */
  lemma {:induction false} CollapseSpacesHead(s: string, inRun: bool)
    requires forall i :: 0 <= i < |s| ==> IsKept(s[i])
    ensures |CollapseSpaces(s, inRun)| > 0 && CollapseSpaces(s, inRun)[0] == '_' <==>
              !inRun && |s| > 0 && Library.IsSpace(s[0])
    decreases |s|
  {
    if |s| > 0 {
      if Library.IsSpace(s[0]) {
        if inRun {
          CollapseSpacesHead(s[1..], true);
        }
      } else {
        assert CollapseSpaces(s, inRun)[0] == s[0];
        assert IsKept(s[0]);
      }
    }
  }

  /** On kept characters the collapse never puts two underscores side by side. */
  lemma {:induction false} CollapseSpacesNoDoubleUnderscore(s: string, inRun: bool)
    requires forall i :: 0 <= i < |s| ==> IsKept(s[i])
    ensures forall i :: 0 <= i < |CollapseSpaces(s, inRun)| - 1 ==>
              !(CollapseSpaces(s, inRun)[i] == '_' && CollapseSpaces(s, inRun)[i + 1] == '_')
    decreases |s|
  {
    if |s| > 0 {
      var r := CollapseSpaces(s, inRun);
      var next := Library.IsSpace(s[0]);
      CollapseSpacesNoDoubleUnderscore(s[1..], next);
      var tail := CollapseSpaces(s[1..], next);
      if r != tail {
        CollapseSpacesHead(s[1..], next);
        assert r == [r[0]] + tail;
        assert forall i :: 1 <= i < |r| ==> r[i] == tail[i - 1];
      }
    }
  }

  /** The sanitised title holds only ASCII letters, digits, `-` and `_`, and no `__`. */
  lemma SafeTitleShape(title: string)
    ensures forall i :: 0 <= i < |SafeTitle(title)| ==> IsFileNameChar(SafeTitle(title)[i])
    ensures forall i :: 0 <= i < |SafeTitle(title)| - 1 ==> !(SafeTitle(title)[i] == '_' && SafeTitle(title)[i + 1] == '_')
  {
    CollapseSpacesChars(StripDisallowed(title), false);
    CollapseSpacesNoDoubleUnderscore(StripDisallowed(title), false);
  }

  /** The letters, digits and dashes of a string, in order. */
  function Words(s: string): (r: string)
    decreases |s|
  {
    if |s| == 0 then ""
    else if IsWordChar(s[0]) then [s[0]] + Words(s[1..])
    else Words(s[1..])
  }

  /** Collapsing white space keeps the letters, digits and dashes and their order. */
  lemma {:induction false} CollapseKeepsWords(s: string, inRun: bool)
    ensures Words(CollapseSpaces(s, inRun)) == Words(s)
    decreases |s|
  {
    if |s| > 0 {
      var next := Library.IsSpace(s[0]);
      CollapseKeepsWords(s[1..], next);
      var tail := CollapseSpaces(s[1..], next);
      if next {
        SpaceIsNoWord(s[0]);
        assert ("_" + tail)[1..] == tail;
      } else {
        assert ([s[0]] + tail)[1..] == tail;
      }
    }
  }

  /** Dropping disallowed characters keeps the letters, digits and dashes and their order. */
  lemma {:induction false} StripKeepsWords(s: string)
    ensures Words(StripDisallowed(s)) == Words(s)
    decreases |s|
  {
    if |s| > 0 {
      StripKeepsWords(s[1..]);
      if IsKept(s[0]) {
        assert ([s[0]] + StripDisallowed(s[1..]))[1..] == StripDisallowed(s[1..]);
      }
    }
  }

  /** Every ASCII letter, digit and dash of the title reaches the file name, in order; nothing else of it does. */
  lemma SafeTitleKeepsWords(title: string)
    ensures Words(SafeTitle(title)) == Words(title)
  {
    CollapseKeepsWords(StripDisallowed(title), false);
    StripKeepsWords(title);
  }

  /** The list the menu is opened from; the menu's removal acts only inside a playlist. */
  datatype ActionContext = InSearch | InPlaylist(playlistId: string) | InDownloads | InRecent

  /** `handleRemoveFromPlaylist`: only in a playlist's own list, and only while that playlist exists. */
  method HandleRemoveFromPlaylist(db: Store.Database, t: Track, context: ActionContext, now: string)
    requires db.Valid()
    modifies db`playlists
    ensures db.Valid()
    ensures !context.InPlaylist? || context.playlistId !in old(db.playlists) ==> db.playlists == old(db.playlists)
    ensures context.InPlaylist? && context.playlistId in old(db.playlists) ==>
              db.playlists == old(db.playlists)[context.playlistId := old(db.playlists)[context.playlistId].(
                                tracks := Library.RemoveById(old(db.playlists)[context.playlistId].tracks, t.id),
                                updatedAt := now)]
  {
    if context.InPlaylist? {
      Library.RemoveFromPlaylist(db, context.playlistId, t.id, now);
    }
  }
}
