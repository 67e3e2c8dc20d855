# Music player core in Dafny

This project models the client core of a web music player. The player searches a
backend for tracks, streams them, and keeps playlists, downloads and a listening
history in an on-device database. The model covers:

- **`PlayerContext`**: the playback and queue controller. It covers:
  - the original queue, the ordered play queue and the shuffled play queue;
  - the source a queue plays from;
  - next and previous with the three loop modes;
  - adding a track after the current one;
  - shuffling and the loop-mode cycle;
  - the audio element's event handlers;
  - the Media Session seek actions;
  - the effect that loads the current track. The track comes from a download when one is stored and from the stream resolver otherwise. A newer track aborts the older load.
- **`StreamCache`**: the stream-URL cache (`getStream`, `preloadStream`, `cancelPreloading`). Its one caller in the repository is the search results list, which preloads its first two results (src/components/music/search-results.tsx:52-53). `getStream` and `cancelPreloading` have no caller. Playback does not go through the cache: it calls the stream resolver directly (src/context/player-context.tsx:205).
- **`HomePage`**: the home page's recommendation playlists. A worker computes them from the listening history, and a skeleton playlist stands in while a request is out. The module also covers the "recently played" tiles and playing a recommendation.
- **`Library`**: the playlist and download rules shared by the three track components.
- **`TrackItem`, `TrackActions`, `PlayerFull`, `SeekBar`**: what those components add to the shared rules:
  - the time labels;
  - the download file name;
  - the "playing from" caption;
  - picking a track from the queue.
- **`Types`, `Store`, `TrackLists`, `NumberText`**: the records, the database tables, list helpers, and JavaScript's number-to-text conversion.

React state becomes the fields of a class. Each handler is one atomic method. Each effect is a
method that runs after the commit that changed its dependencies. A promise is a handle, and the
reaction attached to it runs when the environment settles that handle.
Randomness is an arbitrary permutation. Clocks (`Date.now`, `toISOString`), `crypto.randomUUID`, the
contents of downloaded blobs and the results of network calls are parameters.

## Model

| member | source | states |
|---|---|---|
| Store.ApplyRecentWrite | src/context/player-context.tsx:72-82 | a `put` replaces or adds the record under the track's id, and leaves every other key alone. A position `update` changes only that field of an existing record and creates nothing |
| Store.ApplyRecentWritesAppend | src/context/player-context.tsx:393-401 | applying two batches of history writes in turn is the same as applying them as one batch |
| Store.ApplyRecentWritesKeyed | src/lib/db.ts:15 | the history stays keyed by track id under any sequence of writes |
| Store.Database.constructor | src/lib/db.ts:10-18 | the tables start empty |
| Store.Database.PutRecent | src/context/player-context.tsx:74-78 | the record is stored under its track's id, replacing any earlier one |
| Store.Database.UpdateRecentPosition | src/context/player-context.tsx:397 | only an existing entry's position changes. A missing id changes nothing |
| Store.Database.AddDownload | src/components/music/track-actions.tsx:169 | `add` succeeds exactly when the key is new. A duplicate leaves the table as it was |
| Store.Database.DeleteDownload | src/components/music/track-actions.tsx:187 | the key is gone and every other record is kept |
| Store.Database.AddPlaylist | src/components/music/track-actions.tsx:92 | `add` succeeds exactly when the id is new |
| Store.Database.UpdatePlaylistTracks | src/components/music/track-actions.tsx:69 | an existing playlist gets the new tracks and `updatedAt`. A missing one is not created |
| TrackLists.IndexOfId | src/context/player-context.tsx:96 | `findIndex`: -1 or an index whose track has the id |
| TrackLists.IndexOfIdFirst | src/context/player-context.tsx:96 | no earlier track has the id, and with -1 no track has it |
| TrackLists.IndexOfIdFound | src/context/player-context.tsx:115 | the index is -1 exactly when no track has the id |
| TrackLists.JoinHead | src/context/player-context.tsx:85 | a joined list starts with its first id, followed by a comma and the join of the rest |
| TrackLists.JoinInjective | src/context/player-context.tsx:85 | for non-empty ids without commas, equal joins mean equal id lists |
| TrackLists.JoinConfuses | src/context/player-context.tsx:85 | without that condition, different id lists can join to the same text |
| TrackLists.WithoutId | src/context/player-context.tsx:101 | no remaining track has the id |
| TrackLists.WithoutIdSubsequence | src/context/player-context.tsx:101 | the result keeps the remaining tracks in their order |
| TrackLists.WithoutIdCount | src/context/player-context.tsx:101 | each track without the id keeps its multiplicity, and tracks with the id are gone |
| TrackLists.InsertAt | src/context/player-context.tsx:252 | `splice(i, 0, t)`: `t` at `i`, the prefix unchanged, the rest shifted by one |
| TrackLists.InsertAtMultiset | src/context/player-context.tsx:252 | the insertion adds exactly that one track |
| TrackLists.LastN | src/app/page.tsx:70 | `slice(-n)`: the last `min(n, length)` elements, in order |
| TrackLists.IdsOfPermutation | src/context/player-context.tsx:123 | a reordered queue has the same multiset of ids |
| NumberText.Floor | src/components/music/seek-bar.tsx:8 | `Math.floor`: the greatest integer not above the value |
| NumberText.Trunc | src/components/music/seek-bar.tsx:9 | truncation toward zero, in terms of `Floor` on either sign |
| NumberText.NatToStringRoundTrip | src/components/music/seek-bar.tsx:10 | `toString` of a whole number is a non-empty run of digits with no leading zero that reads back as the number |
| NumberText.NatToStringLength | src/components/music/seek-bar.tsx:10 | one digit below 10, two below 100 |
| NumberText.PadStart2 | src/components/music/seek-bar.tsx:10 | `padStart(2, '0')`: zeros on the left up to two characters, and longer text kept |
| NumberText.PadStart2Digits | src/components/music/seek-bar.tsx:10 | a number below 100 pads to two digits with the same value |
| NumberText.MinutesSeconds | src/components/music/seek-bar.tsx:8-9 | for a non-negative time, minutes times 60 plus the seconds digit pair is the whole seconds, and the seconds are below 60 |
| NumberText.ClockOfNatural | src/components/music/seek-bar.tsx:10 | the template is minutes, a colon and the padded seconds |
| NumberText.ClockTextReadsBack | src/components/music/seek-bar.tsx:6-11 | a non-negative time prints as `m:ss`, where `m` is whole minutes, `ss` two digits below 60, and `60*m + ss` the whole seconds |
| NumberText.ClockTextNegative | src/components/music/seek-bar.tsx:8-10 | a negative time prints with a leading minus sign |
| SeekBar.FormatTime | src/components/music/seek-bar.tsx:6-11 | NaN prints as `0:00`, and infinity as `Infinity:NaN` |
| SeekBar.FormatTimeReadsBack | src/components/music/seek-bar.tsx:6-11 | the label of a non-negative time reads back as its whole minutes and seconds |
| SeekBar.FormatTimeNegative | src/components/music/seek-bar.tsx:7-10 | a negative time is not caught by the NaN guard and prints signed |
| SeekBar.ElapsedNotPastTotal | src/components/music/seek-bar.tsx:32-42 | with progress in [0,1], the elapsed label never reads as more seconds than the total label |
| SeekBar.HandleSeek | src/components/music/seek-bar.tsx:16-18 | the slider's percentage becomes progress `value/100`, and the audio jumps to that fraction of the duration |
| SeekBar.HandlePointerDown | src/components/music/seek-bar.tsx:20-22 | dragging sets `isSeeking` |
| SeekBar.HandlePointerUp | src/components/music/seek-bar.tsx:24-26 | releasing clears `isSeeking` |
| PlayerContext.NextLoopMode | src/context/player-context.tsx:314-320 | the mode always changes, and off goes to queue |
| PlayerContext.LoopModeCycle | src/context/player-context.tsx:314-320 | three presses come back to the starting mode, and neither one nor two presses do |
| PlayerContext.ContextKeptIff | src/context/player-context.tsx:85-94 | for non-empty ids without commas, the context is kept exactly when the source and the queue's id list are equal. A kept context keeps the stored queue. A new one takes the new queue, or `[track]` when it is empty |
| PlayerContext.EmptyQueueEdge | src/context/player-context.tsx:85-97 | playing with an empty queue from the initial state keeps the empty queue as the context, yet the play queue is `[track]` |
| PlayerContext.PlayQueueFrom | src/context/player-context.tsx:96-97 | the play queue starts with the chosen track |
| PlayerContext.PlayQueueFromSuffix | src/context/player-context.tsx:96-97 | the play queue is the suffix from the first track with that id, or `[track]` when the queue lacks it |
| PlayerContext.CurrentIndex | src/context/player-context.tsx:115 | -1 or the position of the current track's id |
| PlayerContext.CurrentIndexFound | src/context/player-context.tsx:115 | found exactly when a track with the current id is in the queue, and it is the first such track |
| PlayerContext.AddAfterCurrent | src/context/player-context.tsx:246-254 | the new queue holds the track |
| PlayerContext.AddAfterCurrentContents | src/context/player-context.tsx:247-253 | a track already queued leaves the queue as it is. Otherwise exactly that track is added |
| PlayerContext.AddAfterCurrentPlacement | src/context/player-context.tsx:250-252 | the track goes directly after the current one, with both sides kept |
| PlayerContext.AddAfterCurrentFront | src/context/player-context.tsx:250-252 | with the current track not in the queue (`findIndex` -1), the track goes to the front |
| PlayerContext.AddAfterCurrentKeepsIdsDistinct | src/context/player-context.tsx:246-254 | a queue without repeated ids keeps that property |
| PlayerContext.AddUpNext | src/context/player-context.tsx:258-270 | the active play queue holds the track and keeps its head, the current track |
| PlayerContext.AddUpNextSpec | src/context/player-context.tsx:258-270 | a duplicate changes nothing. Otherwise the track sits at position 1, or alone in an empty queue, and only it is added |
| PlayerContext.Shuffle | src/context/player-context.tsx:102 | a shuffle is a permutation |
| PlayerContext.ShuffleAfter | src/context/player-context.tsx:101-104 | the shuffled queue is the track followed by a permutation of the upcoming tracks |
| PlayerContext.SkipNextStep | src/context/player-context.tsx:113-130 | advance exactly when the current track is found and is not last, and then to its successor. Wrap exactly when not advancing, the loop mode is queue and the queue is not empty: to a reshuffle when shuffled, else to the queue's head |
| PlayerContext.PrevTrack | src/context/player-context.tsx:143-157 | past 3 seconds there is no previous track. Otherwise it is the predecessor in the original queue, or with queue looping the last track, and it is always in the queue |
| PlayerContext.SameContextKept | src/context/player-context.tsx:85 | replaying within the current queue and source is never a new context |
| PlayerContext.ShuffledWrapKeepsTracks | src/context/player-context.tsx:122-125 | wrapping into a reshuffled queue keeps exactly the queue's tracks |
| PlayerContext.SeekOffset | src/context/player-context.tsx:368-375 | the offset falls back to 10 seconds: an absent or zero offset means 10 seconds |
| PlayerContext.AudioElement.constructor | src/context/player-context.tsx:53 | a fresh element has no source, is paused at 0 with an unknown duration, and plays at full volume |
| PlayerContext.AudioElement.SetSource | src/context/player-context.tsx:211 | a new source restarts at 0, paused, with an unknown duration |
| PlayerContext.AudioElement.Play | src/context/player-context.tsx:212 | the element is playing |
| PlayerContext.AudioElement.Pause | src/context/player-context.tsx:191 | the element is paused |
| PlayerContext.Player.constructor | src/context/player-context.tsx:57-70 | the initial state: nothing current, empty queues, unknown source, volume 1, loop off |
| PlayerContext.Player.PlayTrack | src/context/player-context.tsx:84-111 | the context rule, then the play queue from the track (reshuffled when shuffled), the track current, one history `put` at position 0, and the invariant kept |
| PlayerContext.Player.StopAtEnd | src/context/player-context.tsx:134-139 | stopping at the end sets not playing, progress 1, and the audio at the duration |
| PlayerContext.Player.SkipNext | src/context/player-context.tsx:113-141 | the state after next is exactly the one `SkipNextStep` chooses: play the successor or the wrap target, or stop at the end |
| PlayerContext.Player.SkipPrev | src/context/player-context.tsx:143-164 | past 3 seconds it rewinds. Otherwise it plays `PrevTrack` in the current context, or rewinds when there is none |
| PlayerContext.Player.Replay | src/context/player-context.tsx:168-169 | rewind to 0 and play |
| PlayerContext.Player.HandleTrackEnd | src/context/player-context.tsx:166-173 | single loop with a current track replays it and changes no queue. Otherwise it is next |
| PlayerContext.Player.AddToQueue | src/context/player-context.tsx:238-277 | with nothing current it plays the track alone. Otherwise the track goes after the current one in the queue and up next in the active play queue, and nothing else changes |
| PlayerContext.Player.TogglePlay | src/context/player-context.tsx:279-287 | with a current track, a playing element pauses and a paused one plays. Without one, nothing happens |
| PlayerContext.Player.Seek | src/context/player-context.tsx:289-294 | the audio moves to that fraction of the duration and the progress follows |
| PlayerContext.Player.ToggleShuffle | src/context/player-context.tsx:296-312 | shuffling on makes the current track plus a permutation of the rest of the play queue. Shuffling off rebuilds the play queue from the original queue. The invariant is kept |
| PlayerContext.Player.ToggleLoopMode | src/context/player-context.tsx:314-320 | the mode advances one step of the cycle |
| PlayerContext.Player.SetVolume | src/context/player-context.tsx:439-443 | the state and the element get the same volume |
| PlayerContext.Player.SetIsSeeking | src/context/player-context.tsx:69 | the flag is set |
| PlayerContext.Player.StartLoad | src/context/player-context.tsx:185-195 | the previous object URL is revoked and forgotten, the element is reset, the page shows loading at 0, and a store lookup is pending for this generation |
| PlayerContext.Player.CommitLoadEffect | src/context/player-context.tsx:176-235 | the effect runs only when `currentTrack` changed. Each run aborts the previous generation, and a new current track starts a load |
| PlayerContext.Player.Drop | src/context/player-context.tsx:209-217 | an aborted load ends silently |
| PlayerContext.Player.Fail | src/context/player-context.tsx:219-226 | a failure shows one error, stops loading and clears the current track |
| PlayerContext.Player.Begin | src/context/player-context.tsx:211-212 | the element gets the URL and starts playing |
| PlayerContext.Player.SettleStoreLookup | src/context/player-context.tsx:199-207 | a download plays from a new object URL without calling the resolver, unless aborted. Otherwise the resolver is called once for the track's URL. An abort is silent, and any other failure is reported |
| PlayerContext.Player.SettleStream | src/context/player-context.tsx:205-227 | a resolved URL plays unless the generation was aborted. An abort error is silent, and another error is reported and clears the track |
| PlayerContext.Player.SettlePlay | src/context/player-context.tsx:212-227 | the load ends. Only a non-abort rejection of `play()` is reported |
| PlayerContext.Player.OnTimeUpdate | src/context/player-context.tsx:393-401 | while not seeking with a finite positive duration, progress is time divided by duration, and a positive time is written as the position of the current track's history entry. Otherwise nothing changes |
| PlayerContext.Player.OnLoadedMetadata | src/context/player-context.tsx:402-408 | a finite duration is taken, and loading ends |
| PlayerContext.Player.OnPlay | src/context/player-context.tsx:409 | playing |
| PlayerContext.Player.OnPlaying | src/context/player-context.tsx:411-414 | playing and not loading |
| PlayerContext.Player.OnPause | src/context/player-context.tsx:415 | not playing |
| PlayerContext.Player.OnWaiting | src/context/player-context.tsx:416 | loading |
| PlayerContext.Player.OnCanPlayThrough | src/context/player-context.tsx:410 | not loading |
| PlayerContext.Player.SeekBackward | src/context/player-context.tsx:368-372 | back by the offset, clamped at 0 |
| PlayerContext.Player.SeekForward | src/context/player-context.tsx:373-377 | forward by the offset, clamped at the duration |
| PlayerContext.Player.SeekTo | src/context/player-context.tsx:378-383 | a given seek time is taken. An absent one changes nothing |
| PlayerContext.Player.Dispose | src/context/player-context.tsx:446-452 | unmounting revokes the last object URL and aborts every pending load |
| StreamCache.OnePendingPerUrl | src/lib/stream-cache.ts:14-19 | under the cache invariant, a URL never has two resolver calls in flight |
| StreamCache.PreloadingIsCached | src/lib/stream-cache.ts:37-45 | a URL being preloaded is in the cache with a pending lookup |
| StreamCache.WithoutControllers | src/lib/stream-cache.ts:65-71 | dropping every controller keeps the invariant |
| StreamCache.Cache.constructor | src/lib/stream-cache.ts:6-7 | both maps start empty |
| StreamCache.Cache.GetStream | src/lib/stream-cache.ts:13-20 | a hit returns the cached lookup and calls nothing. A miss calls the resolver once and caches that call before awaiting it |
| StreamCache.Cache.PreloadStream | src/lib/stream-cache.ts:35-45 | a cached or preloading URL is left alone. Otherwise one preload call is registered in both maps |
| StreamCache.Cache.CancelPreloading | src/lib/stream-cache.ts:65-71 | every controller is aborted and none is left registered. The cache and the lookups are untouched |
| StreamCache.Cache.AbortEach | src/lib/stream-cache.ts:66-70 | the loop aborts exactly the registered controllers |
| StreamCache.Cache.Settle | src/lib/stream-cache.ts:21-58 | a failure removes the lookup's own cache entry, and a success keeps it. A preload loses its controller either way. The invariant is kept |
| Library.TrimStart | src/components/music/track-actions.tsx:88 | drops exactly the leading white space |
| Library.TrimEnd | src/components/music/track-actions.tsx:88 | drops exactly the trailing white space |
| Library.TrimEmptyIffBlank | src/components/music/track-actions.tsx:88 | a name trims to empty exactly when it is all white space, and otherwise it starts and ends with a visible character |
| Library.AppendIfAbsent | src/components/music/track-actions.tsx:59-72 | the playlist holds the track afterwards |
| Library.AppendIfAbsentSpec | src/components/music/track-actions.tsx:59-72 | a present track changes nothing. An absent one is appended at the end with its `addedAt`, the rest is kept, and distinct ids stay distinct |
| Library.RemoveById | src/components/music/track-actions.tsx:116-119 | no entry has the id any more |
| Library.RemoveByIdSubsequence | src/components/music/track-actions.tsx:116-119 | the remaining entries keep their original order. With RemoveByIdKeepsOthers, this pins the result down as the filter |
| Library.RemoveByIdKeepsOthers | src/components/music/track-actions.tsx:116-119 | each entry of another track keeps its multiplicity |
| Library.RemoveByIdAbsent | src/components/music/track-actions.tsx:116-119 | removing an absent id changes nothing |
| Library.RemoveUndoesAppend | src/components/music/track-actions.tsx:59-119 | removing a track just added restores the playlist |
| Library.DownloadRecord | src/components/music/track-actions.tsx:169-177 | the record keeps the track, its original URL, and the blob's size and type |
| Library.AddToPlaylist | src/components/music/track-actions.tsx:58-85 | a track already in the playlist changes nothing. Otherwise the stored playlist gets it appended and a new `updatedAt` |
| Library.CreatePlaylist | src/components/music/track-actions.tsx:87-108 | created exactly when the trimmed name is not empty and the id is new, holding just the track |
| Library.RemoveFromPlaylist | src/components/music/track-actions.tsx:110-130 | an existing playlist's tracks become `RemoveById` of them: every entry of the track goes, and the others stay in order and multiplicity (RemoveByIdSubsequence, RemoveByIdKeepsOthers). A missing playlist is left alone |
| Library.SaveForOffline | src/components/music/track-actions.tsx:157-182 | a downloaded track or a failed fetch changes nothing. Otherwise the download record is stored |
| Library.RemoveDownload | src/components/music/track-actions.tsx:184-193 | the record is gone, and a missing record changes nothing |
| TrackActions.StripDisallowed | src/components/music/track-actions.tsx:143 | only ASCII letters, digits, white space and `-` survive |
| TrackActions.DownloadFileName | src/components/music/track-actions.tsx:143-144 | the file name is the sanitised title plus `.mp3` |
| TrackActions.CollapseSpacesChars | src/components/music/track-actions.tsx:143 | after collapsing, only letters, digits, `-` and `_` remain |
| TrackActions.CollapseSpacesHead | src/components/music/track-actions.tsx:143 | a collapsed title starts with `_` exactly when a white-space run starts it |
| TrackActions.CollapseSpacesNoDoubleUnderscore | src/components/music/track-actions.tsx:143 | a run of white space becomes a single `_` |
| TrackActions.SafeTitleShape | src/components/music/track-actions.tsx:143 | the safe title uses only file-name characters and never holds `__` |
| TrackActions.CollapseKeepsWords | src/components/music/track-actions.tsx:143 | collapsing keeps the title's letters, digits and dashes in order |
| TrackActions.StripKeepsWords | src/components/music/track-actions.tsx:143 | stripping keeps the title's letters, digits and dashes in order |
| TrackActions.SafeTitleKeepsWords | src/components/music/track-actions.tsx:143 | sanitising keeps exactly the title's letters, digits and dashes, in order |
| TrackActions.HandleRemoveFromPlaylist | src/components/music/track-actions.tsx:110-130 | outside a playlist view nothing changes. Inside an existing playlist's view, its tracks become `RemoveById` of them: the track leaves, and the rest keep their order |
| TrackItem.FormatDuration | src/components/music/track-item.tsx:50-55 | NaN and negative durations show as `0:00` |
| TrackItem.FormatDurationVersusFormatTime | src/components/music/track-item.tsx:50-55 | it agrees with the seek bar's formatter except on negative values, and it is never signed |
| TrackItem.AtMostOneActive | src/components/music/track-item.tsx:68-69 | in a list with distinct ids, at most one row is active or playing, and none without a current track |
| TrackItem.HandleRemoveFromPlaylist | src/components/music/track-item.tsx:124-144 | only in an existing playlist's view does the track leave it. Its tracks become `RemoveById` of them, so the rest keep their order |
| TrackItem.HandleDownload | src/components/music/track-item.tsx:146-170 | a downloaded track is not fetched again. A fetched blob is stored with the track's original URL |
| PlayerFull.SourceCaption | src/components/music/player-full.tsx:45-58 | a playlist shows its name, and a search shows its query in quotes |
| PlayerFull.CaptionDistinguishesSources | src/components/music/player-full.tsx:45-58 | equal captions mean the same kind of source, the same search, or the same playlist name |
| PlayerFull.FindById | src/components/music/player-full.tsx:76 | found exactly when a track has the id, and it is the first such track |
| PlayerFull.SelectTrack | src/components/music/player-full.tsx:75-80 | a queued track plays in the unchanged context. An unknown id does nothing |
| PlayerFull.HandleAddToPlaylist | src/components/music/player-full.tsx:82-110 | nothing without a current track. Otherwise the shared add rule applies |
| PlayerFull.HandleCreatePlaylist | src/components/music/player-full.tsx:112-133 | created exactly when there is a current track, a non-blank name and a new id |
| PlayerFull.HandleSaveForOffline | src/components/music/player-full.tsx:135-161 | nothing without a current track. Otherwise the shared save rule applies |
| PlayerFull.HandleRemoveFromDownloads | src/components/music/player-full.tsx:163-166 | the current track's download record is gone |
| HomePage.ReplaceSkeletons | src/app/page.tsx:66 | every skeleton-headed playlist becomes the new one, and the others are kept in place |
| HomePage.MergeRecommendation | src/app/page.tsx:65-71 | at most three playlists are kept |
| HomePage.MergeKeepsDuplicate | src/app/page.tsx:67 | without a skeleton, and with the same recommendation already listed, a result leaves the list unchanged |
| HomePage.MergeIntoSkeleton | src/app/page.tsx:66-70 | with a skeleton present, the new playlist takes its place |
| HomePage.MergeAppends | src/app/page.tsx:67-70 | without a skeleton or an equal playlist, the new one is appended and the oldest dropped beyond three |
| HomePage.MergeHoldsRecommendation | src/app/page.tsx:65-71 | the merged list always holds the new recommendation |
| HomePage.DropSkeletons | src/app/page.tsx:89 | no skeleton-headed playlist is left |
| HomePage.DropSkeletonsKeeps | src/app/page.tsx:89 | every other playlist keeps its multiplicity |
| HomePage.DropSkeletonsSubsequence | src/app/page.tsx:89 | the kept playlists stay in their original order |
| HomePage.DropSkeletonsNone | src/app/page.tsx:89 | a list without skeletons is unchanged |
| HomePage.AfterReply | src/app/page.tsx:51-90 | after any reply no skeleton is left. An error or an empty result only drops skeletons |
| HomePage.SeenAfterResult | src/app/page.tsx:75-77 | the seen ids are exactly the history's ids plus the recommended ids |
| HomePage.EmptyHistoryGuardUnreachable | src/app/page.tsx:129-138 | whenever a fetch is due, the history is not empty, so the guard at line 138 never returns |
| HomePage.SeenHistoryDoesNotRefetch | src/app/page.tsx:128-135 | with recommendations shown, a history already seen does not trigger a request |
| HomePage.SkeletonPlaylist | src/app/page.tsx:141-153 | six stand-in tracks |
| HomePage.SkeletonIsRecognised | src/app/page.tsx:141-153 | every stand-in id has the skeleton prefix |
| HomePage.AfterTrigger | src/app/page.tsx:154 | one to three playlists after the skeleton is added |
| HomePage.TriggerNotPersisted | src/app/page.tsx:116-154 | the list with a skeleton is never saved |
| HomePage.TriggerThenResult | src/app/page.tsx:65-154 | a request then a non-empty result ends with the result last, and with one to three playlists |
| HomePage.TriggerThenNothing | src/app/page.tsx:89-154 | a request then an error or an empty result leaves the previous last two playlists |
| HomePage.Summaries | src/app/page.tsx:136 | one title and artist per history entry, in order |
| HomePage.Posted | src/app/page.tsx:156 | the worker gets the first ten summaries |
| HomePage.ReplyPersistedIffNonEmpty | src/app/page.tsx:116 | after a reply, the list is saved exactly when it is not empty |
| HomePage.RecentlyPlayedItems | src/app/page.tsx:177-189 | with no history, up to four placeholders. Otherwise the first four history entries |
| HomePage.RecentlyPlayedItemsShape | src/app/page.tsx:181-188 | a tile is a placeholder exactly when there is no history, and then it has no track. A history tile shows its track and always has an image |
| HomePage.FallbackPlaylists | src/app/page.tsx:162-175 | one "Popular Playlists" list of up to six unplayable placeholder tracks |
| HomePage.CurrentPlaylists | src/app/page.tsx:222 | recommendations when there are any, and nothing while a history exists without them |
| HomePage.DisplayPlaylists | src/app/page.tsx:224 | no shown playlist holds a stand-in track |
| HomePage.DisplayPlaylistsSubsequence | src/app/page.tsx:224 | the shown playlists keep their original order |
| HomePage.DisplayPlaylistsKeeps | src/app/page.tsx:224 | every playlist without a stand-in track is shown, as often as it occurs |
| HomePage.SkeletonShownIffHeldBack | src/app/page.tsx:224-225 | the skeleton shows exactly when a playlist is held back from display |
| HomePage.SkeletonShownAfterTrigger | src/app/page.tsx:154-225 | right after a request the skeleton shows |
| HomePage.PlayableTracks | src/app/page.tsx:199 | only tracks with a URL are kept |
| HomePage.PlayableTracksKeeps | src/app/page.tsx:199 | every playable track keeps its multiplicity |
| HomePage.PlayableTracksSubsequence | src/app/page.tsx:199 | the playable tracks keep their order in the playlist |
| HomePage.RecommendationSource | src/app/page.tsx:200-206 | the playlist is named and keyed by the title and holds the playable tracks |
| HomePage.HandlePlayRecommendation | src/app/page.tsx:197-208 | an unplayable track does nothing. Otherwise it plays with the playable tracks as the queue: every track with a URL, in the playlist's order (PlayableTracksSubsequence, PlayableTracksKeeps), from that playlist |
| HomePage.RecentQueue | src/app/page.tsx:193 | the history's tracks, in order |
| HomePage.HandlePlayRecent | src/app/page.tsx:191-195 | a placeholder tile does nothing. Otherwise its track plays among the history, from "recent" |
| HomePage.Home.constructor | src/app/page.tsx:35-45 | the page starts with no recommendations, no fetch and no history yet |
| HomePage.Home.RestoreSaved | src/app/page.tsx:98-111 | a saved list is restored, and its track ids count as seen |
| HomePage.Home.SaveEffect | src/app/page.tsx:114-122 | a non-empty list without skeletons is saved, and anything else leaves storage alone |
| HomePage.Home.RecentsChangedAsWritten | src/app/page.tsx:48-95 | as written, a history change replaces the worker, so a request in flight is never answered and the page stays fetching |
| HomePage.Home.RecentsChanged | src/app/page.tsx:42-45 | a history change only updates the history, and a request in flight stays answerable |
| HomePage.Home.FetchEffect | src/app/page.tsx:125-160 | a request starts exactly when a fetch is due. It adds the skeleton, posts the first ten summaries and marks the history as seen. Otherwise nothing changes |
| HomePage.Home.Reply | src/app/page.tsx:51-90 | the reply ends the fetch and merges or drops skeletons. A non-empty result marks its tracks and the history as seen |

## Left out

- Change detection compares values. React compares references, so a dependency array or a `setState` updater that returns the same array is modelled by value equality.
- Effects run as separate transitions after a commit. The stale-closure values a callback may see between renders are not modelled: each handler reads the latest state.
- History writes (`db.recent.put`/`update`) are fire-and-forget. They are kept as a log (`recentWrites`) whose effect on the table is `Store.ApplyRecentWrites`, and their failure is swallowed, as in the source.
- PlayerContext.Player.SetVolume requires a volume in [0, 1], the range of the slider that calls it. The source passes the value on unchecked.
- The source comparison `JSON.stringify(source) !== JSON.stringify(sourceInfo)` is modelled as value inequality of `Source`. Key order in the serialised text is not modelled.
- The Media Session metadata, `updatePositionState` and the play/pause/next/previous action handlers are left out: they only forward to `TogglePlay`, `SkipNext` and `SkipPrev` or to the browser. The three seek actions are modelled.
- The stream resolver (src/lib/api.ts), the recommendation worker and the AI flows are not part of this model. Their answers are parameters or settle events.
- PlayerContext.Player.SettleStoreLookup: on a downloaded track, the object URL is recorded even when the load was already aborted, as in the source. Whether the browser leaks the superseded URL is not modelled.
- PlayerContext.Player.Fail: a failure is applied whatever the generation, as the source's `catch` does (it checks no abort flag).
- The `isDownloaded` live query is modelled as the database's current state.
- Dialog state, toasts, console output and navigation are left out.
- NumberText.NatToString: JavaScript's exponent notation for numbers of 1e21 and above is not modelled.
- `Track.reason` is left out, because no core code reads it.
- Numbers are exact reals, not IEEE doubles. Rounding in `currentTime / duration` is not modelled.
- PlayerContext.Player.SeekTo: the element's own clamping of `currentTime` is not modelled.
- `localStorage` JSON that fails to parse is treated as absent (`None`), which is what the source's `catch` amounts to.
- The placeholder image list (src/lib/placeholder-images) is not part of this model. HomePage.RecentlyPlayedItems requires it to be non-empty, as the shipped constant is.
- `handleImageError` is left out: it only rewrites an `<img>` source.
- `handleDownload` in track-actions.tsx (lines 132-155) saves a file through the browser. That file download is left out; only its file name (`TrackActions.DownloadFileName`) is modelled.
- HomePage.Home.constructor: React runs the mount effects of the home page in declaration order within one commit. The model runs each as its own method, and the caller chooses the order.
- Search results call `preloadStream`; that caller is not part of this model.
- Library.CreatePlaylist: one `now` stands for the separate clock reads behind `createdAt`, `updatedAt` and `addedAt` (track-actions.tsx:91-96). The contract therefore gives them equal values, which the source does not guarantee.
- PlayerFull.HandleCreatePlaylist: the same single `now` for the separate clock reads at player-full.tsx:112-133.
- Library.AppendIfAbsent and Library.AddToPlaylist: one `now` serves as both `addedAt` and `updatedAt`, which the source reads from the clock separately (track-actions.tsx:68-71).
- HomePage.RecommendationSource: one `now` serves as both `createdAt` and `updatedAt`, which page.tsx:204-205 read from the clock separately.
- PlayerContext.Player.Seek: the `isFinite(duration)` guard always holds in the model, because the state's duration is only ever set from a finite value.
- The `audioRef.current` null checks always pass in the model: the audio element always exists.

## Findings

| source | as written | input that shows it | evidently intended | confidence | as-written member | corrected member |
|---|---|---|---|---|---|---|
| src/app/page.tsx:95 | The worker effect depends on `recentTracks`. Every change of the live history query terminates the worker and creates a new one. The player writes the playback position into the history on every `timeupdate` (src/context/player-context.tsx:397). | Play a track while a recommendation request is out. The next `timeupdate` changes the history, the worker that holds the request is terminated, and no reply ever arrives. `isFetching` stays true, the skeleton stays, and no later fetch starts. | The worker lives for the page's lifetime. A history change does not cancel a request in flight, and the reply ends the fetch. | medium, not executed | HomePage.Home.RecentsChangedAsWritten | HomePage.Home.RecentsChanged |
