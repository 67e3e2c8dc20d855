/**
 * The playback/queue controller (src/context/player-context.tsx).
 *
 * `Player` holds the controller's React state as fields and each handler is one atomic
 * transition. The audio element it drives is an `AudioElement`, the on-device database a
 * `Store.Database`. The effect that loads a track whenever `currentTrack` changes is
 * modelled by a generation counter: every change of `currentTrack` aborts the load of
 * the previous generation, and the asynchronous steps of a load (store lookup, stream
 * resolution, `audio.play()`) are separate settle events that the environment delivers
 * in any order. Random shuffling is an arbitrary permutation.
 */
module PlayerContext {
  import opened Types
  import opened TrackLists
  import Store

  datatype LoopMode = Off | LoopQueue | LoopSingle

  /** Why the current queue is playing. */
  datatype Source =
    | FromPlaylist(playlist: DbPlaylist)
    | FromSearch(query: string)
    | FromDownloads
    | FromRecent
    | FromUnknown

  /** How an awaited operation can fail: cancelled (an `AbortError`) or anything else. */
  datatype ErrorKind = AbortError | OtherError

  datatype Settled<T> = Fulfilled(value: T) | Rejected(error: ErrorKind)

  /** Where a load stands: awaiting the downloads lookup, the stream URL, or `audio.play()`. */
  datatype Stage = AwaitingStore | AwaitingStream | AwaitingPlay

  datatype Load = Load(track: Track, stage: Stage)

  /** `toggleLoopMode`'s updater: off, then queue, then single, then off again. */
  function NextLoopMode(m: LoopMode): (r: LoopMode)
    ensures r != m
    ensures m == Off ==> r == LoopQueue
  {
    match m
    case Off => LoopQueue
    case LoopQueue => LoopSingle
    case LoopSingle => Off
  }

  lemma LoopModeCycle(m: LoopMode)
    ensures NextLoopMode(NextLoopMode(NextLoopMode(m))) == m
    ensures NextLoopMode(m) != m && NextLoopMode(NextLoopMode(m)) != m
  {
  }

  /**
   * `playTrack`'s test for a new listening context: the sources differ structurally, or the
   * comma-joined id lists differ.
   */
  predicate IsNewContext(stored: Source, storedQueue: seq<Track>, sourceInfo: Source, newQueue: seq<Track>)
  {
    stored != sourceInfo || Join(Ids(newQueue)) != Join(Ids(storedQueue))
  }

  /** The original queue after `playTrack(t, newQueue, sourceInfo)`. */
  function TargetQueue(storedQueue: seq<Track>, stored: Source, t: Track, newQueue: seq<Track>, sourceInfo: Source): seq<Track>
  {
    if IsNewContext(stored, storedQueue, sourceInfo, newQueue) then
      if |newQueue| > 0 then newQueue else [t]
    else storedQueue
  }

  /**
   * With ids that the join cannot confuse, the context is kept exactly when the source and
   * the id sequence are unchanged, and otherwise replaced by the new list (or `[t]`).
   */
  lemma ContextKeptIff(storedQueue: seq<Track>, stored: Source, t: Track, newQueue: seq<Track>, sourceInfo: Source)
    requires Separable(Ids(storedQueue)) && Separable(Ids(newQueue))
    ensures !IsNewContext(stored, storedQueue, sourceInfo, newQueue) <==>
              stored == sourceInfo && Ids(newQueue) == Ids(storedQueue)
    ensures stored == sourceInfo && Ids(newQueue) == Ids(storedQueue) ==>
              TargetQueue(storedQueue, stored, t, newQueue, sourceInfo) == storedQueue
    ensures stored != sourceInfo || Ids(newQueue) != Ids(storedQueue) ==>
              TargetQueue(storedQueue, stored, t, newQueue, sourceInfo) == if |newQueue| > 0 then newQueue else [t]
  {
    if Join(Ids(newQueue)) == Join(Ids(storedQueue)) {
      JoinInjective(Ids(newQueue), Ids(storedQueue));
    }
  }

  /** On a fresh player, `playTrack(t)` with the default arguments keeps the empty queue. */
  lemma EmptyQueueEdge(t: Track)
    ensures !IsNewContext(FromUnknown, [], FromUnknown, [])
    ensures TargetQueue([], FromUnknown, t, [], FromUnknown) == []
    ensures PlayQueueFrom([], t) == [t]
  {
  }

  /**
   * The play queue for `t` in `target`: the suffix from `t`'s first occurrence, or `[t]`
   * when `t` is absent. Either way it starts with `t`'s id.
   */
  function PlayQueueFrom(target: seq<Track>, t: Track): (r: seq<Track>)
    ensures |r| >= 1 && r[0].id == t.id
  {
    var i := IndexOfId(target, t.id);
    if i != -1 then target[i..] else [t]
  }

  /** The play queue is a suffix of the target with no earlier track of `t`'s id, or `[t]`. */
  lemma PlayQueueFromSuffix(target: seq<Track>, t: Track)
    ensures var r := PlayQueueFrom(target, t);
            HasId(target, t.id) ==>
              |r| <= |target| && r == target[|target| - |r|..] &&
              forall j :: 0 <= j < |target| - |r| ==> target[j].id != t.id
    ensures !HasId(target, t.id) ==> PlayQueueFrom(target, t) == [t]
  {
    IndexOfIdFirst(target, t.id);
    IndexOfIdFound(target, t.id);
  }

  /** `findIndex(t => t.id === currentTrack?.id)`: no track matches when nothing is current. */
  function CurrentIndex(q: seq<Track>, current: Option<Track>): (i: int)
    ensures -1 <= i < |q|
    ensures 0 <= i ==> current.Some? && q[i].id == current.value.id
  {
    if current.None? then -1 else IndexOfId(q, current.value.id)
  }

  /** The current track is found exactly when one is current and the list holds its id, at its first occurrence. */
  lemma CurrentIndexFound(q: seq<Track>, current: Option<Track>)
    ensures 0 <= CurrentIndex(q, current) <==> current.Some? && HasId(q, current.value.id)
    ensures current.Some? ==>
              forall j :: 0 <= j < |q| && (CurrentIndex(q, current) == -1 || j < CurrentIndex(q, current)) ==>
                q[j].id != current.value.id
  {
    if current.Some? {
      IndexOfIdFound(q, current.value.id);
      IndexOfIdFirst(q, current.value.id);
    }
  }

  /**
   * `addToQueue`'s update of the original queue: unchanged when `t`'s id is already there;
   * otherwise `t` goes right after the first track with the current id (first of all when
   * there is none, as `findIndex` gives -1).
   */
  function AddAfterCurrent(q: seq<Track>, currentId: string, t: Track): (r: seq<Track>)
    ensures HasId(r, t.id)
  {
    if HasId(q, t.id) then q
    else
      var r := InsertAt(q, IndexOfId(q, currentId) + 1, t);
      assert r[IndexOfId(q, currentId) + 1] == t;
      r
  }

  /**
   * What `addToQueue` promises about the original queue: nothing changes when the id is
   * present; otherwise exactly one occurrence of `t` is added and nothing is lost.
   */
  lemma AddAfterCurrentContents(q: seq<Track>, currentId: string, t: Track)
    ensures HasId(q, t.id) ==> AddAfterCurrent(q, currentId, t) == q
    ensures !HasId(q, t.id) ==> multiset(AddAfterCurrent(q, currentId, t)) == multiset(q) + multiset{t}
  {
    if !HasId(q, t.id) {
      InsertAtMultiset(q, IndexOfId(q, currentId) + 1, t);
    }
  }

  /**
   * When the current track is in the queue (at index `k`), `t` lands right behind it; the
   * tracks up to the current one keep their places and the rest move back by one.
   */
  lemma AddAfterCurrentPlacement(q: seq<Track>, currentId: string, t: Track, k: int)
    requires !HasId(q, t.id) && HasId(q, currentId) && k == IndexOfId(q, currentId)
    ensures 0 <= k && k + 1 < |AddAfterCurrent(q, currentId, t)|
    ensures AddAfterCurrent(q, currentId, t)[k].id == currentId
    ensures AddAfterCurrent(q, currentId, t)[k + 1] == t
    ensures AddAfterCurrent(q, currentId, t)[..k + 1] == q[..k + 1]
    ensures AddAfterCurrent(q, currentId, t)[k + 2..] == q[k + 1..]
  {
    IndexOfIdFound(q, currentId);
    var r := AddAfterCurrent(q, currentId, t);
    assert r == q[..k + 1] + [t] + q[k + 1..];
  }

  /** When the current track is not in the queue, `t` goes to the front. */
  lemma AddAfterCurrentFront(q: seq<Track>, currentId: string, t: Track)
    requires !HasId(q, t.id) && !HasId(q, currentId)
    ensures AddAfterCurrent(q, currentId, t) == [t] + q
  {
    IndexOfIdFound(q, currentId);
    assert IndexOfId(q, currentId) == -1;
    var r := InsertAt(q, 0, t);
    assert r[1..] == q;
    assert r == [t] + q;
  }

  /**
   * `addToQueue`'s update of the active play queue: `splice(1, 0, t)` unless `t`'s id is
   * already there (on an empty list the splice appends).
   */
  function AddUpNext(q: seq<Track>, t: Track): (r: seq<Track>)
    ensures HasId(r, t.id)
    ensures |q| >= 1 ==> |r| >= 1 && r[0] == q[0]
  {
    if HasId(q, t.id) then q
    else
      var r := InsertAt(q, if |q| == 0 then 0 else 1, t);
      assert r[if |q| == 0 then 0 else 1] == t;
      r
  }

  /** `t` plays next: unchanged when already queued, else right behind the head, which stays. */
  lemma AddUpNextSpec(q: seq<Track>, t: Track)
    ensures HasId(q, t.id) ==> AddUpNext(q, t) == q
    ensures !HasId(q, t.id) && |q| >= 1 ==> AddUpNext(q, t) == [q[0], t] + q[1..]
    ensures !HasId(q, t.id) && |q| == 0 ==> AddUpNext(q, t) == [t]
    ensures !HasId(q, t.id) ==> multiset(AddUpNext(q, t)) == multiset(q) + multiset{t}
  {
    if !HasId(q, t.id) {
      InsertAtMultiset(q, if |q| == 0 then 0 else 1, t);
      if |q| >= 1 {
        assert AddUpNext(q, t) == [q[0], t] + q[1..];
      }
    }
  }

  /** No two tracks of the list share an id. */
  predicate DistinctIds(q: seq<Track>)
  {
    forall i, j :: 0 <= i < j < |q| ==> q[i].id != q[j].id
  }

  /** `addToQueue` never introduces a duplicate id into the original queue. */
  lemma {:induction false} AddAfterCurrentKeepsIdsDistinct(q: seq<Track>, currentId: string, t: Track)
    requires DistinctIds(q)
    ensures DistinctIds(AddAfterCurrent(q, currentId, t))
  {
    if !HasId(q, t.id) {
      var k := IndexOfId(q, currentId) + 1;
      var r := AddAfterCurrent(q, currentId, t);
      assert r == q[..k] + [t] + q[k..];
      forall i, j | 0 <= i < j < |r|
        ensures r[i].id != r[j].id
      {
        if i < k && j > k {
          assert r[j] == q[j - 1];
        } else if i == k {
          assert r[j] == q[j - 1];
        } else if j == k {
          assert r[i] == q[i];
        } else if j < k {
          assert r[i] == q[i] && r[j] == q[j];
        } else {
          assert r[i] == q[i - 1] && r[j] == q[j - 1];
        }
      }
    }
  }

  /** A shuffled play queue: `current` first, then some ordering of exactly the `upcoming` tracks. */
  predicate ShuffledFrom(s: seq<Track>, current: Track, upcoming: seq<Track>)
  {
    |s| >= 1 && s[0] == current && multiset(s[1..]) == multiset(upcoming)
  }

  /** `[...s].sort(() => Math.random() - 0.5)`: some ordering of the same tracks. */
  method Shuffle(s: seq<Track>) returns (r: seq<Track>)
    ensures multiset(r) == multiset(s)
  {
    r :| multiset(r) == multiset(s);
  }

  /** `[t, ...shuffled(upcoming)]`: `t` first, then the upcoming tracks in some order. */
  method ShuffleAfter(t: Track, upcoming: seq<Track>) returns (r: seq<Track>)
    ensures ShuffledFrom(r, t, upcoming)
  {
    var shuffled := Shuffle(upcoming);
    r := [t] + shuffled;
    assert r[1..] == shuffled;
  }

  /** What `skipNext` decides. */
  datatype NextStep =
    | Advance(next: Track)   // the next track of the active play queue
    | WrapShuffled           // loop-queue wrap while shuffled: play the head of a permutation of the queue
    | WrapTo(next: Track)    // loop-queue wrap in order: the first track of the original queue
    | Stop                   // nothing follows: stop at the end

  /**
   * `skipNext`'s decision: advance within the active play queue when the current track has
   * a successor there; else, in loop-queue mode with a non-empty queue, wrap around;
   * otherwise stop.
   */
  function SkipNextStep(active: seq<Track>, current: Option<Track>, loopMode: LoopMode,
                        queue: seq<Track>, isShuffled: bool): (r: NextStep)
    ensures r.Advance? <==> 0 <= CurrentIndex(active, current) < |active| - 1
    ensures r.Advance? ==> r.next == active[CurrentIndex(active, current) + 1]
    ensures (r.WrapShuffled? || r.WrapTo?) <==> !r.Advance? && loopMode == LoopQueue && |queue| > 0
    ensures r.WrapShuffled? ==> isShuffled
    ensures r.WrapTo? ==> !isShuffled && r.next == queue[0]
  {
    var i := CurrentIndex(active, current);
    if i != -1 && i < |active| - 1 then Advance(active[i + 1])
    else if loopMode == LoopQueue && |queue| > 0 then
      if isShuffled then WrapShuffled else WrapTo(queue[0])
    else Stop
  }

  /**
   * `skipPrev`'s choice of a track: none after more than 3 seconds of playback (rewind
   * instead); else the predecessor in the original queue, whatever the shuffle; at the head
   * (or when the current track is not in the queue) the last track in loop-queue mode.
   */
  function PrevTrack(currentTime: real, queue: seq<Track>, current: Option<Track>, loopMode: LoopMode): (r: Option<Track>)
    ensures currentTime > 3.0 ==> r == None
    ensures currentTime <= 3.0 && CurrentIndex(queue, current) > 0 ==>
              r == Some(queue[CurrentIndex(queue, current) - 1])
    ensures currentTime <= 3.0 && CurrentIndex(queue, current) <= 0 ==>
              r == if loopMode == LoopQueue && |queue| > 0 then Some(queue[|queue| - 1]) else None
    ensures r.Some? ==> r.value in queue
  {
    if currentTime > 3.0 then None
    else
      var i := CurrentIndex(queue, current);
      if i > 0 then Some(queue[i - 1])
      else if loopMode == LoopQueue && |queue| > 0 then Some(queue[|queue| - 1])
      else None
  }

  /** Replaying the stored list under the stored source never rebuilds the context. */
  lemma SameContextKept(q: seq<Track>, s: Source, t: Track)
    ensures !IsNewContext(s, q, s, q)
    ensures TargetQueue(q, s, t, q, s) == q
  {
  }

  /** A shuffled wrap leaves the original queue holding the same tracks, whichever branch the context test takes. */
  lemma ShuffledWrapKeepsTracks(q: seq<Track>, s: Source, p: seq<Track>)
    requires multiset(p) == multiset(q) && |p| > 0
    ensures multiset(TargetQueue(q, s, p[0], p, s)) == multiset(q)
  {
  }

  /** `details.seekOffset || 10`: a missing or zero offset means ten seconds. */
  function SeekOffset(seekOffset: Option<real>): (r: real)
    ensures seekOffset.Some? && seekOffset.value != 0.0 ==> r == seekOffset.value
    ensures seekOffset.None? || seekOffset.value == 0.0 ==> r == 10.0
  {
    if seekOffset.None? || seekOffset.value == 0.0 then 10.0 else seekOffset.value
  }

  /** The browser's audio element, as far as the controller reads and writes it. */
  class AudioElement {
    var src: string
    var currentTime: real
    var duration: Num
    var paused: bool
    var volume: real

    constructor ()
      ensures src == "" && currentTime == 0.0 && duration == NaN && paused && volume == 1.0
    {
      src, currentTime, duration, paused, volume := "", 0.0, NaN, true, 1.0;
    }

    /** Assigning `src` runs the media load algorithm: playback stops, position and duration reset. */
    method SetSource(url: string)
      modifies this`src, this`currentTime, this`duration, this`paused
      ensures src == url && currentTime == 0.0 && duration == NaN && paused
    {
      src, currentTime, duration, paused := url, 0.0, NaN, true;
    }

    /** `play()`: the element leaves the paused state at once; the promise settles later. */
    method Play()
      modifies this`paused
      ensures !paused
    {
      paused := false;
    }

    method Pause()
      modifies this`paused
      ensures paused
    {
      paused := true;
    }
  }
  /** What the downloads lookup of a load settles with. */
  datatype StoreLookup =
    | Downloaded(objectUrl: string)   // a record with a blob; `URL.createObjectURL(blob)` gave `objectUrl`
    | NotDownloaded
    | LookupFailed(error: ErrorKind)

  class Player {
    const audio: AudioElement

    var currentTrack: Option<Track>
    /** The original queue: the full list the user started playing from. */
    var queue: seq<Track>
    /** The current track and what follows it in the original queue. */
    var playQueue: seq<Track>
    /** While shuffled: the current track followed by a permutation of the upcoming tracks. */
    var shuffledPlayQueue: seq<Track>
    var source: Source
    var isPlaying: bool
    var duration: real
    var progress: real
    var volume: real
    var isShuffled: bool
    var loopMode: LoopMode
    var isSeeking: bool
    var isLoading: bool

    /** The `currentBlobUrl` ref: the object URL the load pipeline recorded last. */
    var currentBlobUrl: Option<string>
    /** The value of `currentTrack` the load effect last ran for (React's memory of its dependency). */
    var effectTrack: Option<Track>
    /** Generation of the newest run of the load effect; loads of older generations are aborted. */
    var gen: nat
    /** Loads that have not settled yet, by generation. */
    var loads: map<nat, Load>
    /** Every URL handed to the stream resolver (`getStreamUrl`), in order. */
    var resolverCalls: seq<string>
    /** Every object URL revoked so far. */
    var revokedUrls: set<string>
    /** Number of "Playback Error" notifications shown. */
    var playbackErrors: nat
    /** The writes to the `recent` table issued so far, in order (none is awaited). */
    var recentWrites: seq<Store.RecentWrite>

    /**
     * The shuffled play queue exists only while shuffled and then starts with the current
     * track; the ordered play queue starts with the current track's id.
     */
    ghost predicate QueuesValid()
      reads this`isShuffled, this`shuffledPlayQueue, this`currentTrack, this`playQueue
    {
      && (!isShuffled ==> shuffledPlayQueue == [])
      && (isShuffled && currentTrack.Some? ==>
            |shuffledPlayQueue| >= 1 && shuffledPlayQueue[0] == currentTrack.value)
      && (currentTrack.Some? ==> |playQueue| >= 1 && playQueue[0].id == currentTrack.value.id)
    }

    /** No pending load is newer than the effect, and the newest one is for the track the effect last ran for. */
    ghost predicate LoadsValid()
      reads this`loads, this`gen, this`effectTrack
    {
      && (forall g :: g in loads ==> g <= gen)
      && (gen in loads ==> effectTrack == Some(loads[gen].track))
    }

    ghost predicate Valid()
      reads this
    {
      QueuesValid() && LoadsValid()
    }

    /** The play queue the context exposes and `skipNext` walks: the shuffled one while shuffled. */
    function PlayingQueue(): seq<Track>
      reads this
    {
      if isShuffled then shuffledPlayQueue else playQueue
    }

    constructor (audio: AudioElement)
      modifies audio`volume
      ensures Valid()
      ensures this.audio == audio
      ensures currentTrack == None && queue == [] && playQueue == [] && shuffledPlayQueue == []
      ensures source == FromUnknown && !isPlaying && duration == 0.0 && progress == 0.0 && volume == 1.0
      ensures !isShuffled && loopMode == Off && !isSeeking && !isLoading
      ensures currentBlobUrl == None && effectTrack == None && gen == 0 && loads == map[]
      ensures resolverCalls == [] && revokedUrls == {} && playbackErrors == 0 && recentWrites == []
      ensures audio.volume == 1.0
    {
      this.audio := audio;
      currentTrack := None;
      queue, playQueue, shuffledPlayQueue := [], [], [];
      source := FromUnknown;
      isPlaying, duration, progress, volume := false, 0.0, 0.0, 1.0;
      isShuffled, loopMode, isSeeking, isLoading := false, Off, false, false;
      currentBlobUrl, effectTrack, gen, loads := None, None, 0, map[];
      resolverCalls, revokedUrls, playbackErrors, recentWrites := [], {}, 0, [];
      new;
      audio.volume := volume;
    }

    /** The queue part of the state (and the recents log) did not change. */
    twostate predicate QueueStateUnchanged()
      reads this
    {
      && currentTrack == old(currentTrack) && queue == old(queue) && source == old(source)
      && playQueue == old(playQueue) && shuffledPlayQueue == old(shuffledPlayQueue)
      && recentWrites == old(recentWrites)
    }

    /** Everything `playTrack(t, newQueue, sourceInfo)` guarantees about the new state. */
    twostate predicate PlayTrackPost(t: Track, newQueue: seq<Track>, sourceInfo: Source, now: string)
      reads this
    {
      && queue == TargetQueue(old(queue), old(source), t, newQueue, sourceInfo)
      && source == (if IsNewContext(old(source), old(queue), sourceInfo, newQueue) then sourceInfo else old(source))
      && playQueue == PlayQueueFrom(queue, t)
      && currentTrack == Some(t)
      && (isShuffled ==> ShuffledFrom(shuffledPlayQueue, t, WithoutId(playQueue, t.id)))
      && (!isShuffled ==> shuffledPlayQueue == [])
      && recentWrites == old(recentWrites) + [Store.PutRecent(DbRecent(t, now, 0.0))]
    }

    /**
     * `playTrack(t, newQueue, sourceInfo)`: resolve the context, rebuild the play queues from
     * `t`, make `t` current and record it in the recents (`now` is the time of the call).
     */
    method PlayTrack(t: Track, newQueue: seq<Track>, sourceInfo: Source, now: string)
      requires Valid()
      modifies this`queue, this`source, this`playQueue, this`shuffledPlayQueue, this`currentTrack,
               this`recentWrites
      ensures Valid()
      ensures PlayTrackPost(t, newQueue, sourceInfo, now)
    {
      var target := TargetQueue(queue, source, t, newQueue, sourceInfo);
      var newSource := if IsNewContext(source, queue, sourceInfo, newQueue) then sourceInfo else source;
      var newPlayQueue := PlayQueueFrom(target, t);
      var newShuffled := [];
      if isShuffled {
        newShuffled := ShuffleAfter(t, WithoutId(newPlayQueue, t.id));
      }
      queue, source, playQueue, shuffledPlayQueue := target, newSource, newPlayQueue, newShuffled;
      currentTrack := Some(t);
      recentWrites := recentWrites + [Store.PutRecent(DbRecent(t, now, 0.0))];
    }

    /** `skipNext` with nothing to play next: playback stops and the position moves to the end. */
    method StopAtEnd()
      modifies this`isPlaying, this`progress, audio`currentTime
      ensures !isPlaying && progress == 1.0 && audio.currentTime == duration
    {
      isPlaying, progress := false, 1.0;
      audio.currentTime := duration;
    }

    /** Everything `skipNext` guarantees, by the step `SkipNextStep` decides in the old state. */
    twostate predicate SkipNextPost(now: string)
      reads this, audio
    {
      match SkipNextStep(old(PlayingQueue()), old(currentTrack), old(loopMode), old(queue), old(isShuffled))
      case Advance(next) =>
        && PlayTrackPost(next, old(queue), old(source), now)
        && queue == old(queue) && source == old(source)
        && isPlaying == old(isPlaying) && progress == old(progress) && audio.currentTime == old(audio.currentTime)
      case WrapTo(next) =>
        && PlayTrackPost(next, old(queue), old(source), now)
        && queue == old(queue) && source == old(source)
        && isPlaying == old(isPlaying) && progress == old(progress) && audio.currentTime == old(audio.currentTime)
      case WrapShuffled =>
        && (exists p :: multiset(p) == multiset(old(queue)) && |p| > 0 && PlayTrackPost(p[0], p, old(source), now))
        && multiset(queue) == multiset(old(queue))
        && isPlaying == old(isPlaying) && progress == old(progress) && audio.currentTime == old(audio.currentTime)
      case Stop =>
        && QueueStateUnchanged()
        && !isPlaying && progress == 1.0 && audio.currentTime == old(duration)
    }

    /**
     * `skipNext()`: play the next track of the active play queue within the same context;
     * at the end, wrap around in loop-queue mode (to a permutation of the queue while
     * shuffled); otherwise stop at the end of the current track.
     */
    method SkipNext(now: string)
      requires Valid()
      modifies this`queue, this`source, this`playQueue, this`shuffledPlayQueue, this`currentTrack,
               this`recentWrites, this`isPlaying, this`progress, audio`currentTime
      ensures Valid()
      ensures SkipNextPost(now)
    {
      var step := SkipNextStep(PlayingQueue(), currentTrack, loopMode, queue, isShuffled);
      match step
      case Advance(next) =>
        SameContextKept(queue, source, next);
        PlayTrack(next, queue, source, now);
      case WrapTo(next) =>
        SameContextKept(queue, source, next);
        PlayTrack(next, queue, source, now);
      case WrapShuffled =>
        var p := Shuffle(queue);
        ShuffledWrapKeepsTracks(queue, source, p);
        PlayTrack(p[0], p, source, now);
      case Stop =>
        StopAtEnd();
    }

    /** Everything `skipPrev` guarantees, by the track `PrevTrack` chooses in the old state. */
    twostate predicate SkipPrevPost(now: string)
      reads this, audio
    {
      match PrevTrack(old(audio.currentTime), old(queue), old(currentTrack), old(loopMode))
      case None => QueueStateUnchanged() && audio.currentTime == 0.0
      case Some(prev) =>
        && PlayTrackPost(prev, old(queue), old(source), now)
        && queue == old(queue) && source == old(source) && audio.currentTime == old(audio.currentTime)
    }

    /**
     * `skipPrev()`: after more than 3 seconds, rewind; otherwise play the predecessor in the
     * original queue within the same context (the last track when wrapping in loop-queue
     * mode), or rewind when there is none.
     */
    method SkipPrev(now: string)
      requires Valid()
      modifies this`queue, this`source, this`playQueue, this`shuffledPlayQueue, this`currentTrack,
               this`recentWrites, audio`currentTime
      ensures Valid()
      ensures SkipPrevPost(now)
    {
      match PrevTrack(audio.currentTime, queue, currentTrack, loopMode)
      case None =>
        audio.currentTime := 0.0;
      case Some(prev) =>
        SameContextKept(queue, source, prev);
        PlayTrack(prev, queue, source, now);
    }

    /** Loop-single at the end of a track: rewind and play the same track again. */
    method Replay()
      modifies audio`currentTime, audio`paused
      ensures audio.currentTime == 0.0 && !audio.paused
    {
      audio.currentTime := 0.0;
      audio.Play();
    }

    /**
     * The `ended` handler: in loop-single mode with a current track the track starts over
     * and nothing else changes; in any other case it is `skipNext()`.
     */
    method HandleTrackEnd(now: string)
      requires Valid()
      modifies this`queue, this`source, this`playQueue, this`shuffledPlayQueue, this`currentTrack,
               this`recentWrites, this`isPlaying, this`progress, audio`currentTime, audio`paused
      ensures Valid()
      ensures old(loopMode) == LoopSingle && old(currentTrack).Some? ==>
                && QueueStateUnchanged() && isPlaying == old(isPlaying) && progress == old(progress)
                && audio.currentTime == 0.0 && !audio.paused
      ensures !(old(loopMode) == LoopSingle && old(currentTrack).Some?) ==>
                SkipNextPost(now) && audio.paused == old(audio.paused)
    {
      if loopMode == LoopSingle && currentTrack.Some? {
        Replay();
      } else {
        SkipNext(now);
      }
    }

    /**
     * `addToQueue(t)`: with nothing current it is `playTrack(t, [t], unknown)`; otherwise `t`
     * goes after the current track in the original queue and right behind the head of the
     * active play queue, each time only when its id is not there yet.
     */
    method AddToQueue(t: Track, now: string)
      requires Valid()
      modifies this`queue, this`source, this`playQueue, this`shuffledPlayQueue, this`currentTrack,
               this`recentWrites
      ensures Valid()
      ensures old(currentTrack).None? ==> PlayTrackPost(t, [t], FromUnknown, now)
      ensures old(currentTrack).Some? ==>
                && queue == AddAfterCurrent(old(queue), old(currentTrack).value.id, t)
                && PlayingQueue() == AddUpNext(old(PlayingQueue()), t)
                && (isShuffled ==> playQueue == old(playQueue))
                && (!isShuffled ==> shuffledPlayQueue == old(shuffledPlayQueue))
                && currentTrack == old(currentTrack) && source == old(source)
                && recentWrites == old(recentWrites)
    {
      if currentTrack.None? {
        PlayTrack(t, [t], FromUnknown, now);
      } else {
        queue := AddAfterCurrent(queue, currentTrack.value.id, t);
        if isShuffled {
          shuffledPlayQueue := AddUpNext(shuffledPlayQueue, t);
        } else {
          playQueue := AddUpNext(playQueue, t);
        }
      }
    }

    /** `togglePlay()`: with a current track, pause when playing and play otherwise. */
    method TogglePlay()
      modifies audio`paused
      ensures currentTrack.Some? ==> audio.paused == isPlaying
      ensures currentTrack.None? ==> audio.paused == old(audio.paused)
    {
      if currentTrack.Some? {
        if isPlaying {
          audio.Pause();
        } else {
          audio.Play();
        }
      }
    }

    /** `seek(p)`: jump to fraction `p` of the duration and show it as the progress. */
    method Seek(p: real)
      modifies audio`currentTime, this`progress
      ensures audio.currentTime == duration * p && progress == p
    {
      audio.currentTime := duration * p;
      progress := p;
    }

    /**
     * `toggleShuffle()`: switching on with a current track shuffles what follows it in the
     * ordered play queue behind it; otherwise the shuffled queue is dropped and the ordered
     * play queue is rebuilt from the original queue at the current track.
     */
    method ToggleShuffle()
      requires Valid()
      modifies this`isShuffled, this`shuffledPlayQueue, this`playQueue
      ensures Valid()
      ensures isShuffled == !old(isShuffled)
      ensures isShuffled && currentTrack.Some? ==>
                ShuffledFrom(shuffledPlayQueue, currentTrack.value, old(playQueue)[1..]) && playQueue == old(playQueue)
      ensures !isShuffled ==> shuffledPlayQueue == []
      ensures !isShuffled && currentTrack.Some? ==> playQueue == PlayQueueFrom(queue, currentTrack.value)
      ensures currentTrack.None? ==> shuffledPlayQueue == [] && playQueue == old(playQueue)
    {
      isShuffled := !isShuffled;
      if isShuffled && currentTrack.Some? {
        shuffledPlayQueue := ShuffleAfter(currentTrack.value, playQueue[1..]);
      } else {
        shuffledPlayQueue := [];
        if currentTrack.Some? {
          playQueue := PlayQueueFrom(queue, currentTrack.value);
        }
      }
    }

    /** `toggleLoopMode()`: off, queue, single, off again. */
    method ToggleLoopMode()
      modifies this`loopMode
      ensures loopMode == NextLoopMode(old(loopMode))
    {
      loopMode := NextLoopMode(loopMode);
    }

    /**
     * `setVolume(v)` together with the effect that copies the volume onto the element (the
     * element accepts only values in [0, 1]).
     */
    method SetVolume(v: real)
      requires 0.0 <= v <= 1.0
      modifies this`volume, audio`volume
      ensures volume == v && audio.volume == v
    {
      volume := v;
      audio.volume := v;
    }

    method SetIsSeeking(b: bool)
      modifies this`isSeeking
      ensures isSeeking == b
    {
      isSeeking := b;
    }

    /** The URL set `revokeObjectURL` is applied to when the ref is cleared: the ref's URL, if any. */
    static function RefUrls(ref: Option<string>): set<string>
    {
      if ref.Some? then {ref.value} else {}
    }

    /**
     * A new run of the load effect for `t`: the old object URL is revoked and the ref cleared,
     * the element is paused and emptied, progress and duration reset, and the new load starts
     * by looking `t` up in the downloads.
     */
    method StartLoad(t: Track)
      modifies this`loads, this`currentBlobUrl, this`revokedUrls, this`isLoading,
               this`progress, this`duration, audio`src, audio`paused, audio`currentTime, audio`duration
      ensures loads == old(loads)[gen := Load(t, AwaitingStore)]
      ensures currentBlobUrl == None && revokedUrls == old(revokedUrls) + RefUrls(old(currentBlobUrl))
      ensures audio.src == "" && audio.paused && audio.currentTime == 0.0 && audio.duration == NaN
      ensures isLoading && progress == 0.0 && duration == 0.0
    {
      revokedUrls := revokedUrls + RefUrls(currentBlobUrl);
      currentBlobUrl := None;
      audio.Pause();
      audio.SetSource("");
      isLoading, progress, duration := true, 0.0, 0.0;
      loads := loads[gen := Load(t, AwaitingStore)];
    }

    /**
     * The load effect once React commits a render in which `currentTrack` changed: the
     * cleanup aborts the running load (a new generation begins); then, when a track is
     * current, a new load starts.
     */
    method CommitLoadEffect()
      requires Valid()
      modifies this`effectTrack, this`gen, this`loads, this`currentBlobUrl, this`revokedUrls,
               this`isLoading, this`progress, this`duration, audio`src, audio`paused, audio`currentTime, audio`duration
      ensures Valid()
      ensures effectTrack == currentTrack
      ensures old(effectTrack) == currentTrack ==> gen == old(gen) && unchanged(this`loads, this`currentBlobUrl, this`revokedUrls, audio)
      ensures old(effectTrack) != currentTrack ==> gen == old(gen) + 1
      ensures old(effectTrack) != currentTrack && currentTrack.None? ==>
                unchanged(this`loads, this`currentBlobUrl, this`revokedUrls, this`isLoading, this`progress, this`duration, audio)
      ensures old(effectTrack) != currentTrack && currentTrack.Some? ==>
                && loads == old(loads)[gen := Load(currentTrack.value, AwaitingStore)]
                && currentBlobUrl == None && revokedUrls == old(revokedUrls) + RefUrls(old(currentBlobUrl))
                && audio.src == "" && audio.paused && audio.currentTime == 0.0 && audio.duration == NaN
                && isLoading && progress == 0.0 && duration == 0.0
    {
      if effectTrack != currentTrack {
        effectTrack := currentTrack;
        gen := gen + 1;
        if currentTrack.Some? {
          StartLoad(currentTrack.value);
        }
      }
    }

    /** A load that is over leaves the table of pending loads, and nothing else changes. */
    method Drop(g: nat)
      modifies this`loads
      ensures loads == old(loads) - {g}
    {
      loads := loads - {g};
    }

    /**
     * A load that failed with anything but an `AbortError`: the "Playback Error" toast, the
     * loading flag cleared and no current track, whichever generation the load belongs to.
     */
    method Fail(g: nat)
      modifies this`loads, this`playbackErrors, this`isLoading, this`currentTrack
      ensures loads == old(loads) - {g}
      ensures playbackErrors == old(playbackErrors) + 1 && !isLoading && currentTrack == None
    {
      loads := loads - {g};
      playbackErrors, isLoading, currentTrack := playbackErrors + 1, false, None;
    }

    /** The latest load got its URL: assign it to the element and start playing. */
    method Begin(g: nat, t: Track, url: string)
      modifies this`loads, audio`src, audio`currentTime, audio`duration, audio`paused
      ensures loads == old(loads)[g := Load(t, AwaitingPlay)]
      ensures audio.src == url && !audio.paused && audio.currentTime == 0.0 && audio.duration == NaN
    {
      audio.SetSource(url);
      audio.Play();
      loads := loads[g := Load(t, AwaitingPlay)];
    }

    /**
     * The downloads lookup of load `g` settles. A stored blob becomes an object URL that is
     * recorded in the ref at once and, unless the load was aborted meanwhile, is played; a
     * missing record hands the track's URL to the stream resolver; a failure other than an
     * abort fails the load.
     */
    method SettleStoreLookup(g: nat, res: StoreLookup)
      requires Valid() && g in loads && loads[g].stage == AwaitingStore
      modifies this`loads, this`currentBlobUrl, this`resolverCalls, this`playbackErrors, this`isLoading,
               this`currentTrack, audio`src, audio`currentTime, audio`duration, audio`paused
      ensures Valid()
      ensures res.Downloaded? ==> currentBlobUrl == Some(res.objectUrl) && resolverCalls == old(resolverCalls)
      ensures res.Downloaded? && g == gen ==>
                && loads == old(loads)[g := Load(old(loads)[g].track, AwaitingPlay)]
                && audio.src == res.objectUrl && !audio.paused
      ensures res.Downloaded? && g != gen ==> loads == old(loads) - {g} && unchanged(audio)
      ensures res.NotDownloaded? ==>
                && resolverCalls == old(resolverCalls) + [old(loads)[g].track.url]
                && loads == old(loads)[g := Load(old(loads)[g].track, AwaitingStream)]
                && unchanged(audio) && currentBlobUrl == old(currentBlobUrl)
      ensures res == LookupFailed(AbortError) ==>
                && loads == old(loads) - {g}
                && unchanged(this`currentBlobUrl, this`resolverCalls, this`playbackErrors, this`isLoading, this`currentTrack, audio)
      ensures res == LookupFailed(OtherError) ==>
                && loads == old(loads) - {g} && playbackErrors == old(playbackErrors) + 1
                && !isLoading && currentTrack == None
                && unchanged(this`currentBlobUrl, this`resolverCalls, audio)
      ensures !res.Downloaded? ==> currentBlobUrl == old(currentBlobUrl)
      ensures !res.NotDownloaded? ==> resolverCalls == old(resolverCalls)
    {
      var t := loads[g].track;
      match res
      case Downloaded(url) =>
        currentBlobUrl := Some(url);
        if g == gen {
          Begin(g, t, url);
        } else {
          Drop(g);
        }
      case NotDownloaded =>
        resolverCalls := resolverCalls + [t.url];
        loads := loads[g := Load(t, AwaitingStream)];
      case LookupFailed(e) =>
        if e == AbortError {
          Drop(g);
        } else {
          Fail(g);
        }
    }

    /**
     * The stream resolver settles for load `g`: the URL is played unless the load was
     * aborted; an `AbortError` is dropped silently; any other error fails the load.
     */
    method SettleStream(g: nat, res: Settled<string>)
      requires Valid() && g in loads && loads[g].stage == AwaitingStream
      modifies this`loads, this`playbackErrors, this`isLoading, this`currentTrack,
               audio`src, audio`currentTime, audio`duration, audio`paused
      ensures Valid()
      ensures res.Fulfilled? && g == gen ==>
                && loads == old(loads)[g := Load(old(loads)[g].track, AwaitingPlay)]
                && audio.src == res.value && !audio.paused
                && unchanged(this`playbackErrors, this`isLoading, this`currentTrack)
      ensures (res.Fulfilled? && g != gen) || res == Rejected(AbortError) ==>
                && loads == old(loads) - {g}
                && unchanged(this`playbackErrors, this`isLoading, this`currentTrack, audio)
      ensures res == Rejected(OtherError) ==>
                && loads == old(loads) - {g} && playbackErrors == old(playbackErrors) + 1
                && !isLoading && currentTrack == None && unchanged(audio)
    {
      var t := loads[g].track;
      match res
      case Fulfilled(url) =>
        if g == gen {
          Begin(g, t, url);
        } else {
          Drop(g);
        }
      case Rejected(e) =>
        if e == AbortError {
          Drop(g);
        } else {
          Fail(g);
        }
    }

    /**
     * `audio.play()` settles for load `g`: success or an `AbortError` ends the load quietly;
     * any other error fails it.
     */
    method SettlePlay(g: nat, res: Option<ErrorKind>)
      requires Valid() && g in loads && loads[g].stage == AwaitingPlay
      modifies this`loads, this`playbackErrors, this`isLoading, this`currentTrack
      ensures Valid()
      ensures loads == old(loads) - {g}
      ensures res != Some(OtherError) ==> unchanged(this`playbackErrors, this`isLoading, this`currentTrack)
      ensures res == Some(OtherError) ==>
                playbackErrors == old(playbackErrors) + 1 && !isLoading && currentTrack == None
    {
      if res == Some(OtherError) {
        Fail(g);
      } else {
        Drop(g);
      }
    }

    /**
     * The `timeupdate` handler: unless the user is dragging the seek bar, progress follows
     * the element's position over its (finite, positive) duration, and a position past 0 is
     * written to the current track's recents record.
     */
    method OnTimeUpdate()
      modifies this`progress, this`recentWrites
      ensures isSeeking || !audio.duration.Finite? || audio.duration.value <= 0.0 ==>
                progress == old(progress) && recentWrites == old(recentWrites)
      ensures !isSeeking && audio.duration.Finite? && audio.duration.value > 0.0 ==>
                progress * audio.duration.value == audio.currentTime
      ensures !isSeeking && audio.duration.Finite? && audio.duration.value > 0.0 &&
              currentTrack.Some? && audio.currentTime > 0.0 ==>
                recentWrites == old(recentWrites) + [Store.UpdatePosition(currentTrack.value.id, audio.currentTime)]
      ensures !(currentTrack.Some? && audio.currentTime > 0.0) ==> recentWrites == old(recentWrites)
    {
      if !isSeeking && audio.duration.Finite? && audio.duration.value > 0.0 {
        progress := audio.currentTime / audio.duration.value;
        if currentTrack.Some? && audio.currentTime > 0.0 {
          recentWrites := recentWrites + [Store.UpdatePosition(currentTrack.value.id, audio.currentTime)];
        }
      }
    }

    /** The `loadedmetadata` handler: a finite duration is taken over; loading is over. */
    method OnLoadedMetadata()
      modifies this`duration, this`isLoading
      ensures !isLoading
      ensures duration == if audio.duration.Finite? then audio.duration.value else old(duration)
    {
      if audio.duration.Finite? {
        duration := audio.duration.value;
      }
      isLoading := false;
    }

    /** The `play` handler. */
    method OnPlay()
      modifies this`isPlaying
      ensures isPlaying
    {
      isPlaying := true;
    }

    /** The `playing` handler. */
    method OnPlaying()
      modifies this`isPlaying, this`isLoading
      ensures isPlaying && !isLoading
    {
      isPlaying, isLoading := true, false;
    }

    /** The `pause` handler. */
    method OnPause()
      modifies this`isPlaying
      ensures !isPlaying
    {
      isPlaying := false;
    }

    /** The `waiting` handler. */
    method OnWaiting()
      modifies this`isLoading
      ensures isLoading
    {
      isLoading := true;
    }

    /** The `canplaythrough` handler. */
    method OnCanPlayThrough()
      modifies this`isLoading
      ensures !isLoading
    {
      isLoading := false;
    }

    /** The Media Session `seekbackward` action: back by the offset, not before 0. */
    method SeekBackward(seekOffset: Option<real>)
      modifies audio`currentTime
      ensures audio.currentTime >= 0.0
      ensures audio.currentTime == if old(audio.currentTime) - SeekOffset(seekOffset) > 0.0
                                   then old(audio.currentTime) - SeekOffset(seekOffset) else 0.0
    {
      var target := audio.currentTime - SeekOffset(seekOffset);
      audio.currentTime := if target > 0.0 then target else 0.0;
    }

    /** The Media Session `seekforward` action: ahead by the offset, not past the duration. */
    method SeekForward(seekOffset: Option<real>)
      modifies audio`currentTime
      ensures audio.currentTime <= duration
      ensures audio.currentTime == if old(audio.currentTime) + SeekOffset(seekOffset) < duration
                                   then old(audio.currentTime) + SeekOffset(seekOffset) else duration
    {
      var target := audio.currentTime + SeekOffset(seekOffset);
      audio.currentTime := if target < duration then target else duration;
    }

    /** The Media Session `seekto` action: jump to the given time when there is one. */
    method SeekTo(seekTime: Option<real>)
      modifies audio`currentTime
      ensures audio.currentTime == if seekTime.Some? then seekTime.value else old(audio.currentTime)
    {
      if seekTime.Some? {
        audio.currentTime := seekTime.value;
      }
    }

    /**
     * Unmounting the provider: the load effect's cleanup aborts the running load and the
     * final cleanup revokes the URL in the ref (the ref itself keeps it).
     */
    method Dispose()
      requires Valid()
      modifies this`gen, this`revokedUrls
      ensures Valid()
      ensures gen == old(gen) + 1 && forall g :: g in loads ==> g < gen
      ensures revokedUrls == old(revokedUrls) + RefUrls(currentBlobUrl)
    {
      gen := gen + 1;
      revokedUrls := revokedUrls + RefUrls(currentBlobUrl);
    }
  }
}
