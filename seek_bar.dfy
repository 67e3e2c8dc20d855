/**
 * The seek bar (src/components/music/seek-bar.tsx): the `m:ss` labels for the elapsed and
 * the total time, and the slider handlers, which forward to the controller.
 */
module SeekBar {
  import opened Types
  import opened NumberText
  import PlayerContext

  /** `formatTime(seconds)`: NaN shows as `0:00`; every other number goes through the `m:ss` template unguarded. */
  function FormatTime(x: Num): (r: string)
    ensures x.NaN? ==> r == "0:00"
    ensures x == PosInfinity ==> r == "Infinity:NaN"
  {
    if x.NaN? then "0:00" else ClockText(x)
  }

  /**
   * For a non-negative time the label is the whole minutes, a colon and two digits of
   * seconds below 60, which together give the whole seconds of the time.
   */
  lemma FormatTimeReadsBack(s: real) returns (minutes: nat, seconds: string)
    requires s >= 0.0
    ensures FormatTime(Finite(s)) == NatToString(minutes) + ":" + seconds
    ensures |seconds| == 2 && AllDigits(seconds) && DigitsValue(seconds) < 60
    ensures 60 * minutes + DigitsValue(seconds) == Floor(s)
  {
    minutes, seconds := ClockTextReadsBack(s);
  }

  /** Negative times are not guarded: their label starts with a minus sign. */
  lemma FormatTimeNegative(s: real)
    requires s < 0.0
    ensures FormatTime(Finite(s))[0] == '-'
  {
    ClockTextNegative(s);
  }

  /** The elapsed-time label: `formatTime(progress * duration)`. */
  function ElapsedLabel(progress: real, duration: real): string
  {
    FormatTime(Finite(progress * duration))
  }

  /** The total-time label: `formatTime(duration)`. */
  function TotalLabel(duration: real): string
  {
    FormatTime(Finite(duration))
  }

  /** A fraction between 0 and 1 of a non-negative duration lies between 0 and the duration. */
  lemma ScaledNotAbove(p: real, d: real)
    requires 0.0 <= p <= 1.0 && d >= 0.0
    ensures 0.0 <= p * d <= d
  {
    assert d - p * d == (1.0 - p) * d;
  }

  /** With progress between 0 and 1, the elapsed label never shows more whole seconds than the total label. */
  lemma ElapsedNotPastTotal(progress: real, duration: real) returns (em: nat, es: string, tm: nat, ts: string)
    requires 0.0 <= progress <= 1.0 && duration >= 0.0
    ensures ElapsedLabel(progress, duration) == NatToString(em) + ":" + es && |es| == 2 && AllDigits(es)
    ensures TotalLabel(duration) == NatToString(tm) + ":" + ts && |ts| == 2 && AllDigits(ts)
    ensures 60 * em + DigitsValue(es) <= 60 * tm + DigitsValue(ts)
  {
    var elapsed := progress * duration;
    assert 0.0 <= elapsed <= duration by {
      ScaledNotAbove(progress, duration);
    }
    em, es := FormatTimeReadsBack(elapsed);
    tm, ts := FormatTimeReadsBack(duration);
    FloorMonotone(elapsed, duration);
  }

  /** `handleSeek([v])`: the slider's value is a percentage of the track. */
  method HandleSeek(player: PlayerContext.Player, value: seq<real>)
    requires |value| >= 1
    modifies player.audio`currentTime, player`progress
    ensures player.progress == value[0] / 100.0
    ensures player.audio.currentTime == player.duration * (value[0] / 100.0)
  {
    player.Seek(value[0] / 100.0);
  }

  /** Pressing on the slider starts a seek: time updates stop moving the progress. */
  method HandlePointerDown(player: PlayerContext.Player)
    modifies player`isSeeking
    ensures player.isSeeking
  {
    player.SetIsSeeking(true);
  }

  /** Releasing the slider ends the seek. */
  method HandlePointerUp(player: PlayerContext.Player)
    modifies player`isSeeking
    ensures !player.isSeeking
  {
    player.SetIsSeeking(false);
  }
}
