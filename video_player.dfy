/** The film player: the elapsed and total time shown as `m:ss` or `h:mm:ss`, and the play
    and mute toggles, which flip the component's flags and drive the video element. Time is
    a whole number of seconds. */
module VideoPlayer {
  import Text
  import opened Values

  // -----------------------------------------------------------------------------------------
  // formatTime

  /** The clock fields of a time: hours, minutes and seconds. */
  datatype Clock = Clock(hours: nat, minutes: nat, seconds: nat)

  /** `Math.floor(seconds / 3600)`, `Math.floor((seconds % 3600) / 60)` and
      `Math.floor(seconds % 60)`: minutes and seconds below 60, adding up to the time. */
  function ClockOf(total: nat): (c: Clock)
    ensures c.minutes < 60 && c.seconds < 60
    ensures c.hours * 3600 + c.minutes * 60 + c.seconds == total
  {
    Clock(total / 3600, total % 3600 / 60, total % 60)
  }

  /** The fields are the only ones with minutes and seconds below 60 that add up to the
      time. */
  lemma {:induction false} ClockUnique(total: nat, c: Clock)
    requires c.minutes < 60 && c.seconds < 60
    requires c.hours * 3600 + c.minutes * 60 + c.seconds == total
    ensures c == ClockOf(total)
  {
    var d := ClockOf(total);
    assert c.minutes * 60 + c.seconds < 3600;
    assert d.minutes * 60 + d.seconds < 3600;
    assert c.hours == d.hours;
    assert c.minutes == d.minutes;
  }

  /** `n.toString().padStart(2, '0')`. */
  function TwoDigits(n: nat): string {
    Text.PadTwo(Text.Decimal(n))
  }

  /** `formatTime`: `h:mm:ss` when there is at least one hour, otherwise `m:ss`. */
  function FormatTime(total: nat): string {
    var c := ClockOf(total);
    if c.hours > 0 then Text.Decimal(c.hours) + ":" + TwoDigits(c.minutes) + ":" + TwoDigits(c.seconds)
    else Text.Decimal(c.minutes) + ":" + TwoDigits(c.seconds)
  }

  /** Reads a shown time back: two or three ':'-separated runs of digits. */
  function ParseTime(shown: string): Option<nat> {
    ReadPieces(Text.Split(shown, ':'))
  }

  /** The value of the ':'-pieces of a shown time. */
  function ReadPieces(p: seq<string>): Option<nat> {
    if |p| == 2 then ReadMinutes(p[0], p[1])
    else if |p| == 3 then ReadHours(p[0], p[1], p[2])
    else None
  }

  /** Minutes and seconds, when both are runs of digits. */
  function ReadMinutes(m: string, s: string): Option<nat> {
    if Text.AllDigits(m) && Text.AllDigits(s) then Some(Text.DigitsValue(m) * 60 + Text.DigitsValue(s))
    else None
  }

  /** Hours, minutes and seconds, when all three are runs of digits. */
  function ReadHours(h: string, m: string, s: string): Option<nat> {
    if Text.AllDigits(h) && Text.AllDigits(m) && Text.AllDigits(s) then
      Some(Text.DigitsValue(h) * 3600 + Text.DigitsValue(m) * 60 + Text.DigitsValue(s))
    else None
  }

  /** A number below 100 is written as exactly two digits that read back as the number. */
  lemma {:induction false} TwoDigitsValue(n: nat)
    requires n < 100
    ensures |TwoDigits(n)| == 2 && Text.AllDigits(TwoDigits(n))
    ensures ':' !in TwoDigits(n) && Text.DigitsValue(TwoDigits(n)) == n
  {
    var d := Text.Decimal(n);
    Text.DecimalRoundTrip(n);
    if n < 10 {
      var r := TwoDigits(n);
      assert r == ['0'] + d;
      assert r[..1] == ['0'];
      assert Text.DigitsValue(r[..1]) == 0 by {
        assert r[..1][..0] == [];
      }
    } else {
      assert |Text.Decimal(n / 10)| == 1;
    }
  }

  /** Decimal text holds no ':'. */
  lemma {:induction false} DecimalHasNoColon(n: nat)
    ensures ':' !in Text.Decimal(n)
  {
  }

  /** Splitting "a:b" on ':' gives back a and b when neither holds ':'. */
  lemma {:induction false} SplitTwo(a: string, b: string)
    requires ':' !in a && ':' !in b
    ensures Text.Split(a + ":" + b, ':') == [a, b]
  {
    var s := a + [':'] + b;
    assert a + ":" + b == s;
    Text.FirstIndexAfterPrefix(a, ':', b);
    assert s[..|a|] == a && s[|a| + 1..] == b;
  }

  /** Splitting "a:b:c" on ':' gives back a, b and c when none holds ':'. */
  lemma {:induction false} SplitThree(a: string, b: string, c: string)
    requires ':' !in a && ':' !in b && ':' !in c
    ensures Text.Split(a + ":" + b + ":" + c, ':') == [a, b, c]
  {
    var rest := b + ":" + c;
    var s := a + [':'] + rest;
    assert a + ":" + b + ":" + c == s;
    Text.FirstIndexAfterPrefix(a, ':', rest);
    assert s[..|a|] == a && s[|a| + 1..] == rest;
    SplitTwo(b, c);
  }

  /** The short form is used exactly below one hour, and the shown time reads back as the
      time: the fields are written in full, seconds (and minutes in the long form) as two
      digits. */
  lemma {:induction false} FormatTimeRoundTrip(total: nat)
    ensures |Text.Split(FormatTime(total), ':')| == (if total < 3600 then 2 else 3)
    ensures ParseTime(FormatTime(total)) == Some(total)
  {
    if total >= 3600 {
      LongFormReadsBack(total);
    } else {
      ShortFormReadsBack(total);
    }
  }

  /** A shown time reads as its ':'-pieces do. */
  lemma {:induction false} ReadsAsPieces(shown: string, p: seq<string>)
    requires Text.Split(shown, ':') == p
    ensures ParseTime(shown) == ReadPieces(p)
  {
  }

  /** Three runs of digits read as hours, minutes and seconds. */
  lemma {:induction false} ReadThree(h: string, m: string, s: string)
    requires Text.AllDigits(h) && Text.AllDigits(m) && Text.AllDigits(s)
    ensures ReadPieces([h, m, s])
            == Some(Text.DigitsValue(h) * 3600 + Text.DigitsValue(m) * 60 + Text.DigitsValue(s))
  {
  }

  /** Two runs of digits read as minutes and seconds. */
  lemma {:induction false} ReadTwo(m: string, s: string)
    requires Text.AllDigits(m) && Text.AllDigits(s)
    ensures ReadPieces([m, s]) == Some(Text.DigitsValue(m) * 60 + Text.DigitsValue(s))
  {
  }

  /** From one hour on, three pieces that read back as the time. */
  lemma {:induction false} LongFormReadsBack(total: nat)
    requires total >= 3600
    ensures |Text.Split(FormatTime(total), ':')| == 3
    ensures ParseTime(FormatTime(total)) == Some(total)
  {
    var c := ClockOf(total);
    assert c.hours > 0 by {
      assert total / 3600 >= 1;
    }
    var h, m, s := Text.Decimal(c.hours), TwoDigits(c.minutes), TwoDigits(c.seconds);
    TwoDigitsValue(c.seconds);
    TwoDigitsValue(c.minutes);
    DecimalHasNoColon(c.hours);
    Text.DecimalRoundTrip(c.hours);
    assert FormatTime(total) == h + ":" + m + ":" + s;
    SplitThree(h, m, s);
    ReadsAsPieces(FormatTime(total), [h, m, s]);
    ReadThree(h, m, s);
  }

  /** Below one hour, two pieces that read back as the time. */
  lemma {:induction false} ShortFormReadsBack(total: nat)
    requires total < 3600
    ensures |Text.Split(FormatTime(total), ':')| == 2
    ensures ParseTime(FormatTime(total)) == Some(total)
  {
    var c := ClockOf(total);
    assert c.hours == 0 by {
      assert total / 3600 == 0;
    }
    var m, s := Text.Decimal(c.minutes), TwoDigits(c.seconds);
    TwoDigitsValue(c.seconds);
    DecimalHasNoColon(c.minutes);
    Text.DecimalRoundTrip(c.minutes);
    assert FormatTime(total) == m + ":" + s;
    SplitTwo(m, s);
    ReadsAsPieces(FormatTime(total), [m, s]);
    ReadTwo(m, s);
  }

  /** From one hour on, the hours are written unpadded and the minutes and seconds as two
      digits each. */
  lemma {:induction false} FormatTimeLongForm(total: nat)
    requires total >= 3600
    ensures var p := Text.Split(FormatTime(total), ':');
      |p| == 3 && p[0] == Text.Decimal(total / 3600) && p[0][0] != '0'
      && |p[1]| == 2 && |p[2]| == 2
  {
    var c := ClockOf(total);
    TwoDigitsValue(c.seconds);
    TwoDigitsValue(c.minutes);
    DecimalHasNoColon(c.hours);
    SplitThree(Text.Decimal(c.hours), TwoDigits(c.minutes), TwoDigits(c.seconds));
  }

  /** Below one hour, the minutes are written unpadded and the seconds as two digits. */
  lemma {:induction false} FormatTimeShortForm(total: nat)
    requires total < 3600
    ensures var p := Text.Split(FormatTime(total), ':');
      |p| == 2 && p[0] == Text.Decimal(total / 60) && |p[1]| == 2
  {
    var c := ClockOf(total);
    assert c.hours == 0 && c.minutes == total / 60 by {
      assert total % 3600 == total;
    }
    TwoDigitsValue(c.seconds);
    DecimalHasNoColon(c.minutes);
    SplitTwo(Text.Decimal(c.minutes), TwoDigits(c.seconds));
  }

  // -----------------------------------------------------------------------------------------
  // The toggles

  /** A call the player makes on the video element. */
  datatype Command = Play | Pause

  /** The player's state: its flags and volume, whether the video element is mounted, the
      element's `muted` and `volume` properties and the play and pause calls made on it so
      far. The volume is the number the range input gives, from 0 to 1. */
  class Player {
    var isPlaying: bool
    var isMuted: bool
    var volume: real
    var mounted: bool
    var elementMuted: bool
    var elementVolume: real
    var commands: seq<Command>

    /** Not playing, not muted and at full volume, like the element it drives. */
    constructor(mounted: bool)
      ensures !isPlaying && !isMuted && volume == 1.0 && this.mounted == mounted && commands == []
      ensures !elementMuted && elementVolume == 1.0
    {
      isPlaying := false;
      isMuted := false;
      volume := 1.0;
      this.mounted := mounted;
      elementMuted := false;
      elementVolume := 1.0;
      commands := [];
    }

    /** Whether the volume button shows the muted icon. */
    predicate ShowsMuted()
      reads this
    {
      isMuted || volume == 0.0
    }

    /** `togglePlay`: with no element nothing happens; otherwise the element is paused when
        playing and played when not, and the flag flips. */
    method TogglePlay()
      modifies this`isPlaying, this`commands
      ensures !mounted ==> isPlaying == old(isPlaying) && commands == old(commands)
      ensures mounted ==> isPlaying == !old(isPlaying)
      ensures mounted ==> commands == old(commands) + [if old(isPlaying) then Pause else Play]
    {
      if !mounted {
        return;
      }
      if isPlaying {
        commands := commands + [Pause];
      } else {
        commands := commands + [Play];
      }
      isPlaying := !isPlaying;
    }

    /** `toggleMute`: with no element nothing happens; otherwise the element's `muted` and
        the flag both take the flag's negation, so they agree afterwards whatever they were
        before. */
    method ToggleMute()
      modifies this`isMuted, this`elementMuted
      ensures !mounted ==> isMuted == old(isMuted) && elementMuted == old(elementMuted)
      ensures mounted ==> isMuted == !old(isMuted) && elementMuted == isMuted
    {
      if !mounted {
        return;
      }
      elementMuted := !isMuted;
      isMuted := !isMuted;
    }

    /** `handleVolumeChange`: with no element nothing happens; otherwise the element and the
        component take the new volume, and the flag says muted exactly when it is 0. The
        element's `muted` property is left as it was, so the flag and the element can
        disagree afterwards. */
    method VolumeChange(newVolume: real)
      modifies this`volume, this`elementVolume, this`isMuted
      ensures !mounted ==> volume == old(volume) && elementVolume == old(elementVolume)
      ensures !mounted ==> isMuted == old(isMuted)
      ensures mounted ==> volume == newVolume && elementVolume == newVolume
      ensures mounted ==> (isMuted <==> newVolume == 0.0)
      ensures mounted ==> (ShowsMuted() <==> newVolume == 0.0)
    {
      if !mounted {
        return;
      }
      elementVolume := newVolume;
      volume := newVolume;
      isMuted := newVolume == 0.0;
    }

    /** The element's `play`, `pause` and `ended` events set the flag. */
    method OnPlaybackEvent(playing: bool)
      modifies this`isPlaying
      ensures isPlaying == playing
    {
      isPlaying := playing;
    }
  }
}
