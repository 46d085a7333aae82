/** The Music app (components/apps/music-app.tsx): a library view of playlists,
    a player view for one fixed track, a play/pause flag, a playback position
    driven by a slider, and the `m:ss` time formatter. */
module Music {
  import opened Optional

  /** Length in seconds of the one track the player shows. */
  const Duration: nat := 245
  /** Position the player starts at, in seconds. */
  const InitialPosition: nat := 67

  datatype MusicView = Library | Player

  // ---------------------------------------------------------------------------
  // Decimal text of a non-negative integer, as `Number.prototype.toString`
  // writes it, and its inverse.

  predicate IsDigit(c: char) {
    '0' <= c <= '9'
  }

  predicate AllDigits(s: string) {
    forall i :: 0 <= i < |s| ==> IsDigit(s[i])
  }

  function DigitChar(d: nat): (c: char)
    requires d < 10
    ensures IsDigit(c) && (c as int) - ('0' as int) == d
  {
    (('0' as int) + d) as char
  }

  function DigitValue(c: char): nat
    requires IsDigit(c)
  {
    (c as int) - ('0' as int)
  }

  /** Decimal digits of `n`, most significant first, with no leading zero. */
  function NatToString(n: nat): (s: string)
    ensures 1 <= |s| && AllDigits(s)
    ensures s[0] == '0' ==> n == 0
    ensures n < 10 <==> |s| == 1
  {
    if n < 10 then [DigitChar(n)] else NatToString(n / 10) + [DigitChar(n % 10)]
  }

  /** The number a string of decimal digits denotes. */
  function DigitsValue(s: string): nat
    requires AllDigits(s)
  {
    if s == [] then 0 else DigitsValue(s[..|s| - 1]) * 10 + DigitValue(s[|s| - 1])
  }

  lemma {:induction false} DigitsValueOfNatToString(n: nat)
    ensures DigitsValue(NatToString(n)) == n
  {
    var s := NatToString(n);
    if n >= 10 {
      DigitsValueOfNatToString(n / 10);
      assert s[..|s| - 1] == NatToString(n / 10);
    } else {
      assert s[..|s| - 1] == [];
    }
  }

  /** `s.padStart(width, [c])`: `s` preceded by as many `c` as bring it to `width`. */
  function PadStart(s: string, width: nat, c: char): (r: string)
    ensures |r| == if |s| >= width then |s| else width
    ensures r[|r| - |s|..] == s
    ensures forall i :: 0 <= i < |r| - |s| ==> r[i] == c
  {
    if |s| >= width then s else seq(width - |s|, _ => c) + s
  }

  // ---------------------------------------------------------------------------
  // formatTime

  /** `formatTime(seconds)`: whole minutes, a colon, then the remaining seconds
      padded on the left with "0" to two characters. The seconds field is
      always exactly two digits and the minutes field is all digits. */
  function FormatTime(seconds: nat): (t: string)
    ensures |t| >= 4 && t[|t| - 3] == ':'
    ensures AllDigits(t[..|t| - 3]) && AllDigits(t[|t| - 2..])
  {
    var secs := NatToString(seconds % 60);
    assert |secs| <= 2 by {
      if seconds % 60 >= 10 { assert NatToString(seconds % 60) == NatToString(seconds % 60 / 10) + [DigitChar(seconds % 60 % 10)]; }
    }
    var t := NatToString(seconds / 60) + ":" + PadStart(secs, 2, '0');
    assert t[..|t| - 3] == NatToString(seconds / 60);
    assert t[|t| - 2..] == PadStart(secs, 2, '0');
    t
  }

  /** Reads back a label `FormatTime` writes: digits, a colon, then exactly two
      digits worth less than 60. Anything else is rejected. */
  function ParseTime(t: string): Option<nat> {
    if |t| < 4 || t[|t| - 3] != ':' then None
    else
      var mins, secs := t[..|t| - 3], t[|t| - 2..];
      if AllDigits(mins) && AllDigits(secs) && DigitsValue(secs) < 60
      then Some(DigitsValue(mins) * 60 + DigitsValue(secs))
      else None
  }

  /** A zero in front does not change the value of a digit string. */
  lemma LeadingZero(s: string)
    requires AllDigits(s)
    ensures AllDigits("0" + s) && DigitsValue("0" + s) == DigitsValue(s)
  {
    if s != [] {
      assert ("0" + s)[..|"0" + s| - 1] == "0" + s[..|s| - 1];
      LeadingZero(s[..|s| - 1]);
    }
  }

  /** The seconds field of a label denotes `seconds % 60`, with or without its pad. */
  lemma SecondsFieldValue(n: nat)
    requires n < 60
    ensures AllDigits(PadStart(NatToString(n), 2, '0'))
    ensures DigitsValue(PadStart(NatToString(n), 2, '0')) == n
  {
    var s := NatToString(n);
    DigitsValueOfNatToString(n);
    if n < 10 {
      assert PadStart(s, 2, '0') == "0" + s;
      LeadingZero(s);
    } else {
      assert s == NatToString(n / 10) + [DigitChar(n % 10)];
    }
  }

  /** A label joined from a digit string, a colon and a two-digit field worth
      less than 60 parses to minutes times 60 plus seconds. */
  lemma ParseJoined(mins: string, secs: string)
    requires |mins| >= 1 && AllDigits(mins)
    requires |secs| == 2 && AllDigits(secs) && DigitsValue(secs) < 60
    ensures ParseTime(mins + ":" + secs) == Some(DigitsValue(mins) * 60 + DigitsValue(secs))
  {
    var t := mins + ":" + secs;
    assert t[..|t| - 3] == mins && t[|t| - 2..] == secs && !(|t| < 4 || t[|t| - 3] != ':') by {
      SplitJoined(mins, secs);
    }
  }

  /** The fields `ParseTime` cuts out of a joined label are the joined parts. */
  lemma SplitJoined(mins: string, secs: string)
    requires |secs| == 2
    ensures var t := mins + ":" + secs;
      |t| == |mins| + 3 && t[|t| - 3] == ':' && t[..|t| - 3] == mins && t[|t| - 2..] == secs
  {
    var t := mins + ":" + secs;
    assert t[..|t| - 3] == mins by {
      assert forall i :: 0 <= i < |mins| ==> t[i] == mins[i];
    }
    assert t[|t| - 2..] == secs by {
      assert forall i :: 0 <= i < 2 ==> t[|mins| + 1 + i] == secs[i];
    }
  }

  /** The formatter loses nothing: minutes times 60 plus seconds recovers the input. */
  lemma {:induction false} FormatTimeRoundTrip(seconds: nat)
    ensures ParseTime(FormatTime(seconds)) == Some(seconds)
  {
    var mins := NatToString(seconds / 60);
    var secs := PadStart(NatToString(seconds % 60), 2, '0');
    assert |NatToString(seconds % 60)| <= 2 by {
      if seconds % 60 >= 10 { assert NatToString(seconds % 60) == NatToString(seconds % 60 / 10) + [DigitChar(seconds % 60 % 10)]; }
    }
    assert FormatTime(seconds) == mins + ":" + secs;
    DigitsValueOfNatToString(seconds / 60);
    SecondsFieldValue(seconds % 60);
    ParseJoined(mins, secs);
  }

  /** The minutes field is written without a leading zero: a label starts with
      "0" exactly when the position is under a minute, and then the minutes
      field is that single "0" (the label is four characters long). */
  lemma MinutesNoLeadingZero(seconds: nat)
    ensures FormatTime(seconds)[0] == '0' <==> seconds < 60
    ensures FormatTime(seconds)[0] == '0' ==> |FormatTime(seconds)| == 4
  {
    var mins := NatToString(seconds / 60);
    var secs := PadStart(NatToString(seconds % 60), 2, '0');
    assert |NatToString(seconds % 60)| <= 2 by {
      if seconds % 60 >= 10 { assert NatToString(seconds % 60) == NatToString(seconds % 60 / 10) + [DigitChar(seconds % 60 % 10)]; }
    }
    assert FormatTime(seconds) == mins + ":" + secs;
    assert (mins + ":" + secs)[0] == mins[0];
    if seconds < 60 {
      assert mins == NatToString(0) == "0";
    }
  }

  /** Two positions that show the same label are the same position. */
  lemma FormatTimeInjective(a: nat, b: nat)
    requires FormatTime(a) == FormatTime(b)
    ensures a == b
  {
    FormatTimeRoundTrip(a);
    FormatTimeRoundTrip(b);
  }

  /** The track's length is shown as "4:05" and the starting position as "1:07". */
  lemma KnownLabels()
    ensures FormatTime(Duration) == "4:05"
    ensures FormatTime(InitialPosition) == "1:07"
  {
    assert NatToString(4) == "4" && NatToString(5) == "5";
    assert NatToString(1) == "1" && NatToString(7) == "7";
    assert PadStart("5", 2, '0') == "05";
    assert PadStart("7", 2, '0') == "07";
  }

  // ---------------------------------------------------------------------------
  // The player's state

  /** The state the component keeps: `isPlaying`, `currentTime` and `view`. */
  class MusicPlayer {
    var isPlaying: bool
    var currentTime: nat
    var view: MusicView

    /** The position never passes the track's length: it starts inside it and
        the slider, whose maximum is the duration, is the only way to move it. */
    ghost predicate Valid()
      reads this
    {
      currentTime <= Duration
    }

    constructor ()
      ensures Valid()
      ensures !isPlaying && currentTime == InitialPosition && view == Library
    {
      isPlaying := false;
      currentTime := InitialPosition;
      view := Library;
    }

    /** The play/pause button negates `isPlaying`. */
    method TogglePlay()
      modifies this
      ensures isPlaying == !old(isPlaying)
      ensures currentTime == old(currentTime) && view == old(view)
    {
      isPlaying := !isPlaying;
    }

    /** The slider's change handler; the slider only offers values in
        [0, Duration]. */
    method Seek(value: nat)
      requires Valid()
      requires value <= Duration
      modifies this
      ensures Valid()
      ensures currentTime == value
      ensures isPlaying == old(isPlaying) && view == old(view)
    {
      currentTime := value;
    }

    /** A click on any playlist, or on the recently played track. */
    method OpenPlayer()
      modifies this
      ensures view == Player
      ensures isPlaying == old(isPlaying) && currentTime == old(currentTime)
    {
      view := Player;
    }

    /** The back button of the player view. */
    method BackToLibrary()
      modifies this
      ensures view == Library
      ensures isPlaying == old(isPlaying) && currentTime == old(currentTime)
    {
      view := Library;
    }

    /** The two labels under the slider: elapsed position and track length.
        Each reads back as the number it shows. */
    function ProgressLabels(): (labels: (string, string))
      reads this
      ensures ParseTime(labels.0) == Some(currentTime)
      ensures ParseTime(labels.1) == Some(Duration)
    {
      FormatTimeRoundTrip(currentTime);
      FormatTimeRoundTrip(Duration);
      (FormatTime(currentTime), FormatTime(Duration))
    }
  }

  /** Pressing play/pause twice leaves the player as it was. */
  method ToggleTwice(p: MusicPlayer)
    modifies p
    ensures p.isPlaying == old(p.isPlaying)
    ensures p.currentTime == old(p.currentTime) && p.view == old(p.view)
  {
    p.TogglePlay();
    p.TogglePlay();
  }
}
