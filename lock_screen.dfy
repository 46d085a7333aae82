/** The lock screen (components/iphone/lock-screen.tsx): an upward swipe whose
    progress dims the screen and widens the unlock bar, and which unlocks when
    long enough; a click unlocks outright. Touch positions are vertical client
    coordinates, growing downwards. */
module Lock {
  import opened Optional

  /** Signal strength used when the prop is omitted. */
  const DefaultSignalStrength: int := 4
  /** Distance in pixels a swipe must exceed, strictly, to unlock. */
  const UnlockDistance: real := 50.0

  /** Swipe progress in percent: the upward distance over 200 pixels, times 100,
      clamped to [0, 100]. */
  function SwipeProgress(touchStart: real, y: real): (p: real)
    ensures 0.0 <= p <= 100.0
    ensures touchStart - y <= 0.0 ==> p == 0.0
    ensures 0.0 <= touchStart - y <= 200.0 ==> p * 2.0 == touchStart - y
    ensures 200.0 <= touchStart - y ==> p == 100.0
  {
    var raw := (touchStart - y) / 200.0 * 100.0;
    if raw < 0.0 then 0.0 else if raw > 100.0 then 100.0 else raw
  }

  /** The swipe unlocks when the finger travelled more than 50 pixels upwards. */
  predicate Unlocks(touchStart: real, touchEnd: real)
    ensures Unlocks(touchStart, touchEnd) ==> touchEnd < touchStart
    ensures touchStart - touchEnd <= UnlockDistance ==> !Unlocks(touchStart, touchEnd)
  {
    touchStart - touchEnd > UnlockDistance
  }

  /** A swipe whose last move was at `y` unlocks exactly when the progress that
      move showed was past a quarter. */
  lemma UnlocksIffProgressPastQuarter(touchStart: real, y: real)
    ensures Unlocks(touchStart, y) <==> SwipeProgress(touchStart, y) > 25.0
  {
  }

  /** Opacity of the lock screen: fully opaque at no progress, transparent at
      full progress. */
  function Opacity(progress: real): (o: real)
    requires 0.0 <= progress <= 100.0
    ensures 0.0 <= o <= 1.0
    ensures o == 1.0 <==> progress == 0.0
    ensures o == 0.0 <==> progress == 100.0
  {
    1.0 - progress / 100.0
  }

  /** Width in pixels of the unlock bar: 48 at rest, 98 at full progress. */
  function IndicatorWidth(progress: real): (w: real)
    requires 0.0 <= progress <= 100.0
    ensures 48.0 <= w <= 98.0
    ensures w == 48.0 <==> progress == 0.0
  {
    48.0 + progress / 2.0
  }

  /** Bar `i` (0 to 3) of the signal meter is lit when `i` is below the strength. */
  function SignalBars(signalStrength: int): (bars: seq<bool>)
    ensures |bars| == 4
    ensures forall i :: 0 <= i < 4 ==> (bars[i] <==> i < signalStrength)
  {
    seq(4, i => i < signalStrength)
  }

  /** Number of lit bars. */
  function CountLit(bars: seq<bool>): nat {
    if bars == [] then 0 else CountLit(bars[..|bars| - 1]) + (if bars[|bars| - 1] then 1 else 0)
  }

  /** The lit bars form a prefix, so their number is the strength clamped to
      [0, 4]; the default strength lights all four. */
  lemma SignalBarsLit(signalStrength: int)
    ensures CountLit(SignalBars(signalStrength)) ==
      if signalStrength < 0 then 0 else if signalStrength > 4 then 4 else signalStrength
    ensures SignalBars(DefaultSignalStrength) == [true, true, true, true]
  {
    var b := SignalBars(signalStrength);
    assert CountLit(b[..1]) == (if b[0] then 1 else 0) by { assert b[..1][..0] == []; }
    assert CountLit(b[..2]) == CountLit(b[..1]) + (if b[1] then 1 else 0) by { assert b[..2][..1] == b[..1]; }
    assert CountLit(b[..3]) == CountLit(b[..2]) + (if b[2] then 1 else 0) by { assert b[..3][..2] == b[..2]; }
    assert CountLit(b) == CountLit(b[..3]) + (if b[3] then 1 else 0);
  }

  /** The two clock fields of the lock screen: `formatTime` and `formatDate`. */
  datatype ClockField = TimeField | DateField

  /** `formatTime` and `formatDate`: the reading already formatted by the
      locale library, or the field's placeholder while there is no reading yet. */
  function ClockText(reading: Option<string>, field: ClockField): (t: string)
    ensures reading == None && field == TimeField ==> t == "00:00"
    ensures reading == None && field == DateField ==> t == "Loading..."
    ensures reading.Some? ==> t == reading.value
  {
    match reading
    case Some(text) => text
    case None => if field == TimeField then "00:00" else "Loading..."
  }

  /** The gesture state: where the touch started, where it last moved, and the
      progress shown. */
  class LockScreen {
    var touchStart: real
    var touchEnd: real
    var swipeProgress: real
    const signalStrength: int

    ghost predicate Valid()
      reads this
    {
      0.0 <= swipeProgress <= 100.0
    }

    constructor (signalStrength: int := DefaultSignalStrength)
      ensures Valid()
      ensures touchStart == 0.0 && touchEnd == 0.0 && swipeProgress == 0.0
      ensures this.signalStrength == signalStrength
    {
      touchStart, touchEnd, swipeProgress := 0.0, 0.0, 0.0;
      this.signalStrength := signalStrength;
    }

    /** `handleTouchStart`: records only where the touch began. */
    method HandleTouchStart(y: real)
      modifies this
      ensures touchStart == y
      ensures touchEnd == old(touchEnd) && swipeProgress == old(swipeProgress)
    {
      touchStart := y;
    }

    /** `handleTouchMove`: records the position and shows the progress. */
    method HandleTouchMove(y: real)
      modifies this
      ensures Valid()
      ensures touchEnd == y && swipeProgress == SwipeProgress(touchStart, y)
      ensures touchStart == old(touchStart)
    {
      touchEnd := y;
      swipeProgress := SwipeProgress(touchStart, y);
    }

    /** `handleTouchEnd`: returns whether `onUnlock` is called; the progress
        goes back to 0 either way. */
    method HandleTouchEnd() returns (unlock: bool)
      modifies this
      ensures Valid()
      ensures unlock <==> touchStart - touchEnd > 50.0
      ensures swipeProgress == 0.0
      ensures touchStart == old(touchStart) && touchEnd == old(touchEnd)
    {
      unlock := touchStart - touchEnd > UnlockDistance;
      swipeProgress := 0.0;
    }

    /** `handleClick`: every click calls `onUnlock`. */
    method HandleClick() returns (unlock: bool)
      ensures unlock
    {
      unlock := true;
    }

    /** What the screen shows of the gesture: its opacity and the bar width. */
    function Appearance(): (r: (real, real))
      requires Valid()
      reads this
      ensures 0.0 <= r.0 <= 1.0 && 48.0 <= r.1 <= 98.0
    {
      (Opacity(swipeProgress), IndicatorWidth(swipeProgress))
    }
  }

  /** A swipe from `from` up to `to`: starts, moves once and ends. It unlocks
      exactly when it went more than 50 pixels up. */
  method Swipe(screen: LockScreen, from: real, to: real) returns (unlock: bool)
    modifies screen
    ensures unlock <==> Unlocks(from, to)
    ensures screen.Valid() && screen.swipeProgress == 0.0
    ensures screen.touchStart == from && screen.touchEnd == to
  {
    screen.HandleTouchStart(from);
    screen.HandleTouchMove(to);
    unlock := screen.HandleTouchEnd();
  }

  /** A touch that starts at `y` and ends without moving is judged against the
      position of the last move of an earlier touch (0 on a fresh screen), so
      on a fresh screen any touch starting more than 50 pixels down unlocks. */
  method TouchWithoutMove(screen: LockScreen, y: real) returns (unlock: bool)
    modifies screen
    ensures unlock <==> Unlocks(y, old(screen.touchEnd))
    ensures screen.touchEnd == old(screen.touchEnd)
  {
    screen.HandleTouchStart(y);
    unlock := screen.HandleTouchEnd();
  }
}
