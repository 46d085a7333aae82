/** One app icon (components/iphone/app-icon.tsx): pressed while a mouse button
    or finger is down, "wiggling" after a long press (a context-menu event), and
    a click either opens the app or, while wiggling, only stops the wiggle. */
module Icons {
  import opened Optional

  /** The icon's two state variables, `isPressed` and `isWiggling`. */
  datatype IconState = IconState(pressed: bool, wiggling: bool)

  /** The events the icon's button handles: click, context menu (the long
      press), mouse-or-touch down and mouse-or-touch up. */
  datatype IconEvent = Click | LongPress | Down | Up

  const Initial: IconState := IconState(false, false)

  /** One event: the new state, and whether the icon's `onClick` is invoked. */
  function Step(s: IconState, e: IconEvent): (r: (IconState, bool))
    ensures r.1 <==> e == Click && !s.wiggling
    ensures r.0.wiggling <==> e == LongPress || (s.wiggling && e != Click)
    ensures r.0.pressed <==> e == Down || (s.pressed && e != Up)
  {
    match e
    case Click => if !s.wiggling then (s, true) else (s.(wiggling := false), false)
    case LongPress => (s.(wiggling := true), false)
    case Down => (s.(pressed := true), false)
    case Up => (s.(pressed := false), false)
  }

  /** The state after a sequence of events, oldest first. */
  function Run(s: IconState, events: seq<IconEvent>): IconState {
    if events == [] then s else Step(Run(s, events[..|events| - 1]), events[|events| - 1]).0
  }

  /** A long press occurred with no click after it. */
  ghost predicate LongPressSinceLastClick(events: seq<IconEvent>) {
    exists i :: 0 <= i < |events| && events[i] == LongPress &&
      forall j :: i < j < |events| ==> events[j] != Click
  }

  /** Starting fresh, the icon wiggles exactly when there has been a long press
      since the last click. */
  lemma {:induction false} WigglingIffLongPressSinceLastClick(events: seq<IconEvent>)
    ensures Run(Initial, events).wiggling <==> LongPressSinceLastClick(events)
  {
    if events != [] {
      var n := |events| - 1;
      var pre := events[..n];
      WigglingIffLongPressSinceLastClick(pre);
      match events[n]
      case Click =>
        forall i | 0 <= i < |events| && events[i] == LongPress
          ensures exists j :: i < j < |events| && events[j] == Click
        {
          assert i < n && events[n] == Click;
        }
      case LongPress =>
        assert events[n] == LongPress;
      case _ =>
        if LongPressSinceLastClick(pre) {
          var i :| 0 <= i < |pre| && pre[i] == LongPress &&
            forall j :: i < j < |pre| ==> pre[j] != Click;
          assert events[i] == LongPress;
        }
        if LongPressSinceLastClick(events) {
          var i :| 0 <= i < |events| && events[i] == LongPress &&
            forall j :: i < j < |events| ==> events[j] != Click;
          assert pre[i] == LongPress;
        }
    }
  }

  /** A click opens the app exactly when no long press happened since the last
      click; and after any click the icon no longer wiggles. */
  lemma ClickOpensIff(events: seq<IconEvent>)
    ensures Step(Run(Initial, events), Click).1 <==> !LongPressSinceLastClick(events)
    ensures !Step(Run(Initial, events), Click).0.wiggling
  {
    WigglingIffLongPressSinceLastClick(events);
  }

  /** Long-pressing again while already wiggling changes nothing. */
  lemma LongPressIdempotent(s: IconState)
    ensures Step(Step(s, LongPress).0, LongPress) == Step(s, LongPress)
  {
  }

  /** The component: its two state variables and the two props that decide
      what it shows (`showLabel`, default true, and the optional `badge`). */
  class AppIcon {
    var isPressed: bool
    var isWiggling: bool
    const showLabel: bool
    const badge: Option<int>

    function State(): IconState
      reads this
    {
      IconState(isPressed, isWiggling)
    }

    constructor (badge: Option<int>, showLabel: bool := true)
      ensures State() == Initial
      ensures this.showLabel == showLabel && this.badge == badge
    {
      isPressed, isWiggling := false, false;
      this.showLabel, this.badge := showLabel, badge;
    }

    /** `handleClick`: returns whether `onClick` is invoked. */
    method HandleClick() returns (invoked: bool)
      modifies this
      ensures invoked == !old(isWiggling)
      ensures !isWiggling && isPressed == old(isPressed)
      ensures (State(), invoked) == Step(old(State()), Click)
    {
      if !isWiggling {
        invoked := true;
      } else {
        isWiggling := false;
        invoked := false;
      }
    }

    /** `handleLongPress`, run on the context-menu event. */
    method HandleLongPress()
      modifies this
      ensures isWiggling && isPressed == old(isPressed)
      ensures State() == Step(old(State()), LongPress).0
    {
      isWiggling := true;
    }

    /** Mouse down or touch start. */
    method PressDown()
      modifies this
      ensures isPressed && isWiggling == old(isWiggling)
      ensures State() == Step(old(State()), Down).0
    {
      isPressed := true;
    }

    /** Mouse up or touch end. */
    method PressUp()
      modifies this
      ensures !isPressed && isWiggling == old(isWiggling)
      ensures State() == Step(old(State()), Up).0
    {
      isPressed := false;
    }

    /** The red close glyph shows exactly while the icon wiggles. */
    function CloseGlyphShown(): (shown: bool)
      reads this
      ensures shown <==> State().wiggling
    {
      isWiggling
    }

    /** The name label shows exactly when `showLabel` is set. */
    function LabelShown(): (shown: bool)
      reads this
      ensures shown <==> showLabel
    {
      showLabel
    }

    /** The badge bubble shows when a badge is given and is not 0 (a 0 badge is
        falsy in `badge && …`). */
    function BadgeShown(): (shown: bool)
      reads this
      ensures shown ==> badge.Some?
      ensures badge == Some(0) ==> !shown
      ensures badge.Some? && badge.value != 0 ==> shown
    {
      badge.Some? && badge.value != 0
    }
  }

  /** A long press then two clicks: the first click only stops the wiggle, the
      second opens the app. */
  method LongPressThenTwoClicks(icon: AppIcon) returns (first: bool, second: bool)
    modifies icon
    ensures !first && second
    ensures !icon.CloseGlyphShown()
  {
    icon.HandleLongPress();
    first := icon.HandleClick();
    second := icon.HandleClick();
  }
}
