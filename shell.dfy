/** The device shell (app/page.tsx): the lock flag, which app is open, and two
    easter eggs — a Konami-code detector over the last ten key presses and a
    shake detector over device-motion readings. */
module Shell {
  import opened Optional
  import Home
  import Lock

  // ---------------------------------------------------------------------------
  // Active-app dispatch (`renderApp`)

  /** The eight apps the shell can open. */
  datatype App = Photos | Phone | Messages | Safari | AppStore | Notes | Music | Settings

  /** The id under which each app is opened. */
  function AppId(a: App): string {
    match a
    case Photos => "photos"
    case Phone => "phone"
    case Messages => "messages"
    case Safari => "safari"
    case AppStore => "appstore"
    case Notes => "notes"
    case Music => "music"
    case Settings => "settings"
  }

  /** The `switch` of `renderApp`: the app an id opens, if any. It is the exact
      inverse of `AppId`: an id opens an app only if it is that app's id. */
  function AppOf(id: string): (r: Option<App>)
    ensures r.Some? ==> AppId(r.value) == id
    ensures r == None <==> forall a: App :: AppId(a) != id
  {
    match id
    case "photos" => Some(Photos)
    case "phone" => Some(Phone)
    case "messages" => Some(Messages)
    case "safari" => Some(Safari)
    case "appstore" => Some(AppStore)
    case "notes" => Some(Notes)
    case "music" => Some(Music)
    case "settings" => Some(Settings)
    case _ => None
  }

  lemma AppOfAppId(a: App)
    ensures AppOf(AppId(a)) == Some(a)
  {
  }

  /** What the device shows. */
  datatype Screen = LockView | HomeView | AppView(app: App)

  /** The lock screen while locked; once unlocked, the open app, or the home
      screen when no app is open or the id names no app. */
  function Render(isUnlocked: bool, activeApp: Option<string>): (s: Screen)
    ensures s == LockView <==> !isUnlocked
    ensures s == HomeView <==> isUnlocked && (activeApp == None || AppOf(activeApp.value) == None)
    ensures s.AppView? ==> activeApp == Some(AppId(s.app))
  {
    if !isUnlocked then LockView
    else match activeApp
      case None => HomeView
      case Some(id) => match AppOf(id)
        case None => HomeView
        case Some(a) => AppView(a)
  }

  /** Grid ids of icons that have no app behind them. */
  const Unbacked: set<string> := {"camera", "mail", "maps", "calendar"}

  /** Of the home grid's twelve icons, the four without an app (camera, mail,
      maps, calendar) leave the home screen showing; the other eight open their
      app. */
  lemma GridOpensApps()
    ensures forall i :: 0 <= i < |Home.Apps| ==>
      (Render(true, Some(Home.Apps[i].id)) == HomeView <==> Home.Apps[i].id in Unbacked)
  {
    forall i | 0 <= i < |Home.Apps|
      ensures Render(true, Some(Home.Apps[i].id)) == HomeView <==> Home.Apps[i].id in Unbacked
    {
      GridIdOpens(Home.Apps[i].id);
    }
  }

  /** The grid ids without an app are exactly the unbacked ones. */
  lemma GridIdOpens(id: string)
    requires id in Home.AppIds()
    ensures AppOf(id) == None <==> id in Unbacked
  {
    Home.AppIdsDistinct();
    var ids := Home.AppIds();
    assert ids == ["photos", "camera", "phone", "messages", "mail", "safari",
                   "maps", "calendar", "notes", "music", "appstore", "settings"];
  }

  /** Every app has an icon on the grid. */
  lemma EveryAppOnGrid()
    ensures forall a: App :: AppId(a) in Home.AppIds()
  {
    var ids := Home.AppIds();
    forall a: App ensures AppId(a) in ids {
      match a
      case Photos => assert ids[0] == AppId(a);
      case Phone => assert ids[2] == AppId(a);
      case Messages => assert ids[3] == AppId(a);
      case Safari => assert ids[5] == AppId(a);
      case AppStore => assert ids[10] == AppId(a);
      case Notes => assert ids[8] == AppId(a);
      case Music => assert ids[9] == AppId(a);
      case Settings => assert ids[11] == AppId(a);
    }
  }

  /** Each of the four dock icons opens an app. */
  lemma DockOpensApps()
    ensures forall d :: d in Home.DockIds ==> AppOf(d).Some?
  {
    assert Home.DockIds == ["phone", "safari", "messages", "music"];
  }

  // ---------------------------------------------------------------------------
  // Konami-code detector (`handleKeyDown`)

  const WindowSize: nat := 10

  const KonamiSequence: seq<string> := [
    "ArrowUp", "ArrowUp", "ArrowDown", "ArrowDown",
    "ArrowLeft", "ArrowRight", "ArrowLeft", "ArrowRight", "b", "a"
  ]

  /** The last `n` elements of `s`, or all of `s` when it is shorter. For
      `n >= 1` this is `s.slice(-n)`; the shell calls it with `n = 10`. */
  function LastN<T>(s: seq<T>, n: nat): (r: seq<T>)
    ensures |r| == if |s| < n then |s| else n
    ensures r == s[|s| - |r|..]
  {
    if |s| <= n then s else s[|s| - n..]
  }

  /** Keeping the last `n` of a suffix that is long enough is keeping the last
      `n` of the whole. */
  lemma LastNOfSuffix<T>(s: seq<T>, t: seq<T>, n: nat)
    requires |s| <= |t| && s == t[|t| - |s|..]
    requires |s| >= n || |s| == |t|
    ensures LastN(s, n) == LastN(t, n)
  {
  }

  /** One key press: the new buffer, and whether the easter egg fires. The
      buffer never holds more than ten keys, and firing empties it. */
  function KeyStep(buffer: seq<string>, key: string): (r: (seq<string>, bool))
    ensures |r.0| <= WindowSize
    ensures r.1 ==> r.0 == [] && key == "a"
    ensures !r.1 ==> r.0 == LastN(buffer + [key], WindowSize)
  {
    var window := LastN(buffer + [key], WindowSize);
    assert window[|window| - 1] == key;
    if window == KonamiSequence then ([], true) else (window, false)
  }

  /** A key other than "a" only slides the window. */
  lemma KeyStepSlides(buffer: seq<string>, key: string)
    requires key != "a"
    ensures KeyStep(buffer, key) == (LastN(buffer + [key], WindowSize), false)
  {
  }

  /** Appending one key to a window of `t` gives a window of `t` plus that key. */
  lemma AppendToSuffix<T>(s: seq<T>, t: seq<T>, k: T)
    requires |s| <= |t| && s == t[|t| - |s|..]
    ensures s + [k] == (t + [k])[|t + [k]| - |s + [k]|..]
  {
  }

  /** The easter egg fires exactly when the key is "a" (case matters) and the
      nine keys before it, still in the buffer, are the rest of the code. */
  lemma KeyStepFiresIff(buffer: seq<string>, key: string)
    ensures KeyStep(buffer, key).1 <==>
      key == "a" && |buffer| >= 9 && buffer[|buffer| - 9..] == KonamiSequence[..9]
  {
    var window := LastN(buffer + [key], WindowSize);
    if key == "a" && |buffer| >= 9 && buffer[|buffer| - 9..] == KonamiSequence[..9] {
      assert window == buffer[|buffer| - 9..] + [key];
    }
    if window == KonamiSequence {
      assert |buffer| >= 9;
      assert buffer[|buffer| - 9..] == window[..9];
    }
  }

  /** The buffer and the last key's verdict after a run of key presses. */
  function Feed(buffer: seq<string>, keys: seq<string>): (seq<string>, bool) {
    if keys == [] then (buffer, false)
    else KeyStep(Feed(buffer, keys[..|keys| - 1]).0, keys[|keys| - 1])
  }

  lemma FeedLast(buffer: seq<string>, keys: seq<string>)
    requires keys != []
    ensures Feed(buffer, keys) == KeyStep(Feed(buffer, keys[..|keys| - 1]).0, keys[|keys| - 1])
  {
  }

  /** Sliding a window of `t + pre` by one key gives the window of
      `t + (pre + [k])`. */
  lemma SlideWindow<T>(t: seq<T>, pre: seq<T>, k: T, n: nat)
    ensures LastN(LastN(t + pre, n) + [k], n) == LastN(t + (pre + [k]), n)
  {
    var w := LastN(t + pre, n);
    AppendToSuffix(w, t + pre, k);
    assert (t + pre) + [k] == t + (pre + [k]);
    LastNOfSuffix(w + [k], t + (pre + [k]), n);
  }

  /** One key other than "a" after a run whose buffer is the last ten keys
      keeps the buffer the last ten keys. */
  lemma FeedStep(buffer: seq<string>, pre: seq<string>, k: string)
    requires k != "a"
    requires Feed(buffer, pre).0 == LastN(buffer + pre, WindowSize)
    ensures Feed(buffer, pre + [k]).0 == LastN(buffer + (pre + [k]), WindowSize)
  {
    var keys := pre + [k];
    assert keys[..|keys| - 1] == pre;
    FeedLast(buffer, keys);
    KeyStepSlides(Feed(buffer, pre).0, k);
    SlideWindow(buffer, pre, k, WindowSize);
  }

  /** Keys other than "a" never fire, so the buffer is just the last ten keys. */
  lemma {:induction false} FeedWithoutA(buffer: seq<string>, keys: seq<string>)
    requires |buffer| <= WindowSize
    requires forall i :: 0 <= i < |keys| ==> keys[i] != "a"
    ensures Feed(buffer, keys).0 == LastN(buffer + keys, WindowSize)
  {
    if keys == [] {
      assert buffer + keys == buffer;
    } else {
      var pre, k := keys[..|keys| - 1], keys[|keys| - 1];
      assert forall i :: 0 <= i < |pre| ==> pre[i] == keys[i];
      FeedWithoutA(buffer, pre);
      assert keys == pre + [k];
      FeedStep(buffer, pre, k);
    }
  }

  /** A key fires exactly when the window it completes is the code. */
  lemma KeyStepFires(buffer: seq<string>, key: string)
    ensures KeyStep(buffer, key).1 <==> LastN(buffer + [key], WindowSize) == KonamiSequence
  {
  }

  /** An "a" after a run whose buffer is the last ten keys fires exactly when
      those keys and the "a" end in the code. */
  lemma FeedFinalA(buffer: seq<string>, pre: seq<string>)
    requires Feed(buffer, pre).0 == LastN(buffer + pre, WindowSize)
    ensures Feed(buffer, pre + ["a"]).1 <==> LastN(buffer + (pre + ["a"]), WindowSize) == KonamiSequence
  {
    var keys := pre + ["a"];
    assert keys[..|keys| - 1] == pre;
    FeedLast(buffer, keys);
    KeyStepFires(Feed(buffer, pre).0, "a");
    SlideWindow(buffer, pre, "a", WindowSize);
  }

  /** Keys without "a" followed by an "a" fire exactly when the last ten of
      them, after what the buffer held, are the code. */
  lemma FeedThenA(buffer: seq<string>, pre: seq<string>)
    requires |buffer| <= WindowSize
    requires forall i :: 0 <= i < |pre| ==> pre[i] != "a"
    ensures Feed(buffer, pre + ["a"]).1 <==> LastN(buffer + (pre + ["a"]), WindowSize) == KonamiSequence
  {
    FeedWithoutA(buffer, pre);
    FeedFinalA(buffer, pre);
  }

  /** Typing the code always fires the easter egg and empties the buffer,
      whatever was typed before. */
  lemma TypingTheCodeFires(buffer: seq<string>)
    requires |buffer| <= WindowSize
    ensures Feed(buffer, KonamiSequence) == ([], true)
  {
    var pre := CodeBeforeA();
    FeedThenA(buffer, pre);
    assert LastN(buffer + KonamiSequence, WindowSize) == KonamiSequence;
  }

  /** The code is nine keys other than "a", then "a". */
  lemma CodeBeforeA() returns (pre: seq<string>)
    ensures KonamiSequence == pre + ["a"]
    ensures forall i :: 0 <= i < |pre| ==> pre[i] != "a"
  {
    pre := KonamiSequence[..9];
    assert KonamiSequence == pre + ["a"];
  }

  // ---------------------------------------------------------------------------
  // Shake detector (`handleMotion`)

  const ShakeThreshold: real := 15.0
  const ShakesPerNotice: nat := 3

  /** One reading, with missing components (`undefined` or `null`) as 0. */
  datatype Vec = Vec(x: real, y: real, z: real)

  /** `accelerationIncludingGravity`, whose components may be missing. */
  datatype Acceleration = Acceleration(x: Option<real>, y: Option<real>, z: Option<real>)

  /** The reading a motion event yields: each missing component counts as 0. */
  function Reading(a: Acceleration): (v: Vec)
    ensures v.x == (if a.x.Some? then a.x.value else 0.0)
    ensures v.y == (if a.y.Some? then a.y.value else 0.0)
    ensures v.z == (if a.z.Some? then a.z.value else 0.0)
  {
    Vec(a.x.GetOr(0.0), a.y.GetOr(0.0), a.z.GetOr(0.0))
  }

  function Abs(r: real): real {
    if r < 0.0 then -r else r
  }

  /** A shake: some axis moved by strictly more than the threshold since the
      last reading. */
  predicate IsShake(last: Vec, now: Vec)
    ensures IsShake(last, now) ==> last != now
  {
    Abs(now.x - last.x) > ShakeThreshold ||
    Abs(now.y - last.y) > ShakeThreshold ||
    Abs(now.z - last.z) > ShakeThreshold
  }

  /** The test only measures distances, so it does not depend on which of the
      two readings came first. */
  lemma IsShakeSymmetric(last: Vec, now: Vec)
    ensures IsShake(last, now) <==> IsShake(now, last)
  {
  }

  /** A reading with a component missing is judged as if that component were
      0: the shake test sees the same reading as for the event with 0 there. */
  lemma MissingComponentsReadAsZero(last: Vec, a: Acceleration)
    ensures IsShake(last, Reading(a)) ==
      IsShake(last, Reading(Acceleration(Some(a.x.GetOr(0.0)), Some(a.y.GetOr(0.0)), Some(a.z.GetOr(0.0)))))
    ensures IsShake(last, Reading(Acceleration(None, None, None))) <==>
      Abs(last.x) > ShakeThreshold || Abs(last.y) > ShakeThreshold || Abs(last.z) > ShakeThreshold
  {
  }

  /** The counter's update on a counted shake: the new count, and whether the
      feedback notice fires. From a count in 0..2 it stays in 0..2, and it
      fires exactly on the third shake. */
  function CountShake(count: nat): (r: (nat, bool))
    ensures count < ShakesPerNotice ==> r.0 < ShakesPerNotice
    ensures r.1 <==> count + 1 == ShakesPerNotice
    ensures r.1 ==> r.0 == 0
    ensures !r.1 ==> r.0 == count + 1
  {
    var next := count + 1;
    if next == ShakesPerNotice then (0, true) else (next, false)
  }

  /** The count and number of notices after `n` counted shakes. */
  function Shakes(count: nat, n: nat): (nat, nat) {
    if n == 0 then (count, 0)
    else
      var (c, notices) := Shakes(count, n - 1);
      var (c', fired) := CountShake(c);
      (c', if fired then notices + 1 else notices)
  }

  /** From a fresh counter, `n` shakes leave the count at `n mod 3` and fire
      the notice `n div 3` times: every third shake. */
  lemma {:induction false} ShakesCycle(n: nat)
    ensures Shakes(0, n) == (n % ShakesPerNotice, n / ShakesPerNotice)
  {
    if n > 0 {
      ShakesCycle(n - 1);
      var m := n - 1;
      if m % 3 == 2 {
        assert n % 3 == 0 && n / 3 == m / 3 + 1;
      } else {
        assert n % 3 == m % 3 + 1 && n / 3 == m / 3;
      }
    }
  }

  // ---------------------------------------------------------------------------
  // The shell's state

  /** The `Portfolio` component's state, together with the shake detector's
      remembered last reading (`lastX`, `lastY`, `lastZ`). */
  class Portfolio {
    var isUnlocked: bool
    var activeApp: Option<string>
    var konamiCode: seq<string>
    var shakeCount: nat
    var last: Vec

    ghost predicate Valid()
      reads this
    {
      |konamiCode| <= WindowSize && shakeCount < ShakesPerNotice
    }

    constructor ()
      ensures Valid()
      ensures !isUnlocked && activeApp == None && konamiCode == [] && shakeCount == 0
      ensures last == Vec(0.0, 0.0, 0.0)
    {
      isUnlocked, activeApp := false, None;
      konamiCode, shakeCount := [], 0;
      last := Vec(0.0, 0.0, 0.0);
    }

    /** What the device shows now. */
    function Screen(): (s: Screen)
      reads this
      ensures s == LockView <==> !isUnlocked
    {
      Render(isUnlocked, activeApp)
    }

    /** The lock screen's `onUnlock`: the only change ever made to the flag. */
    method Unlock()
      modifies this
      ensures isUnlocked
      ensures activeApp == old(activeApp) && konamiCode == old(konamiCode)
      ensures shakeCount == old(shakeCount) && last == old(last)
    {
      isUnlocked := true;
    }

    /** The home screen's `onAppClick`: remembers the id, whatever it is. */
    method OpenApp(id: string)
      modifies this
      ensures activeApp == Some(id)
      ensures isUnlocked == old(isUnlocked) && konamiCode == old(konamiCode)
      ensures shakeCount == old(shakeCount) && last == old(last)
    {
      activeApp := Some(id);
    }

    /** `closeApp`, every app's back-to-home action. */
    method CloseApp()
      modifies this
      ensures activeApp == None
      ensures isUnlocked ==> Screen() == HomeView
      ensures isUnlocked == old(isUnlocked) && konamiCode == old(konamiCode)
      ensures shakeCount == old(shakeCount) && last == old(last)
    {
      activeApp := None;
    }

    /** `handleKeyDown`: returns whether the developer-mode easter egg fires. */
    method KeyDown(key: string) returns (activated: bool)
      requires Valid()
      modifies this
      ensures Valid()
      ensures (konamiCode, activated) == KeyStep(old(konamiCode), key)
      ensures isUnlocked == old(isUnlocked) && activeApp == old(activeApp)
      ensures shakeCount == old(shakeCount) && last == old(last)
    {
      var newCode := konamiCode + [key];
      konamiCode := LastN(newCode, WindowSize);
      activated := LastN(newCode, WindowSize) == KonamiSequence;
      if activated {
        konamiCode := [];
      }
    }

    /** `handleMotion`: returns whether the shake notice fires. An event
        without acceleration data changes nothing; any other event replaces the
        remembered reading, shake or not. */
    method HandleMotion(event: Option<Acceleration>) returns (notice: bool)
      requires Valid()
      modifies this
      ensures Valid()
      ensures event == None ==> !notice && last == old(last) && shakeCount == old(shakeCount)
      ensures event.Some? ==> last == Reading(event.value)
      ensures event.Some? && IsShake(old(last), Reading(event.value)) ==>
        (shakeCount, notice) == CountShake(old(shakeCount))
      ensures event.Some? && !IsShake(old(last), Reading(event.value)) ==>
        !notice && shakeCount == old(shakeCount)
      ensures isUnlocked == old(isUnlocked) && activeApp == old(activeApp)
      ensures konamiCode == old(konamiCode)
    {
      notice := false;
      if event == None {
        return;
      }
      var now := Reading(event.value);
      if IsShake(last, now) {
        shakeCount, notice := CountShake(shakeCount).0, CountShake(shakeCount).1;
      }
      last := now;
    }

    /** The lock screen's touch end, wired to `Unlock`. */
    method LockScreenTouchEnd(screen: Lock.LockScreen)
      modifies this, screen
      ensures isUnlocked <==> old(isUnlocked) || Lock.Unlocks(old(screen.touchStart), old(screen.touchEnd))
      ensures screen.swipeProgress == 0.0
      ensures activeApp == old(activeApp) && konamiCode == old(konamiCode)
      ensures shakeCount == old(shakeCount) && last == old(last)
      ensures screen.touchStart == old(screen.touchStart) && screen.touchEnd == old(screen.touchEnd)
    {
      var unlock := screen.HandleTouchEnd();
      if unlock {
        Unlock();
      }
    }

    /** The lock screen's click, wired to `Unlock`. */
    method LockScreenClick(screen: Lock.LockScreen)
      modifies this
      ensures isUnlocked
      ensures activeApp == old(activeApp) && konamiCode == old(konamiCode)
      ensures shakeCount == old(shakeCount) && last == old(last)
    {
      var unlock := screen.HandleClick();
      if unlock {
        Unlock();
      }
    }
  }
}
