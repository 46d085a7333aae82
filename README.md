# Phone-shell portfolio: a verified model of its view state machines

The portfolio site is a simulated phone. It has a lock screen, a home screen of
app icons, and a handful of apps. This project models the state logic behind that
interface in Dafny and proves what it promises:

- **Shell** (`app/page.tsx`): the lock flag, the open-app dispatch, a Konami-code
  detector over the last ten keys, and a shake detector over device-motion readings.
- **Lock** (`components/iphone/lock-screen.tsx`): the swipe-to-unlock gesture, the
  progress clamp, the opacity and bar-width expressions, the signal meter, and the
  placeholders shown before the clock's first reading.
- **Music** (`components/apps/music-app.tsx`): the `m:ss` time formatter, the
  play/pause flag, the slider position and the library/player view.
- **Photos** (`components/apps/photos-app.tsx`): the albums/photos view machine,
  the album-to-list mapping and the two generated twelve-entry tables.
- **Icons** (`components/iphone/app-icon.tsx`): the pressed/wiggling machine of one
  app icon. A click while wiggling stops the wiggle instead of opening the app.
- **Home** (`components/iphone/home-screen.tsx`): the greeting chosen by the hour,
  the twelve-icon app table and the dock.
- **Notes** (`components/apps/notes-app.tsx`): note selection and the lookups into
  the two parallel note tables.
- **Optional**: the `Option` type, standing for `T | null` and for `undefined`.

Each component that keeps React state is a class. Its fields are the state
variables and its methods are the event handlers, with `modifies` clauses. A
handler that calls a callback prop (`onUnlock`, `onClick`, `onClose`) returns a
boolean that says whether the callback is called. The rules the handlers follow are
also pure functions: `KeyStep`, `CountShake`, `Icons.Step`, `SwipeProgress`,
`FormatTime`, `AlbumPhotos` and `DetailFor`. Lemmas over whole event sequences are
stated about these functions.

Main results:
- Typing the Konami code always fires the easter egg and empties the buffer,
  whatever was typed before. It fires exactly when the key is `a` and the nine keys
  before it are the rest of the code.
- After `n` counted shakes from a fresh counter, the count is `n mod 3` and the
  notice has fired `n div 3` times.
- `FormatTime` round-trips: parsing its output gives back the number of seconds.
  The seconds field always has exactly two digits.
- An icon wiggles exactly when there has been a long press since the last click.
  So a click opens the app exactly when no long press came after the previous click.
- `renderApp` opens an app only for that app's own id. Every app has an icon on the
  grid. The four grid icons with no app behind them leave the home screen showing.

## Model

| member | source | states |
|---|---|---|
| Shell.AppOf | app/page.tsx:129-149 | an id opens an app only if it is that app's id; every other id opens none |
| Shell.AppOfAppId | app/page.tsx:129-146 | each of the eight apps is opened by its own id |
| Shell.Render | app/page.tsx:129-150 | the lock view exactly while locked; once unlocked, the home view exactly when no app is open or the id names no app; otherwise the app whose id is active |
| Shell.GridOpensApps | app/page.tsx:129-149 | a grid icon leaves the home screen showing iff its id is camera, mail, maps or calendar; the other eight open their app |
| Shell.GridIdOpens | app/page.tsx:129-149 | among the grid ids, `renderApp` finds no app exactly for the four unbacked ones |
| Shell.EveryAppOnGrid | app/page.tsx:129-146 | every app the shell can open has an icon on the grid |
| Shell.DockOpensApps | app/page.tsx:129-146 | each of the four dock icons opens an app |
| Shell.LastN | app/page.tsx:43 | `newCode.slice(-10)`: the last min(10, length) keys, the whole buffer when it is shorter (for any n ≥ 1, the last min(n, length) elements) |
| Shell.KeyStep | app/page.tsx:41-65 | after a key the buffer holds at most ten keys; when the code does not match it is the last ten keys typed, and firing empties it and happens only on the key "a" |
| Shell.KeyStepFiresIff | app/page.tsx:45 | the easter egg fires iff the key is "a" and the nine buffered keys before it are the rest of the code, compared case-sensitively |
| Shell.FeedWithoutA | app/page.tsx:42-43 | a run of keys without "a" leaves exactly the last ten keys typed in the buffer |
| Shell.FeedThenA | app/page.tsx:42-45 | keys without "a" followed by "a" fire iff the last ten keys typed are the code |
| Shell.TypingTheCodeFires | app/page.tsx:27-45 | typing the ten-key code from any reachable buffer fires on the last key and leaves the buffer empty |
| Shell.CodeBeforeA | app/page.tsx:27-38 | the code is nine keys other than "a", then "a" |
| Shell.Reading | app/page.tsx:83-86 | each component of the reading is the event's value, or 0 when it is missing |
| Shell.IsShake | app/page.tsx:84-88 | a shake needs the reading to have moved: an unchanged reading is never a shake |
| Shell.IsShakeSymmetric | app/page.tsx:84-88 | the test compares absolute differences, so swapping the two readings gives the same verdict |
| Shell.MissingComponentsReadAsZero | app/page.tsx:83-88 | each missing acceleration component is judged as 0 in the shake test, alone or with others missing; with all three missing, a shake means the last reading had an axis beyond 15 |
| Shell.CountShake | app/page.tsx:89-98 | the counter stays in 0..2; the notice fires iff this is the third shake, and then the count resets to 0 |
| Shell.ShakesCycle | app/page.tsx:88-99 | after n counted shakes from 0 the count is n mod 3 and the notice has fired n div 3 times |
| Shell.Portfolio.constructor | app/page.tsx:19-23 | the shell starts locked, with no app open, an empty key buffer, a zero shake count and a zero last reading |
| Shell.Portfolio.Screen | app/page.tsx:184 | the lock screen shows exactly while locked |
| Shell.Portfolio.Unlock | app/page.tsx:184 | `onUnlock` sets the flag and changes nothing else; no method ever clears it |
| Shell.Portfolio.OpenApp | app/page.tsx:148 | the home screen's `onAppClick` stores whatever id it is given |
| Shell.Portfolio.CloseApp | app/page.tsx:125-127 | `closeApp` clears the active app, which shows the home screen when unlocked |
| Shell.Portfolio.KeyDown | app/page.tsx:41-66 | the new buffer and the verdict are those of `KeyStep`; the buffer never exceeds ten keys |
| Shell.Portfolio.HandleMotion | app/page.tsx:80-105 | no data changes nothing; otherwise the last reading is replaced, and a shake (some axis moved strictly more than 15) advances the counter as `CountShake` does |
| Shell.Portfolio.LockScreenTouchEnd | app/page.tsx:184 | the shell becomes unlocked iff it was already or the gesture travelled more than 50 pixels up; the screen's touch positions stay as they were and its progress returns to 0 |
| Shell.Portfolio.LockScreenClick | app/page.tsx:184 | a click on the lock screen always unlocks the shell |
| Lock.SwipeProgress | components/iphone/lock-screen.tsx:32 | progress is half the upward distance, clamped to [0, 100] |
| Lock.Unlocks | components/iphone/lock-screen.tsx:37 | a swipe unlocks only if the finger went up, and never when it went 50 pixels or less |
| Lock.UnlocksIffProgressPastQuarter | components/iphone/lock-screen.tsx:37 | a swipe whose last move was at y unlocks iff the progress shown at that move exceeded 25 |
| Lock.Opacity | components/iphone/lock-screen.tsx:73 | opacity lies in [0, 1]: 1 exactly at no progress, 0 exactly at full progress |
| Lock.IndicatorWidth | components/iphone/lock-screen.tsx:114 | the unlock bar is 48 to 98 pixels wide, 48 exactly at no progress |
| Lock.SignalBars | components/iphone/lock-screen.tsx:88-91 | four bars; bar i is lit iff i is below the strength |
| Lock.SignalBarsLit | components/iphone/lock-screen.tsx:88-91 | the number of lit bars is the strength clamped to [0, 4]; the default strength of 4 lights all four |
| Lock.ClockText | components/iphone/lock-screen.tsx:47-57 | with no clock reading yet the time field shows "00:00" and the date field "Loading..."; otherwise the formatted reading |
| Lock.LockScreen.constructor | components/iphone/lock-screen.tsx:14-18 | touch start, touch end and progress start at 0; the signal strength defaults to 4 |
| Lock.LockScreen.HandleTouchStart | components/iphone/lock-screen.tsx:26-28 | touch start records only where the touch began |
| Lock.LockScreen.HandleTouchMove | components/iphone/lock-screen.tsx:30-34 | a move records its position and shows the clamped progress |
| Lock.LockScreen.HandleTouchEnd | components/iphone/lock-screen.tsx:36-41 | touch end unlocks iff start minus last move exceeds 50, strictly; progress returns to 0 either way |
| Lock.LockScreen.HandleClick | components/iphone/lock-screen.tsx:43-45 | a click always unlocks |
| Lock.LockScreen.Appearance | components/iphone/lock-screen.tsx:73 | opacity in [0, 1] and bar width in [48, 98] in every reachable state |
| Lock.Swipe | components/iphone/lock-screen.tsx:26-41 | a start, one move and an end unlock iff the finger went more than 50 pixels up, leave the progress at 0 and record the start and end positions |
| Lock.TouchWithoutMove | components/iphone/lock-screen.tsx:36-41 | a touch that ends without moving is judged against the last move of an earlier touch (0 at first) |
| Music.NatToString | components/apps/music-app.tsx:53 | `toString` of a whole number gives decimal digits with no leading zero |
| Music.DigitsValueOfNatToString | components/apps/music-app.tsx:53 | reading those digits back gives the number |
| Music.PadStart | components/apps/music-app.tsx:53 | `padStart` keeps the string as its suffix and fills up to the width with the pad character |
| Music.FormatTime | components/apps/music-app.tsx:50-54 | the label is digits, a colon, then exactly two digits |
| Music.SecondsFieldValue | components/apps/music-app.tsx:52-53 | the padded seconds field denotes the seconds modulo 60 |
| Music.ParseJoined | components/apps/music-app.tsx:53 | a label made of minutes digits, a colon and a two-digit field below 60 reads back as minutes times 60 plus seconds |
| Music.FormatTimeRoundTrip | components/apps/music-app.tsx:50-54 | minutes times 60 plus the seconds field recovers the input |
| Music.FormatTimeInjective | components/apps/music-app.tsx:50-54 | two positions with the same label are equal |
| Music.MinutesNoLeadingZero | components/apps/music-app.tsx:51-53 | the minutes field has no leading zero: a label starts with "0" exactly when the position is under a minute, and then the minutes field is the single digit "0" |
| Music.KnownLabels | components/apps/music-app.tsx:41 | the duration 245 shows as "4:05", the start position 67 as "1:07" |
| Music.MusicPlayer.constructor | components/apps/music-app.tsx:46-48 | the player starts paused, at 67 seconds, in the library view |
| Music.MusicPlayer.TogglePlay | components/apps/music-app.tsx:111 | play/pause negates the playing flag and changes nothing else |
| Music.MusicPlayer.Seek | components/apps/music-app.tsx:92-95 | the slider sets the position, which stays within the duration |
| Music.MusicPlayer.OpenPlayer | components/apps/music-app.tsx:145 | a playlist or recently-played click switches to the player view |
| Music.MusicPlayer.BackToLibrary | components/apps/music-app.tsx:61 | the player's back button returns to the library |
| Music.MusicPlayer.ProgressLabels | components/apps/music-app.tsx:99-100 | both slider labels read back as the position and the duration |
| Music.ToggleTwice | components/apps/music-app.tsx:111 | toggling twice restores the playing flag |
| Photos.UrlTable | components/apps/photos-app.tsx:57-73 | entry i has id i and the list's url i; the fallback replaces only an empty url or one past the list's end |
| Photos.ProjectsPhotos | components/apps/photos-app.tsx:57-73 | twelve entries, each taking its url from the literal list; the fallback never applies |
| Photos.RecentPhotos | components/apps/photos-app.tsx:75-93 | twelve entries with id i and a placeholder url querying the i-th search term |
| Photos.AlbumPhotos | components/apps/photos-app.tsx:110-119 | every album list has twelve photos; "Personal" and "Projects" get their own list, every other selection the recent list |
| Photos.AlbumPhotosIff | components/apps/photos-app.tsx:110-119 | the personal list iff "Personal", the projects list iff "Projects", the recent list for every other selection |
| Photos.AlbumsOpenTo | components/apps/photos-app.tsx:152 | opening Personal and Projects shows their own lists; Travel and Designs fall through to the recent list |
| Photos.CurrentPhotos | components/apps/photos-app.tsx:121 | the albums view always shows the recent list |
| Photos.PhotosApp.constructor | components/apps/photos-app.tsx:96-97 | the app starts in the albums view with no album selected |
| Photos.PhotosApp.OpenAlbum | components/apps/photos-app.tsx:99-102 | opening an album selects its name and shows the photos view, keeping "albums view iff nothing selected" |
| Photos.PhotosApp.BackToAlbums | components/apps/photos-app.tsx:104-107 | going back shows the albums view and clears the selection |
| Photos.PhotosApp.HandleBack | components/apps/photos-app.tsx:127 | the back button returns to the albums from the photos view and closes the app from the albums view |
| Photos.PhotosApp.Title | components/apps/photos-app.tsx:131 | the title is "Photos" in the albums view, else the selected album's name |
| Photos.PhotosApp.Shown | components/apps/photos-app.tsx:121 | the recent list in the albums view, the album's list in the photos view |
| Photos.OpenThenBack | components/apps/photos-app.tsx:99-107 | opening an album and pressing back ends in the albums view with nothing selected and the title "Photos", without closing the app |
| Icons.WigglingIffLongPressSinceLastClick | components/iphone/app-icon.tsx:20-34 | from the initial state, the icon wiggles iff a long press happened since the last click |
| Icons.ClickOpensIff | components/iphone/app-icon.tsx:28-34 | a click invokes `onClick` iff no long press happened since the last click; no icon wiggles after a click |
| Icons.LongPressIdempotent | components/iphone/app-icon.tsx:20-21 | a repeated long press changes nothing |
| Icons.AppIcon.constructor | components/iphone/app-icon.tsx:16-18 | the icon starts neither pressed nor wiggling; `showLabel` defaults to true |
| Icons.Step | components/iphone/app-icon.tsx:20-46 | `onClick` runs only on a click while not wiggling; wiggling starts on a long press and stops only on a click; pressed is set by down and cleared only by up |
| Icons.AppIcon.HandleClick | components/iphone/app-icon.tsx:28-34 | a click invokes `onClick` iff not wiggling, and leaves the icon not wiggling |
| Icons.AppIcon.HandleLongPress | components/iphone/app-icon.tsx:20-26 | a long press makes the icon wiggle |
| Icons.AppIcon.PressDown | components/iphone/app-icon.tsx:39-42 | mouse or touch down sets pressed |
| Icons.AppIcon.PressUp | components/iphone/app-icon.tsx:39-42 | mouse or touch up clears pressed |
| Icons.AppIcon.CloseGlyphShown | components/iphone/app-icon.tsx:66-70 | the close glyph shows exactly while the icon wiggles |
| Icons.AppIcon.BadgeShown | components/iphone/app-icon.tsx:60-64 | the badge bubble shows only for a given badge, never for 0, and always for a non-zero one |
| Icons.AppIcon.LabelShown | components/iphone/app-icon.tsx:73-77 | the name label shows exactly when `showLabel` is set, which it is by default |
| Icons.LongPressThenTwoClicks | components/iphone/app-icon.tsx:28-34 | after a long press the first click only stops the wiggle and hides the close glyph; the second opens the app |
| Home.GreetingFor | components/iphone/home-screen.tsx:63-68 | morning iff the hour is below 12, afternoon iff 12 to 17, evening iff 18 or later |
| Home.Greeting.Text | components/iphone/home-screen.tsx:65-67 | every greeting starts with "Good " |
| Home.GreetingTextsDistinct | components/iphone/home-screen.tsx:65-67 | the three greeting texts differ, so every hour shows exactly one |
| Home.AppIdsDistinct | components/iphone/home-screen.tsx:34-61 | the app table has twelve entries with distinct ids |
| Home.GridClick | components/iphone/home-screen.tsx:96 | a grid click forwards that entry's id, which no other entry has |
| Home.DockIdsInTable | components/iphone/home-screen.tsx:108-136 | every dock id is also an id of the app table |
| Notes.Find | components/apps/notes-app.tsx:157 | `find` returns the first note with the id, and nothing iff no note has it |
| Notes.Content | components/apps/notes-app.tsx:158 | a text exists exactly for ids 1 to 5, and it is that id's entry of the content table |
| Notes.NoteIds | components/apps/notes-app.tsx:12-50 | five notes with ids 1 to 5 in order, so distinct and non-zero |
| Notes.TablesParallel | components/apps/notes-app.tsx:52-151 | the content table has exactly the ids of the notes list |
| Notes.DetailFor | components/apps/notes-app.tsx:156 | the detail view shows iff the selection is set and non-zero |
| Notes.ListedNoteResolves | components/apps/notes-app.tsx:157-158 | selecting a listed note shows that note's record and its own text |
| Notes.NotesApp.constructor | components/apps/notes-app.tsx:154 | nothing is selected at first, so the list shows |
| Notes.NotesApp.Select | components/apps/notes-app.tsx:230 | clicking a note selects its id |
| Notes.NotesApp.Back | components/apps/notes-app.tsx:164 | the back button clears the selection and returns to the list |
| Notes.NotesApp.Detail | components/apps/notes-app.tsx:156-158 | the detail view shows iff the selection is truthy |
| Notes.ClickNote | components/apps/notes-app.tsx:230 | clicking the k-th note opens the detail view of that note |

## Left out

- Rendering and styling are not modelled: JSX markup, CSS classes, animations, the
  Tailwind gradients, and the unlock bar's background alpha `0.7 + progress/200`.
- The floating particles of `app/page.tsx` are not modelled. They use `Math.random` and floats.
- Toasts, `console.log` output, the delayed welcome toast and `navigator.vibrate` are
  side effects. A method returns a boolean where the source would fire one
  (`activated`, `notice`, `unlock`, `invoked`).
- Listener registration (`addEventListener`) is not modelled. The handlers are
  methods called directly.
- Clocks (`setInterval`, `new Date()`) and locale formatting are not modelled.
  `Lock.ClockText` takes the already formatted text as input, and
  the greeting takes the hour as input.
- Shell.Portfolio.KeyDown: models each key press as seeing the buffer left by the
  previous one. The source's handler reads the buffer captured at the last render,
  so two key events between renders would both see the same buffer.
- JavaScript numbers are floats. Touch coordinates and accelerations are `real`, so
  rounding is not modelled. Playback positions are `nat`, because the slider moves in
  whole-second steps. The signal strength is an `int`.
- Music.MusicPlayer.Seek: requires the value to lie in [0, 245]. The slider library
  that enforces this is not part of this model.
- The lock screen reads only the first touch point (`touches[0]`), so multi-touch is
  not modelled.
- The dark-mode flag (`isDarkMode`, `setIsDarkMode`) is not modelled. It is only
  passed down, and is set by the frame and the settings app, which are not part of
  this model.
- Only the opening line of each note text in `noteContent` is kept. Each text is
  static prose and is only displayed. The notes' `preview` strings are left out too.
- The playlists' names, descriptions, covers and track counts are left out. Every
  playlist click does the same thing.
- The album thumbnails are left out. The albums' photo counts are kept as data, but
  no lemma relates them to the lists shown.
- The icon's badge bubble shows for a given non-zero badge (`badge && …`). React
  would render a badge of 0 as the text "0", and that case is not modelled.
- The other files are not part of this model: the settings, Safari, messages, phone
  and App Store apps, the frame, the status bar and the layout. They are static
  content or thin wrappers.
