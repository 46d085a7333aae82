/** The home screen (components/iphone/home-screen.tsx): a greeting chosen by
    the hour, a grid of twelve app icons and a dock of four, each forwarding an
    app id to the shell. */
module Home {
  import opened Optional

  datatype Greeting = Morning | Afternoon | Evening {
    function Text(): (t: string)
      ensures |t| > 5 && t[..5] == "Good "
    {
      match this
      case Morning => "Good Morning"
      case Afternoon => "Good Afternoon"
      case Evening => "Good Evening"
    }
  }

  /** `getGreeting`, with the clock's hour as input: before noon is morning,
      before six in the evening is afternoon, and everything later is evening. */
  function GreetingFor(hour: int): (g: Greeting)
    ensures g == Morning <==> hour < 12
    ensures g == Afternoon <==> 12 <= hour < 18
    ensures g == Evening <==> 18 <= hour
  {
    if hour < 12 then Morning
    else if hour < 18 then Afternoon
    else Evening
  }

  /** The three greetings are told apart by their text, so every hour shows
      exactly one of them. */
  lemma GreetingTextsDistinct(g1: Greeting, g2: Greeting)
    ensures g1.Text() == g2.Text() <==> g1 == g2
  {
    if g1 != g2 {
      assert g1.Text()[5] != g2.Text()[5];
    }
  }

  /** One icon of the grid: the id it forwards, its label and its badge count. */
  datatype AppEntry = AppEntry(id: string, name: string, badge: Option<nat>)

  /** The `apps` table, in grid order. */
  const Apps: seq<AppEntry> := [
    AppEntry("photos", "Photos", None),
    AppEntry("camera", "Camera", None),
    AppEntry("phone", "Phone", None),
    AppEntry("messages", "Messages", Some(3)),
    AppEntry("mail", "Mail", Some(12)),
    AppEntry("safari", "Safari", None),
    AppEntry("maps", "Maps", None),
    AppEntry("calendar", "Calendar", None),
    AppEntry("notes", "Notes", None),
    AppEntry("music", "Music", None),
    AppEntry("appstore", "App Store", Some(1)),
    AppEntry("settings", "Settings", None)
  ]

  /** The ids the four dock icons forward, left to right. */
  const DockIds: seq<string> := ["phone", "safari", "messages", "music"]

  function AppIds(): (ids: seq<string>)
    ensures |ids| == |Apps|
    ensures forall i :: 0 <= i < |Apps| ==> ids[i] == Apps[i].id
  {
    seq(|Apps|, i requires 0 <= i < |Apps| => Apps[i].id)
  }

  /** The grid has twelve icons and no two forward the same id (the ids are
      also the React keys of the grid). */
  lemma AppIdsDistinct()
    ensures |Apps| == 12
    ensures forall i, j :: 0 <= i < j < |Apps| ==> Apps[i].id != Apps[j].id
  {
    var ids := AppIds();
    assert ids == ["photos", "camera", "phone", "messages", "mail", "safari",
                   "maps", "calendar", "notes", "music", "appstore", "settings"];
  }

  /** A click on grid icon `index` forwards that entry's id. */
  function GridClick(index: nat): (id: string)
    requires index < |Apps|
    ensures id in AppIds()
    ensures forall j :: 0 <= j < |Apps| && Apps[j].id == id ==> j == index
  {
    AppIdsDistinct();
    Apps[index].id
  }

  /** Every dock icon forwards an id that also has an icon on the grid. */
  lemma DockIdsInTable()
    ensures forall d :: d in DockIds ==> d in AppIds()
  {
    var ids := AppIds();
    assert ids[2] == "phone" && ids[5] == "safari" && ids[3] == "messages" && ids[9] == "music";
  }
}
