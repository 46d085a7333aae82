/** The Photos app (components/apps/photos-app.tsx): an albums view with four
    albums and a grid of recent photos, and a photos view showing the list that
    belongs to the selected album. */
module Photos {
  import opened Optional

  datatype PhotoView = Albums | PhotoGrid

  datatype Photo = Photo(id: int, url: string)

  datatype Album = Album(id: string, name: string, count: nat)

  /** The four albums, in display order. Opening one selects it by its name. */
  const PhotoAlbums: seq<Album> := [
    Album("personal", "Personal", 12),
    Album("projects", "Projects", 89),
    Album("travel", "Travel", 234),
    Album("designs", "Designs", 156)
  ]

  const PersonalPhotos: seq<Photo> := [
    Photo(1, "/professional-portrait.jpg"),
    Photo(2, "/professional-portrait.png"),
    Photo(3, "/placeholder-user.jpg"),
    Photo(4, "/beautiful-mountain-landscape.png"),
    Photo(5, "/web-development-coding-screen.png"),
    Photo(6, "/ui-ux-design-mockup.png"),
    Photo(7, "/task-management-dashboard.png"),
    Photo(8, "/ecommerce-product-grid.png"),
    Photo(9, "/ai-chat-interface.png"),
    Photo(10, "/team-analytics-chart.jpg"),
    Photo(11, "/project-kanban-board.jpg"),
    Photo(12, "/ai-settings-panel.jpg")
  ]

  /** The literal list indexed by the projects table builder. */
  const ProjectUrls: seq<string> := [
    "/web-development-coding-screen.png",
    "/ui-ux-design-mockup.png",
    "/task-management-dashboard.png",
    "/ecommerce-product-grid.png",
    "/ai-chat-interface.png",
    "/team-analytics-chart.jpg",
    "/project-kanban-board.jpg",
    "/ai-settings-panel.jpg",
    "/shopping-cart-checkout.jpg",
    "/order-dashboard.jpg",
    "/chatbot-conversation.jpg",
    "/placeholder.jpg"
  ]

  /** The literal list of search terms indexed by the recent table builder. */
  const RecentQueries: seq<string> := [
    "professional+workspace", "coding+laptop", "design+sketch", "team+meeting",
    "coffee+workspace", "sunset+city", "modern+architecture", "creative+tools",
    "nature+hiking", "tech+conference", "portfolio+work", "startup+office"
  ]

  const TableLength: nat := 12
  const Placeholder: string := "/placeholder.svg"
  const RecentPrefix: string := "/placeholder.svg?height=400&width=400&query="

  /** `Array.from({ length: n }, (_, i) => ({ id: i, url: urls[i] || fallback }))`:
      entry `i` has id `i` and the url at index `i` of the list; the fallback
      replaces only a falsy url, that is an empty one or one past the list's end. */
  function UrlTable(urls: seq<string>, n: nat, fallback: string): (t: seq<Photo>)
    ensures |t| == n
    ensures forall i :: 0 <= i < n ==> t[i].id == i
    ensures forall i :: 0 <= i < n && i < |urls| && urls[i] != "" ==> t[i].url == urls[i]
    ensures forall i :: 0 <= i < n && (|urls| <= i || urls[i] == "") ==> t[i].url == fallback
  {
    seq(n, i requires 0 <= i => Photo(i, if i < |urls| && urls[i] != "" then urls[i] else fallback))
  }

  /** The projects table: twelve entries, every one taking its url from the
      literal list, which is twelve long and has no empty entry. */
  function ProjectsPhotos(): (t: seq<Photo>)
    ensures |t| == TableLength
    ensures forall i :: 0 <= i < TableLength ==> t[i] == Photo(i, ProjectUrls[i])
  {
    assert forall i :: 0 <= i < |ProjectUrls| ==> ProjectUrls[i] != "";
    UrlTable(ProjectUrls, TableLength, Placeholder)
  }

  /** The recent table: id `i` and a placeholder url whose query is the `i`th
      search term (a template literal writes "undefined" past the list's end,
      which twelve entries never reach). */
  function RecentPhotos(): (t: seq<Photo>)
    ensures |t| == TableLength
    ensures forall i :: 0 <= i < TableLength ==> t[i] == Photo(i, RecentPrefix + RecentQueries[i])
  {
    seq(TableLength, i requires 0 <= i =>
      Photo(i, RecentPrefix + (if i < |RecentQueries| then RecentQueries[i] else "undefined")))
  }

  /** `getAlbumPhotos`: the list for the selected album name. Only "Personal"
      and "Projects" have their own list; every other name gets the recent one. */
  function AlbumPhotos(selected: Option<string>): (photos: seq<Photo>)
    ensures |photos| == TableLength
    ensures selected == Some("Personal") ==> photos == PersonalPhotos
    ensures selected == Some("Projects") ==> photos == ProjectsPhotos()
    ensures selected != Some("Personal") && selected != Some("Projects") ==> photos == RecentPhotos()
  {
    match selected
    case Some("Personal") => PersonalPhotos
    case Some("Projects") => ProjectsPhotos()
    case _ => RecentPhotos()
  }

  /** The three lists differ, so the list shown tells which rule chose it: the
      personal list exactly for "Personal", the projects list exactly for
      "Projects", and the recent list for every other selection. */
  lemma AlbumPhotosIff(selected: Option<string>)
    ensures AlbumPhotos(selected) == PersonalPhotos <==> selected == Some("Personal")
    ensures AlbumPhotos(selected) == ProjectsPhotos() <==> selected == Some("Projects")
    ensures AlbumPhotos(selected) == RecentPhotos() <==>
      selected != Some("Personal") && selected != Some("Projects")
  {
    var personal, projects, recent := PersonalPhotos, ProjectsPhotos(), RecentPhotos();
    assert personal[0].id == 1 && projects[0].id == 0 && recent[0].id == 0;
    assert (RecentPrefix + RecentQueries[0])[1] == RecentPrefix[1] == 'p';
    assert projects[0].url[1] != recent[0].url[1];
  }

  /** Opening each album in turn: Personal and Projects show their own lists,
      Travel and Designs fall through to the recent list. */
  lemma AlbumsOpenTo()
    ensures AlbumPhotos(Some(PhotoAlbums[0].name)) == PersonalPhotos
    ensures AlbumPhotos(Some(PhotoAlbums[1].name)) == ProjectsPhotos()
    ensures AlbumPhotos(Some(PhotoAlbums[2].name)) == RecentPhotos()
    ensures AlbumPhotos(Some(PhotoAlbums[3].name)) == RecentPhotos()
  {
  }

  /** `currentPhotos`: the album's list in the photos view, the recent list in
      the albums view. */
  function CurrentPhotos(view: PhotoView, selected: Option<string>): (photos: seq<Photo>)
    ensures view == Albums ==> photos == RecentPhotos()
  {
    if view == PhotoGrid then AlbumPhotos(selected) else RecentPhotos()
  }

  /** The app's two state variables, `view` and `selectedAlbum`. */
  class PhotosApp {
    var view: PhotoView
    var selectedAlbum: Option<string>

    /** The albums view is shown exactly when no album is selected. */
    ghost predicate Valid()
      reads this
    {
      view == Albums <==> selectedAlbum == None
    }

    constructor ()
      ensures Valid()
      ensures view == Albums && selectedAlbum == None
    {
      view, selectedAlbum := Albums, None;
    }

    /** `openAlbum`. */
    method OpenAlbum(name: string)
      modifies this
      ensures Valid()
      ensures view == PhotoGrid && selectedAlbum == Some(name)
    {
      selectedAlbum := Some(name);
      view := PhotoGrid;
    }

    /** `backToAlbums`. */
    method BackToAlbums()
      modifies this
      ensures Valid()
      ensures view == Albums && selectedAlbum == None
    {
      view := Albums;
      selectedAlbum := None;
    }

    /** The header's back button: back to the albums from the photos view,
        otherwise close the app (returns whether `onClose` is called). */
    method HandleBack() returns (close: bool)
      requires Valid()
      modifies this
      ensures Valid()
      ensures close <==> old(view) == Albums
      ensures view == Albums && selectedAlbum == None
    {
      if view == PhotoGrid {
        BackToAlbums();
        close := false;
      } else {
        close := true;
      }
    }

    /** The header title: "Photos" in the albums view, else the album's name. */
    function Title(): (t: string)
      reads this
      ensures view == Albums ==> t == "Photos"
      ensures view == PhotoGrid && selectedAlbum.Some? ==> t == selectedAlbum.value
    {
      if view == Albums then "Photos" else selectedAlbum.GetOr("")
    }

    /** The photos on screen. */
    function Shown(): (photos: seq<Photo>)
      reads this
      ensures view == Albums ==> photos == RecentPhotos()
      ensures view == PhotoGrid ==> photos == AlbumPhotos(selectedAlbum)
    {
      CurrentPhotos(view, selectedAlbum)
    }
  }

  /** Opening an album and going back ends in the albums view with nothing
      selected, without closing the app. */
  method OpenThenBack(app: PhotosApp, name: string) returns (close: bool)
    modifies app
    ensures !close && app.view == Albums && app.selectedAlbum == None
    ensures app.Title() == "Photos"
  {
    app.OpenAlbum(name);
    assert app.Title() == name;
    close := app.HandleBack();
  }
}
