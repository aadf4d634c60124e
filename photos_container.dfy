/** The photo browser container: six pieces of hook state changed by the scroll
    and search handlers, by the completions of the page and search fetches and
    by the modal handlers. Fetches, the throttled scroll listener and the
    debounced search are outside events; each handler is the change of state
    that one such event makes. */
module PhotosContainer {
  import opened JsValues
  import opened PhotosView

  /** `isLoading`: initially `[]` (an empty array, which is truthy), later a boolean. */
  datatype LoadingFlag = InitialEmptyArray | Flag(on: bool)

  predicate LoadingTruthy(f: LoadingFlag) {
    f.InitialEmptyArray? || f.on
  }

  /** How a fetch chain ends: the parsed body, or a rejection (network error or
      a body that is not JSON). */
  datatype FetchOutcome = Fetched(list: PhotoList) | FetchFailed

  /** A request the container issues; the base URLs come from the configuration. */
  datatype Request = Request(url: string)

  const PageUrlSuffix := "&format=json&nojsoncallback=1"
  const PageQuery := "&per_page=10&page="
  const SearchQuery := "&per_page=10&text="

  /** `${getPhotosURL}&per_page=10&page=${page}&format=json&nojsoncallback=1`:
      ten photos per page, and the page parameter reads back as the page. */
  function PageUrl(base: string, page: int): (u: string)
    ensures |u| >= |base| + |PageQuery| + |PageUrlSuffix|
    ensures u[..|base| + |PageQuery|] == base + PageQuery
    ensures u[|u| - |PageUrlSuffix|..] == PageUrlSuffix
    ensures StringToNumber(u[|base| + |PageQuery|..|u| - |PageUrlSuffix|]) == Finite(page)
  {
    var u := base + PageQuery + IntString(page) + PageUrlSuffix;
    assert u[|base| + |PageQuery|..|u| - |PageUrlSuffix|] == IntString(page);
    NumberOfIntString(page);
    u
  }

  /** `${searchPhotosURL}&per_page=10&text=${searchTerm}&format=json&nojsoncallback=1`;
      the term is inserted as typed, without escaping. */
  function SearchUrl(base: string, term: string): (u: string)
    ensures |u| == |base| + |SearchQuery| + |term| + |PageUrlSuffix|
    ensures u[..|base| + |SearchQuery|] == base + SearchQuery
    ensures u[|base| + |SearchQuery|..|u| - |PageUrlSuffix|] == term
    ensures u[|u| - |PageUrlSuffix|..] == PageUrlSuffix
  {
    base + SearchQuery + term + PageUrlSuffix
  }

  /** Different pages are requested with different URLs. */
  lemma PageUrlsDiffer(base: string, p: int, q: int)
    requires p != q
    ensures PageUrl(base, p) != PageUrl(base, q)
  {
    IntStringInjective(p, q);
    var prefix := base + PageQuery;
    var u, v := PageUrl(base, p), PageUrl(base, q);
    if |IntString(p)| == |IntString(q)| {
      assert u[|prefix|..|prefix| + |IntString(p)|] == IntString(p);
      assert v[|prefix|..|prefix| + |IntString(q)|] == IntString(q);
    } else {
      assert |u| != |v|;
    }
  }

  // ---------------------------------------------------------------------------
  // The state and the events that change it

  datatype State = State(
    photos: PhotoList,
    isLoading: LoadingFlag,
    searchTerm: string,
    isOpen: bool,
    page: int,
    photoClickData: ClickData)

  /** The initial hook values: `[]`, `[]`, `''`, `false`, `1`, `[]`. */
  const Initial := State(PhotoList(None), InitialEmptyArray, "", false, 1, NoClick)

  datatype Event =
    | Scroll(hasRef: bool, nearBottom: bool)   // the throttled `handleScroll` runs
    | PageEffects                              // the two `[page]` effects run
    | PageFetched(outcome: FetchOutcome)       // the first effect's fetch ends
    | SecondPageFetched(outcome: FetchOutcome) // the second effect's fetch ends
    | Typed(value: string)                     // `handleSearch` on an input event
    | SearchFired(term: string)                // the debounced search callback runs
    | SearchFetched(outcome: FetchOutcome)     // the search fetch ends
    | PhotoClicked(data: Photo)                // `photoClickHandler`
    | ModalClosed                              // `handleModalClose`

  /** The state after one event. Only a bumping scroll moves the page, and by
      one; only a click touches the click data; every event keeps `Valid`. */
  function Step(s: State, e: Event): (r: State)
    ensures r.page == (if e.Scroll? && e.hasRef && e.nearBottom then s.page + 1 else s.page)
    ensures !e.PhotoClicked? ==> r.photoClickData == s.photoClickData
    ensures Valid(s) ==> Valid(r)
  {
    match e
    case Scroll(hasRef, nearBottom) => if hasRef && nearBottom then s.(page := s.page + 1) else s
    case PageEffects => s.(isLoading := Flag(true))
    case PageFetched(o) =>
      if o.Fetched? then s.(photos := o.list, isLoading := Flag(false)) else s.(isLoading := Flag(false))
    case SecondPageFetched(o) => if o.Fetched? then s.(photos := o.list) else s
    case Typed(value) => s.(searchTerm := value)
    case SearchFired(_) => s.(isLoading := Flag(true))
    case SearchFetched(o) => if o.Fetched? then s.(photos := o.list, isLoading := Flag(false)) else s
    case PhotoClicked(data) => s.(isOpen := !s.isOpen, photoClickData := Clicked(data))
    case ModalClosed => s.(isOpen := false)
  }

  /** The state after a sequence of events, in order. Without a photo click
      the click data stays as it was, and without an input event the search
      term does. */
  function Run(s: State, es: seq<Event>): (r: State)
    ensures (forall i :: 0 <= i < |es| ==> !es[i].PhotoClicked?) ==> r.photoClickData == s.photoClickData
    ensures (forall i :: 0 <= i < |es| ==> !es[i].Typed?) ==> r.searchTerm == s.searchTerm
    decreases |es|
  {
    if |es| == 0 then s else Run(Step(s, es[0]), es[1..])
  }

  /** The page is at least 1, and the modal is only ever open on a clicked photo. */
  predicate Valid(s: State) {
    s.page >= 1 && (s.isOpen ==> s.photoClickData.Clicked?)
  }

  /** Every event keeps the state valid. */
  lemma {:induction false} RunKeepsValid(s: State, es: seq<Event>)
    requires Valid(s)
    ensures Valid(Run(s, es))
    decreases |es|
  {
    if |es| > 0 {
      RunKeepsValid(Step(s, es[0]), es[1..]);
    }
  }

  lemma InitialValid()
    ensures Valid(Initial)
  {
  }

  /** The scroll events that bump the page: the ref exists and the view is near
      the bottom. */
  function Bumps(es: seq<Event>): nat {
    if |es| == 0 then 0
    else (if es[0].Scroll? && es[0].hasRef && es[0].nearBottom then 1 else 0) + Bumps(es[1..])
  }

  /** The page grows by exactly one per bumping scroll and never otherwise, so
      it never decreases. */
  lemma {:induction false} RunPage(s: State, es: seq<Event>)
    ensures Run(s, es).page == s.page + Bumps(es)
    ensures Run(s, es).page >= s.page
    decreases |es|
  {
    if |es| > 0 {
      RunPage(Step(s, es[0]), es[1..]);
    }
  }

  /** The list a successful fetch delivers. */
  function Received(e: Event): Option<PhotoList> {
    match e
    case PageFetched(Fetched(list)) => Some(list)
    case SecondPageFetched(Fetched(list)) => Some(list)
    case SearchFetched(Fetched(list)) => Some(list)
    case _ => None
  }

  /** The list of the last successful fetch in the sequence, if any. */
  function LastReceived(es: seq<Event>): Option<PhotoList> {
    if |es| == 0 then None
    else
      var later := LastReceived(es[1..]);
      if later.Some? then later else Received(es[0])
  }

  /** Fetch results replace the list wholesale: after any events the list is
      exactly the one the last successful fetch delivered (whichever request it
      answered), or the earlier list if none succeeded. Nothing is appended. */
  lemma {:induction false} RunPhotos(s: State, es: seq<Event>)
    ensures Run(s, es).photos == (if LastReceived(es).Some? then LastReceived(es).value else s.photos)
    decreases |es|
  {
    if |es| > 0 {
      RunPhotos(Step(s, es[0]), es[1..]);
    }
  }

  /** The typed value of the last input event, if any. */
  function LastTyped(es: seq<Event>): Option<string> {
    if |es| == 0 then None
    else
      var later := LastTyped(es[1..]);
      if later.Some? then later else if es[0].Typed? then Some(es[0].value) else None
  }

  /** `searchTerm` always holds the last typed value, whatever its length and
      whether or not a search followed. */
  lemma {:induction false} RunSearchTerm(s: State, es: seq<Event>)
    ensures Run(s, es).searchTerm == (if LastTyped(es).Some? then LastTyped(es).value else s.searchTerm)
    decreases |es|
  {
    if |es| > 0 {
      RunSearchTerm(Step(s, es[0]), es[1..]);
    }
  }

  /** A page-listing fetch clears the loading flag whether it succeeds or fails;
      a failed search leaves the whole state, the flag included, unchanged. */
  lemma LoadingAfterCompletion(s: State, o: FetchOutcome)
    ensures !LoadingTruthy(Step(s, PageFetched(o)).isLoading)
    ensures Step(s, SearchFetched(FetchFailed)) == s
    ensures Step(s, SecondPageFetched(o)).isLoading == s.isLoading
  {
  }

  /** Two clicks restore the modal flag; closing is the same from any state. */
  lemma ModalToggle(s: State, p: Photo, q: Photo)
    ensures Step(Step(s, PhotoClicked(p)), PhotoClicked(q)).isOpen == s.isOpen
    ensures Step(s, PhotoClicked(p)).isOpen == !s.isOpen
    ensures !Step(s, ModalClosed).isOpen
    ensures Step(Step(s, ModalClosed), ModalClosed) == Step(s, ModalClosed)
  {
  }

  // ---------------------------------------------------------------------------
  // What the container draws

  /** The loader flag and the props handed to the view. */
  datatype ContainerView = ContainerView(loader: bool, view: ViewProps)

  function Render(s: State): (v: ContainerView)
    ensures v.loader <==> LoadingTruthy(s.isLoading)
    ensures v.view == ViewProps(s.photos, s.isOpen, LoadingTruthy(s.isLoading), s.photoClickData)
  {
    ContainerView(LoadingTruthy(s.isLoading), ViewProps(s.photos, s.isOpen, LoadingTruthy(s.isLoading), s.photoClickData))
  }

  /** Before the first fetch ends the loader shows, the list is blank rather than
      the no-data message, and there is no modal. */
  lemma InitialRender(base: string)
    ensures var v := Render(Initial);
            && v.loader
            && PhotosView.Render(v.view, base).body == Blank
            && PhotosView.Render(v.view, base).modal == None
  {
  }

  /** An open modal shows the photo of the click that opened it. */
  lemma OpenModalShowsClickedPhoto(s: State, p: Photo, base: string)
    requires !s.isOpen
    ensures var v := Render(Step(s, PhotoClicked(p))).view;
            PhotosView.Render(v, base).modal == Some(ModalImage(ModalUrl(base, Clicked(p)), Some(p.title)))
  {
    var v := Render(Step(s, PhotoClicked(p))).view;
    assert v.isOpen && v.photoClickData == Clicked(p);
    assert ModalAlt(v.photoClickData) == Some(p.title);
  }

  // ---------------------------------------------------------------------------
  // The component

  class Photos {
    var photos: PhotoList
    var isLoading: LoadingFlag
    var searchTerm: string
    var isOpen: bool
    var page: int
    var photoClickData: ClickData

    function Current(): State
      reads this
    {
      State(photos, isLoading, searchTerm, isOpen, page, photoClickData)
    }

    constructor()
      ensures Current() == Initial
    {
      photos, isLoading, searchTerm := PhotoList(None), InitialEmptyArray, "";
      isOpen, page, photoClickData := false, 1, NoClick;
    }

    /** The two `[page]` effects, on mount and after every page change: the
        first sets the loading flag, and both request the current page. */
    method RunPageEffects(photosBase: string) returns (requests: seq<Request>)
      modifies this
      ensures Current() == Step(old(Current()), PageEffects)
      ensures requests == [Request(PageUrl(photosBase, page)), Request(PageUrl(photosBase, page))]
    {
      isLoading := Flag(true);
      requests := [Request(PageUrl(photosBase, page)), Request(PageUrl(photosBase, page))];
    }

    /** `handleScroll`: `page` grows by one when the results element exists and
        the window is near its bottom. */
    method HandleScroll(hasRef: bool, nearBottom: bool)
      modifies this
      ensures Current() == Step(old(Current()), Scroll(hasRef, nearBottom))
      ensures page == old(page) + (if hasRef && nearBottom then 1 else 0)
    {
      if hasRef && nearBottom {
        page := page + 1;
      }
    }

    /** `handleSearch`: records the value and hands it to the debounced search
        exactly when it has at least three characters. */
    method HandleSearch(value: string) returns (dispatched: bool)
      modifies this
      ensures Current() == Step(old(Current()), Typed(value))
      ensures dispatched <==> |value| >= 3
    {
      searchTerm := value;
      dispatched := |value| >= 3;
    }

    /** The debounced callback: sets the loading flag and requests the search. */
    method FireSearch(searchBase: string, term: string) returns (request: Request)
      modifies this
      ensures Current() == Step(old(Current()), SearchFired(term))
      ensures request == Request(SearchUrl(searchBase, term))
    {
      isLoading := Flag(true);
      request := Request(SearchUrl(searchBase, term));
    }

    /** The first effect's fetch: success replaces the list; either way the
        loading flag is cleared. */
    method PageFetchCompleted(outcome: FetchOutcome)
      modifies this
      ensures Current() == Step(old(Current()), PageFetched(outcome))
    {
      if outcome.Fetched? {
        photos := outcome.list;
      }
      isLoading := Flag(false);
    }

    /** The second effect's fetch: success replaces the list; failure is logged. */
    method SecondPageFetchCompleted(outcome: FetchOutcome)
      modifies this
      ensures Current() == Step(old(Current()), SecondPageFetched(outcome))
    {
      if outcome.Fetched? {
        photos := outcome.list;
      }
    }

    /** The search fetch: success replaces the list and clears the loading flag;
        failure is only logged, so the flag stays set. */
    method SearchFetchCompleted(outcome: FetchOutcome)
      modifies this
      ensures Current() == Step(old(Current()), SearchFetched(outcome))
    {
      if outcome.Fetched? {
        photos := outcome.list;
        isLoading := Flag(false);
      }
    }

    /** `photoClickHandler`: flips the modal flag and stores the clicked data. */
    method PhotoClick(data: Photo)
      modifies this
      ensures Current() == Step(old(Current()), PhotoClicked(data))
    {
      isOpen := !isOpen;
      photoClickData := Clicked(data);
    }

    /** `handleModalClose`. */
    method HandleModalClose()
      modifies this
      ensures Current() == Step(old(Current()), ModalClosed)
    {
      isOpen := false;
    }
  }
}
