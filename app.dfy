/** The plain-JavaScript client: one mutable `state` object that the event
    handlers update, the page-number window drawn under the table, and the
    time label of the player.

    `loadSongs` is split at its `await`: `LoadSongs` is the synchronous start
    (it marks the state as loading and fixes the query from the state of that
    moment), and `FinishLoad` is the handling of the answer or the failure,
    which reads the state as it is when the answer arrives. DOM output,
    `fetch` itself and the detail panel are not modelled. */
module App {
  import opened Wrappers
  import opened CSharpInt
  import opened DataGenerator
  import opened JsFormat
  import TableView
  import SongsController

  /** The seed the page starts with and falls back to. */
  const DefaultSeed: int := 58933423

  /** The random-seed button draws a seed below this bound. */
  const RandomSeedBound: int := 100000000

  /** The length, in seconds, the player shows for every song. */
  const TrackDuration: nat := 132

  datatype ViewMode = Gallery | Table

  /** The query `loadSongs` sends: `language`, `seed`, `likes` and `page`. */
  datatype Request = Request(language: string, seed: int, likes: real, page: int)

  /** The part of a successful answer the client reads. */
  datatype Response = Response(songs: seq<Song>, totalPages: int)

  /** The value of every field of `state` that the model keeps. */
  datatype Snapshot = Snapshot(
    language: string, seed: int, likes: real, viewMode: ViewMode, songs: seq<Song>,
    currentPage: int, totalPages: int, loading: bool, expandedIndex: Option<int>,
    galleryPage: int, hasMore: bool)

  /** `state` as the script declares it. */
  const Initial: Snapshot :=
    Snapshot("en-US", DefaultSeed, 5.0, Gallery, [], 1, 1, false, None, 1, true)

  /** The guard of `changePage`: only an existing page is loaded, that is a
      page among `1, 2, ..., totalPages`. */
  predicate PageAccepted(page: int, totalPages: int): (accepted: bool)
    ensures totalPages >= 0 ==> (accepted <==> page in TableView.Run(1, totalPages))
  {
    PagesListed(page, totalPages);
    1 <= page <= totalPages
  }

  lemma PagesListed(page: int, totalPages: int)
    ensures totalPages >= 0 ==> (1 <= page <= totalPages <==> page in TableView.Run(1, totalPages))
  {
    if totalPages >= 0 {
      var pages := TableView.Run(1, totalPages);
      if 1 <= page <= totalPages {
        assert pages[page - 1] == page;
      }
      if page in pages {
        var k :| 0 <= k < |pages| && pages[k] == page;
      }
    }
  }

  /** `parseInt(value) || 58933423`, given what `parseInt` returned (`None`
      for `NaN`): both `NaN` and 0 are falsy and give the default seed. */
  function SeedFromInput(parsed: Option<int>): (seed: int)
    ensures seed != 0
    ensures parsed == None || parsed == Some(0) ==> seed == DefaultSeed
    ensures parsed.Some? && parsed.value != 0 ==> seed == parsed.value
  {
    match parsed
    case None => DefaultSeed
    case Some(v) => if v == 0 then DefaultSeed else v
  }

  /** `Math.floor(Math.random() * 100000000)` for the draw `u` in `[0, 1)`. */
  function RandomSeedFrom(u: real): (seed: int)
    requires 0.0 <= u < 1.0
    ensures 0 <= seed < RandomSeedBound
    ensures seed as real <= u * RandomSeedBound as real < seed as real + 1.0
  {
    (u * RandomSeedBound as real).Floor
  }

  /** The gallery's list after an answer for gallery page `galleryPage`:
      page 1 replaces the list, any later page is appended to it. */
  function GalleryMerge(songs: seq<Song>, galleryPage: int, incoming: seq<Song>): (r: seq<Song>)
    ensures galleryPage == 1 ==> r == incoming
    ensures galleryPage != 1 ==> |r| == |songs| + |incoming| && r[..|songs|] == songs && r[|songs|..] == incoming
  {
    if galleryPage == 1 then incoming else songs + incoming
  }

  /** `secs.toString().padStart(2, '0')`. */
  function SecondsText(secs: nat): string
  {
    PadStart(DecimalString(secs), 2, '0')
  }

  /** `${mins}:${secs}`. */
  function TimeLabel(minutes: string, secs: string): string
  {
    minutes + ":" + secs
  }

  /** `formatTime(seconds)` for a whole, non-negative number of seconds:
      the minutes, a colon, and the seconds padded to two digits. */
  function FormatTime(seconds: nat): (t: string)
    ensures |t| >= 4 && t[|t| - 3] == ':'
    ensures t[..|t| - 3] == DecimalString(seconds / 60)
    ensures AllDigits(t[|t| - 2..]) && DigitsValue(t[|t| - 2..]) == seconds % 60
  {
    var minutes, secs := DecimalString(seconds / 60), SecondsText(seconds % 60);
    SecondsField(seconds % 60);
    LabelFields(minutes, secs, seconds % 60);
    TimeLabel(minutes, secs)
  }

  /** The fields of a label: the minutes before the colon, and after it a
      two-digit seconds field that reads back as `secs`. */
  lemma LabelFields(minutes: string, secsText: string, secs: nat)
    requires 1 <= |minutes|
    requires |secsText| == 2 && AllDigits(secsText) && DigitsValue(secsText) == secs
    ensures var t := TimeLabel(minutes, secsText);
      && |t| >= 4 && t[|t| - 3] == ':' && t[..|t| - 3] == minutes
      && AllDigits(t[|t| - 2..]) && DigitsValue(t[|t| - 2..]) == secs
  {
    var t := TimeLabel(minutes, secsText);
    assert t[..|t| - 3] == minutes && t[|t| - 2..] == secsText;
  }

  /** Reads an `m:ss` label back as a number of seconds: decimal minutes, a
      colon, and two digits of seconds below 60; `None` for anything else. */
  function ParseTime(t: string): Option<int>
  {
    if |t| < 4 || t[|t| - 3] != ':' then None
    else
      var minutes, secs := t[..|t| - 3], t[|t| - 2..];
      if AllDigits(minutes) && AllDigits(secs) && DigitsValue(secs) < 60
      then Some(DigitsValue(minutes) * 60 + DigitsValue(secs))
      else None
  }

  /** The seconds field of a label: two digits that read back as `secs`. */
  lemma {:induction false} SecondsField(secs: nat)
    requires secs < 60
    ensures |SecondsText(secs)| == 2 && AllDigits(SecondsText(secs)) && DigitsValue(SecondsText(secs)) == secs
  {
    var s := DecimalString(secs);
    var padded := PadStart(s, 2, '0');
    DecimalRoundTrip(secs);
    if |s| < 2 {
      assert padded == Repeat('0', 1) + s;
      LeadingZeros(1, s);
    } else {
      assert |DecimalString(secs / 10)| == 1;
    }
  }

  /** Minutes and a valid two-digit seconds field, joined by a colon, parse back. */
  lemma ParseJoined(minutes: string, secs: string)
    requires 1 <= |minutes| && AllDigits(minutes)
    requires |secs| == 2 && AllDigits(secs) && DigitsValue(secs) < 60
    ensures ParseTime(TimeLabel(minutes, secs)) == Some(DigitsValue(minutes) * 60 + DigitsValue(secs))
  {
    var t := minutes + ":" + secs;
    assert t[|t| - 3] == ':' && t[..|t| - 3] == minutes && t[|t| - 2..] == secs;
    assert AllDigits(t[..|t| - 3]) && AllDigits(t[|t| - 2..]) && DigitsValue(t[|t| - 2..]) < 60;
  }

  lemma ParseLabel(seconds: nat, minutes: string, secs: string)
    requires 1 <= |minutes| && AllDigits(minutes) && DigitsValue(minutes) == seconds / 60
    requires |secs| == 2 && AllDigits(secs) && DigitsValue(secs) == seconds % 60
    ensures ParseTime(TimeLabel(minutes, secs)) == Some(seconds)
  {
    ParseJoined(minutes, secs);
  }

  /** A formatted time is well formed and reads back as the number it was
      made from. */
  lemma {:induction false} FormatTimeRoundTrip(seconds: nat)
    ensures ParseTime(FormatTime(seconds)) == Some(seconds)
  {
    SecondsField(seconds % 60);
    DecimalRoundTrip(seconds / 60);
    ParseLabel(seconds, DecimalString(seconds / 60), SecondsText(seconds % 60));
  }

  /** The label under the player: 132 seconds is `2:12`. */
  lemma TrackDurationLabel()
    ensures FormatTime(TrackDuration) == "2:12"
  {
    assert TrackDuration / 60 == 2 && TrackDuration % 60 == 12;
    assert DecimalString(2) == "2";
    assert DecimalString(12) == DecimalString(1) + "2" == "12";
    assert SecondsText(12) == "12";
  }

  /** For a current page inside `[1, totalPages]`, the previous and next
      buttons are disabled exactly when `changePage` would refuse the page
      they ask for, and every numbered button asks for a page it accepts. */
  lemma {:induction false} PaginationButtons(currentPage: int, totalPages: int)
    requires 1 <= currentPage <= totalPages
    ensures TableView.PrevDisabled(currentPage) <==> !PageAccepted(currentPage - 1, totalPages)
    ensures TableView.NextDisabled(currentPage, totalPages) <==> !PageAccepted(currentPage + 1, totalPages)
    ensures forall p :: p in TableView.PageNumbers(currentPage, totalPages) ==> PageAccepted(p, totalPages)
  {
    TableView.PageWindow(currentPage, totalPages);
    var pages := TableView.PageNumbers(currentPage, totalPages);
    forall p | p in pages ensures PageAccepted(p, totalPages) {
      var k :| 0 <= k < |pages| && pages[k] == p;
      assert pages[k] == pages[0] + k;
    }
  }

  /** The gallery after the answers for gallery pages 1, 2, ... have been
      handled in that order: `answers[p]` is the answer for page `p + 1`. */
  function GalleryAfter(answers: seq<seq<Song>>): seq<Song>
  {
    if answers == [] then []
    else GalleryMerge(GalleryAfter(answers[..|answers| - 1]), |answers|, answers[|answers| - 1])
  }

  /** `songs` holds songs `(page - 1) * 10 + 1` to `page * 10` of the catalogue, in order. */
  predicate NumberedPage(songs: seq<Song>, page: int)
  {
    |songs| == SongsController.PageSize
    && forall j :: 0 <= j < |songs| ==> songs[j].index == (page - 1) * SongsController.PageSize + 1 + j
  }

  /** When each answer is the numbered page it was asked for, the gallery
      holds the songs in catalogue order with no gap and no repetition: song
      `k` of it is song number `k + 1`. */
  lemma {:induction false} GalleryInOrder(answers: seq<seq<Song>>, k: nat)
    requires forall p :: 0 <= p < |answers| ==> NumberedPage(answers[p], p + 1)
    requires k < |answers| * SongsController.PageSize
    ensures |GalleryAfter(answers)| == |answers| * SongsController.PageSize
    ensures GalleryAfter(answers)[k].index == k + 1
  {
    var n, size := |answers|, SongsController.PageSize;
    var before, page := GalleryAfter(answers[..n - 1]), answers[n - 1];
    var last := (n - 1) * size;
    assert NumberedPage(page, n);
    if n == 1 {
      assert GalleryAfter(answers) == page;
    } else {
      assert forall p :: 0 <= p < n - 1 ==> answers[..n - 1][p] == answers[p];
      GalleryInOrder(answers[..n - 1], 0);
      assert GalleryAfter(answers) == before + page;
      if k < last {
        GalleryInOrder(answers[..n - 1], k);
        assert (before + page)[k] == before[k];
      } else {
        assert (before + page)[k] == page[k - last];
      }
    }
  }

  /** A listing page of the server is the numbered page it was asked for. */
  lemma ListingNumbered(env: Env, language: string, seed: Int64, likes: real, page: Int32)
    requires 1 <= page && page * SongsController.PageSize <= Int32Max
    ensures NumberedPage(ListingPage(env, language, seed, likes, page, SongsController.PageSize), page)
  {
    ListingNumbers(env, language, seed, likes, page, SongsController.PageSize);
  }

  /** Infinite scroll through the listing shows the catalogue in order: when
      the answers to gallery pages 1 to `n` are the server's listing pages,
      the gallery holds `10 n` songs and song `k` of it is song number
      `k + 1`. */
  lemma GalleryIndices(env: Env, language: string, seed: Int64, likes: real, answers: seq<seq<Song>>, k: nat)
    requires |answers| * SongsController.PageSize <= Int32Max
    requires forall p :: 0 <= p < |answers| ==>
      answers[p] == ListingPage(env, language, seed, likes, p + 1, SongsController.PageSize)
    requires k < |answers| * SongsController.PageSize
    ensures |GalleryAfter(answers)| == |answers| * SongsController.PageSize
    ensures GalleryAfter(answers)[k].index == k + 1
  {
    ListingAnswersNumbered(env, language, seed, likes, answers);
    GalleryInOrder(answers, k);
  }

  /** Answers that are the server's listing pages 1, 2, ... are numbered pages. */
  lemma ListingAnswersNumbered(env: Env, language: string, seed: Int64, likes: real, answers: seq<seq<Song>>)
    requires |answers| * SongsController.PageSize <= Int32Max
    requires forall p :: 0 <= p < |answers| ==>
      answers[p] == ListingPage(env, language, seed, likes, p + 1, SongsController.PageSize)
    ensures forall p :: 0 <= p < |answers| ==> NumberedPage(answers[p], p + 1)
  {
    forall p | 0 <= p < |answers| ensures NumberedPage(answers[p], p + 1) {
      AnswerNumbered(env, language, seed, likes, answers[p], p + 1);
    }
  }

  lemma AnswerNumbered(env: Env, language: string, seed: Int64, likes: real, songs: seq<Song>, page: Int32)
    requires 1 <= page && page * SongsController.PageSize <= Int32Max
    requires songs == ListingPage(env, language, seed, likes, page, SongsController.PageSize)
    ensures NumberedPage(songs, page)
  {
    ListingNumbered(env, language, seed, likes, page);
  }

  /** The pages `renderPagination` lists: `from`, `from + 1`, ..., `to`. */
  method PushPages(from: int, to: int) returns (pages: seq<int>)
    ensures pages == TableView.Run(from, if to < from then 0 else to - from + 1)
  {
    pages := [];
    var i := from;
    while i <= to
      invariant from <= i && (i <= to + 1 || i == from)
      invariant pages == TableView.Run(from, i - from)
    {
      pages := pages + [i];
      i := i + 1;
    }
  }

  /** The client's `state`. */
  class AppState {
    var language: string
    var seed: int
    var likes: real
    var viewMode: ViewMode
    var songs: seq<Song>
    var currentPage: int
    var totalPages: int
    var loading: bool
    var expandedIndex: Option<int>
    var galleryPage: int
    var hasMore: bool

    function State(): Snapshot
      reads this
    {
      Snapshot(language, seed, likes, viewMode, songs, currentPage, totalPages, loading,
               expandedIndex, galleryPage, hasMore)
    }

    /** The table page and the gallery page are always at least 1. */
    predicate Valid()
      reads this
    {
      currentPage >= 1 && galleryPage >= 1
    }

    constructor ()
      ensures State() == Initial && Valid()
    {
      language := "en-US";
      seed := DefaultSeed;
      likes := 5.0;
      viewMode := Gallery;
      songs := [];
      currentPage := 1;
      totalPages := 1;
      loading := false;
      expandedIndex := None;
      galleryPage := 1;
      hasMore := true;
    }

    /** The page `loadSongs` asks for: the table page in table mode, the
        gallery page otherwise. */
    function RequestedPage(): (page: int)
      reads this
      ensures Valid() ==> page >= 1
    {
      if viewMode == Table then currentPage else galleryPage
    }

    /** The query `loadSongs` sends for the current state. */
    function CurrentRequest(): Request
      reads this
    {
      Request(language, seed, likes, RequestedPage())
    }

    /** The synchronous start of `loadSongs`: the state is marked as loading
        and the query is fixed. */
    method LoadSongs() returns (req: Request)
      requires Valid()
      modifies this
      ensures Valid()
      ensures State() == old(State()).(loading := true)
      ensures req == CurrentRequest() && req.page >= 1
    {
      loading := true;
      req := CurrentRequest();
    }

    /** The rest of `loadSongs`, given the answer (`None` when the request
        failed): the table takes the page and the page count; the gallery
        replaces or extends its list and keeps scrolling while pages are
        non-empty. Loading ends in every case. */
    method FinishLoad(response: Option<Response>)
      requires Valid()
      modifies this
      ensures Valid()
      ensures response == None ==> State() == old(State()).(loading := false)
      ensures response.Some? && old(viewMode) == Table ==>
        State() == old(State()).(songs := response.value.songs, totalPages := response.value.totalPages, loading := false)
      ensures response.Some? && old(viewMode) == Gallery ==>
        State() == old(State()).(songs := GalleryMerge(old(songs), old(galleryPage), response.value.songs),
                                 hasMore := |response.value.songs| > 0, loading := false)
    {
      if response.Some? {
        var data := response.value;
        if viewMode == Table {
          songs := data.songs;
          totalPages := data.totalPages;
        } else {
          if galleryPage == 1 {
            songs := data.songs;
          } else {
            songs := songs + data.songs;
          }
          hasMore := |data.songs| > 0;
        }
      }
      loading := false;
    }

    /** `renderPagination`: the page numbers it lays out, the same as the
        React table view computes. */
    method RenderPagination() returns (pages: seq<int>)
      ensures pages == TableView.PageNumbers(currentPage, totalPages)
    {
      var maxVisible := TableView.MaxVisible;
      if totalPages <= maxVisible {
        pages := PushPages(1, totalPages);
      } else if currentPage <= 3 {
        pages := PushPages(1, maxVisible);
      } else if currentPage >= totalPages - 2 {
        pages := PushPages(totalPages - maxVisible + 1, totalPages);
      } else {
        pages := PushPages(currentPage - 2, currentPage + 2);
      }
      TableView.PageNumbersRules(currentPage, totalPages);
    }

    /** `changePage(page)`: a page outside `[1, totalPages]` changes nothing;
        any other page becomes the current one, collapses the expanded row
        and is loaded. */
    method ChangePage(page: int) returns (req: Option<Request>)
      requires Valid()
      modifies this
      ensures Valid()
      ensures !PageAccepted(page, old(totalPages)) ==> req == None && State() == old(State())
      ensures PageAccepted(page, old(totalPages)) ==>
        State() == old(State()).(currentPage := page, expandedIndex := None, loading := true)
        && req == Some(CurrentRequest())
    {
      if page < 1 || page > totalPages {
        return None;
      }
      currentPage := page;
      expandedIndex := None;
      var r := LoadSongs();
      req := Some(r);
    }

    /** `toggleRowExpand(index)`: the same toggle as the React row click. */
    method ToggleRowExpand(index: int)
      requires Valid()
      modifies this
      ensures Valid()
      ensures State() == old(State()).(expandedIndex := TableView.HandleRowClick(old(expandedIndex), index))
    {
      if expandedIndex == Some(index) {
        expandedIndex := None;
      } else {
        expandedIndex := Some(index);
      }
    }

    /** `loadMoreSongs()`: ignored while a load is running or after an empty
        page; otherwise the next gallery page is loaded. */
    method LoadMoreSongs() returns (req: Option<Request>)
      requires Valid()
      modifies this
      ensures Valid()
      ensures old(loading) || !old(hasMore) ==> req == None && State() == old(State())
      ensures !old(loading) && old(hasMore) ==>
        State() == old(State()).(galleryPage := old(galleryPage) + 1, loading := true)
        && req == Some(CurrentRequest())
    {
      if loading || !hasMore {
        return None;
      }
      galleryPage := galleryPage + 1;
      var r := LoadSongs();
      req := Some(r);
    }

    /** The language selector: a new language starts both views over. */
    method OnLanguageChange(value: string) returns (req: Request)
      requires Valid()
      modifies this
      ensures Valid()
      ensures State() == old(State()).(language := value, currentPage := 1, galleryPage := 1,
                                       hasMore := true, loading := true)
      ensures req == CurrentRequest()
    {
      language := value;
      currentPage := 1;
      galleryPage := 1;
      hasMore := true;
      req := LoadSongs();
    }

    /** The seed field, given what `parseInt` made of its text: a new seed
        starts both views over. */
    method OnSeedChange(parsed: Option<int>) returns (req: Request)
      requires Valid()
      modifies this
      ensures Valid()
      ensures State() == old(State()).(seed := SeedFromInput(parsed), currentPage := 1, galleryPage := 1,
                                       hasMore := true, loading := true)
      ensures req == CurrentRequest()
    {
      seed := SeedFromInput(parsed);
      currentPage := 1;
      galleryPage := 1;
      hasMore := true;
      req := LoadSongs();
    }

    /** The random-seed button, given the `Math.random()` draw `u`. */
    method OnRandomSeed(u: real) returns (req: Request)
      requires 0.0 <= u < 1.0
      requires Valid()
      modifies this
      ensures Valid()
      ensures State() == old(State()).(seed := RandomSeedFrom(u), currentPage := 1, galleryPage := 1,
                                       hasMore := true, loading := true)
      ensures req == CurrentRequest()
    {
      seed := RandomSeedFrom(u);
      currentPage := 1;
      galleryPage := 1;
      hasMore := true;
      req := LoadSongs();
    }

    /** The likes slider, given what `parseFloat` made of its value: the
        pages are reloaded in place, without a reset. */
    method OnLikesInput(value: real) returns (req: Request)
      requires Valid()
      modifies this
      ensures Valid()
      ensures State() == old(State()).(likes := value, loading := true)
      ensures req == CurrentRequest()
    {
      likes := value;
      req := LoadSongs();
    }

    /** `switchViewMode(mode)`: the gallery starts over from its first page;
        the table goes back to page 1. */
    method SwitchViewMode(mode: ViewMode) returns (req: Request)
      requires Valid()
      modifies this
      ensures Valid()
      ensures mode == Gallery ==>
        State() == old(State()).(viewMode := mode, currentPage := 1, galleryPage := 1, hasMore := true, loading := true)
      ensures mode == Table ==>
        State() == old(State()).(viewMode := mode, currentPage := 1, loading := true)
      ensures req == CurrentRequest()
    {
      viewMode := mode;
      if mode == Gallery {
        currentPage := 1;
        galleryPage := 1;
        hasMore := true;
      } else {
        currentPage := 1;
      }
      req := LoadSongs();
    }
  }
}
