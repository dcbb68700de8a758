# MusicStore song generator and client state, in Dafny

MusicStore serves an endless, reproducible catalogue of made-up songs. A
user picks a language, a 64-bit seed and an average number of likes. The
server derives a page seed from `(seed, page)` and an item seed from
`(seed, index)`. The item seed drives the likes, the cover image and the
music parameters of that song. The browser client shows the catalogue as a
paged table or as an infinitely scrolling gallery.

This project models:

- **The song generator** (`DataGenerator`):
  - the seed combination in unchecked 64-bit C# arithmetic;
  - the locale choice and the likes rule;
  - the loop that builds a listing page;
  - the detail request.
- **The music generator** (`MusicGenerator`): the tempo draw, the note loop
  and the parameter record.
- **The cover generator** (`CoverGenerator`): the schedule of random draws, the
  hue wrap-around, the font-size clamp and the text step. The cover is
  modelled as the sequence of drawing operations it applies to the canvas.
- **The songs endpoint** (`SongsController`): the page size and the page
  count `ceil(1000 / 10) = 100`.
- **The plain-JavaScript client** (`App`):
  - the mutable `state` object as a class whose methods are the event
    handlers;
  - the `renderPagination` window;
  - `formatTime`.
- **The React table view** (`TableView`): the page-number expression, the
  previous/next disabled conditions and the row-click toggle.

Supporting modules:

- `CSharpInt`: C#'s fixed-width wrap-around and its truncating `%`.
- `Draws`: `System.Random` seen from outside.
- `JsFormat`: `toString` and `padStart` on whole numbers.
- `Wrappers`: the `Option` type.

`System.Random` is modelled through its `Sample()`, and the Bogus faker is
an oracle:

- A generator seeded with `s` is an arbitrary sequence of samples in
  `[0, 1)`, one per call. `NextDouble()` returns the sample, and
  `Next(lo, hi)` returns `lo + (int)(sample * (hi - lo))`, as .NET's
  seeded generator computes it. The subtractive algorithm that produces the
  samples is not modelled.
- The likes, the cover and the music of an item each build a generator from
  the same item seed, so they read the same samples. Their calls are linked
  exactly as in .NET: the first sample decides the extra like, the
  background hue and the tempo (`DataGenerator.DetailFirstSample`).
- The faker's texts are an arbitrary function of locale, faker seed and
  position.

So every statement below holds for whatever samples `System.Random`
produces and whatever texts Bogus produces. The statements cover how many
draws are made, in which order, with which bounds, and from which seed.

`JsFormat.DigitsValue` and `App.ParseTime` are readers written for this model
and are not part of the system. They are the independent partners against
which `toString`, `padStart` and `formatTime` are proved to round-trip.

Two behaviours of the code differ from what one might expect of a
reproducible catalogue; the model follows the code:

- **Seed sign.** One might expect the combined seed to be non-negative.
  C#'s `%` keeps the dividend's sign, so a negative user seed can give
  negative item seeds: seed -1 with ordinal 0 gives -31
  (`DataGenerator.CombineSeedNegative`).
- **Texts across pages.** One might expect a song to be the same on every
  paging scheme. A listing's titles, artists and albums come from one faker
  seeded with the page seed, at the song's position on the page. Only the
  index, the likes and the cover decorations depend on the item alone
  (`DataGenerator.ItemIndependentOfPage`). A detail request seeds its faker
  with the item seed, so its texts can differ from the listing's.

## Model

| member | source | states |
|---|---|---|
| CSharpInt.Wrap32 | MusicStore.Api/Services/DataGeneratorService.cs:31-35 | the unchecked `int` result differs from the exact one by a multiple of 2^32, lies in the `int` range, and is the exact result when that fits |
| CSharpInt.Wrap64 | MusicStore.Api/Services/DataGeneratorService.cs:121 | the unchecked `long` result differs from the exact one by a multiple of 2^64, lies in the `long` range, and is the exact result when that fits |
| CSharpInt.Rem | MusicStore.Api/Services/DataGeneratorService.cs:121 | C#'s `%` for a positive divisor: dividend = divisor * truncated quotient + remainder; the remainder is smaller than the divisor in magnitude and takes the dividend's sign |
| CSharpInt.RemSmall | MusicStore.Api/Services/MusicGeneratorService.cs:12 | a dividend smaller in magnitude than the divisor is its own remainder |
| CSharpInt.Wrap64Absorbs | MusicStore.Api/Services/DataGeneratorService.cs:121 | wrapping `seed * 31` before adding the ordinal and wrapping again gives the same value as one wrap of the exact sum |
| Draws.Sample | MusicStore.Api/Services/DataGeneratorService.cs:101 | the sample behind a call, which `NextDouble()` returns, lies in `[0, 1)`, and a generator's in-range value is used unchanged |
| Draws.Scale | MusicStore.Api/Services/CoverGeneratorService.cs:40 | `Next(lo, hi)` for a sample, `lo + (int)(sample * (hi - lo))`, lies in `[lo, hi)`, and an empty range gives `lo` |
| Draws.ScaleReaches | MusicStore.Api/Services/CoverGeneratorService.cs:40 | every value of a range is produced by some sample: `j / (hi - lo)` gives `lo + j` |
| Draws.ScaleMonotone | MusicStore.Api/Services/CoverGeneratorService.cs:40 | a larger sample never gives a smaller value |
| Draws.Draw | MusicStore.Api/Services/MusicGeneratorService.cs:17 | the value of a numbered call to `Next(lo, hi)` is its sample scaled to the range, and lies in `[lo, hi)` |
| Draws.RandomSeed | MusicStore.Api/Services/MusicGeneratorService.cs:12 | `(int)(seed % int.MaxValue)` lies strictly between `-int.MaxValue` and `int.MaxValue`, has the seed's sign, and equals the seed when `0 <= seed < int.MaxValue` |
| Draws.Random.constructor | MusicStore.Api/Services/CoverGeneratorService.cs:33 | a fresh generator starts at its first draw |
| Draws.Random.Next | MusicStore.Api/Services/MusicGeneratorService.cs:35-36 | each call returns the next sample scaled to its range and advances the generator by exactly one |
| MusicGenerator.NoteToken | MusicStore.Api/Services/MusicGeneratorService.cs:29-37 | a note token is one letter of `CDEFGAB` followed by one octave of `345` |
| MusicGenerator.NotesFrom | MusicStore.Api/Services/MusicGeneratorService.cs:33-39 | `n` notes drawn from a position are exactly `n` tokens |
| MusicGenerator.NotesFromAt | MusicStore.Api/Services/MusicGeneratorService.cs:33-37 | note `k` is a well-formed token made of draw `p + 2k` (letter) and draw `p + 2k + 1` (octave) |
| MusicGenerator.GenerateNotes | MusicStore.Api/Services/MusicGeneratorService.cs:27-41 | the loop returns the `bars * 4` notes drawn from the generator's current position and advances it by exactly two draws per note |
| MusicGenerator.MusicFor | MusicStore.Api/Services/MusicGeneratorService.cs:14-20 | the record echoes the seed, has a tempo in `[80, 140)`, exactly 64 notes and the instruments piano, bass, drums |
| MusicGenerator.GenerateMusicAsync | MusicStore.Api/Services/MusicGeneratorService.cs:8-25 | the service builds exactly the record of the generator seeded with `(int)(seed % int.MaxValue)` |
| MusicGenerator.MusicDrawOrder | MusicStore.Api/Services/MusicGeneratorService.cs:14-20 | the tempo is draw 0, and note `k` is a well-formed token made of draws `1 + 2k` and `2 + 2k` |
| CoverGenerator.ShapeHue | MusicStore.Api/Services/CoverGeneratorService.cs:51 | a shape hue lies in `[0, 360)` whenever the background hue does and the offset lies in `[-60, 60)` |
| CoverGenerator.ShapeHueWraps | MusicStore.Api/Services/CoverGeneratorService.cs:51 | the shape hue differs from background hue plus offset by whole turns only |
| CoverGenerator.ShapeAt | MusicStore.Api/Services/CoverGeneratorService.cs:49-76 | one loop iteration uses 8 draws, plus a stroke draw exactly when it paints; it paints one shape exactly when the type draw is not 2 |
| CoverGenerator.ShapesFrom | MusicStore.Api/Services/CoverGeneratorService.cs:47-77 | `n` iterations paint at most `n` shapes and use `8n` draws plus one per painted shape |
| CoverGenerator.ShapeAtInRange | MusicStore.Api/Services/CoverGeneratorService.cs:49-58 | a painted shape has hue, saturation, value, alpha, stroke, position and size within the ranges they were drawn from |
| CoverGenerator.ShapesInRange | MusicStore.Api/Services/CoverGeneratorService.cs:47-77 | every shape the loop paints is within those ranges |
| CoverGenerator.Decorations | MusicStore.Api/Services/CoverGeneratorService.cs:40-77 | the background (hue in `[0, 360)`, saturation in `[30, 70)`, value in `[60, 90)`) is painted first; the shape count is in `[3, 8)`; at most that many shapes follow; `4 + 8 * count` draws are used, plus one per painted shape |
| CoverGenerator.DecorationsDrawOrder | MusicStore.Api/Services/CoverGeneratorService.cs:39-47 | background hue, saturation and value are draws 0, 1 and 2 over `[0, 360)`, `[30, 70)` and `[60, 90)`; the shape count is draw 3 over `[3, 8)`; the shape loop starts at draw 4 with the background hue |
| CoverGenerator.DecorationsInRange | MusicStore.Api/Services/CoverGeneratorService.cs:40-58 | after the background every decoration is an in-range shape, and no decoration is text |
| CoverGenerator.FontSize | MusicStore.Api/Services/CoverGeneratorService.cs:84-89 | `Math.Min(cap, 400 / (len + 2))` lies in `[0, cap]`, lets `len + 2` characters of that size fit the width, equals the cap for short texts, and otherwise is the largest size that fits |
| CoverGenerator.Upper | MusicStore.Api/Services/CoverGeneratorService.cs:84 | upper-casing keeps the length |
| CoverGenerator.DrawText | MusicStore.Api/Services/CoverGeneratorService.cs:97-135 | an empty text draws nothing, and only an empty text draws nothing; otherwise exactly one text operation is drawn |
| CoverGenerator.TextLayer | MusicStore.Api/Services/CoverGeneratorService.cs:83-89 | one text operation for a non-empty album and one for a non-empty artist, none otherwise; the album is centred at height 100 with `FontSize(len, 32)`, the artist at height 300 with `FontSize(len, 24)` |
| CoverGenerator.DrawShape | MusicStore.Api/Services/CoverGeneratorService.cs:49-76 | the imperative iteration paints and advances the generator exactly as `ShapeAt` describes |
| CoverGenerator.DrawShapes | MusicStore.Api/Services/CoverGeneratorService.cs:47-77 | the imperative shape loop paints and advances the generator exactly as `ShapesFrom` describes |
| CoverGenerator.GenerateCoverAsync | MusicStore.Api/Services/CoverGeneratorService.cs:31-95 | the service paints the decorations of the generator seeded with `(int)(seed % int.MaxValue)`, then the album and artist texts |
| CoverGenerator.CoverWithoutText | MusicStore.Api/Services/CoverGeneratorService.cs:79-89 | text drawing uses no draws: a cover without its text operations is exactly its decorations, whatever the album, the artist and the font |
| DataGenerator.CombineSeed | MusicStore.Api/Services/DataGeneratorService.cs:118-122 | the result is the truncated remainder of the wrapped `seed * 31 + pageOrIndex` by `long.MaxValue / 2`; it lies strictly inside `(-long.MaxValue / 2, long.MaxValue / 2)` and is non-negative for a non-negative wrapped dividend |
| DataGenerator.CombineSeedNatural | MusicStore.Api/Services/DataGeneratorService.cs:121 | without overflow and with non-negative operands the result is the plain remainder, in `[0, long.MaxValue / 2)` |
| DataGenerator.CombineSeedNegative | MusicStore.Api/Services/DataGeneratorService.cs:121 | the seed -1 with ordinal 0 combines to -31, so combined seeds can be negative |
| DataGenerator.GetLocale | MusicStore.Api/Services/DataGeneratorService.cs:124-133 | `de` exactly for `de-DE`, `uk` exactly for `uk-UA`, `en_US` for every other tag |
| DataGenerator.GenerateLikes | MusicStore.Api/Services/DataGeneratorService.cs:91-104 | for sample 0 of the generator seeded from the item seed (its first `NextDouble()`): 0 likes for an average of 0, 10 for 10 or more, otherwise the floor of the average plus one exactly when the draw is below the fractional part; within `[0, 10]` for a non-negative average |
| DataGenerator.LikesFor | MusicStore.Api/Services/DataGeneratorService.cs:95-103 | 0 for an average of 0; 10 for 10 or more; otherwise the floor of the average, plus one exactly when the draw is below the fractional part; within `[0, 10]` for a non-negative average |
| DataGenerator.DetailLikesAreFive | MusicStore.Api/Services/DataGeneratorService.cs:58 | an average of 5.0 gives exactly 5 likes whatever the draw |
| DataGenerator.GenerateSong | MusicStore.Api/Services/DataGeneratorService.cs:71-89 | the song carries the index, the faker's four texts and the likes of its seed, which lie in `[0, 10]` for a non-negative average, with no cover, music, review or lyrics |
| DataGenerator.StartIndex | MusicStore.Api/Services/DataGeneratorService.cs:31 | the unchecked start index equals `(page - 1) * pageSize + 1` modulo 2^32, and equals it exactly when `page * pageSize` fits an `int` |
| DataGenerator.ItemIndex | MusicStore.Api/Services/DataGeneratorService.cs:35 | the unchecked index of item `i` equals `(page - 1) * pageSize + 1 + i` modulo 2^32, and exactly for `0 <= i < pageSize` when `page * pageSize` fits an `int` |
| DataGenerator.ListingPrefix | MusicStore.Api/Services/DataGeneratorService.cs:33-45 | `n` iterations of the page loop produce `n` songs, none for a non-positive `n` |
| DataGenerator.ListingPrefixAt | MusicStore.Api/Services/DataGeneratorService.cs:33-45 | song `k` of the first `n` is the song the loop builds in its iteration `k` |
| DataGenerator.GenerateListedSong | MusicStore.Api/Services/DataGeneratorService.cs:35-44 | one loop iteration builds song `i`: index `startIndex + i`, item seed `CombineSeed(seed, index)`, texts from the page faker, and likes and cover from the item seed |
| DataGenerator.GenerateSongsAsync | MusicStore.Api/Services/DataGeneratorService.cs:19-48 | the loop returns exactly the listing page: `pageSize` songs, each built as above |
| DataGenerator.ListingIndices | MusicStore.Api/Services/DataGeneratorService.cs:30-47 | without `int` overflow a page has `pageSize` songs whose indices are `(page - 1) * pageSize + 1 + k`, in order |
| DataGenerator.ListingNumbers | MusicStore.Api/Services/DataGeneratorService.cs:30-47 | without `int` overflow a page holds `pageSize` songs numbered consecutively from `(page - 1) * pageSize + 1` |
| DataGenerator.PagesTile | MusicStore.Api/Services/DataGeneratorService.cs:31-35 | index `n` sits at position `k` of page `page` exactly when `page - 1` and `k` are the quotient and remainder of `n - 1` by the page size: no gap, no overlap |
| DataGenerator.IndexListed | MusicStore.Api/Services/DataGeneratorService.cs:31-35 | every index `n >= 1` appears on page `(n - 1) / pageSize + 1` at position `(n - 1) % pageSize` |
| DataGenerator.ListedSongSeed | MusicStore.Api/Services/DataGeneratorService.cs:36-42 | a listed song's likes and decorations come from `CombineSeed(seed, index)` alone; its title comes from the page faker at its position |
| DataGenerator.ItemIndependentOfPage | MusicStore.Api/Services/DataGeneratorService.cs:36-42 | the same index listed on two pages of any sizes has the same likes and the same decorations |
| DataGenerator.GenerateSongDetailsAsync | MusicStore.Api/Services/DataGeneratorService.cs:50-69 | the detail is built from the item seed: faker seeded with it, likes for 5.0, and cover and music each from their own generator seeded with it, then review and lyrics |
| DataGenerator.DetailFirstSample | MusicStore.Api/Services/DataGeneratorService.cs:53-64 | the detail's background hue and tempo, and every listing's extra like, all come from sample 0 of the item's generator, scaled to `[0, 360)` and `[80, 140)` and compared with the fractional part |
| DataGenerator.SaturationFixesFirstNote | MusicStore.Api/Services/CoverGeneratorService.cs:41 | through their shared sample 1, a cover background saturation of 50 fixes the letter of the music's first note (`Next(7)`, MusicGeneratorService.cs:35) to `F` |
| DataGenerator.DetailAgreesWithListing | MusicStore.Api/Services/DataGeneratorService.cs:53-64 | the detail of a listed song has the same index and decorations, music generated from the same item seed, and exactly 5 likes |
| SongsController.CeilDiv | MusicStore.Api/Controllers/SongsController.cs:37 | the quotient is the least number of pages of size `b` that hold `a` items |
| SongsController.TotalPagesIsHundred | MusicStore.Api/Controllers/SongsController.cs:14-15 | the page count is 100, and 100 pages of 10 hold exactly the 1000 songs |
| SongsController.GetSongs | MusicStore.Api/Controllers/SongsController.cs:27-46 | the response holds the listing page for the requested page (ten songs), the page count, the requested page and the page size |
| SongsController.GetSongDetails | MusicStore.Api/Controllers/SongsController.cs:48-58 | the response is the detail of the index (cover and music from the item seed's samples), with that index and 5 likes |
| SongsController.CataloguePages | MusicStore.Api/Controllers/SongsController.cs:34-37 | song `k` of advertised page `page` is song number `(page - 1) * 10 + 1 + k`, within `[1, 1000]` |
| SongsController.CatalogueCovered | MusicStore.Api/Controllers/SongsController.cs:34-37 | every song number `n` in `[1, 1000]` is listed on advertised page `(n - 1) / 10 + 1`, at position `(n - 1) % 10` |
| JsFormat.DecimalString | MusicStore.Api/wwwroot/js/app.js:465 | `toString()` of a whole number below 10^21 is a non-empty string of digits without a leading zero, one digit exactly below 10 |
| JsFormat.DecimalRoundTrip | MusicStore.Api/wwwroot/js/app.js:465 | the digits of `n` read back as `n` |
| JsFormat.PadStart | MusicStore.Api/wwwroot/js/app.js:465 | `padStart` gives the longer of the two lengths, ends with the original string, and is preceded only by the fill character |
| JsFormat.LeadingZeros | MusicStore.Api/wwwroot/js/app.js:465 | zeros put in front of a digit string do not change its value |
| App.PageAccepted | MusicStore.Api/wwwroot/js/app.js:242 | `changePage` accepts a page exactly when it is one of the pages `1, 2, ..., totalPages` |
| App.SeedFromInput | MusicStore.Api/wwwroot/js/app.js:70 | the seed is never 0: `NaN` and 0 fall back to 58933423, any other parsed number is kept |
| App.RandomSeedFrom | MusicStore.Api/wwwroot/js/app.js:78 | the random seed lies in `[0, 100000000)` and is the floor of the scaled draw |
| App.GalleryMerge | MusicStore.Api/wwwroot/js/app.js:147-151 | page 1 replaces the list; a later page keeps the old list as a prefix and appends the answer after it |
| App.FormatTime | MusicStore.Api/wwwroot/js/app.js:462-466 | the label is the decimal minutes, a colon, and a two-digit seconds field that reads back as `seconds % 60` |
| App.SecondsField | MusicStore.Api/wwwroot/js/app.js:464-465 | the seconds part below 60 is two digits that read back as the seconds |
| App.FormatTimeRoundTrip | MusicStore.Api/wwwroot/js/app.js:462-466 | a formatted time is an `m:ss` label that reads back as the number of seconds it was made from |
| App.TrackDurationLabel | MusicStore.Api/wwwroot/js/app.js:400-408 | the player's fixed duration of 132 seconds is shown as `2:12` |
| App.PaginationButtons | MusicStore.Api/wwwroot/js/app.js:229-246 | for a current page in `[1, totalPages]` the previous and next buttons are disabled exactly when `changePage` would refuse their page, and every numbered button asks for a page `changePage` accepts |
| App.GalleryInOrder | MusicStore.Api/wwwroot/js/app.js:147-152 | when the answer to gallery page `p` holds songs `(p - 1) * 10 + 1` to `p * 10`, the gallery after `n` answers holds `10 n` songs and song `k` of it is song number `k + 1` |
| App.ListingNumbered | MusicStore.Api/Services/DataGeneratorService.cs:30-47 | a listing page of ten songs holds songs `(page - 1) * 10 + 1` to `page * 10`, in order |
| App.GalleryIndices | MusicStore.Api/wwwroot/js/app.js:312-316 | scrolling through listing pages 1 to `n` fills the gallery with songs 1 to `10 n`, in order, with no gap and no repetition |
| App.PushPages | MusicStore.Api/wwwroot/js/app.js:212-214 | a push loop from `from` to `to` lists the consecutive pages `from..to`, none when `to < from` |
| App.AppState.constructor | MusicStore.Api/wwwroot/js/app.js:5-18 | the state starts in English, with seed 58933423, 5.0 likes, the gallery, no songs, page 1 of 1, nothing loading, no expanded row, gallery page 1 and more to load |
| App.AppState.RequestedPage | MusicStore.Api/wwwroot/js/app.js:131 | the page a query asks for is at least 1, because the table page and the gallery page always are |
| App.AppState.LoadSongs | MusicStore.Api/wwwroot/js/app.js:126-134 | loading starts and nothing else changes; the query carries language, seed, likes and the table page in table mode or the gallery page otherwise, never a page below 1 |
| App.AppState.FinishLoad | MusicStore.Api/wwwroot/js/app.js:136-161 | loading always ends; a failure changes nothing else; the table takes the songs and the page count; the gallery replaces or extends its list and keeps scrolling exactly when the answer was non-empty |
| App.AppState.RenderPagination | MusicStore.Api/wwwroot/js/app.js:205-227 | the imperative window is the same list of page numbers as the React table view's expression |
| App.AppState.ChangePage | MusicStore.Api/wwwroot/js/app.js:241-246 | a page outside `[1, totalPages]` changes nothing and sends nothing; any other page becomes current, collapses the expanded row, changes nothing else and is requested |
| App.AppState.ToggleRowExpand | MusicStore.Api/wwwroot/js/app.js:248-255 | the expanded row becomes the React row-click toggle of the old one, and nothing else changes |
| App.AppState.LoadMoreSongs | MusicStore.Api/wwwroot/js/app.js:312-316 | while loading, or after an empty page, nothing changes and nothing is sent; otherwise the gallery page goes up by exactly one and that page is requested |
| App.AppState.OnLanguageChange | MusicStore.Api/wwwroot/js/app.js:61-67 | a new language resets the table page and the gallery page to 1 and scrolling to on, and reloads |
| App.AppState.OnSeedChange | MusicStore.Api/wwwroot/js/app.js:69-75 | the parsed seed, or 58933423 for `NaN` and 0, resets both pages to 1 and scrolling to on, and reloads |
| App.AppState.OnRandomSeed | MusicStore.Api/wwwroot/js/app.js:77-84 | a random seed below 100000000 resets both pages to 1 and scrolling to on, and reloads |
| App.AppState.OnLikesInput | MusicStore.Api/wwwroot/js/app.js:86-90 | a new likes value reloads without resetting any page |
| App.AppState.SwitchViewMode | MusicStore.Api/wwwroot/js/app.js:104-124 | the gallery restarts from page 1 with scrolling on; the table goes back to page 1; either way the new mode's page is requested |
| TableView.ButtonCount | MusicStore.Frontend/src/components/TableView.tsx:86 | the number of page buttons is `min(5, totalPages)`, and 0 for a negative count |
| TableView.PageNumber | MusicStore.Frontend/src/components/TableView.tsx:87-96 | for a current page in `[1, totalPages]` every button's page exists, and with more than five pages it lies within four of the current page |
| TableView.PageNumbers | MusicStore.Frontend/src/components/TableView.tsx:86-96 | there is one page number per button |
| TableView.PageNumbersRules | MusicStore.Frontend/src/components/TableView.tsx:87-96 | pages 1 to `totalPages` for at most five pages; otherwise 1 to 5 near the start, the last five near the end, and the current page with two neighbours on each side in between |
| TableView.PageWindow | MusicStore.Frontend/src/components/TableView.tsx:86-96 | for a current page in `[1, totalPages]` the buttons show `min(5, totalPages)` consecutive existing pages, one of them the current page |
| TableView.PrevDisabled | MusicStore.Frontend/src/components/TableView.tsx:81 | for an existing page the previous button is disabled exactly when the page before it does not exist |
| TableView.NextDisabled | MusicStore.Frontend/src/components/TableView.tsx:109 | for a page not past the end the next button is disabled exactly when the page after it does not exist |
| TableView.HandleRowClick | MusicStore.Frontend/src/components/TableView.tsx:27-33 | clicking the expanded row collapses it, and clicking any other row makes it the one expanded row |
| TableView.RowClickTwice | MusicStore.Frontend/src/components/TableView.tsx:27-33 | two clicks on one row restore the previous state exactly when no row or that row was expanded; when another row was expanded they leave every row collapsed |

## Left out

- The algorithms of `System.Random` and of Bogus. Samples are an arbitrary
  sequence per seed, and the faker's texts are an arbitrary function of
  locale, faker seed and position. Word lists, names, genres and lorem
  sentences are not modelled.
- Draws.Scale: computes `sample * (hi - lo)` exactly, not in double
  precision. A product that rounds up to a whole number in .NET can give a
  value one higher there. `Next` over ranges wider than `int.MaxValue`,
  which .NET computes differently, is not used by the services.
- JsFormat.DecimalString: models `toString()` for whole numbers below 10^21
  only. From 10^21 on JavaScript prints exponent form (`1e+21`), and above
  2^53 not every whole number is a JavaScript number.
- `HsvToRgb`, `GetContrastColor` and the placeholder box geometry
  (`len * fontSize * 0.6f`) are left out: these are single-precision
  floating-point computations. Colours stay in HSV form, and the text colour
  is not modelled.
- ImageSharp drawing, font loading, the PNG encoding and the `data:` URL are
  left out. Whether the system font is available is a parameter
  (`fontAvailable`). The `try`/`catch` around text drawing is not modelled;
  a failed text draw is taken not to happen.
- The JSON and Base64 encoding of the music record is left out: the record
  itself is the result.
- `MusicStore.Api/Program.cs`, routing, query binding, CORS and HTTP status
  handling are left out.
- The DOM is left out: rendering of the table, the gallery and the detail
  panel, `escapeHtml`, `updateLoadingState`, `showError`, `showSongDetail`,
  `closeSongDetail`, `loadSongDetail`, `renderSongDetail` and
  `selectedSong`.
- `fetch` is left out. An answer arrives as a parameter of `FinishLoad`;
  `None` stands for any failure.
- The `IntersectionObserver` and the scroll geometry of
  `handleGalleryScroll` are left out. Both only call `loadMoreSongs`.
- `initializeMusicPlayer` is left out: its `setInterval` timer and float
  progress.
- The React components other than the table view are not part of this
  model (`App.tsx`, `GalleryView.tsx`, `SongDetail.tsx`, `SongCard.tsx`,
  `Toolbar.tsx` and `MusicPlayer.tsx`).
- The order in which concurrent `loadSongs` answers arrive is not modelled:
  `LoadSongs` and `FinishLoad` are separate steps that a caller sequences.
- CoverGenerator.FontSize: measures a text by its number of Unicode scalar
  values, while .NET's `string.Length` counts UTF-16 code units, so a title
  with characters outside the Basic Multilingual Plane gets a different size
  in the model.
- CoverGenerator.Upper: upper-cases ASCII letters only; `ToUpperInvariant`
  on other letters is not modelled.
- DataGenerator.LikesFor: the draw and the average are exact reals. `NaN`
  and the overflow of `(int)Math.Floor` for averages below `int.MinValue`
  are not modelled.
- Draws.Random.Next: requires `lo <= hi`. The exception .NET throws
  otherwise is not modelled, because every call in the services uses
  constant bounds with `lo < hi`.
- MusicGenerator.GenerateNotes: takes a natural number of bars, so the
  `int` overflow of `bars * 4` and negative counts are not modelled. The
  service always asks for 16 bars.
- App.FormatTimeRoundTrip: covers whole, non-negative seconds only, with
  fewer than 60 * 10^21 seconds so that the minutes print as digits.
  Fractional and negative inputs of `formatTime` are not modelled.
- App.RandomSeedFrom: computes `Math.random() * 100000000` exactly, not in
  double precision.
- SongsController.CeilDiv: computes `Math.Ceiling(TotalSongs / (double)PageSize)`
  exactly, not in double precision.
- App.AppState.OnSeedChange: takes the result of `parseInt` as a parameter,
  with `None` for `NaN`. `parseInt` itself is not modelled.
- App.AppState.OnLikesInput: takes the result of `parseFloat` as a
  parameter. The `toFixed(1)` label is not modelled.
- App.AppState.OnRandomSeed: takes the draw of `Math.random()` as a
  parameter. Writing the seed back into the input field is not modelled.
