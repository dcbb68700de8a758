/** The songs endpoint: a page of ten generated songs plus the page count of
    a fixed catalogue of a thousand songs, and the detail of one song.
    Routing, query binding and JSON serialization are not modelled. */
module SongsController {
  import opened CSharpInt
  import opened DataGenerator

  const PageSize: int := 10
  const TotalSongs: int := 1000

  /** `(int)Math.Ceiling(a / (double)b)` for a whole `a` and a positive `b`:
      the least number of `b`-sized pages that hold `a` items. */
  function CeilDiv(a: nat, b: int): (q: nat)
    requires b > 0
    ensures q * b >= a
    ensures q == 0 || (q - 1) * b < a
  {
    CeilDivBounds(a, b);
    (a + b - 1) / b
  }

  lemma CeilDivBounds(a: nat, b: int)
    requires b > 0
    ensures (a + b - 1) / b >= 0
    ensures (a + b - 1) / b * b >= a
    ensures (a + b - 1) / b == 0 || ((a + b - 1) / b - 1) * b < a
  {
    var q, r := (a + b - 1) / b, (a + b - 1) % b;
    assert a + b - 1 == q * b + r;
    assert (q - 1) * b == q * b - b;
  }

  /** The page count every response carries. */
  const TotalPages: nat := CeilDiv(TotalSongs, PageSize)

  /** The catalogue fills exactly 100 pages of ten. */
  lemma TotalPagesIsHundred()
    ensures TotalPages == 100
    ensures TotalPages * PageSize == TotalSongs
  {
    assert CeilDiv(1000, 10) == 100;
  }

  /** The response of `GET /api/songs`. */
  datatype SongsPage = SongsPage(songs: seq<Song>, totalPages: int, currentPage: Int32, pageSize: int)

  /** `GetSongs(language, seed, likes, page)`: the listing page of ten songs
      for the requested page, whatever the page, with the fixed page count. */
  method GetSongs(env: Env, language: string, seed: Int64, likes: real, page: Int32) returns (r: SongsPage)
    ensures r.songs == ListingPage(env, language, seed, likes, page, PageSize)
    ensures |r.songs| == PageSize
    ensures r.totalPages == TotalPages && r.currentPage == page && r.pageSize == PageSize
  {
    var songs := GenerateSongsAsync(env, language, seed, likes, page, PageSize);
    r := SongsPage(songs, TotalPages, page, PageSize);
  }

  /** `GetSongDetails(index, language, seed)`: the detail song, whose likes
      are always 5. */
  method GetSongDetails(env: Env, index: Int32, language: string, seed: Int64) returns (song: Song)
    ensures song == DetailSong(env, index, language, seed)
    ensures song.index == index && song.likes == 5
  {
    song := GenerateSongDetailsAsync(env, index, language, seed);
    DetailLikesAreFive(CombineSeed(seed, index), env.randoms);
  }

  /** The advertised pages 1 to 100 list exactly the catalogue: song `k` of
      page `page` is song number `(page - 1) * 10 + 1 + k`, which lies in
      `[1, 1000]`, and every song of the catalogue is on one of those pages. */
  lemma CataloguePages(env: Env, language: string, seed: Int64, likes: real, page: Int32, k: nat)
    requires 1 <= page <= TotalPages && k < PageSize
    ensures ListingPage(env, language, seed, likes, page, PageSize)[k].index == (page - 1) * PageSize + 1 + k
    ensures 1 <= ListingPage(env, language, seed, likes, page, PageSize)[k].index <= TotalSongs
  {
    TotalPagesIsHundred();
    ListingIndices(env, language, seed, likes, page, PageSize, k);
  }

  /** Every song number of the catalogue is listed on one of the advertised
      pages: song `n` is item `(n - 1) % 10` of page `(n - 1) / 10 + 1`. */
  lemma CatalogueCovered(env: Env, language: string, seed: Int64, likes: real, n: int)
    requires 1 <= n <= TotalSongs
    ensures 1 <= (n - 1) / PageSize + 1 <= TotalPages
    ensures ListingPage(env, language, seed, likes, (n - 1) / PageSize + 1, PageSize)[(n - 1) % PageSize].index == n
  {
    TotalPagesIsHundred();
    var page, k := (n - 1) / PageSize + 1, (n - 1) % PageSize;
    TileArithmetic(PageSize, n, page, k);
    CataloguePages(env, language, seed, likes, page, k);
  }
}
