/** The song generator: seeds, locale, likes, and the pages and single items
    the API returns. Every item is derived from an item seed that depends on
    the user's seed and the item's index alone; cover and music are
    generated from that item seed. Titles, artists, albums and genres come
    from the Bogus faker, seen here as an oracle (see `Env`). */
module DataGenerator {
  import opened CSharpInt
  import opened Draws
  import opened Wrappers
  import opened MusicGenerator
  import opened CoverGenerator

  /** `long.MaxValue / 2`, the modulus of the seed combination. */
  const HalfLongMax: int := Int64Max / 2

  /** The texts one `GenerateSong` call takes from the faker. */
  datatype SongText = SongText(title: string, artist: string, album: string, genre: string)

  /** The review and lyrics a detail request takes from the faker after the song's texts. */
  datatype DetailText = DetailText(review: string, lyrics: seq<string>)

  /** What the generator receives from libraries it does not define:
      - `randoms`: the samples of `new Random(seed)`, for every seed; the
        likes, the cover and the music of an item each build their own
        generator from the item seed, so they all read the same samples;
      - `songText(locale, fakerSeed, k)`: the texts of the `k`-th song
        generated by a faker for `locale` whose randomizer was seeded with
        `fakerSeed` (a faker is stateful, so the position matters);
      - `detailText(locale, fakerSeed)`: the review and lyrics drawn by such a
        faker after its first song;
      - `fontAvailable`: whether the system font could be loaded. */
  datatype Env = Env(
    randoms: Seeding,
    songText: (string, int, int) -> SongText,
    detailText: (string, int) -> DetailText,
    fontAvailable: bool)

  /** The texts of the `k`-th song of a faker for `locale` seeded with `fakerSeed`. */
  function FakerSong(env: Env, locale: string, fakerSeed: int, k: int): SongText
  {
    env.songText(locale, fakerSeed, k)
  }

  /** The review and lyrics a faker for `locale` seeded with `fakerSeed` draws after its first song. */
  function FakerDetail(env: Env, locale: string, fakerSeed: int): DetailText
  {
    env.detailText(locale, fakerSeed)
  }

  /** `SongDto`. A listing leaves `music` as `None` (the empty Base64 string)
      and `review` and `lyrics` empty, as the DTO's defaults do. */
  datatype Song = Song(
    index: Int32,
    title: string,
    artist: string,
    album: string,
    genre: string,
    likes: int,
    cover: seq<Paint>,
    music: Option<MusicParams>,
    review: string,
    lyrics: seq<string>)

  /** `CombineSeed(seed, pageOrIndex)`: `(seed * 31 + pageOrIndex) % (long.MaxValue / 2)`
      in unchecked `long` arithmetic. The product and the sum wrap, but one
      wrap of the exact value gives the same dividend; the remainder takes
      the dividend's sign. */
  function CombineSeed(seed: Int64, pageOrIndex: Int32): (r: Int64)
    ensures r == Rem(Wrap64(seed * 31 + pageOrIndex), HalfLongMax)
    ensures -HalfLongMax < r < HalfLongMax
    ensures Wrap64(seed * 31 + pageOrIndex) >= 0 ==> r >= 0
  {
    Wrap64Absorbs(seed * 31, pageOrIndex);
    Rem(Wrap64(Wrap64(seed * 31) + pageOrIndex), HalfLongMax)
  }

  /** Without overflow and with non-negative operands the combination is the
      plain remainder, in `[0, long.MaxValue / 2)`; in particular
      `CombineSeed(0, 0) == 0`. */
  lemma CombineSeedNatural(seed: Int64, pageOrIndex: Int32)
    requires 0 <= seed && 0 <= pageOrIndex && seed * 31 + pageOrIndex <= Int64Max
    ensures CombineSeed(seed, pageOrIndex) == (seed * 31 + pageOrIndex) % HalfLongMax
    ensures 0 <= CombineSeed(seed, pageOrIndex) < HalfLongMax
  {
    var x := seed * 31 + pageOrIndex;
    assert Wrap64(x) == x;
  }

  /** A negative seed gives a negative combination: C#'s `%` keeps the
      dividend's sign, so item seeds are not always non-negative. */
  lemma CombineSeedNegative()
    ensures CombineSeed(-1, 0) == -31
  {
    RemSmall(-31, HalfLongMax);
  }

  /** `GetLocale(language)`: the Bogus locale for a language tag. */
  function GetLocale(language: string): (locale: string)
    ensures locale == "de" <==> language == "de-DE"
    ensures locale == "uk" <==> language == "uk-UA"
    ensures locale == "en_US" <==> language != "de-DE" && language != "uk-UA"
  {
    if language == "de-DE" then "de"
    else if language == "uk-UA" then "uk"
    else "en_US"
  }

  /** The likes rule of `GenerateLikes` for a draw `u` of `NextDouble()`:
      none for an average of 0, ten for an average of 10 or more, otherwise
      the whole part of the average plus one extra like with a probability
      equal to its fractional part, never more than 10. */
  function LikesFor(avgLikes: real, u: real): (likes: int)
    requires 0.0 <= u < 1.0
    ensures avgLikes == 0.0 ==> likes == 0
    ensures avgLikes >= 10.0 ==> likes == 10
    ensures avgLikes != 0.0 && avgLikes < 10.0 ==>
      && avgLikes.Floor <= likes <= avgLikes.Floor + 1
      && (likes == avgLikes.Floor + 1 <==> u < avgLikes - avgLikes.Floor as real)
    ensures 0.0 <= avgLikes ==> 0 <= likes <= 10
  {
    if avgLikes == 0.0 then 0
    else if avgLikes >= 10.0 then 10
    else
      var fractionalPart := avgLikes - avgLikes.Floor as real;
      var baseLikes := avgLikes.Floor;
      var extra := if u < fractionalPart then 1 else 0;
      if baseLikes + extra < 10 then baseLikes + extra else 10
  }

  /** `GenerateLikes(avgLikes, seed)`: the draw is the first `NextDouble()` of
      `new Random((int)(seed % int.MaxValue))`, that is, sample 0 of the
      generator the cover and the music of the same seed start from. */
  function GenerateLikes(avgLikes: real, seed: Int64, randoms: Seeding): (likes: int)
    ensures avgLikes == 0.0 ==> likes == 0
    ensures avgLikes >= 10.0 ==> likes == 10
    ensures avgLikes != 0.0 && avgLikes < 10.0 ==>
      && avgLikes.Floor <= likes <= avgLikes.Floor + 1
      && (likes == avgLikes.Floor + 1 <==> Sample(Seeded(randoms, seed), 0) < avgLikes - avgLikes.Floor as real)
    ensures 0.0 <= avgLikes ==> 0 <= likes <= 10
  {
    LikesFor(avgLikes, Sample(Seeded(randoms, seed), 0))
  }

  /** Detail requests use an average of 5.0, which has no fractional part:
      every detail has exactly five likes, whatever the draw. */
  lemma DetailLikesAreFive(seed: Int64, randoms: Seeding)
    ensures GenerateLikes(5.0, seed, randoms) == 5
  {
    var u := Sample(Seeded(randoms, seed), 0);
    assert (5.0).Floor == 5;
    assert !(u < 5.0 - 5.0);
  }

  /** `GenerateSong(index, language, seed, avgLikes, faker)` for the texts
      `text` the faker produces: no cover, music, review or lyrics yet. */
  function GenerateSong(index: Int32, seed: Int64, avgLikes: real, text: SongText, randoms: Seeding): (song: Song)
    ensures song.index == index && song.likes == GenerateLikes(avgLikes, seed, randoms)
    ensures 0.0 <= avgLikes ==> 0 <= song.likes <= 10
    ensures song.title == text.title && song.artist == text.artist && song.album == text.album && song.genre == text.genre
    ensures song.cover == [] && song.music == None && song.review == [] && song.lyrics == []
  {
    Song(index, text.title, text.artist, text.album, text.genre, GenerateLikes(avgLikes, seed, randoms), [], None, [], [])
  }

  /** `startIndex = (page - 1) * pageSize + 1`, in unchecked `int` arithmetic:
      the exact value modulo 2^32, and the exact value itself when
      `page * pageSize` fits an `int`. */
  function StartIndex(page: Int32, pageSize: Int32): (r: Int32)
    ensures (r - ((page - 1) * pageSize + 1)) % Two32 == 0
    ensures 1 <= page && 0 <= pageSize && page * pageSize <= Int32Max ==> r == (page - 1) * pageSize + 1
  {
    PageProduct(page, pageSize);
    Wrap32Times(page - 1, pageSize);
    var w := Wrap32(Wrap32(page - 1) * pageSize);
    Wrap32Plus(w, (page - 1) * pageSize, 1);
    Wrap32(w + 1)
  }

  /** The index of item `i` of a page: `startIndex + i`, in unchecked `int`
      arithmetic; without overflow, `(page - 1) * pageSize + 1 + i`. */
  function ItemIndex(page: Int32, pageSize: Int32, i: int): (r: Int32)
    ensures (r - ((page - 1) * pageSize + 1 + i)) % Two32 == 0
    ensures 1 <= page && 0 <= pageSize && page * pageSize <= Int32Max && 0 <= i < pageSize
      ==> r == (page - 1) * pageSize + 1 + i
  {
    PageProduct(page, pageSize);
    Wrap32Plus(StartIndex(page, pageSize), (page - 1) * pageSize + 1, i);
    Wrap32(StartIndex(page, pageSize) + i)
  }

  lemma PageProduct(page: int, pageSize: int)
    ensures page * pageSize == (page - 1) * pageSize + pageSize
    ensures 1 <= page && 0 <= pageSize ==> 0 <= (page - 1) * pageSize
  {
  }

  /** The listed item with index `index` and the faker texts `text`: its
      likes and its cover come from its item seed. */
  function ItemSong(env: Env, seed: Int64, likes: real, index: Int32, text: SongText): Song
  {
    var songSeed := CombineSeed(seed, index);
    GenerateSong(index, songSeed, likes, text, env.randoms)
      .(cover := CoverImage(text.album, text.artist, Seeded(env.randoms, songSeed), env.fontAvailable))
  }

  /** Item `i` of a listing page, cover included. */
  function ListedSong(env: Env, language: string, seed: Int64, likes: real, page: Int32, pageSize: Int32, i: int): Song
  {
    ItemSong(env, seed, likes, ItemIndex(page, pageSize, i),
             FakerSong(env, GetLocale(language), RandomSeed(CombineSeed(seed, page)), i))
  }

  /** The values of `item` at positions `0` to `n - 1`, in order. */
  function Tabulate(item: int -> Song, n: int): (songs: seq<Song>)
    ensures |songs| == if n < 0 then 0 else n
  {
    if n <= 0 then [] else Tabulate(item, n - 1) + [item(n - 1)]
  }

  lemma {:induction false} TabulateAt(item: int -> Song, n: int, k: nat)
    requires k < n
    ensures Tabulate(item, n)[k] == item(k)
  {
    if k < n - 1 {
      TabulateAt(item, n - 1, k);
    }
  }

  /** The items of a listing page, by position. */
  function ListedItems(env: Env, language: string, seed: Int64, likes: real, page: Int32, pageSize: Int32): int -> Song
  {
    i => ListedSong(env, language, seed, likes, page, pageSize, i)
  }

  /** The first `n` items of a listing page. */
  function ListingPrefix(env: Env, language: string, seed: Int64, likes: real, page: Int32, pageSize: Int32, n: int)
    : (songs: seq<Song>)
    ensures |songs| == if n < 0 then 0 else n
  {
    Tabulate(ListedItems(env, language, seed, likes, page, pageSize), n)
  }

  /** The page `GenerateSongsAsync` returns: `pageSize` items, none for a
      non-positive `pageSize`. */
  function ListingPage(env: Env, language: string, seed: Int64, likes: real, page: Int32, pageSize: Int32): seq<Song>
  {
    ListingPrefix(env, language, seed, likes, page, pageSize, pageSize)
  }

  lemma ListingPrefixAt(env: Env, language: string, seed: Int64, likes: real, page: Int32, pageSize: Int32, n: int, k: nat)
    requires k < n
    ensures ListingPrefix(env, language, seed, likes, page, pageSize, n)[k] == ListedSong(env, language, seed, likes, page, pageSize, k)
  {
    TabulateAt(ListedItems(env, language, seed, likes, page, pageSize), n, k);
  }

  /** A listed item is the item of its index with the texts of its position. */
  lemma ListedSongIsItem(env: Env, language: string, seed: Int64, likes: real, page: Int32, pageSize: Int32,
                         i: int, index: Int32, text: SongText)
    requires index == ItemIndex(page, pageSize, i)
    requires text == FakerSong(env, GetLocale(language), RandomSeed(CombineSeed(seed, page)), i)
    ensures ListedSong(env, language, seed, likes, page, pageSize, i) == ItemSong(env, seed, likes, index, text)
  {
  }

  /** One pass of the loop in `GenerateSongsAsync`: item `i` takes index
      `startIndex + i`, its text from the page's faker, and its likes and
      cover from its own item seed. */
  method GenerateListedSong(env: Env, language: string, seed: Int64, likes: real, page: Int32, pageSize: Int32,
                            locale: string, fakerSeed: Int32, startIndex: Int32, i: int)
    returns (song: Song)
    requires locale == GetLocale(language)
    requires fakerSeed == RandomSeed(CombineSeed(seed, page))
    requires startIndex == StartIndex(page, pageSize)
    ensures song == ListedSong(env, language, seed, likes, page, pageSize, i)
  {
    var index := Wrap32(startIndex + i);
    assert index == ItemIndex(page, pageSize, i);
    var songSeed := CombineSeed(seed, index);
    var text := FakerSong(env, locale, fakerSeed, i);
    song := GenerateSong(index, songSeed, likes, text, env.randoms);
    var cover := GenerateCoverAsync(text.album, text.artist, songSeed, env.randoms, env.fontAvailable);
    song := song.(cover := cover);
    assert song == ItemSong(env, seed, likes, index, text);
    ListedSongIsItem(env, language, seed, likes, page, pageSize, i, index, text);
  }

  /** A prefix of the listing grows by the next listed item. */
  lemma ListingPrefixGrows(env: Env, language: string, seed: Int64, likes: real, page: Int32, pageSize: Int32,
                           i: nat, songs: seq<Song>, song: Song)
    requires songs == ListingPrefix(env, language, seed, likes, page, pageSize, i)
    requires song == ListedSong(env, language, seed, likes, page, pageSize, i)
    ensures songs + [song] == ListingPrefix(env, language, seed, likes, page, pageSize, i + 1)
  {
    assert song == ListedItems(env, language, seed, likes, page, pageSize)(i);
  }

  /** `GenerateSongsAsync(language, seed, likes, page, pageSize)`. One faker,
      seeded with the page's combined seed, serves the whole page; each item
      gets its own item seed, from which its likes and cover are drawn. */
  method GenerateSongsAsync(env: Env, language: string, seed: Int64, likes: real, page: Int32, pageSize: Int32)
    returns (songs: seq<Song>)
    ensures songs == ListingPage(env, language, seed, likes, page, pageSize)
  {
    var combinedSeed := CombineSeed(seed, page);
    var locale := GetLocale(language);
    var fakerSeed := RandomSeed(combinedSeed);
    songs := [];
    var startIndex := StartIndex(page, pageSize);
    var i := 0;
    while i < pageSize
      invariant 0 <= i && (i <= pageSize || i == 0)
      invariant songs == ListingPrefix(env, language, seed, likes, page, pageSize, i)
    {
      var song := GenerateListedSong(env, language, seed, likes, page, pageSize, locale, fakerSeed, startIndex, i);
      ListingPrefixGrows(env, language, seed, likes, page, pageSize, i, songs, song);
      songs := songs + [song];
      i := i + 1;
    }
    assert i == pageSize || (pageSize <= 0 && i == 0);
  }

  /** Without `int` overflow a page has exactly `pageSize` items whose
      indices run from `(page - 1) * pageSize + 1` upwards in steps of one. */
  lemma ListingIndices(env: Env, language: string, seed: Int64, likes: real, page: Int32, pageSize: Int32, k: nat)
    requires 1 <= page && 0 <= pageSize && page * pageSize <= Int32Max
    requires k < pageSize
    ensures |ListingPage(env, language, seed, likes, page, pageSize)| == pageSize
    ensures ListingPage(env, language, seed, likes, page, pageSize)[k].index == (page - 1) * pageSize + 1 + k
  {
    ListingPrefixAt(env, language, seed, likes, page, pageSize, pageSize, k);
  }

  /** A page that fits an `int` holds `pageSize` consecutive indices, from
      `(page - 1) * pageSize + 1` on. */
  lemma ListingNumbers(env: Env, language: string, seed: Int64, likes: real, page: Int32, pageSize: Int32)
    requires 1 <= page && 0 <= pageSize && page * pageSize <= Int32Max
    ensures |ListingPage(env, language, seed, likes, page, pageSize)| == pageSize
    ensures forall j :: 0 <= j < pageSize ==>
      ListingPage(env, language, seed, likes, page, pageSize)[j].index == (page - 1) * pageSize + 1 + j
  {
    forall j | 0 <= j < pageSize
      ensures ListingPage(env, language, seed, likes, page, pageSize)[j].index == (page - 1) * pageSize + 1 + j
    {
      ListingIndices(env, language, seed, likes, page, pageSize, j);
    }
  }

  /** Pages tile the indices: index `n >= 1` is item `(n - 1) % pageSize` of
      page `(n - 1) / pageSize + 1`, and of no other page or position. */
  lemma PagesTile(env: Env, language: string, seed: Int64, likes: real, pageSize: Int32, n: int, page: Int32, k: nat)
    requires 1 <= pageSize && 1 <= n && 1 <= page && page * pageSize <= Int32Max
    requires k < pageSize
    ensures ListingPage(env, language, seed, likes, page, pageSize)[k].index == n
      <==> page == (n - 1) / pageSize + 1 && k == (n - 1) % pageSize
  {
    ListingIndices(env, language, seed, likes, page, pageSize, k);
    TileArithmetic(pageSize, n, page, k);
  }

  /** Position `k` of page `page` holds index `n` exactly when `page` and `k`
      are the quotient (plus one) and remainder of `n - 1` by the page size. */
  lemma TileArithmetic(pageSize: int, n: int, page: int, k: int)
    requires 1 <= pageSize && 0 <= k < pageSize
    ensures (page - 1) * pageSize + 1 + k == n <==> page == (n - 1) / pageSize + 1 && k == (n - 1) % pageSize
  {
    if (page - 1) * pageSize + 1 + k == n {
      DivisionUnique(n - 1, pageSize, page - 1, k);
    }
    if page == (n - 1) / pageSize + 1 && k == (n - 1) % pageSize {
      assert n - 1 == ((n - 1) / pageSize) * pageSize + (n - 1) % pageSize;
    }
  }

  /** Euclidean division has one quotient and remainder. */
  lemma DivisionUnique(a: int, b: int, q: int, r: int)
    requires b > 0 && 0 <= r < b && a == q * b + r
    ensures q == a / b && r == a % b
  {
    var q', r' := a / b, a % b;
    assert a == q' * b + r';
    assert (q - q') * b == r' - r;
    if q > q' {
      MulAtLeast(q - q', b);
    } else if q < q' {
      MulAtLeast(q' - q, b);
    }
  }

  lemma MulAtLeast(d: int, b: int)
    requires d >= 1 && b > 0
    ensures d * b >= b
  {
    var e := d - 1;
    assert d * b == e * b + b;
  }

  /** Index `n` appears on its page when that page does not overflow. */
  lemma IndexListed(env: Env, language: string, seed: Int64, likes: real, pageSize: Int32, n: int)
    requires 1 <= pageSize && 1 <= n && ((n - 1) / pageSize + 1) * pageSize <= Int32Max
    ensures var page := (n - 1) / pageSize + 1;
      ListingPage(env, language, seed, likes, page, pageSize)[(n - 1) % pageSize].index == n
  {
    var page, k := (n - 1) / pageSize + 1, (n - 1) % pageSize;
    assert 1 <= page && 0 <= k < pageSize && page * pageSize <= Int32Max;
    TileArithmetic(pageSize, n, page, k);
    ListingIndices(env, language, seed, likes, page, pageSize, k);
  }

  /** Item `k` of any page is built from the item seed of its index: its
      likes and its decorations depend on `(seed, index)` and on nothing
      of the page, while its title, artist and album come from the page's
      faker. */
  lemma ListedSongSeed(env: Env, language: string, seed: Int64, likes: real, page: Int32, pageSize: Int32, k: nat)
    requires k < pageSize
    ensures var song := ListingPage(env, language, seed, likes, page, pageSize)[k];
      && song.index == ItemIndex(page, pageSize, k)
      && song.likes == GenerateLikes(likes, CombineSeed(seed, song.index), env.randoms)
      && NonText(song.cover) == Decorations(Seeded(env.randoms, CombineSeed(seed, song.index))).paints
      && song.title == FakerSong(env, GetLocale(language), RandomSeed(CombineSeed(seed, page)), k).title
  {
    ListingPrefixAt(env, language, seed, likes, page, pageSize, pageSize, k);
    var song := ListingPage(env, language, seed, likes, page, pageSize)[k];
    var text := FakerSong(env, GetLocale(language), RandomSeed(CombineSeed(seed, page)), k);
    CoverWithoutText(text.album, text.artist, Seeded(env.randoms, CombineSeed(seed, song.index)), env.fontAvailable);
  }

  /** The same index listed on two pages of different sizes gets the same
      likes and the same decorations. */
  lemma ItemIndependentOfPage(env: Env, language: string, seed: Int64, likes: real,
                              page1: Int32, pageSize1: Int32, k1: nat, page2: Int32, pageSize2: Int32, k2: nat)
    requires k1 < pageSize1 && k2 < pageSize2
    requires ItemIndex(page1, pageSize1, k1) == ItemIndex(page2, pageSize2, k2)
    ensures ListingPage(env, language, seed, likes, page1, pageSize1)[k1].likes
         == ListingPage(env, language, seed, likes, page2, pageSize2)[k2].likes
    ensures NonText(ListingPage(env, language, seed, likes, page1, pageSize1)[k1].cover)
         == NonText(ListingPage(env, language, seed, likes, page2, pageSize2)[k2].cover)
  {
    ListedSongSeed(env, language, seed, likes, page1, pageSize1, k1);
    ListedSongSeed(env, language, seed, likes, page2, pageSize2, k2);
  }

  /** The item a detail request returns: the item seed's faker supplies the
      texts, then the review and lyrics; likes use an average of 5.0; cover
      and music are generated from the item seed. */
  function DetailSong(env: Env, index: Int32, language: string, seed: Int64): Song
  {
    var songSeed := CombineSeed(seed, index);
    var locale := GetLocale(language);
    var fakerSeed := RandomSeed(songSeed);
    var text := FakerSong(env, locale, fakerSeed, 0);
    var detail := FakerDetail(env, locale, fakerSeed);
    GenerateSong(index, songSeed, 5.0, text, env.randoms)
      .(cover := CoverImage(text.album, text.artist, Seeded(env.randoms, songSeed), env.fontAvailable),
        music := Some(MusicFor(songSeed, Seeded(env.randoms, songSeed))),
        review := detail.review,
        lyrics := detail.lyrics)
  }

  /** `GenerateSongDetailsAsync(index, language, seed)`. */
  method GenerateSongDetailsAsync(env: Env, index: Int32, language: string, seed: Int64) returns (song: Song)
    ensures song == DetailSong(env, index, language, seed)
  {
    var songSeed := CombineSeed(seed, index);
    var locale := GetLocale(language);
    var fakerSeed := RandomSeed(songSeed);
    song := GenerateSong(index, songSeed, 5.0, FakerSong(env, locale, fakerSeed, 0), env.randoms);
    var cover := GenerateCoverAsync(song.album, song.artist, songSeed, env.randoms, env.fontAvailable);
    var music := GenerateMusicAsync(songSeed, language, env.randoms);
    var detail := FakerDetail(env, locale, fakerSeed);
    song := song.(cover := cover, music := Some(music), review := detail.review, lyrics := detail.lyrics);
  }

  /** A detail agrees with the listing on everything the item seed decides:
      the same index, the same decorations, music generated from the item
      seed, and always five likes. */
  lemma DetailAgreesWithListing(env: Env, language: string, seed: Int64, likes: real, page: Int32, pageSize: Int32, k: nat)
    requires k < pageSize
    ensures var listed := ListingPage(env, language, seed, likes, page, pageSize)[k];
      var detail := DetailSong(env, listed.index, language, seed);
      && detail.index == listed.index
      && NonText(detail.cover) == NonText(listed.cover)
      && detail.music == Some(MusicFor(CombineSeed(seed, listed.index), Seeded(env.randoms, CombineSeed(seed, listed.index))))
      && detail.likes == 5
  {
    var listed := ListingPage(env, language, seed, likes, page, pageSize)[k];
    ListedSongSeed(env, language, seed, likes, page, pageSize, k);
    var songSeed := CombineSeed(seed, listed.index);
    var fakerSeed := RandomSeed(songSeed);
    var text := FakerSong(env, GetLocale(language), fakerSeed, 0);
    CoverWithoutText(text.album, text.artist, Seeded(env.randoms, songSeed), env.fontAvailable);
    DetailLikesAreFive(songSeed, env.randoms);
  }

  /** The cover and the music of a detail read the same samples, as the two
      services' generators do in .NET: the background hue and the tempo are
      both the first sample of the item's generator, scaled to `[0, 360)`
      and to `[80, 140)`, and so is the extra like of every listing of that
      item. */
  lemma DetailFirstSample(env: Env, index: Int32, language: string, seed: Int64, avgLikes: real)
    ensures var song := DetailSong(env, index, language, seed);
      var u := Sample(Seeded(env.randoms, CombineSeed(seed, index)), 0);
      && song.cover[0] == Background(Hsv(Scale(u, 0, 360), Draw(Seeded(env.randoms, CombineSeed(seed, index)), 1, 30, 70),
                                         Draw(Seeded(env.randoms, CombineSeed(seed, index)), 2, 60, 90), 255))
      && song.music.Some? && song.music.value.tempo == Scale(u, 80, 140)
      && GenerateLikes(avgLikes, CombineSeed(seed, index), env.randoms) == LikesFor(avgLikes, u)
  {
    var s := Seeded(env.randoms, CombineSeed(seed, index));
    DecorationsDrawOrder(s);
    MusicDrawOrder(CombineSeed(seed, index), s, 0);
  }

  /** A sample that `Next(30, 70)` maps to 50 lies in `[0.5, 0.525)`, which
      `Next(7)` maps to 3. */
  lemma SaturationFiftyLetter(u: real)
    requires 0.0 <= u < 1.0 && Scale(u, 30, 70) == 50
    ensures Scale(u, 0, 7) == 3
  {
    assert (u * 40.0).Floor == 20;
    assert 20.0 <= u * 40.0 < 21.0;
    assert 3.5 <= u * 7.0 < 3.675;
  }

  /** Cover and music constrain each other through their shared samples: a
      background saturation of 50 (`Next(30, 70)` on sample 1) puts sample 1
      in `[0.5, 0.525)`, so the letter of the record's first note, which
      `MusicDrawOrder` places at draws 1 and 2 (`Next(7)` on sample 1), is `F`. */
  lemma SaturationFixesFirstNote(s: Stream)
    requires Decorations(s).background.saturation == 50
    ensures NoteAt(s, 1)[0] == 'F'
  {
    DecorationsDrawOrder(s);
    SaturationFiftyLetter(Sample(s, 1));
  }
}
