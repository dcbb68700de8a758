/** The cover generator: a 400x400 image painted from one `System.Random`
    seeded with the item seed. A background colour, then three to seven
    decorative shapes, then the album and artist names. The image is
    modelled as the sequence of drawing operations applied to the canvas.
    Colours stay in HSV form: the conversion to RGB and the choice of a
    contrasting text colour are floating-point computations that are not
    modelled. */
module CoverGenerator {
  import opened CSharpInt
  import opened Draws

  const Width: int := 400
  const Height: int := 400

  /** The largest font sizes of the album title and of the artist name. */
  const AlbumFontCap: int := 32
  const ArtistFontCap: int := 24

  datatype Hsv = Hsv(hue: int, saturation: int, value: int, alpha: int)

  datatype Outline = Circle | Square

  /** One drawing operation on the canvas. */
  datatype Paint =
    | Background(color: Hsv)
    | Shape(outline: Outline, color: Hsv, stroke: int, x: int, y: int, size: int)
      // a text drawn with a real font
    | Glyphs(text: string, x: int, y: int, fontSize: int, bold: bool)
      // the semi-transparent box drawn for a text when no font is available
    | TextBox(length: nat, x: int, y: int, fontSize: int)

  predicate IsText(p: Paint)
  {
    p.Glyphs? || p.TextBox?
  }

  /** The operations a stretch of draws produced, and the number of the
      first draw not yet used. */
  datatype Drawn = Drawn(paints: seq<Paint>, next: int)

  /** Everything the draws decide: the background, how many shapes were
      drawn for, the operations painted, and how many draws were used. */
  datatype Decoration = Decoration(background: Hsv, shapeCount: int, paints: seq<Paint>, drawsUsed: int)

  /** A shape's hue, `(bgHue + offset + 360) % 360`: the background hue moved
      by the offset and wrapped into a full turn. */
  function ShapeHue(bgHue: int, offset: int): (h: int)
    ensures 0 <= bgHue < 360 && -60 <= offset < 60 ==> 0 <= h < 360
  {
    Rem(bgHue + offset + 360, 360)
  }

  /** The wrapped hue differs from `bgHue + offset` by whole turns only. */
  lemma ShapeHueWraps(bgHue: int, offset: int)
    ensures (ShapeHue(bgHue, offset) - (bgHue + offset)) % 360 == 0
  {
    var a := bgHue + offset + 360;
    assert a - ShapeHue(bgHue, offset) == 360 * Quot(a, 360);
  }

  /** A decorative shape whose every parameter lies in the range it was drawn from. */
  predicate ShapeInRange(p: Paint)
  {
    && p.Shape?
    && 0 <= p.color.hue < 360
    && 50 <= p.color.saturation < 100
    && 40 <= p.color.value < 80
    && 150 <= p.color.alpha < 255
    && 2 <= p.stroke < 5
    && 0 <= p.x < Width
    && 0 <= p.y < Height
    && 30 <= p.size < 120
  }

  /** A shape's colour from four draws starting at `p`: hue offset,
      saturation, value and alpha. */
  function ShapeColor(s: Stream, p: int, bgHue: int): Hsv
  {
    Hsv(ShapeHue(bgHue, Draw(s, p, -60, 60)), Draw(s, p + 1, 50, 100),
        Draw(s, p + 2, 40, 80), Draw(s, p + 3, 150, 255))
  }

  /** One iteration of the shape loop, starting at draw `p`: type, hue
      offset, saturation, value, alpha, x, y and size, then a stroke width
      only for a circle (type 0) or a square (type 1). Type 2 paints nothing. */
  function ShapeAt(s: Stream, p: int, bgHue: int): (r: Drawn)
    ensures |r.paints| <= 1
    ensures r.next == p + 8 + |r.paints|
    ensures |r.paints| == 1 <==> Draw(s, p, 0, 3) != 2
  {
    var kind := Draw(s, p, 0, 3);
    var color := ShapeColor(s, p + 1, bgHue);
    var x, y, size := Draw(s, p + 5, 0, Width), Draw(s, p + 6, 0, Height), Draw(s, p + 7, 30, 120);
    if kind == 0 then Drawn([Shape(Circle, color, Draw(s, p + 8, 2, 5), x, y, size)], p + 9)
    else if kind == 1 then Drawn([Shape(Square, color, Draw(s, p + 8, 2, 5), x, y, size)], p + 9)
    else Drawn([], p + 8)
  }

  /** The first `n` iterations of the shape loop, starting at draw `p`. */
  function ShapesFrom(s: Stream, p: int, bgHue: int, n: nat): (r: Drawn)
    ensures |r.paints| <= n
    ensures r.next == p + 8 * n + |r.paints|
  {
    if n == 0 then Drawn([], p)
    else
      var before := ShapesFrom(s, p, bgHue, n - 1);
      var last := ShapeAt(s, before.next, bgHue);
      Drawn(before.paints + last.paints, last.next)
  }

  /** A painted shape's parameters all lie in the ranges they were drawn from. */
  lemma ShapeAtInRange(s: Stream, p: int, bgHue: int)
    requires 0 <= bgHue < 360
    ensures forall q :: q in ShapeAt(s, p, bgHue).paints ==> ShapeInRange(q)
  {
  }

  lemma {:induction false} ShapesInRange(s: Stream, p: int, bgHue: int, n: nat)
    requires 0 <= bgHue < 360
    ensures forall k :: 0 <= k < |ShapesFrom(s, p, bgHue, n).paints| ==> ShapeInRange(ShapesFrom(s, p, bgHue, n).paints[k])
  {
    if n > 0 {
      var before := ShapesFrom(s, p, bgHue, n - 1);
      ShapesInRange(s, p, bgHue, n - 1);
      ShapeAtInRange(s, before.next, bgHue);
    }
  }

  /** The part of a cover the draws decide. The background takes draws 0 to
      2, the shape count draw 3, and each shape 8 draws plus one more
      exactly when it is painted. */
  function Decorations(s: Stream): (d: Decoration)
    ensures 0 <= d.background.hue < 360 && 30 <= d.background.saturation < 70
    ensures 60 <= d.background.value < 90 && d.background.alpha == 255
    ensures 3 <= d.shapeCount < 8
    ensures 1 <= |d.paints| <= d.shapeCount + 1 && d.paints[0] == Background(d.background)
    ensures d.drawsUsed == 4 + 8 * d.shapeCount + (|d.paints| - 1)
  {
    var bgHue := Draw(s, 0, 0, 360);
    var background := Hsv(bgHue, Draw(s, 1, 30, 70), Draw(s, 2, 60, 90), 255);
    var count := Draw(s, 3, 3, 8);
    var shapes := ShapesFrom(s, 4, bgHue, count);
    Decoration(background, count, [Background(background)] + shapes.paints, shapes.next)
  }

  /** The schedule of the first draws: the background hue, saturation and
      value are draws 0 to 2, the shape count is draw 3, and the shape loop
      starts at draw 4 with the background hue. */
  lemma DecorationsDrawOrder(s: Stream)
    ensures Decorations(s).background == Hsv(Draw(s, 0, 0, 360), Draw(s, 1, 30, 70), Draw(s, 2, 60, 90), 255)
    ensures Decorations(s).shapeCount == Draw(s, 3, 3, 8)
    ensures Decorations(s).paints[1..] == ShapesFrom(s, 4, Draw(s, 0, 0, 360), Draw(s, 3, 3, 8)).paints
  {
    var shapes := ShapesFrom(s, 4, Draw(s, 0, 0, 360), Draw(s, 3, 3, 8)).paints;
    assert ([Background(Decorations(s).background)] + shapes)[1..] == shapes;
  }

  /** After the background, every operation of the decorations is a shape
      within its ranges; none of them is text. */
  lemma {:induction false} DecorationsInRange(s: Stream)
    ensures forall k :: 1 <= k < |Decorations(s).paints| ==> ShapeInRange(Decorations(s).paints[k])
    ensures forall k :: 0 <= k < |Decorations(s).paints| ==> !IsText(Decorations(s).paints[k])
  {
    var d := Decorations(s);
    var bgHue, count := Draw(s, 0, 0, 360), Draw(s, 3, 3, 8);
    var shapes := ShapesFrom(s, 4, bgHue, count).paints;
    var tail := d.paints[1..];
    assert tail == shapes;
    ShapesInRange(s, 4, bgHue, count);
    forall k | 1 <= k < |d.paints|
      ensures ShapeInRange(d.paints[k])
    {
      assert d.paints[k] == tail[k - 1];
    }
  }

  /** `Math.Min(cap, width / (length + 2))`: a font size that lets a text of
      `length` characters fit the width, never above the cap, and equal to
      the cap for texts short enough. */
  function FontSize(length: nat, cap: nat): (size: int)
    ensures 0 <= size <= cap
    ensures size * (length + 2) <= Width
    ensures cap * (length + 2) <= Width ==> size == cap
    ensures size == cap || Width < (size + 1) * (length + 2)
  {
    FitBounds(length, cap);
    var fit := Width / (length + 2);
    if cap < fit then cap else fit
  }

  /** `Width / (length + 2)` is the largest size whose `length + 2` multiples fit the width. */
  lemma {:induction false} FitBounds(length: nat, cap: nat)
    ensures 0 <= Width / (length + 2)
    ensures (Width / (length + 2)) * (length + 2) <= Width
    ensures Width < (Width / (length + 2) + 1) * (length + 2)
    ensures cap * (length + 2) <= Width ==> cap <= Width / (length + 2)
  {
    var b := length + 2;
    var q := Width / b;
    assert Width == q * b + Width % b;
    assert (q + 1) * b == q * b + b;
    if cap * b <= Width && cap > q {
      MulMonotone(q + 1, cap, b);
      assert false;
    }
  }

  lemma MulMonotone(x: nat, y: nat, b: nat)
    requires x <= y
    ensures x * b <= y * b
  {
  }

  /** ASCII upper-casing, standing for `ToUpperInvariant`; it keeps the length. */
  function Upper(t: string): (u: string)
    ensures |u| == |t|
  {
    seq(|t|, i requires 0 <= i < |t| => if 'a' <= t[i] <= 'z' then (t[i] as int - 32) as char else t[i])
  }

  /** `DrawText`: nothing for an empty text; otherwise one text operation,
      glyphs when a font is available and a placeholder box when not. */
  function DrawText(text: string, x: int, y: int, fontSize: int, bold: bool, fontAvailable: bool): (r: seq<Paint>)
    ensures text == [] <==> r == []
    ensures r == [] || (|r| == 1 && IsText(r[0]))
  {
    if |text| == 0 then []
    else if fontAvailable then [Glyphs(text, x, y, fontSize, bold)]
    else [TextBox(|text|, x, y, fontSize)]
  }

  /** The album title at a quarter of the height and the artist name at
      three quarters, both centred; the title's size is capped at 32 and the
      name's at 24. */
  function TextLayer(album: string, artist: string, fontAvailable: bool): (r: seq<Paint>)
    ensures |r| == (if album == [] then 0 else 1) + (if artist == [] then 0 else 1)
    ensures album != [] ==>
      && IsText(r[0]) && r[0].fontSize == FontSize(|album|, AlbumFontCap)
      && r[0].x == Width / 2 && r[0].y == Height / 4
    ensures artist != [] ==>
      && IsText(r[|r| - 1]) && r[|r| - 1].fontSize == FontSize(|artist|, ArtistFontCap)
      && r[|r| - 1].x == Width / 2 && r[|r| - 1].y == Height * 3 / 4
  {
    DrawText(Upper(album), Width / 2, Height / 4, FontSize(|album|, AlbumFontCap), true, fontAvailable)
    + DrawText(Upper(artist), Width / 2, Height * 3 / 4, FontSize(|artist|, ArtistFontCap), false, fontAvailable)
  }

  /** The whole cover for a generator whose draws are `s`. */
  function CoverImage(album: string, artist: string, s: Stream, fontAvailable: bool): seq<Paint>
  {
    Decorations(s).paints + TextLayer(album, artist, fontAvailable)
  }

  /** One iteration of the shape loop of `GenerateCoverAsync`: the draws are
      taken in the order the C# code evaluates them, and a shape is painted
      only for types 0 and 1, after one more draw for its stroke width. */
  method DrawShape(random: Random, bgHue: int) returns (paints: seq<Paint>)
    modifies random
    ensures Drawn(paints, random.pos) == ShapeAt(random.stream, old(random.pos), bgHue)
  {
    var shapeType := random.Next(0, 3);
    var offset := random.Next(-60, 60);
    var saturation := random.Next(50, 100);
    var value := random.Next(40, 80);
    var alpha := random.Next(150, 255);
    var color := Hsv(ShapeHue(bgHue, offset), saturation, value, alpha);
    var x := random.Next(0, Width);
    var y := random.Next(0, Height);
    var size := random.Next(30, 120);
    if shapeType == 0 {
      var stroke := random.Next(2, 5);
      paints := [Shape(Circle, color, stroke, x, y, size)];
    } else if shapeType == 1 {
      var stroke := random.Next(2, 5);
      paints := [Shape(Square, color, stroke, x, y, size)];
    } else {
      paints := [];
    }
  }

  /** The shape loop of `GenerateCoverAsync`: `count` iterations on the shared generator. */
  method DrawShapes(random: Random, bgHue: int, count: nat) returns (paints: seq<Paint>)
    modifies random
    ensures Drawn(paints, random.pos) == ShapesFrom(random.stream, old(random.pos), bgHue, count)
  {
    ghost var start := random.pos;
    paints := [];
    var i := 0;
    while i < count
      invariant 0 <= i <= count
      invariant Drawn(paints, random.pos) == ShapesFrom(random.stream, start, bgHue, i)
    {
      var more := DrawShape(random, bgHue);
      paints := paints + more;
      i := i + 1;
    }
  }

  /** `GenerateCoverAsync(album, artist, seed)`. */
  method GenerateCoverAsync(album: string, artist: string, seed: Int64, randoms: Seeding, fontAvailable: bool)
    returns (image: seq<Paint>)
    ensures image == CoverImage(album, artist, Seeded(randoms, seed), fontAvailable)
  {
    var random := new Random(Seeded(randoms, seed));
    ghost var s := random.stream;
    var bgHue := random.Next(0, 360);
    var bgSaturation := random.Next(30, 70);
    var bgValue := random.Next(60, 90);
    var bgColor := Hsv(bgHue, bgSaturation, bgValue, 255);
    image := [Background(bgColor)];

    var shapes := random.Next(3, 8);
    var paints := DrawShapes(random, bgHue, shapes);
    image := image + paints;
    assert image == Decorations(s).paints;

    var title := DrawText(Upper(album), Width / 2, Height / 4, FontSize(|album|, AlbumFontCap), true, fontAvailable);
    var name := DrawText(Upper(artist), Width / 2, Height * 3 / 4, FontSize(|artist|, ArtistFontCap), false, fontAvailable);
    assert title + name == TextLayer(album, artist, fontAvailable);
    image := image + title + name;
    assert image == Decorations(s).paints + (title + name);
  }

  /** The cover with its text operations taken out. */
  function NonText(image: seq<Paint>): (r: seq<Paint>)
    ensures |r| <= |image|
  {
    if image == [] then []
    else if IsText(image[0]) then NonText(image[1..])
    else [image[0]] + NonText(image[1..])
  }

  lemma {:induction false} NonTextAppend(a: seq<Paint>, b: seq<Paint>)
    ensures NonText(a + b) == NonText(a) + NonText(b)
  {
    if a == [] {
      assert a + b == b;
    } else {
      assert (a + b)[0] == a[0];
      assert (a + b)[1..] == a[1..] + b;
      NonTextAppend(a[1..], b);
    }
  }

  lemma {:induction false} NonTextKeeps(a: seq<Paint>)
    requires forall k :: 0 <= k < |a| ==> !IsText(a[k])
    ensures NonText(a) == a
  {
    if a != [] {
      NonTextKeeps(a[1..]);
    }
  }

  lemma {:induction false} NonTextDrops(a: seq<Paint>)
    requires forall k :: 0 <= k < |a| ==> IsText(a[k])
    ensures NonText(a) == []
  {
    if a != [] {
      NonTextDrops(a[1..]);
    }
  }

  /** Text drawing consumes no draws: with the texts and the font taken
      out, a cover is exactly its decorations, which depend on the draws alone. */
  lemma CoverWithoutText(album: string, artist: string, s: Stream, fontAvailable: bool)
    ensures NonText(CoverImage(album, artist, s, fontAvailable)) == Decorations(s).paints
  {
    var d := Decorations(s).paints;
    var t := TextLayer(album, artist, fontAvailable);
    DecorationsInRange(s);
    assert forall k :: 0 <= k < |t| ==> IsText(t[k]);
    NonTextAppend(d, t);
    NonTextKeeps(d);
    NonTextDrops(t);
  }
}
