/** Tiling layout of the wallpaper visualizer.

    One render pass shrinks the wall uniformly so that it fits a stage of at
    most 1000 x 800 units, stretches the wallpaper image to the wall's height
    (keeping the image's aspect ratio), and lays ceil(visible width / tile
    width) + 4 copies of it side by side, starting two copies before the one
    it centres on the visible width, all shifted by the pan offset.  JavaScript numbers are idealised as `real`. */
module Layout {

  /** The largest stage the wall is drawn on, in device-independent units. */
  const MaxStageWidth: real := 1000.0
  const MaxStageHeight: real := 800.0

  /** Natural pixel size of a wallpaper image. */
  datatype Image = Image(width: real, height: real)

  /** A decoded image: both sides are positive. */
  type Bitmap = b: Image | b.width > 0.0 && b.height > 0.0 witness Image(1.0, 1.0)

  /** One copy of the bitmap on the layer, stretched to this rectangle. */
  datatype Tile = Tile(x: real, y: real, width: real, height: real)

  function Min(a: real, b: real): (r: real)
    ensures r <= a && r <= b
    ensures r == a || r == b
  {
    if a <= b then a else b
  }

  /** `Math.ceil`: the least integer that is not below `x`. */
  function Ceil(x: real): (c: int)
    ensures (c - 1) as real < x <= c as real
  {
    -((-x).Floor)
  }

  /** The scale the component stores after a render, in the conditional form
      it is computed in; it agrees with min(1, 1000/w, 800/h). */
  function Scale(wallWidth: real, wallHeight: real): (s: real)
    requires wallWidth > 0.0 && wallHeight > 0.0
    ensures 0.0 < s <= 1.0
    ensures s == Min(1.0, Min(MaxStageWidth / wallWidth, MaxStageHeight / wallHeight))
  {
    QuotientAgainstOne(MaxStageWidth, wallWidth);
    QuotientAgainstOne(MaxStageHeight, wallHeight);
    var scaleX := if wallWidth > MaxStageWidth then MaxStageWidth / wallWidth else 1.0;
    var scaleY := if wallHeight > MaxStageHeight then MaxStageHeight / wallHeight else 1.0;
    Min(scaleX, scaleY)
  }

  /** A quotient of positives is below one exactly when the dividend is
      below the divisor. */
  lemma QuotientAgainstOne(a: real, b: real)
    requires a > 0.0 && b > 0.0
    ensures 0.0 < a / b
    ensures a / b < 1.0 <==> a < b
  {
    var q := a / b;
    assert q * b == a;
    assert a - b == (q - 1.0) * b;
    if q < 1.0 {
      ProductNegative(q - 1.0, b);
    } else {
      ProductNonNegative(q - 1.0, b);
    }
  }

  lemma ProductNegative(x: real, y: real)
    requires x < 0.0 && y > 0.0
    ensures x * y < 0.0
  {
  }

  lemma ProductPositive(x: real, y: real)
    requires x > 0.0 && y > 0.0
    ensures x * y > 0.0
  {
  }

  lemma ProductNonNegative(x: real, y: real)
    requires x >= 0.0 && y > 0.0
    ensures x * y >= 0.0
  {
  }

  /** Size of the stage the component mounts: the wall's own size, capped
      at the largest stage. */
  function StageWidth(wallWidth: real): (r: real)
    ensures r <= MaxStageWidth && r <= wallWidth
    ensures wallWidth <= MaxStageWidth ==> r == wallWidth
    ensures wallWidth >= MaxStageWidth ==> r == MaxStageWidth
  {
    Min(wallWidth, MaxStageWidth)
  }

  function StageHeight(wallHeight: real): (r: real)
    ensures r <= MaxStageHeight && r <= wallHeight
    ensures wallHeight <= MaxStageHeight ==> r == wallHeight
    ensures wallHeight >= MaxStageHeight ==> r == MaxStageHeight
  {
    Min(wallHeight, MaxStageHeight)
  }

  /** Width of one tile: the image scaled to the wall's height, then by the
      stage scale.  The tile keeps the image's aspect ratio. */
  function TileWidth(wallHeight: real, image: Bitmap, scale: real): (r: real)
    requires wallHeight > 0.0 && scale > 0.0
    ensures r > 0.0
    ensures r * image.height == image.width * (wallHeight * scale)
  {
    image.width * (wallHeight / image.height) * scale
  }

  /** Number of tiles drawn: enough to reach the visible width, plus four.
      Removing the four spare tiles leaves the least count whose total width
      reaches the visible width. */
  function Repetitions(visibleWidth: real, tileWidth: real): (n: nat)
    requires visibleWidth > 0.0 && tileWidth > 0.0
    ensures n >= 5
    ensures (n - 5) as real * tileWidth < visibleWidth <= (n - 4) as real * tileWidth
  {
    var c := Ceil(visibleWidth / tileWidth);
    CeilTimes(visibleWidth, tileWidth, c);
    c + 4
  }

  /** Multiplying the bounds of a ceiling of a quotient back by the divisor. */
  lemma CeilTimes(a: real, b: real, c: int)
    requires b > 0.0
    requires (c - 1) as real < a / b <= c as real
    ensures (c - 1) as real * b < a <= c as real * b
  {
  }

  /** Left edge of the tile of index 0 when there is no pan: a tile's width
      centred on the visible width. */
  function CenteringOffset(visibleWidth: real, tileWidth: real): (c: real)
    ensures visibleWidth - (c + tileWidth) == c
  {
    (visibleWidth - tileWidth) / 2.0
  }

  /** The tile of index `i` (indices start at -2). */
  function TileAt(i: int, tileWidth: real, shift: real, centering: real, height: real): Tile
  {
    Tile(i as real * tileWidth + shift + centering, 0.0, tileWidth, height)
  }

  /** `n` tiles of indices -2 up to n - 3. */
  function Row(n: nat, tileWidth: real, shift: real, centering: real, height: real): seq<Tile>
  {
    seq(n, k => TileAt(k - 2, tileWidth, shift, centering, height))
  }

  /** The layer's tiles after one render pass over a wall, a bitmap and a
      pan offset: a function of these inputs alone. */
  function Tiles(wallWidth: real, wallHeight: real, image: Bitmap, offsetX: real): (t: seq<Tile>)
    requires wallWidth > 0.0 && wallHeight > 0.0
    ensures |t| >= 5
  {
    var scale := Scale(wallWidth, wallHeight);
    var tileWidth := TileWidth(wallHeight, image, scale);
    var visibleWidth := wallWidth * scale;
    Row(Repetitions(visibleWidth, tileWidth), tileWidth, offsetX * scale,
        CenteringOffset(visibleWidth, tileWidth), wallHeight * scale)
  }

  /** `Tiles` in terms of the intermediate values a render pass computes. */
  lemma TilesAre(wallWidth: real, wallHeight: real, image: Bitmap, offsetX: real,
                 scale: real, tileWidth: real, visibleWidth: real, n: nat, centering: real)
    requires wallWidth > 0.0 && wallHeight > 0.0
    requires scale == Scale(wallWidth, wallHeight)
    requires tileWidth == TileWidth(wallHeight, image, scale)
    requires visibleWidth == wallWidth * scale
    requires n == Repetitions(visibleWidth, tileWidth)
    requires centering == CenteringOffset(visibleWidth, tileWidth)
    ensures Tiles(wallWidth, wallHeight, image, offsetX) == Row(n, tileWidth, offsetX * scale, centering, wallHeight * scale)
  {
    var t := Tiles(wallWidth, wallHeight, image, offsetX);
    var r := Row(n, tileWidth, offsetX * scale, centering, wallHeight * scale);
    assert |t| == |r|;
    forall k | 0 <= k < |t| ensures t[k] == r[k] {
    }
  }

  /** The layout part of a render pass: computes the scale, the tile width,
      the repetition count and the centring term, then lays the tiles. */
  method LayoutPass(wallWidth: real, wallHeight: real, image: Bitmap, offsetX: real)
    returns (scale: real, tiles: seq<Tile>)
    requires wallWidth > 0.0 && wallHeight > 0.0
    ensures scale == Scale(wallWidth, wallHeight)
    ensures tiles == Tiles(wallWidth, wallHeight, image, offsetX)
  {
    scale := Scale(wallWidth, wallHeight);
    var scaledWallpaperWidth := TileWidth(wallHeight, image, scale);
    var visibleWidth := wallWidth * scale;
    ProductPositive(wallWidth, scale);
    var requiredRepetitions := Repetitions(visibleWidth, scaledWallpaperWidth);
    var initialOffsetX := CenteringOffset(visibleWidth, scaledWallpaperWidth);
    tiles := LayTiles(requiredRepetitions, scaledWallpaperWidth, offsetX * scale, initialOffsetX,
                      wallHeight * scale);
    TilesAre(wallWidth, wallHeight, image, offsetX, scale, scaledWallpaperWidth, visibleWidth,
             requiredRepetitions, initialOffsetX);
  }

  /** The tile loop of a render pass: one tile per index from -2 up to the
      repetition count less 2, appended to an emptied layer. */
  method LayTiles(repetitions: nat, tileWidth: real, shift: real, centering: real, height: real)
    returns (tiles: seq<Tile>)
    ensures tiles == Row(repetitions, tileWidth, shift, centering, height)
  {
    tiles := [];
    var i := -2;
    while i < repetitions - 2
      invariant -2 <= i <= repetitions - 2
      invariant |tiles| == i + 2
      invariant forall k :: 0 <= k < |tiles| ==> tiles[k] == TileAt(k - 2, tileWidth, shift, centering, height)
    {
      tiles := tiles + [Tile(i as real * tileWidth + shift + centering, 0.0, tileWidth, height)];
      i := i + 1;
    }
  }

  /** The scaled wall fits the stage: its visible width is at most the stage
      width and the tile height at most the stage height. */
  lemma VisibleFitsStage(wallWidth: real, wallHeight: real)
    requires wallWidth > 0.0 && wallHeight > 0.0
    ensures wallWidth * Scale(wallWidth, wallHeight) <= StageWidth(wallWidth)
    ensures wallHeight * Scale(wallWidth, wallHeight) <= StageHeight(wallHeight)
  {
  }

  /** At least five tiles are drawn, and four fewer than drawn is the least
      number of tiles whose total width reaches the visible width. */
  lemma TileCount(wallWidth: real, wallHeight: real, image: Bitmap, offsetX: real)
    requires wallWidth > 0.0 && wallHeight > 0.0
    ensures var t := Tiles(wallWidth, wallHeight, image, offsetX);
            var scale := Scale(wallWidth, wallHeight);
            var tileWidth := TileWidth(wallHeight, image, scale);
            && |t| >= 5
            && (|t| - 5) as real * tileWidth < wallWidth * scale <= (|t| - 4) as real * tileWidth
  {
  }

  /** Every tile lies on the top edge, is one tile width wide and as tall as
      the scaled wall, which fits the stage. */
  lemma TileShape(wallWidth: real, wallHeight: real, image: Bitmap, offsetX: real)
    requires wallWidth > 0.0 && wallHeight > 0.0
    ensures var t := Tiles(wallWidth, wallHeight, image, offsetX);
            var scale := Scale(wallWidth, wallHeight);
            forall k :: 0 <= k < |t| ==>
              && t[k].y == 0.0
              && t[k].width == TileWidth(wallHeight, image, scale)
              && t[k].height == wallHeight * scale
              && t[k].height <= StageHeight(wallHeight)
  {
  }

  /** Consecutive tiles abut: each starts where the previous one ends, so
      there is neither a gap nor an overlap between them. */
  lemma TilesAbut(wallWidth: real, wallHeight: real, image: Bitmap, offsetX: real)
    requires wallWidth > 0.0 && wallHeight > 0.0
    ensures var t := Tiles(wallWidth, wallHeight, image, offsetX);
            forall k :: 0 <= k < |t| - 1 ==> t[k + 1].x == t[k].x + t[k].width
  {
  }

  /** The tile of index 0 (the third one drawn) is centred on the visible
      width, moved right by the scaled pan offset. */
  lemma IndexZeroCentred(wallWidth: real, wallHeight: real, image: Bitmap, offsetX: real)
    requires wallWidth > 0.0 && wallHeight > 0.0
    ensures var t := Tiles(wallWidth, wallHeight, image, offsetX);
            var scale := Scale(wallWidth, wallHeight);
            t[2].x + t[2].width / 2.0 == wallWidth * scale / 2.0 + offsetX * scale
  {
  }

  /** Panning moves the whole pattern rigidly: changing the offset shifts
      every tile by the scaled difference and changes nothing else. */
  lemma PanShift(wallWidth: real, wallHeight: real, image: Bitmap, offsetX: real, offsetX': real)
    requires wallWidth > 0.0 && wallHeight > 0.0
    ensures var t := Tiles(wallWidth, wallHeight, image, offsetX);
            var t' := Tiles(wallWidth, wallHeight, image, offsetX');
            var scale := Scale(wallWidth, wallHeight);
            && |t'| == |t|
            && forall k :: 0 <= k < |t| ==>
                 t'[k] == t[k].(x := t[k].x + (offsetX' - offsetX) * scale)
  {
  }

  /** The tiles do not always reach the left edge of the stage: with tiles
      much narrower than the visible width, the centring term pushes the
      leftmost tile to the right of 0. */
  lemma NarrowTilesLeaveLeftGap()
    ensures var t := Tiles(800.0, 600.0, Image(100.0, 600.0), 0.0);
            && |t| == 12
            && forall k :: 0 <= k < |t| ==> t[k].x >= 150.0
  {
  }

  /** A 200 x 100 image on an 800 x 600 wall: no shrinking, tiles 1200 wide,
      five of them. */
  lemma ExampleWithinStage()
    ensures Scale(800.0, 600.0) == 1.0
    ensures TileWidth(600.0, Image(200.0, 100.0), 1.0) == 1200.0
    ensures |Tiles(800.0, 600.0, Image(200.0, 100.0), 0.0)| == 5
  {
  }

  /** A 2000 x 1500 wall exceeds both stage limits and is drawn at half size. */
  lemma ExampleBeyondStage()
    ensures Scale(2000.0, 1500.0) == 0.5
  {
  }
}
