/** Undoing the scanline filters of PNG (sections 9.2 to 9.4 of the PNG specification), and the expansion of
    the pixels to four bytes. The filtered bytes are those that come out of the zlib decompressor. */
module PngFilter {
  import opened Casts
  import opened MarlinPacket

  type Row = seq<byte>

  function Distance(a: int, b: int): int {
    if a > b then a - b else b - a
  }

  function Paeth(a: byte, b: byte, c: byte): byte {
    var p := a + b as int - c;
    var pa, pb, pc := Distance(p, a), Distance(p, b), Distance(p, c);
    if pa <= pb && pa <= pc then a else if pb <= pc then b else c
  }

  /** r is the neighbour nearest to a + b - c, with ties going to a, then b, then c. */
  predicate Nearest(r: byte, a: byte, b: byte, c: byte) {
    var p := a + b as int - c;
    && (r == a || r == b || r == c)
    && Distance(p, r) <= Distance(p, a) && Distance(p, r) <= Distance(p, b) && Distance(p, r) <= Distance(p, c)
    && (Distance(p, a) == Distance(p, r) ==> r == a)
    && (Distance(p, a) > Distance(p, r) && Distance(p, b) == Distance(p, r) ==> r == b)
  }

  lemma PaethIsNearest(a: byte, b: byte, c: byte)
    ensures Nearest(Paeth(a, b, c), a, b, c)
  {
  }

  function Predictor(filter: byte, left: byte, up: byte, upperLeft: byte): byte {
    if filter == 1 then left
    else if filter == 2 then up
    else if filter == 3 then (left + up as int) / 2
    else if filter == 4 then Paeth(left, up, upperLeft)
    else 0
  }

  /** The byte one pixel back, or 0 before the first pixel. */
  function Back(row: Row, i: nat, bpp: nat): byte
    requires bpp > 0 && i <= |row| + bpp - 1
  {
    if i >= bpp then row[i - bpp] else 0
  }

  function Predicted(filter: byte, row: Row, prev: Row, i: nat, bpp: nat): byte
    requires bpp > 0 && i <= |row| && i < |prev|
  {
    Predictor(filter, Back(row, i, bpp), prev[i], Back(prev, i, bpp))
  }

  function Plus(x: byte, y: byte): byte {
    (x as int + y) % 256
  }

  function Minus(x: byte, y: byte): byte {
    (x as int - y) % 256
  }

  lemma PlusMinus(x: byte, y: byte)
    ensures Plus(Minus(x, y), y) == x == Minus(Plus(x, y), y)
  {
  }

  /** A row as a PNG encoder filters it. */
  function Filtered(row: Row, prev: Row, bpp: nat, filter: byte): (r: Row)
    requires |row| == |prev| && bpp > 0
    ensures |r| == |row|
  {
    seq(|row|, i requires 0 <= i < |row| => Minus(row[i], Predicted(filter, row[..i], prev, i, bpp)))
  }

  /** The filters by their numbers, each byte against its neighbours a to the left, b above and c above that to
      the left: none, Sub, Up, Average, and Paeth, which takes the neighbour nearest to a + b - c. */
  lemma FiveFilters(row: Row, prev: Row, bpp: nat, i: nat)
    requires |row| == |prev| && bpp > 0 && i < |row|
    ensures var a: int := if i >= bpp then row[i - bpp] else 0;
      var b: int := prev[i];
      var c: int := if i >= bpp then prev[i - bpp] else 0;
      && Filtered(row, prev, bpp, 0)[i] == row[i]
      && row[i] == (Filtered(row, prev, bpp, 1)[i] as int + a) % 256
      && row[i] == (Filtered(row, prev, bpp, 2)[i] as int + b) % 256
      && row[i] == (Filtered(row, prev, bpp, 3)[i] as int + (a + b) / 2) % 256
      && exists r: byte :: Nearest(r, a, b, c) && row[i] == (Filtered(row, prev, bpp, 4)[i] as int + r) % 256
  {
    hide Paeth, Nearest, Minus, Filtered;
    var a, b, c := Back(row[..i], i, bpp), prev[i], Back(prev, i, bpp);
    forall filter: byte ensures Filtered(row, prev, bpp, filter)[i] == Minus(row[i], Predictor(filter, a, b, c)) {
      FilteredAt(row, prev, bpp, filter, i);
    }
    MinusIs(row[i], a);
    MinusIs(row[i], b);
    MinusIs(row[i], (a + b as int) / 2);
    MinusIs(row[i], Paeth(a, b, c));
    PaethIsNearest(a, b, c);
  }

  lemma FilteredAt(row: Row, prev: Row, bpp: nat, filter: byte, i: nat)
    requires |row| == |prev| && bpp > 0 && i < |row|
    ensures Filtered(row, prev, bpp, filter)[i]
         == Minus(row[i], Predictor(filter, Back(row[..i], i, bpp), prev[i], Back(prev, i, bpp)))
  {
    hide Minus, Predictor;
  }

  lemma MinusIs(x: byte, y: byte)
    ensures Minus(x, 0) == x && (Minus(x, y) + y as int) % 256 == x
  {
  }

  /** The first n bytes of a row recovered from its filtered form. */
  function Unfiltered(scan: Row, prev: Row, bpp: nat, filter: byte, n: nat): (r: Row)
    requires |scan| == |prev| && bpp > 0 && n <= |scan|
    ensures |r| == n
  {
    if n == 0 then [] else
    var before := Unfiltered(scan, prev, bpp, filter, n - 1);
    before + [Plus(scan[n - 1], Predicted(filter, before, prev, n - 1, bpp))]
  }

  lemma {:induction false} RowRecovered(row: Row, prev: Row, bpp: nat, filter: byte, n: nat)
    requires |row| == |prev| && bpp > 0 && n <= |row|
    ensures Unfiltered(Filtered(row, prev, bpp, filter), prev, bpp, filter, n) == row[..n]
  {
    hide Predicted, Plus, Minus;
    if n > 0 {
      RowRecovered(row, prev, bpp, filter, n - 1);
      PlusMinus(row[n - 1], Predicted(filter, row[..n - 1], prev, n - 1, bpp));
    }
  }

  lemma {:induction false} PrefixStays(scan: Row, prev: Row, bpp: nat, filter: byte, i: nat, n: nat)
    requires |scan| == |prev| && bpp > 0 && i <= n <= |scan|
    ensures Unfiltered(scan, prev, bpp, filter, n)[..i] == Unfiltered(scan, prev, bpp, filter, i)
    decreases n
  {
    hide Predicted, Plus;
    if i < n {
      PrefixStays(scan, prev, bpp, filter, i, n - 1);
    }
  }

  /** Filtering the recovered row gives the filtered bytes back, so no two filtered rows look alike. */
  lemma FilteredAgain(scan: Row, prev: Row, bpp: nat, filter: byte)
    requires |scan| == |prev| && bpp > 0
    ensures Filtered(Unfiltered(scan, prev, bpp, filter, |scan|), prev, bpp, filter) == scan
  {
    hide Predicted, Plus, Minus;
    var row := Unfiltered(scan, prev, bpp, filter, |scan|);
    forall i | 0 <= i < |scan| ensures Minus(row[i], Predicted(filter, row[..i], prev, i, bpp)) == scan[i] {
      PrefixStays(scan, prev, bpp, filter, i, |scan|);
      PrefixStays(scan, prev, bpp, filter, i + 1, |scan|);
      assert row[i] == row[..i + 1][i];
      PlusMinus(scan[i], Predicted(filter, row[..i], prev, i, bpp));
    }
  }

  // ---- Images ----

  predicate Rectangular(rows: seq<Row>, stride: nat) {
    forall y :: 0 <= y < |rows| ==> |rows[y]| == stride
  }

  /** An image as an encoder writes it: each row with the filter chosen for it in front. */
  function FilteredImage(rows: seq<Row>, filters: seq<byte>, prev: Row, bpp: nat): Row
    requires |rows| == |filters| && Rectangular(rows, |prev|) && bpp > 0
  {
    if rows == [] then []
    else [filters[0]] + Filtered(rows[0], prev, bpp, filters[0])
         + FilteredImage(rows[1..], filters[1..], rows[0], bpp)
  }

  /** How many bytes a filtered image has. */
  function Size(height: nat, stride: nat): nat {
    if height == 0 then 0 else Size(height - 1, stride) + stride + 1
  }

  lemma {:induction false} SizeIsProduct(height: nat, stride: nat)
    ensures Size(height, stride) == height * (stride + 1)
  {
    if height > 0 {
      SizeIsProduct(height - 1, stride);
    }
  }

  /** The rows of a filtered image; none if a filter is unknown. */
  function RecoveredImage(raw: Row, height: nat, prev: Row, bpp: nat): (r: Option<seq<Row>>)
    requires |raw| == Size(height, |prev|) && bpp > 0
    ensures r.Some? ==> |r.value| == height && Rectangular(r.value, |prev|)
  {
    if height == 0 then Some([])
    else if raw[0] > 4 then None
    else
      var n := |prev|;
      var row := Unfiltered(raw[1..n + 1], prev, bpp, raw[0], n);
      var rest := RecoveredImage(raw[n + 1..], height - 1, row, bpp);
      if rest == None then None else Some([row] + rest.value)
  }

  lemma {:induction false} FilteredSize(rows: seq<Row>, filters: seq<byte>, prev: Row, bpp: nat)
    requires |rows| == |filters| && Rectangular(rows, |prev|) && bpp > 0
    ensures |FilteredImage(rows, filters, prev, bpp)| == Size(|rows|, |prev|)
  {
    if rows != [] {
      FilteredSize(rows[1..], filters[1..], rows[0], bpp);
    }
  }

  /** Every image, whatever filter was chosen for each of its rows, is recovered. */
  lemma {:induction false} ImageRecovered(rows: seq<Row>, filters: seq<byte>, prev: Row, bpp: nat)
    requires |rows| == |filters| && Rectangular(rows, |prev|) && bpp > 0
    requires forall y :: 0 <= y < |filters| ==> filters[y] <= 4
    ensures |FilteredImage(rows, filters, prev, bpp)| == Size(|rows|, |prev|)
    ensures RecoveredImage(FilteredImage(rows, filters, prev, bpp), |rows|, prev, bpp) == Some(rows)
  {
    hide Filtered, Unfiltered;
    FilteredSize(rows, filters, prev, bpp);
    if rows != [] {
      var n, raw := |prev|, FilteredImage(rows, filters, prev, bpp);
      assert raw[1..n + 1] == Filtered(rows[0], prev, bpp, filters[0]);
      assert raw[n + 1..] == FilteredImage(rows[1..], filters[1..], rows[0], bpp);
      RowRecovered(rows[0], prev, bpp, filters[0], n);
      assert rows[0][..n] == rows[0];
      ImageRecovered(rows[1..], filters[1..], rows[0], bpp);
      assert raw[0] == filters[0] && rows == [rows[0]] + rows[1..];
    }
  }

  /** Row y of a filtered image has an unknown filter. */
  predicate UnknownFilter(raw: Row, y: nat, n: nat) {
    Size(y, n) < |raw| && raw[Size(y, n)] > 4
  }

  lemma UnknownAt(raw: Row, y: nat, n: nat)
    ensures UnknownFilter(raw, y, n) <==> Size(y, n) < |raw| && raw[Size(y, n)] > 4
  {
  }

  /** An image of the right size is refused exactly when one of its filters is unknown. */
  lemma {:induction false} RefusedIff(raw: Row, height: nat, prev: Row, bpp: nat)
    requires |raw| == Size(height, |prev|) && bpp > 0
    ensures RecoveredImage(raw, height, prev, bpp) == None <==> exists y :: 0 <= y < height && UnknownFilter(raw, y, |prev|)
  {
    hide Unfiltered, UnknownFilter, Size;
    if height > 0 {
      var n := |prev|;
      SizeGrows(height - 1, n);
      SomeUnknown(raw, raw[n + 1..], height - 1, n);
      if raw[0] <= 4 {
        var row, tail := Unfiltered(raw[1..n + 1], prev, bpp, raw[0], n), raw[n + 1..];
        RefusedIff(tail, height - 1, row, bpp);
      }
    }
  }

  lemma SizeGrows(y: nat, n: nat)
    ensures Size(0, n) == 0 && Size(y + 1, n) == Size(y, n) + n + 1
  {
  }

  /** Some filter is unknown exactly when the first one is or one below it. */
  lemma SomeUnknown(raw: Row, tail: Row, below: nat, n: nat)
    requires |raw| > n && tail == raw[n + 1..]
    ensures (exists y :: 0 <= y < below + 1 && UnknownFilter(raw, y, n))
       <==> raw[0] > 4 || exists y :: 0 <= y < below && UnknownFilter(tail, y, n)
  {
    hide UnknownFilter, Size;
    SizeGrows(0, n);
    UnknownAt(raw, 0, n);
    if y :| 0 <= y < below && UnknownFilter(tail, y, n) {
      UnknownBelow(raw, tail, y, n);
    }
    if y :| 0 <= y < below + 1 && UnknownFilter(raw, y, n) {
      if y > 0 {
        UnknownBelow(raw, tail, y - 1, n);
      }
    }
  }

  lemma UnknownBelow(raw: Row, tail: Row, y: nat, n: nat)
    requires |raw| > n && tail == raw[n + 1..]
    ensures UnknownFilter(raw, y + 1, n) <==> UnknownFilter(tail, y, n)
  {
    hide Size;
    SizeGrows(y, n);
  }

  // ---- The decoder's loops ----

  /** One pixel of a row as four bytes; without an alpha byte it is opaque. */
  function Pixel(row: Row, x: nat, bpp: nat): Row
    requires (bpp == 3 || bpp == 4) && (x + 1) * bpp <= |row|
  {
    [row[x * bpp], row[x * bpp + 1], row[x * bpp + 2], if bpp == 4 then row[x * bpp + 3] else 255]
  }

  /** The first n pixels of a row. */
  function Pixels(row: Row, n: nat, bpp: nat): (r: Row)
    requires (bpp == 3 || bpp == 4) && n * bpp <= |row|
    ensures |r| == 4 * n
  {
    if n == 0 then [] else Pixels(row, n - 1, bpp) + Pixel(row, n - 1, bpp)
  }

  /** n rows of w bytes. */
  function Bytes(n: nat, w: nat): nat {
    if n == 0 then 0 else Bytes(n - 1, w) + w
  }

  lemma {:induction false} BytesIsProduct(n: nat, w: nat)
    ensures Bytes(n, w) == n * w
  {
    if n > 0 {
      BytesIsProduct(n - 1, w);
      assert n * w == (n - 1) * w + w;
    }
  }

  lemma {:induction false} RowFits(y: nat, height: nat, w: nat)
    requires y <= height
    ensures Bytes(y, w) <= Bytes(height, w)
    ensures y < height ==> Bytes(y + 1, w) == Bytes(y, w) + w <= Bytes(height, w)
    decreases height
  {
    if y < height {
      RowFits(y, height - 1, w);
    }
  }

  function AllPixels(rows: seq<Row>, width: nat, bpp: nat): (r: Row)
    requires (bpp == 3 || bpp == 4) && Rectangular(rows, width * bpp)
    ensures |r| == Bytes(|rows|, 4 * width)
  {
    if rows == [] then [] else AllPixels(rows[..|rows| - 1], width, bpp) + Pixels(rows[|rows| - 1], width, bpp)
  }

  lemma {:induction false} PixelOfRow(row: Row, n: nat, bpp: nat, x: nat)
    requires (bpp == 3 || bpp == 4) && x < n && n * bpp <= |row|
    ensures (x + 1) * bpp <= |row| && Pixels(row, n, bpp)[4 * x..4 * x + 4] == Pixel(row, x, bpp)
  {
    hide Pixel;
    PixelInside(n - 1, n, bpp);
    if x < n - 1 {
      PixelOfRow(row, n - 1, bpp, x);
      assert Pixels(row, n, bpp)[4 * x..4 * x + 4] == Pixels(row, n - 1, bpp)[4 * x..4 * x + 4];
    }
  }

  /** Where a pixel of the image stands among the bytes shown. */
  lemma {:induction false} PixelShown(rows: seq<Row>, width: nat, bpp: nat, y: nat, x: nat)
    requires (bpp == 3 || bpp == 4) && Rectangular(rows, width * bpp) && y < |rows| && x < width
    ensures (x + 1) * bpp <= width * bpp == |rows[y]|
    ensures var at := Bytes(y, 4 * width) + 4 * x;
      at + 4 <= |AllPixels(rows, width, bpp)| && AllPixels(rows, width, bpp)[at..at + 4] == Pixel(rows[y], x, bpp)
    decreases |rows|
  {
    hide Pixel, Pixels, Bytes;
    var n := |rows| - 1;
    var above := AllPixels(rows[..n], width, bpp);
    PixelInside(x, width, bpp);
    RowFits(y, n, 4 * width);
    if y < n {
      PixelShown(rows[..n], width, bpp, y, x);
      InSum(above, Pixels(rows[n], width, bpp), Bytes(y, 4 * width) + 4 * x);
    } else {
      PixelOfRow(rows[n], width, bpp, x);
      InSum(above, Pixels(rows[n], width, bpp), |above| + 4 * x);
    }
  }

  lemma InSum(a: Row, b: Row, i: nat)
    requires i + 4 <= |a| || |a| <= i <= |a| + |b| - 4
    ensures (a + b)[i..i + 4] == if i + 4 <= |a| then a[i..i + 4] else b[i - |a|..i - |a| + 4]
  {
  }

  lemma PixelIsOpaque(row: Row, x: nat)
    ensures (x + 1) * 3 <= |row| ==> Pixel(row, x, 3) == row[3 * x..3 * x + 3] + [0xff]
    ensures (x + 1) * 4 <= |row| ==> Pixel(row, x, 4) == row[4 * x..4 * x + 4]
  {
  }

  method UnfilterRow(raw: Row, pos: nat, filter: byte, prev: array<byte>, cur: array<byte>, bpp: nat)
    requires prev.Length == cur.Length && prev != cur && bpp > 0 && pos + cur.Length <= |raw|
    modifies cur
    ensures cur[..] == Unfiltered(raw[pos..pos + cur.Length], prev[..], bpp, filter, cur.Length)
  {
    hide Paeth;
    ghost var scan := raw[pos..pos + cur.Length];
    var i := 0;
    while i < cur.Length
      invariant 0 <= i <= cur.Length && cur[..i] == Unfiltered(scan, prev[..], bpp, filter, i)
    {
      var x: int := raw[pos + i];
      var left := if i >= bpp then cur[i - bpp] else 0;
      var up := prev[i];
      var upperLeft := if i >= bpp then prev[i - bpp] else 0;
      if filter == 1 {
        x := x + left;
      } else if filter == 2 {
        x := x + up;
      } else if filter == 3 {
        x := x + (left as int + up) / 2;
      } else if filter == 4 {
        x := x + Paeth(left, up, upperLeft);
      }
      assert left == Back(cur[..i], i, bpp) && upperLeft == Back(prev[..], i, bpp) && scan[i] == raw[pos + i];
      cur[i] := x % 256;
      i := i + 1;
    }
  }

  method PutPixel(rgba: array<byte>, dst: nat, pixel: Row)
    requires |pixel| == 4 && dst + 4 <= rgba.Length
    modifies rgba
    ensures rgba[..dst + 4] == old(rgba[..dst]) + pixel
  {
    rgba[dst], rgba[dst + 1], rgba[dst + 2], rgba[dst + 3] := pixel[0], pixel[1], pixel[2], pixel[3];
  }

  /** Writes row y of the image as four-byte pixels. */
  method PutRow(cur: array<byte>, rgba: array<byte>, at: nat, width: nat, bpp: nat)
    requires (bpp == 3 || bpp == 4) && cur.Length == width * bpp && at + 4 * width <= rgba.Length && cur != rgba
    modifies rgba
    ensures rgba[..at + 4 * width] == old(rgba[..at]) + Pixels(cur[..], width, bpp)
  {
    hide Pixels;
    PixelsGrow(cur[..], 0, width, bpp);
    var x := 0;
    while x < width
      invariant 0 <= x <= width && x * bpp <= cur.Length
      invariant rgba[..at + 4 * x] == old(rgba[..at]) + Pixels(cur[..], x, bpp)
    {
      PixelInside(x, width, bpp);
      PixelsGrow(cur[..], x, width, bpp);
      var src := x * bpp;
      var pixel := [cur[src], cur[src + 1], cur[src + 2], if bpp == 4 then cur[src + 3] else 255];
      assert pixel == Pixel(cur[..], x, bpp);
      PutPixel(rgba, at + 4 * x, pixel);
      x := x + 1;
    }
  }

  lemma PixelsGrow(row: Row, x: nat, width: nat, bpp: nat)
    requires (bpp == 3 || bpp == 4) && |row| == width * bpp && x <= width
    ensures x * bpp <= |row| && Pixels(row, 0, bpp) == []
    ensures x < width ==> (x + 1) * bpp <= |row|
                          && forall before: Row :: before + Pixels(row, x + 1, bpp) == before + Pixels(row, x, bpp) + Pixel(row, x, bpp)
  {
    hide Pixel;
    MoreIsMore(bpp, x, width);
    if x < width {
      MoreIsMore(bpp, x + 1, width);
      forall before: Row
        ensures before + Pixels(row, x + 1, bpp) == before + Pixels(row, x, bpp) + Pixel(row, x, bpp)
      {
        assert before + (Pixels(row, x, bpp) + Pixel(row, x, bpp)) == before + Pixels(row, x, bpp) + Pixel(row, x, bpp);
      }
    }
  }

  lemma PixelInside(x: nat, width: nat, bpp: nat)
    requires x < width
    ensures (x + 1) * bpp == x * bpp + bpp && (x + 1) * bpp <= width * bpp
  {
  }

  function Zeros(n: nat): (r: Row)
    ensures |r| == n
  {
    seq(n, _ => 0)
  }

  function After(done: seq<Row>, rest: Option<seq<Row>>): Option<seq<Row>> {
    if rest == None then None else Some(done + rest.value)
  }

  lemma AfterOneMore(done: seq<Row>, row: Row, rest: Option<seq<Row>>)
    ensures After(done, After([row], rest)) == After(done + [row], rest)
  {
    if rest.Some? {
      assert done + ([row] + rest.value) == done + [row] + rest.value;
    }
  }

  /** The decoder holds the rows done; the last left rows decide whether the image is recovered. */
  ghost predicate Halfway(raw: Row, height: nat, start: Row, bpp: nat, done: seq<Row>, pos: nat, left: nat, prev: Row)
    requires |raw| == Size(height, |start|) && bpp > 0 && |prev| == |start|
  {
    && |done| + left == height && pos <= |raw| && |raw| - pos == Size(left, |start|)
    && Rectangular(done, |start|)
    && RecoveredImage(raw, height, start, bpp) == After(done, RecoveredImage(raw[pos..], left, prev, bpp))
  }

  lemma HalfwayStarts(raw: Row, height: nat, start: Row, bpp: nat)
    requires |raw| == Size(height, |start|) && bpp > 0
    ensures Halfway(raw, height, start, bpp, [], 0, height, start)
  {
    hide Unfiltered, RecoveredImage;
    assert raw[0..] == raw;
    var r := RecoveredImage(raw, height, start, bpp);
    if r.Some? {
      assert [] + r.value == r.value;
    }
  }

  /** Recovering the first row of what is left. */
  lemma OneRow(raw: Row, pos: nat, left: nat, prev: Row, bpp: nat)
    requires pos <= |raw| && |raw| - pos == Size(left, |prev|) && bpp > 0 && left > 0
    ensures pos + |prev| + 1 <= |raw| && |raw| - (pos + |prev| + 1) == Size(left - 1, |prev|)
    ensures var n := |prev|;
      RecoveredImage(raw[pos..], left, prev, bpp)
      == if raw[pos] > 4 then None else
         var row := Unfiltered(raw[pos + 1..pos + 1 + n], prev, bpp, raw[pos], n);
         After([row], RecoveredImage(raw[pos + n + 1..], left - 1, row, bpp))
  {
    hide Unfiltered;
    var n, tail := |prev|, raw[pos..];
    assert tail[0] == raw[pos] && tail[1..n + 1] == raw[pos + 1..pos + 1 + n] && tail[n + 1..] == raw[pos + n + 1..];
  }

  lemma HalfwayOneMore(raw: Row, height: nat, start: Row, bpp: nat, done: seq<Row>, pos: nat, left: nat, prev: Row)
    requires |raw| == Size(height, |start|) && bpp > 0 && |prev| == |start|
    requires Halfway(raw, height, start, bpp, done, pos, left, prev) && left > 0
    ensures pos + |start| + 1 <= |raw|
    ensures if raw[pos] > 4 then RecoveredImage(raw, height, start, bpp) == None
            else
              var row := Unfiltered(raw[pos + 1..pos + 1 + |start|], prev, bpp, raw[pos], |start|);
              Halfway(raw, height, start, bpp, done + [row], pos + |start| + 1, left - 1, row)
  {
    hide Unfiltered, RecoveredImage, Size;
    OneRow(raw, pos, left, prev, bpp);
    if raw[pos] <= 4 {
      hide After;
      var row := Unfiltered(raw[pos + 1..pos + 1 + |start|], prev, bpp, raw[pos], |start|);
      AfterOneMore(done, row, RecoveredImage(raw[pos + |start| + 1..], left - 1, row, bpp));
    }
  }

  lemma HalfwayEnds(raw: Row, height: nat, start: Row, bpp: nat, done: seq<Row>, pos: nat, prev: Row)
    requires |raw| == Size(height, |start|) && bpp > 0 && |prev| == |start|
    requires Halfway(raw, height, start, bpp, done, pos, 0, prev)
    ensures |done| == height && RecoveredImage(raw, height, start, bpp) == Some(done)
  {
    assert done + [] == done;
  }

  lemma OneMoreRow(rows: seq<Row>, row: Row, width: nat, bpp: nat)
    requires (bpp == 3 || bpp == 4) && Rectangular(rows, width * bpp) && |row| == width * bpp
    ensures Rectangular(rows + [row], width * bpp)
    ensures AllPixels(rows + [row], width, bpp) == AllPixels(rows, width, bpp) + Pixels(row, width, bpp)
  {
    hide Pixels;
    assert (rows + [row])[..|rows|] == rows;
  }

  lemma {:induction false} MoreIsMore(w: nat, a: nat, b: nat)
    requires a <= b
    ensures w * a <= w * b && w * (a + 1) == w * a + w
  {
    if a < b {
      MoreIsMore(w, a, b - 1);
      assert w * b == w * (b - 1) + w;
    }
  }

  /** Recovers the row at pos and writes its pixels; known: its filter is one of the five. */
  method DecodeRow(raw: Row, pos: nat, width: nat, bpp: nat, prev: array<byte>, cur: array<byte>, rgba: array<byte>,
                   at: nat) returns (known: bool)
    requires (bpp == 3 || bpp == 4) && prev.Length == cur.Length == width * bpp && pos + prev.Length + 1 <= |raw|
    requires prev != cur && prev != rgba && cur != rgba && at + 4 * width <= rgba.Length
    modifies prev, cur, rgba
    ensures known <==> raw[pos] <= 4
    ensures known ==>
      var row := Unfiltered(raw[pos + 1..pos + 1 + prev.Length], old(prev[..]), bpp, raw[pos], prev.Length);
      prev[..] == row && rgba[..at + 4 * width] == old(rgba[..at]) + Pixels(row, width, bpp)
  {
    hide Unfiltered, Pixels;
    var filter := raw[pos];
    if filter > 4 {
      return false;
    }
    UnfilterRow(raw, pos + 1, filter, prev, cur, bpp);
    PutRow(cur, rgba, at, width, bpp);
    forall i | 0 <= i < prev.Length {
      prev[i] := cur[i];
    }
    assert prev[..] == cur[..];
    return true;
  }

  lemma NoPixels(width: nat, bpp: nat)
    requires bpp == 3 || bpp == 4
    ensures AllPixels([], width, bpp) == []
  {
  }

  /** Recovers the image row by row into four-byte pixels. */
  method DecodeRows(raw: Row, width: nat, height: nat, bpp: nat) returns (ok: bool, rgba: array<byte>)
    requires (bpp == 3 || bpp == 4) && |raw| == Size(height, width * bpp)
    ensures var image := RecoveredImage(raw, height, Zeros(width * bpp), bpp);
      ok == image.Some? && (ok ==> rgba[..] == AllPixels(image.value, width, bpp))
  {
    hide Unfiltered, Halfway, RecoveredImage, Pixels, Size, AllPixels, Bytes;
    NoPixels(width, bpp);
    var stride, perRow := width * bpp, 4 * width;
    rgba := new byte[Bytes(height, perRow)];
    var prev := new byte[stride](_ => 0);
    var cur := new byte[stride];
    ghost var start, done: seq<Row> := Zeros(stride), [];
    assert prev[..] == start;
    HalfwayStarts(raw, height, start, bpp);
    var pos, y := 0, 0;
    while y < height
      invariant 0 <= y <= height && |done| == y && Rectangular(done, stride)
      invariant Halfway(raw, height, start, bpp, done, pos, height - y, prev[..])
      invariant rgba.Length == Bytes(height, perRow) && Bytes(y, perRow) <= rgba.Length
      invariant rgba[..Bytes(y, perRow)] == AllPixels(done, width, bpp)
    {
      HalfwayOneMore(raw, height, start, bpp, done, pos, height - y, prev[..]);
      RowFits(y, height, perRow);
      var known := DecodeRow(raw, pos, width, bpp, prev, cur, rgba, Bytes(y, perRow));
      if !known {
        return false, rgba;
      }
      OneMoreRow(done, prev[..], width, bpp);
      done := done + [prev[..]];
      pos := pos + 1 + stride;
      y := y + 1;
    }
    HalfwayEnds(raw, height, start, bpp, done, pos, prev[..]);
    assert rgba[..Bytes(height, perRow)] == rgba[..];
    return true, rgba;
  }

  /** Whatever filters an encoder chose, decoding its output shows the image itself. */
  lemma DecodingShowsImage(rows: seq<Row>, filters: seq<byte>, width: nat, bpp: nat)
    requires (bpp == 3 || bpp == 4) && |rows| == |filters| && Rectangular(rows, width * bpp)
    requires forall y :: 0 <= y < |filters| ==> filters[y] <= 4
    ensures var raw := FilteredImage(rows, filters, Zeros(width * bpp), bpp);
      && |raw| == Size(|rows|, width * bpp) == |rows| * (width * bpp + 1)
      && RecoveredImage(raw, |rows|, Zeros(width * bpp), bpp) == Some(rows)
      && AllPixels(RecoveredImage(raw, |rows|, Zeros(width * bpp), bpp).value, width, bpp) == AllPixels(rows, width, bpp)
  {
    ImageRecovered(rows, filters, Zeros(width * bpp), bpp);
    SizeIsProduct(|rows|, width * bpp);
  }
}
