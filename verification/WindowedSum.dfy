/** The neighbour count behind the reference defect masks: an integral image gives, for
    every pixel, the sum of a mask over the square window around it, without the pixel. */
module WindowedSum {

  datatype Image = Image(height: nat, width: nat, rows: seq<seq<int>>)

  predicate Valid(img: Image) {
    && |img.rows| == img.height
    && forall y | 0 <= y < img.height :: |img.rows[y]| == img.width
  }

  /** Neighbours outside the frame count as zero. */
  function Pixel(img: Image, y: int, x: int): int
    requires Valid(img)
  {
    if 0 <= y < img.height && 0 <= x < img.width then img.rows[y][x] else 0
  }

  // -- the naive count ----------------------------------------------------------------

  /** A pixel's contribution to its neighbour's sum: nothing if it is the centre. */
  ghost function Contribution(img: Image, y: int, x: int, cy: int, cx: int): int
    requires Valid(img)
  {
    if y == cy && x == cx then 0 else Pixel(img, y, x)
  }

  ghost function NaiveRow(img: Image, y: int, x0: int, n: nat, cy: int, cx: int): int
    requires Valid(img)
  {
    if n == 0 then 0 else NaiveRow(img, y, x0, n - 1, cy, cx) + Contribution(img, y, x0 + n - 1, cy, cx)
  }

  /** `m` rows from `y0`, `n` columns from `x0`, each neighbour added up one by one. */
  ghost function NaiveBox(img: Image, y0: int, m: nat, x0: int, n: nat, cy: int, cx: int): int
    requires Valid(img)
  {
    if m == 0 then 0
    else NaiveBox(img, y0, m - 1, x0, n, cy, cx) + NaiveRow(img, y0 + m - 1, x0, n, cy, cx)
  }

  ghost function NeighbourSum(img: Image, y: int, x: int, radius: nat): int
    requires Valid(img)
  {
    NaiveBox(img, y - radius, 2 * radius + 1, x - radius, 2 * radius + 1, y, x)
  }

  // -- the count inside the frame -----------------------------------------------------------

  /** `v` brought into `0..limit`. */
  function Clip(v: int, limit: nat): (r: nat)
    ensures r <= limit
  {
    if v < 0 then 0 else if v > limit then limit else v
  }

  /** The pixels of row `y` from column `lo` up to `hi`, without the centre. */
  ghost function FrameRow(img: Image, y: nat, lo: nat, hi: nat, cy: int, cx: int): int
    requires Valid(img) && y < img.height && lo <= hi <= img.width
    decreases hi
  {
    if lo == hi then 0
    else FrameRow(img, y, lo, hi - 1, cy, cx) + (if y == cy && hi - 1 == cx then 0 else img.rows[y][hi - 1])
  }

  /** The pixels from row `top` up to `bottom`, columns `lo` up to `hi`, without the centre. */
  ghost function FrameBox(img: Image, top: nat, bottom: nat, lo: nat, hi: nat, cy: int, cx: int): int
    requires Valid(img) && top <= bottom <= img.height && lo <= hi <= img.width
    decreases bottom
  {
    if top == bottom then 0
    else FrameBox(img, top, bottom - 1, lo, hi, cy, cx) + FrameRow(img, bottom - 1, lo, hi, cy, cx)
  }

  lemma {:induction false} RowCutToFrame(img: Image, y: int, x0: int, n: nat, cy: int, cx: int)
    requires Valid(img)
    ensures NaiveRow(img, y, x0, n, cy, cx) ==
      if 0 <= y < img.height then FrameRow(img, y, Clip(x0, img.width), Clip(x0 + n, img.width), cy, cx) else 0
  {
    if n > 0 { RowCutToFrame(img, y, x0, n - 1, cy, cx); }
  }

  lemma {:induction false} BoxCutToFrame(img: Image, y0: int, m: nat, x0: int, n: nat, cy: int, cx: int)
    requires Valid(img)
    ensures NaiveBox(img, y0, m, x0, n, cy, cx) ==
      FrameBox(img, Clip(y0, img.height), Clip(y0 + m, img.height),
               Clip(x0, img.width), Clip(x0 + n, img.width), cy, cx)
  {
    if m > 0 {
      BoxCutToFrame(img, y0, m - 1, x0, n, cy, cx);
      RowCutToFrame(img, y0 + m - 1, x0, n, cy, cx);
    }
  }

  /** The padding counts for nothing: a pixel's neighbours are those of the frame that lie
      within `radius` rows and columns of it. */
  lemma WindowCutToFrame(img: Image, y: nat, x: nat, radius: nat)
    requires Valid(img) && y < img.height && x < img.width
    ensures NeighbourSum(img, y, x, radius) ==
      FrameBox(img, if y < radius then 0 else y - radius,
               if y + radius < img.height then y + radius + 1 else img.height,
               if x < radius then 0 else x - radius,
               if x + radius < img.width then x + radius + 1 else img.width, y, x)
  {
    BoxCutToFrame(img, y - radius, 2 * radius + 1, x - radius, 2 * radius + 1, y, x);
  }

  // -- plain box sums -------------------------------------------------------------------

  ghost function RowSum(img: Image, y: int, x0: int, n: nat): int
    requires Valid(img)
  {
    if n == 0 then 0 else RowSum(img, y, x0, n - 1) + Pixel(img, y, x0 + n - 1)
  }

  ghost function BoxSum(img: Image, y0: int, m: nat, x0: int, n: nat): int
    requires Valid(img)
  {
    if m == 0 then 0 else BoxSum(img, y0, m - 1, x0, n) + RowSum(img, y0 + m - 1, x0, n)
  }

  ghost function ColumnSum(img: Image, y0: int, m: nat, x: int): int
    requires Valid(img)
  {
    if m == 0 then 0 else ColumnSum(img, y0, m - 1, x) + Pixel(img, y0 + m - 1, x)
  }

  lemma {:induction false} RowSplits(img: Image, y: int, x0: int, n: nat, k: nat)
    requires Valid(img) && k <= n
    ensures RowSum(img, y, x0, n) == RowSum(img, y, x0, k) + RowSum(img, y, x0 + k, n - k)
  {
    if k < n { RowSplits(img, y, x0, n - 1, k); }
  }

  lemma {:induction false} BoxSplitsRows(img: Image, y0: int, m: nat, x0: int, n: nat, k: nat)
    requires Valid(img) && k <= m
    ensures BoxSum(img, y0, m, x0, n) == BoxSum(img, y0, k, x0, n) + BoxSum(img, y0 + k, m - k, x0, n)
  {
    if k < m { BoxSplitsRows(img, y0, m - 1, x0, n, k); }
  }

  lemma {:induction false} BoxSplitsColumns(img: Image, y0: int, m: nat, x0: int, n: nat, k: nat)
    requires Valid(img) && k <= n
    ensures BoxSum(img, y0, m, x0, n) == BoxSum(img, y0, m, x0, k) + BoxSum(img, y0, m, x0 + k, n - k)
  {
    if m > 0 {
      BoxSplitsColumns(img, y0, m - 1, x0, n, k);
      RowSplits(img, y0 + m - 1, x0, n, k);
    }
  }

  /** Four corners of the integral image give a window. */
  lemma Corners(img: Image, y0: int, x0: int, a: nat, b: nat, w: nat)
    requires Valid(img)
    ensures BoxSum(img, y0 + a, w, x0 + b, w)
         == BoxSum(img, y0, a + w, x0, b + w) - BoxSum(img, y0, a + w, x0, b)
          - BoxSum(img, y0, a, x0, b + w) + BoxSum(img, y0, a, x0, b)
  {
    BoxSplitsRows(img, y0, a + w, x0, b + w, a);
    BoxSplitsRows(img, y0, a + w, x0, b, a);
    BoxSplitsColumns(img, y0 + a, w, x0, b + w, b);
  }

  /** One more column of a box. */
  lemma {:induction false} BoxAddsColumn(img: Image, y0: int, m: nat, x0: int, n: nat)
    requires Valid(img)
    ensures BoxSum(img, y0, m, x0, n + 1) == BoxSum(img, y0, m, x0, n) + ColumnSum(img, y0, m, x0 + n)
  {
    if m > 0 { BoxAddsColumn(img, y0, m - 1, x0, n); }
  }

  lemma {:induction false} EmptyBox(img: Image, y0: int, m: nat, x0: int)
    requires Valid(img)
    ensures BoxSum(img, y0, m, x0, 0) == 0
  {
    if m > 0 { EmptyBox(img, y0, m - 1, x0); }
  }

  // -- from box sums to the naive count -------------------------------------------------

  lemma {:induction false} NaiveRowIsRow(img: Image, y: int, x0: int, n: nat, cy: int, cx: int)
    requires Valid(img)
    ensures NaiveRow(img, y, x0, n, cy, cx)
         == RowSum(img, y, x0, n) - (if y == cy && x0 <= cx < x0 + n then Pixel(img, cy, cx) else 0)
  {
    if n > 0 { NaiveRowIsRow(img, y, x0, n - 1, cy, cx); }
  }

  lemma {:induction false} NaiveBoxIsBox(img: Image, y0: int, m: nat, x0: int, n: nat, cy: int, cx: int)
    requires Valid(img) && x0 <= cx < x0 + n
    ensures NaiveBox(img, y0, m, x0, n, cy, cx)
         == BoxSum(img, y0, m, x0, n) - (if y0 <= cy < y0 + m then Pixel(img, cy, cx) else 0)
  {
    if m > 0 {
      NaiveBoxIsBox(img, y0, m - 1, x0, n, cy, cx);
      NaiveRowIsRow(img, y0 + m - 1, x0, n, cy, cx);
    }
  }

  predicate ZeroOne(img: Image)
    requires Valid(img)
  {
    forall y, x | 0 <= y < img.height && 0 <= x < img.width :: img.rows[y][x] in {0, 1}
  }

  lemma {:induction false} NaiveRowBounds(img: Image, y: int, x0: int, n: nat, cy: int, cx: int)
    requires Valid(img) && ZeroOne(img)
    ensures 0 <= NaiveRow(img, y, x0, n, cy, cx) <= n
    ensures y == cy && x0 <= cx < x0 + n ==> NaiveRow(img, y, x0, n, cy, cx) <= n - 1
  {
    if n > 0 { NaiveRowBounds(img, y, x0, n - 1, cy, cx); }
  }

  lemma {:induction false} NaiveBoxBounds(img: Image, y0: int, m: nat, x0: int, n: nat, cy: int, cx: int)
    requires Valid(img) && ZeroOne(img) && x0 <= cx < x0 + n
    ensures 0 <= NaiveBox(img, y0, m, x0, n, cy, cx) <= m * n
    ensures y0 <= cy < y0 + m ==> NaiveBox(img, y0, m, x0, n, cy, cx) <= m * n - 1
  {
    if m > 0 {
      NaiveBoxBounds(img, y0, m - 1, x0, n, cy, cx);
      NaiveRowBounds(img, y0 + m - 1, x0, n, cy, cx);
      assert m * n == (m - 1) * n + n;
    }
  }

  /** A 0/1 mask counts at most all neighbours in the window. */
  lemma NeighbourSumBounds(img: Image, y: int, x: int, radius: nat)
    requires Valid(img) && ZeroOne(img)
    ensures 0 <= NeighbourSum(img, y, x, radius) <= (2 * radius + 1) * (2 * radius + 1) - 1
  {
    NaiveBoxBounds(img, y - radius, 2 * radius + 1, x - radius, 2 * radius + 1, y, x);
  }

  // -- the integral image -----------------------------------------------------------------

  /** The padded frame starts `radius` pixels before the image. */
  function Origin(radius: nat): int {
    0 - radius
  }

  /** The running sum down column `b` of the padded frame, after `a` rows. */
  ghost function Down(img: Image, radius: nat, a: nat, b: int): int
    requires Valid(img)
  {
    ColumnSum(img, Origin(radius), a, Origin(radius) + b - 1)
  }

  /** The sum of the padded frame above and left of corner `(a, b)`. */
  ghost function Corner(img: Image, radius: nat, a: nat, b: nat): int
    requires Valid(img)
  {
    BoxSum(img, Origin(radius), a, Origin(radius), b)
  }

  lemma CornerAddsColumn(img: Image, radius: nat, a: nat, b: nat)
    requires Valid(img)
    ensures Corner(img, radius, a, b + 1) == Corner(img, radius, a, b) + Down(img, radius, a, b + 1)
  {
    BoxAddsColumn(img, Origin(radius), a, Origin(radius), b);
  }

  /** First running sums: down the columns of the zero-padded mask, written into all but
      the first row and column of the buffer. */
  method CumulateColumns(img: Image, radius: nat) returns (integral: array2<int>)
    requires Valid(img)
    ensures integral.Length0 == img.height + 2 * radius + 1 && integral.Length1 == img.width + 2 * radius + 1
    ensures forall a, b | 0 <= a < integral.Length0 && 1 <= b < integral.Length1 ::
      integral[a, b] == Down(img, radius, a, b)
    ensures forall a | 0 <= a < integral.Length0 :: integral[a, 0] == 0
    ensures fresh(integral)
  {
    var rows, columns := img.height + 2 * radius, img.width + 2 * radius;
    integral := new int[rows + 1, columns + 1]((a, b) => 0);
    for a := 0 to rows
      invariant forall i, j | 0 <= i <= a && 1 <= j <= columns :: integral[i, j] == Down(img, radius, i, j)
      invariant forall i | 0 <= i <= rows :: integral[i, 0] == 0
    {
      var next := a + 1;
      for b := 0 to columns
        invariant forall i, j | 0 <= i <= a && 1 <= j <= columns :: integral[i, j] == Down(img, radius, i, j)
        invariant forall j | 1 <= j <= b :: integral[next, j] == Down(img, radius, next, j)
        invariant forall i | 0 <= i <= rows :: integral[i, 0] == 0
      {
        integral[next, b + 1] := integral[a, b + 1] + Pixel(img, a - radius, b - radius);
      }
    }
  }

  /** Second running sums, in place along the rows: the integral image. */
  method CumulateRows(img: Image, radius: nat, integral: array2<int>)
    requires Valid(img)
    requires forall a, b | 0 <= a < integral.Length0 && 1 <= b < integral.Length1 ::
      integral[a, b] == Down(img, radius, a, b)
    requires integral.Length1 > 0 && forall a | 0 <= a < integral.Length0 :: integral[a, 0] == 0
    modifies integral
    ensures forall a, b | 0 <= a < integral.Length0 && 0 <= b < integral.Length1 ::
      integral[a, b] == Corner(img, radius, a, b)
  {
    var rows, columns := integral.Length0, integral.Length1 - 1;
    for a := 0 to rows
      invariant forall i, j | 0 <= i < a && 0 <= j <= columns :: integral[i, j] == Corner(img, radius, i, j)
      invariant forall i, j | a <= i < rows && 1 <= j <= columns :: integral[i, j] == Down(img, radius, i, j)
      invariant forall i | a <= i < rows :: integral[i, 0] == 0
    {
      EmptyBox(img, Origin(radius), a, Origin(radius));
      for b := 0 to columns
        invariant forall i, j | 0 <= i < a && 0 <= j <= columns :: integral[i, j] == Corner(img, radius, i, j)
        invariant forall i, j | a < i < rows && 1 <= j <= columns :: integral[i, j] == Down(img, radius, i, j)
        invariant forall i | a <= i < rows :: integral[i, 0] == 0
        invariant forall j | 0 <= j <= b :: integral[a, j] == Corner(img, radius, a, j)
        invariant forall j | b < j <= columns :: integral[a, j] == Down(img, radius, a, j)
      {
        CornerAddsColumn(img, radius, a, b);
        integral[a, b + 1] := integral[a, b + 1] + integral[a, b];
      }
    }
  }

  lemma WindowFromCorners(img: Image, radius: nat, y: nat, x: nat)
    requires Valid(img) && y < img.height && x < img.width
    ensures var w := 2 * radius + 1;
      NeighbourSum(img, y, x, radius) ==
        Corner(img, radius, y + w, x + w) - Corner(img, radius, y + w, x)
        - Corner(img, radius, y, x + w) + Corner(img, radius, y, x) - img.rows[y][x]
  {
    var w := 2 * radius + 1;
    Corners(img, Origin(radius), Origin(radius), y, x, w);
    NaiveBoxIsBox(img, y - radius, w, x - radius, w, y, x);
    assert Origin(radius) + y == y - radius && Origin(radius) + x == x - radius;
  }

  /** For every image and radius the four-corner formula is the naive count. */
  method WindowedSumExcludingCenter(img: Image, radius: nat) returns (sums: array2<int>)
    requires Valid(img)
    ensures sums.Length0 == img.height && sums.Length1 == img.width
    ensures forall y, x | 0 <= y < img.height && 0 <= x < img.width ::
      sums[y, x] == NeighbourSum(img, y, x, radius)
  {
    var integral := CumulateColumns(img, radius);
    CumulateRows(img, radius, integral);
    var window := 2 * radius + 1;
    sums := new int[img.height, img.width]((y, x) => 0);
    for y := 0 to img.height
      modifies sums
      invariant forall i, j | 0 <= i < y && 0 <= j < img.width :: sums[i, j] == NeighbourSum(img, i, j, radius)
    {
      for x := 0 to img.width
        modifies sums
        invariant forall i, j | 0 <= i < y && 0 <= j < img.width :: sums[i, j] == NeighbourSum(img, i, j, radius)
        invariant forall j | 0 <= j < x :: sums[y, j] == NeighbourSum(img, y, j, radius)
      {
        WindowFromCorners(img, radius, y, x);
        sums[y, x] := integral[y + window, x + window] - integral[y + window, x]
                    - integral[y, x + window] + integral[y, x] - img.rows[y][x];
      }
    }
  }
}
