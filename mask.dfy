/**
 * The mask utilities of the segmentation script: the integer centroid of
 * the positive cells of a 2-D mask, with the image centre as fallback, and
 * the background blackout that zeroes every pixel of a copy of the image
 * where the mask is zero.
 *
 * A mask is a sequence of rows of integers, all of the mask's width; its
 * shape `(h, w)` is the number of rows and that width.
 */
module Mask {
  import opened Bytes

  /** Every row of `m` has exactly `w` cells. */
  predicate Rectangular(m: seq<seq<int>>, w: nat) {
    forall r :: 0 <= r < |m| ==> |m[r]| == w
  }

  /** A cell position, as `np.where` reports it: row first, then column. */
  datatype Cell = Cell(row: nat, col: nat)

  /** `p` comes strictly before `q` in row-major order. */
  predicate Before(p: Cell, q: Cell) {
    p.row < q.row || (p.row == q.row && p.col < q.col)
  }

  /** The positive cells of one row `r`, each once, left to right. */
  function RowHits(row: seq<int>, r: nat): (hits: seq<Cell>)
    ensures forall p :: p in hits <==> p.row == r && p.col < |row| && row[p.col] > 0
    ensures forall i, j :: 0 <= i < j < |hits| ==> hits[i].col < hits[j].col
  {
    if row == [] then []
    else
      var last := |row| - 1;
      RowHits(row[..last], r) + (if row[last] > 0 then [Cell(r, last)] else [])
  }

  /** `np.where(mask > 0)`: every positive cell of the mask, each once, in row-major order. */
  function Hits(m: seq<seq<int>>): (hits: seq<Cell>)
    ensures forall p :: p in hits <==> p.row < |m| && p.col < |m[p.row]| && m[p.row][p.col] > 0
    ensures forall i, j :: 0 <= i < j < |hits| ==> Before(hits[i], hits[j])
  {
    if m == [] then []
    else
      var last := |m| - 1;
      var front := Hits(m[..last]);
      var back := RowHits(m[last], last);
      assert forall p :: p in front ==> p.row < last;
      assert forall i :: 0 <= i < |back| ==> back[i] in back;
      assert forall i :: 0 <= i < |front| ==> front[i] in front;
      front + back
  }

  function Cols(hits: seq<Cell>): (xs: seq<nat>)
    ensures |xs| == |hits| && forall i :: 0 <= i < |hits| ==> xs[i] == hits[i].col
  {
    if hits == [] then [] else Cols(hits[..|hits| - 1]) + [hits[|hits| - 1].col]
  }

  function Rows(hits: seq<Cell>): (ys: seq<nat>)
    ensures |ys| == |hits| && forall i :: 0 <= i < |hits| ==> ys[i] == hits[i].row
  {
    if hits == [] then [] else Rows(hits[..|hits| - 1]) + [hits[|hits| - 1].row]
  }

  function Sum(xs: seq<nat>): nat {
    if xs == [] then 0 else Sum(xs[..|xs| - 1]) + xs[|xs| - 1]
  }

  /**
   * `int(np.mean(xs))` for a non-empty sequence of indices: the mean of
   * non-negative numbers is non-negative, so truncation is the floor of the
   * exact quotient.
   */
  function Mean(xs: seq<nat>): nat
    requires xs != []
  {
    Sum(xs) / |xs|
  }

  /** mask_centroid: `(cx, cy)`, or `(w // 2, h // 2)` when no cell is positive. */
  function Centroid(m: seq<seq<int>>, w: nat): (nat, nat) {
    var hits := Hits(m);
    if hits == [] then (w / 2, |m| / 2)
    else (Mean(Cols(hits)), Mean(Rows(hits)))
  }

  // ---------------------------------------------------------------------
  // The mean lies between the least and the greatest element
  // ---------------------------------------------------------------------

  /** Each element bounded above by `hi` bounds the sum by `|xs| * hi`, and likewise below. */
  lemma {:induction false} SumBounds(xs: seq<nat>, lo: nat, hi: nat)
    requires forall i :: 0 <= i < |xs| ==> lo <= xs[i] <= hi
    ensures |xs| * lo <= Sum(xs) <= |xs| * hi
  {
    if xs != [] {
      var n := |xs| - 1;
      SumBounds(xs[..n], lo, hi);
      MulSucc(n, lo);
      MulSucc(n, hi);
    }
  }

  /** One more copy of `v` adds `v`. */
  lemma MulSucc(n: nat, v: nat)
    ensures (n + 1) * v == n * v + v
  {
  }

  /** A sequence of copies of one value sums to that many times the value. */
  lemma {:induction false} SumConstant(xs: seq<nat>, v: nat)
    requires forall i :: 0 <= i < |xs| ==> xs[i] == v
    ensures Sum(xs) == |xs| * v
  {
    SumBounds(xs, v, v);
  }

  /** Dividing by `n` keeps bounds that hold for `n` times a value. */
  lemma DivBetween(total: nat, n: nat, lo: nat, hi: nat)
    requires n > 0 && n * lo <= total <= n * hi
    ensures lo <= total / n <= hi
  {
    var q := total / n;
    var rem := total % n;
    assert total == q * n + rem && rem < n;
    assert (q - hi) * n == q * n - hi * n <= 0;
    NonPositiveFactor(q - hi, n);
    assert (lo - q - 1) * n == lo * n - q * n - n < 0;
    NonPositiveFactor(lo - q - 1, n);
  }

  /** A non-positive product with a positive factor has a non-positive other factor. */
  lemma NonPositiveFactor(a: int, n: int)
    requires n > 0 && a * n <= 0
    ensures a <= 0
  {
  }

  /** The floor of the mean lies between any lower and upper bound of the elements. */
  lemma MeanBetween(xs: seq<nat>, lo: nat, hi: nat)
    requires xs != []
    requires forall i :: 0 <= i < |xs| ==> lo <= xs[i] <= hi
    ensures lo <= Mean(xs) <= hi
  {
    SumBounds(xs, lo, hi);
    DivBetween(Sum(xs), |xs|, lo, hi);
  }

  /** The floor of the mean is attained by some element at or below it, and some element at or above it. */
  lemma MeanWithinElements(xs: seq<nat>)
    requires xs != []
    ensures exists i :: 0 <= i < |xs| && xs[i] <= Mean(xs)
    ensures exists i :: 0 <= i < |xs| && Mean(xs) <= xs[i]
  {
    var lo := MinIndex(xs);
    var hi := MaxIndex(xs);
    MeanBetween(xs, xs[lo], xs[hi]);
  }

  /** An index of a least element. */
  function MinIndex(xs: seq<nat>): (k: nat)
    requires xs != []
    ensures k < |xs| && forall i :: 0 <= i < |xs| ==> xs[k] <= xs[i]
  {
    if |xs| == 1 then 0
    else
      var k := MinIndex(xs[..|xs| - 1]);
      if xs[|xs| - 1] < xs[k] then |xs| - 1 else k
  }

  /** An index of a greatest element. */
  function MaxIndex(xs: seq<nat>): (k: nat)
    requires xs != []
    ensures k < |xs| && forall i :: 0 <= i < |xs| ==> xs[i] <= xs[k]
  {
    if |xs| == 1 then 0
    else
      var k := MaxIndex(xs[..|xs| - 1]);
      if xs[|xs| - 1] > xs[k] then |xs| - 1 else k
  }

  // ---------------------------------------------------------------------
  // Properties of the centroid
  // ---------------------------------------------------------------------

  /** With no positive cell, the centroid is the centre of the mask's shape. */
  lemma CentroidFallback(m: seq<seq<int>>, w: nat)
    requires forall r, c :: 0 <= r < |m| && 0 <= c < |m[r]| ==> m[r][c] <= 0
    ensures Centroid(m, w) == (w / 2, |m| / 2)
  {
    if Hits(m) != [] {
      var p := Hits(m)[0];
      assert p in Hits(m);
    }
  }

  /**
   * With a positive cell, each coordinate of the centroid lies between the
   * least and the greatest coordinate of the positive cells: some positive
   * cell is at or left of `cx` and some at or right of it, and likewise
   * above and below `cy`.
   */
  lemma CentroidInBoundingBox(m: seq<seq<int>>, w: nat)
    requires Hits(m) != []
    ensures var (cx, cy) := Centroid(m, w);
      (exists p :: p in Hits(m) && p.col <= cx) && (exists p :: p in Hits(m) && cx <= p.col) &&
      (exists p :: p in Hits(m) && p.row <= cy) && (exists p :: p in Hits(m) && cy <= p.row)
  {
    var hits := Hits(m);
    var xs := Cols(hits);
    var ys := Rows(hits);
    MeanWithinElements(xs);
    MeanWithinElements(ys);
    var i :| 0 <= i < |xs| && xs[i] <= Mean(xs);
    var j :| 0 <= j < |xs| && Mean(xs) <= xs[j];
    var k :| 0 <= k < |ys| && ys[k] <= Mean(ys);
    var l :| 0 <= l < |ys| && Mean(ys) <= ys[l];
    assert hits[i] in hits && hits[j] in hits && hits[k] in hits && hits[l] in hits;
  }

  /** The centroid is a cell of the mask whenever it has a positive cell or a non-empty shape. */
  lemma CentroidInBounds(m: seq<seq<int>>, w: nat)
    requires Rectangular(m, w)
    requires Hits(m) != [] || (w > 0 && |m| > 0)
    ensures Centroid(m, w).0 < w && Centroid(m, w).1 < |m|
  {
    var hits := Hits(m);
    if hits == [] {
      assert Centroid(m, w) == (w / 2, |m| / 2);
    } else {
      HitsInShape(m, w);
      MeansInShape(hits, w, |m|);
    }
  }

  /** The mean column and mean row of cells inside a `w` by `h` shape lie inside it too. */
  lemma MeansInShape(hits: seq<Cell>, w: nat, h: nat)
    requires hits != [] && forall p :: p in hits ==> p.col < w && p.row < h
    ensures Mean(Cols(hits)) < w && Mean(Rows(hits)) < h
  {
    assert hits[0] in hits;
    CellsBounded(hits, w, h);
    MeanBetween(Cols(hits), 0, w - 1);
    MeanBetween(Rows(hits), 0, h - 1);
  }

  /** The positive cells of a rectangular mask lie inside its shape. */
  lemma HitsInShape(m: seq<seq<int>>, w: nat)
    requires Rectangular(m, w)
    ensures forall p :: p in Hits(m) ==> p.col < w && p.row < |m|
  {
  }

  /** Cells inside a `w` by `h` shape have columns below `w` and rows below `h`. */
  lemma CellsBounded(hits: seq<Cell>, w: nat, h: nat)
    requires w > 0 && h > 0
    requires forall p :: p in hits ==> p.col < w && p.row < h
    ensures forall i :: 0 <= i < |hits| ==> Cols(hits)[i] <= w - 1 && Rows(hits)[i] <= h - 1
  {
    forall i | 0 <= i < |hits| ensures Cols(hits)[i] <= w - 1 && Rows(hits)[i] <= h - 1 {
      assert hits[i] in hits;
    }
  }

  /** Copies of one cell have that cell's column and row throughout. */
  lemma CellsConstant(hits: seq<Cell>, p: Cell)
    requires forall q :: q in hits ==> q == p
    ensures forall i :: 0 <= i < |hits| ==> Cols(hits)[i] == p.col && Rows(hits)[i] == p.row
  {
    forall i | 0 <= i < |hits| ensures Cols(hits)[i] == p.col && Rows(hits)[i] == p.row {
      assert hits[i] in hits;
    }
  }

  /** A mask whose only positive cell is at row `r`, column `c` has centroid `(c, r)`. */
  lemma SingleCellCentroid(m: seq<seq<int>>, w: nat, r: nat, c: nat)
    requires r < |m| && c < |m[r]| && m[r][c] > 0
    requires forall i, j :: 0 <= i < |m| && 0 <= j < |m[i]| && m[i][j] > 0 ==> i == r && j == c
    ensures Centroid(m, w) == (c, r)
  {
    var hits := Hits(m);
    assert Cell(r, c) in hits;
    assert forall p :: p in hits ==> p == Cell(r, c);
    MeansOfOneCell(hits, Cell(r, c));
  }

  /** The mean column and mean row of copies of one cell are that cell's. */
  lemma MeansOfOneCell(hits: seq<Cell>, p: Cell)
    requires hits != [] && forall q :: q in hits ==> q == p
    ensures Mean(Cols(hits)) == p.col && Mean(Rows(hits)) == p.row
  {
    CellsConstant(hits, p);
    var xs := Cols(hits);
    var ys := Rows(hits);
    SumConstant(xs, p.col);
    SumConstant(ys, p.row);
    DivBetween(Sum(xs), |xs|, p.col, p.col);
    DivBetween(Sum(ys), |ys|, p.row, p.row);
  }

  /** `mask > 0` as a 0/1 mask. */
  function Binarize(m: seq<seq<int>>): (b: seq<seq<int>>)
    ensures |b| == |m| && forall r :: 0 <= r < |m| ==> |b[r]| == |m[r]|
    ensures forall r, c :: 0 <= r < |m| && 0 <= c < |m[r]| ==> b[r][c] == if m[r][c] > 0 then 1 else 0
  {
    seq(|m|, r requires 0 <= r < |m| => seq(|m[r]|, c requires 0 <= c < |m[r]| => if m[r][c] > 0 then 1 else 0))
  }

  lemma {:induction false} RowHitsBinarized(row: seq<int>, b: seq<int>, r: nat)
    requires |b| == |row| && forall c :: 0 <= c < |row| ==> (b[c] > 0 <==> row[c] > 0)
    ensures RowHits(b, r) == RowHits(row, r)
  {
    if row != [] {
      RowHitsBinarized(row[..|row| - 1], b[..|b| - 1], r);
    }
  }

  lemma {:induction false} HitsBinarized(m: seq<seq<int>>, b: seq<seq<int>>)
    requires |b| == |m| && forall r :: 0 <= r < |m| ==> |b[r]| == |m[r]|
    requires forall r, c :: 0 <= r < |m| && 0 <= c < |m[r]| ==> (b[r][c] > 0 <==> m[r][c] > 0)
    ensures Hits(b) == Hits(m)
  {
    if m != [] {
      var last := |m| - 1;
      HitsBinarized(m[..last], b[..last]);
      RowHitsBinarized(m[last], b[last], last);
    }
  }

  /** Only whether a cell is positive matters: the 0/1 mask has the same centroid. */
  lemma CentroidOfBinarized(m: seq<seq<int>>, w: nat)
    ensures Centroid(Binarize(m), w) == Centroid(m, w)
  {
    HitsBinarized(m, Binarize(m));
  }

  // ---------------------------------------------------------------------
  // Background blackout
  // ---------------------------------------------------------------------

  /** One RGB pixel of the image array. */
  datatype Rgb = Rgb(r: byte, g: byte, b: byte)

  const Black := Rgb(0, 0, 0)

  /** The mask and the pixel rows have the same shape. */
  predicate SameShape<T>(pixels: seq<seq<T>>, m: seq<seq<int>>) {
    |pixels| == |m| && forall r :: 0 <= r < |m| ==> |pixels[r]| == |m[r]|
  }

  /** The pixels after `masked[mask == 0] = 0`. */
  function Masked(pixels: seq<seq<Rgb>>, m: seq<seq<int>>): (q: seq<seq<Rgb>>)
    requires SameShape(pixels, m)
    ensures SameShape(q, m)
  {
    seq(|pixels|, r requires 0 <= r < |pixels| =>
      seq(|pixels[r]|, c requires 0 <= c < |pixels[r]| => if m[r][c] == 0 then Black else pixels[r][c]))
  }

  /**
   * For a 0/1 mask, the pixels kept are exactly the positive cells the
   * centroid is taken over, and every other pixel is black.
   */
  lemma MaskedKeepsHits(pixels: seq<seq<Rgb>>, m: seq<seq<int>>, r: nat, c: nat)
    requires SameShape(pixels, m)
    requires forall i, j :: 0 <= i < |m| && 0 <= j < |m[i]| ==> m[i][j] == 0 || m[i][j] == 1
    requires r < |m| && c < |m[r]|
    ensures Masked(pixels, m)[r][c] == if Cell(r, c) in Hits(m) then pixels[r][c] else Black
  {
  }

  /** Blacking out twice is blacking out once. */
  lemma MaskedIdempotent(pixels: seq<seq<Rgb>>, m: seq<seq<int>>)
    requires SameShape(pixels, m)
    ensures Masked(Masked(pixels, m), m) == Masked(pixels, m)
  {
    var once := Masked(pixels, m);
    forall r | 0 <= r < |m| ensures Masked(once, m)[r] == once[r] {
    }
  }

  /** The rows of an image array. */
  ghost function Pixels(img: array2<Rgb>): (p: seq<seq<Rgb>>)
    reads img
    ensures |p| == img.Length0 && forall r :: 0 <= r < |p| ==> |p[r]| == img.Length1
  {
    seq(img.Length0, r requires 0 <= r < img.Length0 reads img =>
      seq(img.Length1, c requires 0 <= c < img.Length1 reads img => img[r, c]))
  }

  /** `masked_image[mask == 0] = 0`, in place. */
  method BlackOutBackground(img: array2<Rgb>, m: seq<seq<int>>)
    requires |m| == img.Length0 && Rectangular(m, img.Length1)
    modifies img
    ensures forall r, c :: 0 <= r < img.Length0 && 0 <= c < img.Length1 ==>
      img[r, c] == if m[r][c] == 0 then Black else old(img[r, c])
    ensures Pixels(img) == Masked(old(Pixels(img)), m)
  {
    ghost var before := Pixels(img);
    for r := 0 to img.Length0
      invariant forall i, j :: 0 <= i < r && 0 <= j < img.Length1 ==>
        img[i, j] == if m[i][j] == 0 then Black else old(img[i, j])
      invariant forall i, j :: r <= i < img.Length0 && 0 <= j < img.Length1 ==> img[i, j] == old(img[i, j])
    {
      for c := 0 to img.Length1
        invariant forall i, j :: 0 <= i < r && 0 <= j < img.Length1 ==>
          img[i, j] == if m[i][j] == 0 then Black else old(img[i, j])
        invariant forall j :: 0 <= j < c ==> img[r, j] == if m[r][j] == 0 then Black else old(img[r, j])
        invariant forall i, j :: r <= i < img.Length0 && 0 <= j < img.Length1 && (i > r || j >= c) ==>
          img[i, j] == old(img[i, j])
      {
        if m[r][c] == 0 {
          img[r, c] := Black;
        }
      }
    }
    assert SameShape(before, m);
    assert forall i :: 0 <= i < img.Length0 ==> Pixels(img)[i] == Masked(before, m)[i];
  }

  /** `image_np.copy()` followed by the blackout: a fresh masked image, the original untouched. */
  method MaskedImage(img: array2<Rgb>, m: seq<seq<int>>) returns (out: array2<Rgb>)
    requires |m| == img.Length0 && Rectangular(m, img.Length1)
    ensures fresh(out)
    ensures out.Length0 == img.Length0 && out.Length1 == img.Length1
    ensures Pixels(out) == Masked(Pixels(img), m)
  {
    out := new Rgb[img.Length0, img.Length1]((r, c) reads img =>
      if 0 <= r < img.Length0 && 0 <= c < img.Length1 then img[r, c] else Black);
    forall r | 0 <= r < img.Length0 ensures Pixels(out)[r] == Pixels(img)[r] {
    }
    BlackOutBackground(out, m);
  }
}
