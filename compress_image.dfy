/**
 * `compressImage`: the resize that fits a photo into a square of side
 * `maxWidthOrHeight`, and the bisection over JPEG quality that looks for
 * the best quality whose encoding fits the byte budget. The canvas encoder
 * `canvas.toBlob` is the parameter `encode`; qualities are exact reals.
 */
module CompressImage {
  import opened Wrappers
  import opened Text
  import opened Arith

  /** `Math.round(n / d)` for a non-negative quotient: halves round up. */
  function RoundDiv(n: nat, d: nat): (r: nat)
    requires d > 0
    ensures 2 * r * d <= 2 * n + d < 2 * r * d + 2 * d
  {
    (2 * n + d) / (2 * d)
  }

  /** A rounded quotient below a bound stays within it. */
  lemma RoundDivAtMost(n: nat, d: nat, m: nat)
    requires d > 0 && n <= m * d
    ensures RoundDiv(n, d) <= m
  {
    var r := RoundDiv(n, d);
    assert 2 * r * d < 2 * (m + 1) * d;
    MulCancel(2 * r, 2 * (m + 1), d);
  }

  /**
   * The resize of `img.onload`: dimensions already within the square are
   * kept; otherwise the longer side (the height for a square) becomes
   * `maxSide` and the other is scaled by the same factor and rounded.
   */
  method Resize(width: nat, height: nat, maxSide: nat) returns (w: nat, h: nat)
    ensures width <= maxSide && height <= maxSide ==> w == width && h == height
    ensures (width > maxSide || height > maxSide) && width > height ==>
      w == maxSide && h == RoundDiv(height * maxSide, width)
    ensures (width > maxSide || height > maxSide) && width <= height ==>
      h == maxSide && w == RoundDiv(width * maxSide, height)
    ensures w <= maxSide && h <= maxSide
    ensures (width > maxSide || height > maxSide) ==> (if width > height then w else h) == maxSide
  {
    w, h := width, height;
    if w > maxSide || h > maxSide {
      if w > h {
        RoundDivAtMost(h * maxSide, w, maxSide);
        h := RoundDiv(h * maxSide, w);
        w := maxSide;
      } else {
        RoundDivAtMost(w * maxSide, h, maxSide);
        w := RoundDiv(w * maxSide, h);
        h := maxSide;
      }
    }
  }

  // ---------------------------------------------------------------------------
  // quality search

  /** `maxSizeMB * 1024 * 1024`. */
  function Budget(maxSizeMB: nat): nat {
    maxSizeMB * 1024 * 1024
  }

  datatype Blob = Blob(size: nat)

  /** `canvas.toBlob` at a JPEG quality; None is a null blob. */
  type Encoder = real -> Option<Blob>

  /** What the promise settles to: the resolved blob (possibly null) and the quality it was encoded at, or a rejection. */
  datatype Compression = Compressed(blob: Option<Blob>, quality: real) | Failed(error: String)

  const MinQuality: real := 0.1
  const MaxQuality: real := 0.92
  const MaxIterations: nat := 10
  const Tolerance: real := 0.02

  /**
   * `findOptimalQuality(minQuality, maxQuality, iterations)`: with the
   * qualities it encodes at, in order. Past ten iterations it resolves the
   * encoding at `lo` without looking at its size; before that it encodes
   * at the midpoint, rejects on a null blob, resolves a fitting blob once
   * the interval above the midpoint is narrower than the tolerance, and
   * otherwise recurses into the upper half (fits) or the lower half.
   */
  function FindOptimalQuality(lo: real, hi: real, iterations: nat, budget: nat, encode: Encoder)
    : (r: (Compression, seq<real>))
    requires iterations <= MaxIterations + 1
    requires lo <= hi
    decreases MaxIterations + 1 - iterations
    ensures 1 <= |r.1| <= MaxIterations + 2 - iterations
    ensures forall i :: 0 <= i < |r.1| ==> lo <= r.1[i] <= hi
    ensures r.0.Compressed? ==> r.0.quality == r.1[|r.1| - 1] && r.0.blob == encode(r.0.quality)
    ensures r.0.Failed? ==> r.0.error == "Failed to compress image" && encode(r.1[|r.1| - 1]).None?
    ensures |r.1| < MaxIterations + 2 - iterations && r.0.Compressed? ==>
      r.0.blob.Some? && r.0.blob.value.size <= budget
  {
    if iterations > MaxIterations then
      (Compressed(encode(lo), lo), [lo])
    else
      var mid := (lo + hi) / 2.0;
      var blob := encode(mid);
      if blob.None? then (Failed("Failed to compress image"), [mid])
      else if blob.value.size <= budget then
        if hi - mid < Tolerance then (Compressed(blob, mid), [mid])
        else
          var rest := FindOptimalQuality(mid, hi, iterations + 1, budget, encode);
          (rest.0, [mid] + rest.1)
      else
        var rest := FindOptimalQuality(lo, mid, iterations + 1, budget, encode);
        (rest.0, [mid] + rest.1)
  }

  /** The search from the start: at most twelve encodes, all at qualities between 0.1 and 0.92. */
  lemma SearchBounds(budget: nat, encode: Encoder)
    ensures var r := FindOptimalQuality(MinQuality, MaxQuality, 0, budget, encode);
      && |r.1| <= 12
      && (forall i :: 0 <= i < |r.1| ==> 0.1 <= r.1[i] <= 0.92)
      && (|r.1| < 12 && r.0.Compressed? ==> r.0.blob.Some? && r.0.blob.value.size <= budget)
  {
  }

  /** An encoder whose every blob is over the budget drives the search to its fallback at the lower bound. */
  lemma {:induction false} AllTooLargeFallsBack(lo: real, hi: real, iterations: nat, budget: nat)
    requires iterations <= MaxIterations + 1 && lo <= hi
    decreases MaxIterations + 1 - iterations
    ensures FindOptimalQuality(lo, hi, iterations, budget, q => Some(Blob(budget + 1))).0 == Compressed(Some(Blob(budget + 1)), lo)
  {
    if iterations <= MaxIterations {
      AllTooLargeFallsBack(lo, (lo + hi) / 2.0, iterations + 1, budget);
    }
  }

  /** The fallback is not checked against the budget: the resolved photo can be larger than `maxSizeMB`. */
  lemma FallbackCanExceedBudget(budget: nat)
    ensures exists encode: Encoder ::
      var r := FindOptimalQuality(MinQuality, MaxQuality, 0, budget, encode);
      r.0.Compressed? && r.0.blob.Some? && r.0.blob.value.size > budget
  {
    var encode: Encoder := q => Some(Blob(budget + 1));
    AllTooLargeFallsBack(MinQuality, MaxQuality, 0, budget);
  }

  /**
   * The whole of `compressImage`: None for `dimensions` is an image that
   * failed to load. `encodeAt` stands for drawing the image at the given
   * size on a white canvas and encoding that canvas.
   */
  method Compress(dimensions: Option<(nat, nat)>, maxSizeMB: nat, maxWidthOrHeight: nat,
                  encodeAt: (nat, nat) -> Encoder) returns (r: Compression)
    ensures dimensions.None? ==> r == Failed("Failed to load image")
    ensures dimensions.Some? ==> exists w: nat, h: nat ::
      w <= maxWidthOrHeight && h <= maxWidthOrHeight
      && r == FindOptimalQuality(MinQuality, MaxQuality, 0, Budget(maxSizeMB), encodeAt(w, h)).0
  {
    if dimensions.None? {
      return Failed("Failed to load image");
    }
    var w, h := Resize(dimensions.value.0, dimensions.value.1, maxWidthOrHeight);
    var search := FindOptimalQuality(MinQuality, MaxQuality, 0, Budget(maxSizeMB), encodeAt(w, h));
    r := search.0;
  }
}
