/** The numeric helpers of the plotting application: the axis-box transform,
    the fast image decimation, and the decoder choice and channel rules used
    when an uploaded image is read. */
module Core {
  import opened Wrappers

  // ---------------------------------------------------------------------------
  // transform_box
  // ---------------------------------------------------------------------------

  /** A view box of an axes: left, right, top and bottom coordinates. */
  datatype Box = Box(xmin: real, xmax: real, ymin: real, ymax: real) {
    function CenterX(): real { (xmin + xmax) / 2.0 }
    function CenterY(): real { (ymin + ymax) / 2.0 }
    function Width(): real { xmax - xmin }
    function Height(): real { ymax - ymin }
  }

  /** A box is determined by its centre and its extent on both axes. */
  lemma BoxDetermined(a: Box, b: Box)
    requires a.CenterX() == b.CenterX() && a.CenterY() == b.CenterY()
    requires a.Width() == b.Width() && a.Height() == b.Height()
    ensures a == b
  {
  }

  /** Centre the box on the origin, scale it, move it back and add the offsets. */
  function TransformBox(b: Box, scale: real, offsetX: real, offsetY: real): (r: Box)
    ensures r.CenterX() == b.CenterX() + offsetX
    ensures r.CenterY() == b.CenterY() + offsetY
    ensures r.Width() == scale * b.Width()
    ensures r.Height() == scale * b.Height()
  {
    var centerX := (b.xmin + b.xmax) / 2.0;
    var centerY := (b.ymin + b.ymax) / 2.0;
    Box((b.xmin - centerX) * scale + (centerX + offsetX),
        (b.xmax - centerX) * scale + (centerX + offsetX),
        (b.ymin - centerY) * scale + (centerY + offsetY),
        (b.ymax - centerY) * scale + (centerY + offsetY))
  }

  /** Scale 1 and no offset leave the box as it is. */
  lemma TransformBoxIdentity(b: Box)
    ensures TransformBox(b, 1.0, 0.0, 0.0) == b
  {
    BoxDetermined(TransformBox(b, 1.0, 0.0, 0.0), b);
  }

  /** Scaling by s and then by 1/s, without offsets, gives back the same box. */
  lemma TransformBoxInverse(b: Box, s: real)
    requires s != 0.0
    ensures TransformBox(TransformBox(b, s, 0.0, 0.0), 1.0 / s, 0.0, 0.0) == b
  {
    var once := TransformBox(b, s, 0.0, 0.0);
    var twice := TransformBox(once, 1.0 / s, 0.0, 0.0);
    calc {
      twice.Width();
      (1.0 / s) * (s * b.Width());
      ((1.0 / s) * s) * b.Width();
      { assert (1.0 / s) * s == 1.0; }
      b.Width();
    }
    calc {
      twice.Height();
      (1.0 / s) * (s * b.Height());
      ((1.0 / s) * s) * b.Height();
      { assert (1.0 / s) * s == 1.0; }
      b.Height();
    }
    BoxDetermined(twice, b);
  }

  /** Scale 0 collapses the box onto its centre moved by the offsets. */
  lemma TransformBoxCollapse(b: Box, offsetX: real, offsetY: real)
    ensures var r := TransformBox(b, 0.0, offsetX, offsetY);
      r.xmin == r.xmax == b.CenterX() + offsetX && r.ymin == r.ymax == b.CenterY() + offsetY
  {
  }

  // ---------------------------------------------------------------------------
  // Images as rectangular grids, and strided sampling (`a[::step]`)
  // ---------------------------------------------------------------------------

  /** An image array: `rows` is the first axis (height), each row holds `width`
      cells; a cell is a pixel (a channel vector) or a single sample. */
  datatype Grid<P> = Grid(rows: seq<seq<P>>, width: nat) {
    ghost predicate Valid() {
      forall i :: 0 <= i < |rows| ==> |rows[i]| == width
    }

    function Height(): nat { |rows| }
  }

  /** The number of elements `s[::d]` keeps of a sequence of length n: n / d
      rounded up. */
  function CeilDiv(n: nat, d: nat): nat
    requires d >= 1
  {
    if n == 0 then 0 else if n <= d then 1 else 1 + CeilDiv(n - d, d)
  }

  lemma MulLe(a: int, b: int, c: nat)
    requires a <= b
    ensures a * c <= b * c
  {
  }

  lemma MulSucc(a: int, b: int)
    ensures (a + 1) * b == a * b + b
  {
  }

  /** d * CeilDiv(n, d) is the first multiple of d that reaches n. */
  lemma {:induction false} CeilDivBounds(n: nat, d: nat)
    requires d >= 1
    ensures CeilDiv(n, d) * d >= n
    ensures n > 0 ==> (CeilDiv(n, d) - 1) * d < n
    ensures CeilDiv(n, d) <= n
  {
    if n > d {
      CeilDivBounds(n - d, d);
      var c := CeilDiv(n - d, d);
      assert CeilDiv(n, d) == c + 1;
      assert (c + 1) * d == c * d + d;
      assert c * d == (c - 1) * d + d;
    }
  }

  /** Python's `s[::step]`: every step-th element, starting with the first. */
  function Stride<T>(s: seq<T>, step: nat): (r: seq<T>)
    requires step >= 1
    ensures |r| == CeilDiv(|s|, step)
    decreases |s|
  {
    if |s| == 0 then []
    else if |s| <= step then [s[0]]
    else [s[0]] + Stride(s[step..], step)
  }

  /** Element i of `s[::step]` is element i * step of s. */
  lemma {:induction false} StrideAt<T>(s: seq<T>, step: nat, i: nat)
    requires step >= 1 && i < |Stride(s, step)|
    ensures i * step < |s| && Stride(s, step)[i] == s[i * step]
    decreases |s|
  {
    if i > 0 {
      StrideAt(s[step..], step, i - 1);
      MulSucc(i - 1, step);
    }
  }

  /** `g[::rowStep, ::colStep, ...]`. */
  function StrideGrid<P>(g: Grid<P>, rowStep: nat, colStep: nat): (r: Grid<P>)
    requires g.Valid() && rowStep >= 1 && colStep >= 1
    ensures r.Valid()
    ensures r.Height() == CeilDiv(g.Height(), rowStep) && r.width == CeilDiv(g.width, colStep)
  {
    var kept := Stride(g.rows, rowStep);
    KeptRowsValid(g, rowStep);
    Grid(seq(|kept|, i requires 0 <= i < |kept| => Stride(kept[i], colStep)), CeilDiv(g.width, colStep))
  }

  lemma KeptRowsValid<P>(g: Grid<P>, rowStep: nat)
    requires g.Valid() && rowStep >= 1
    ensures forall i :: 0 <= i < |Stride(g.rows, rowStep)| ==> |Stride(g.rows, rowStep)[i]| == g.width
  {
    forall i | 0 <= i < |Stride(g.rows, rowStep)|
      ensures |Stride(g.rows, rowStep)[i]| == g.width
    {
      StrideAt(g.rows, rowStep, i);
    }
  }

  /** Cell (i, j) of the strided grid is cell (i * rowStep, j * colStep). */
  lemma StrideGridAt<P>(g: Grid<P>, rowStep: nat, colStep: nat, i: nat, j: nat)
    requires g.Valid() && rowStep >= 1 && colStep >= 1
    requires i < StrideGrid(g, rowStep, colStep).Height() && j < StrideGrid(g, rowStep, colStep).width
    ensures i * rowStep < g.Height() && j * colStep < g.width
    ensures StrideGrid(g, rowStep, colStep).rows[i][j] == g.rows[i * rowStep][j * colStep]
  {
    StrideAt(g.rows, rowStep, i);
    var row := g.rows[i * rowStep];
    StrideAt(row, colStep, j);
  }

  /** Striding by 1 on both axes keeps the image. */
  lemma StrideGridOne<P>(g: Grid<P>)
    requires g.Valid()
    ensures StrideGrid(g, 1, 1) == g
  {
    var r := StrideGrid(g, 1, 1);
    CeilDivBounds(g.Height(), 1);
    CeilDivBounds(g.width, 1);
    assert |r.rows| == |g.rows|;
    forall i | 0 <= i < |g.rows|
      ensures r.rows[i] == g.rows[i]
    {
      forall j | 0 <= j < g.width
        ensures r.rows[i][j] == g.rows[i][j]
      {
        StrideGridAt(g, 1, 1, i, j);
      }
    }
  }

  // ---------------------------------------------------------------------------
  // rescale_image_fast
  // ---------------------------------------------------------------------------

  function Max(a: int, b: int): int { if a >= b then a else b }

  /** Integer quotients of a positive n by a divisor no smaller than n. */
  lemma DivByAtLeast(n: nat, m: nat)
    requires 0 < n <= m
    ensures n / m == if n == m then 1 else 0
  {
    if n < m {
      assert n == (n / m) * m + n % m;
      if n / m >= 1 {
        MulLe(1, n / m, m);
      }
    }
  }

  /** `int(source_width / max(target_width, source_width))`: the effective target
      is never below the source width, so the ratio is 1 or 0. */
  function WidthRatio(sourceWidth: nat, targetWidth: int): (r: nat)
    requires sourceWidth > 0
    ensures r == if targetWidth <= sourceWidth then 1 else 0
  {
    DivByAtLeast(sourceWidth, Max(targetWidth, sourceWidth));
    sourceWidth / Max(targetWidth, sourceWidth)
  }

  /** `int(height / (width / effective_width))` is at least the height when the
      effective width is at least the width. */
  lemma ScaledHeightAtLeast(height: nat, width: nat, effectiveWidth: nat)
    requires 0 < width <= effectiveWidth
    ensures height * effectiveWidth / width >= height
  {
    var q := height * effectiveWidth / width;
    assert height * effectiveWidth == q * width + height * effectiveWidth % width;
    MulLe(width, effectiveWidth, height);
    if q < height {
      MulLe(q, height - 1, width);
    }
  }

  /** `int(height / (width / effective_width))` in exact arithmetic. */
  function ScaledHeight(height: nat, width: nat, effectiveWidth: nat): (r: nat)
    requires 0 < width <= effectiveWidth
    ensures r >= height
    ensures height == 0 ==> r == 0
  {
    ScaledHeightAtLeast(height, width, effectiveWidth);
    height * effectiveWidth / width
  }

  /** `int(source_height / target_height)` with a target no smaller than
      the source. */
  function HeightRatio(height: nat, targetHeight: nat): (r: nat)
    requires 0 < height <= targetHeight
    ensures r == if height == targetHeight then 1 else 0
  {
    DivByAtLeast(height, targetHeight);
    height / targetHeight
  }

  /** rescale_image_fast as written: a stride of `width_ratio` on the rows and
      `height_ratio` on the columns, or a copy. The target height is
      `height * effective_width / width` truncated (exact rational arithmetic
      in place of floats). */
  function RescaleImageFast<P>(g: Grid<P>, targetWidth: int): (r: Result<Grid<P>, Exception>)
    requires g.Valid()
    ensures r.Failure? <==> g.width == 0 || g.Height() == 0
    ensures r.Failure? ==> r.error == ZeroDivisionError
    ensures r.Success? ==> r.value == g
  {
    if g.width == 0 then
      // `source_width / target_width` with a zero target, or `height / 0.0`
      Failure(ZeroDivisionError)
    else
      var effective := Max(targetWidth, g.width);
      var widthRatio := WidthRatio(g.width, targetWidth);
      var targetHeight := ScaledHeight(g.Height(), g.width, effective);
      if targetHeight == 0 then
        // `source_height / target_height`
        Failure(ZeroDivisionError)
      else
        var heightRatio := HeightRatio(g.Height(), targetHeight);
        if widthRatio >= 1 && heightRatio >= 1 then
          StrideGridOne(g);
          Success(StrideGrid(g, widthRatio, heightRatio))
        else
          Success(g)
  }

  /** As written, asking for a width of 10 from an image 50 pixels wide gives
      the image back unchanged, still 50 pixels wide. */
  lemma RescaleImageFastNeverShrinks<P>(g: Grid<P>)
    requires g.Valid() && g.Height() == 100 && g.width == 50
    ensures RescaleImageFast(g, 10) == Success(g)
    ensures RescaleImageFast(g, 10).value.width == 50
  {
  }

  /** The decimation the docstring describes: one stride of
      `max(1, width // target_width)` on both axes, rows by rows and columns by
      columns, so the aspect ratio is kept. */
  function RescaleImageIntended<P>(g: Grid<P>, targetWidth: nat): (r: Grid<P>)
    requires g.Valid() && targetWidth >= 1
    ensures r.Valid()
    ensures targetWidth >= g.width ==> r == g
    ensures targetWidth <= g.width ==> targetWidth <= r.width < 2 * targetWidth
    ensures r.width <= g.width && r.Height() <= g.Height()
    ensures var ratio := Max(1, g.width / targetWidth);
      r.Height() == CeilDiv(g.Height(), ratio) && r.width == CeilDiv(g.width, ratio)
  {
    var ratio := Max(1, g.width / targetWidth);
    RatioBounds(g.width, targetWidth);
    CeilDivBounds(g.Height(), ratio);
    StrideGridOne(g);
    StrideGrid(g, ratio, ratio)
  }

  /** The corrected decimation keeps one pixel in `ratio` along both axes: cell
      (i, j) is source cell (i * ratio, j * ratio), so the aspect ratio is kept. */
  lemma RescaleImageIntendedAt<P>(g: Grid<P>, targetWidth: nat, i: nat, j: nat)
    requires g.Valid() && targetWidth >= 1
    requires i < RescaleImageIntended(g, targetWidth).Height() && j < RescaleImageIntended(g, targetWidth).width
    ensures var ratio := Max(1, g.width / targetWidth);
      && i * ratio < g.Height() && j * ratio < g.width
      && RescaleImageIntended(g, targetWidth).rows[i][j] == g.rows[i * ratio][j * ratio]
  {
    var ratio := Max(1, g.width / targetWidth);
    StrideGridAt(g, ratio, ratio, i, j);
  }

  /** Euclid's division of a width by a positive target width. */
  lemma QuotientBounds(width: nat, targetWidth: nat)
    requires targetWidth >= 1
    ensures (width / targetWidth) * targetWidth <= width < (width / targetWidth + 1) * targetWidth
  {
    var q := width / targetWidth;
    assert width == q * targetWidth + width % targetWidth;
    assert (q + 1) * targetWidth == q * targetWidth + targetWidth;
  }

  /** Sampling every q-th of at least q * t columns keeps at least t of them. */
  lemma CeilDivAtLeast(width: nat, q: nat, t: nat)
    requires q >= 1 && q * t <= width
    ensures CeilDiv(width, q) >= t
  {
    CeilDivBounds(width, q);
    var c := CeilDiv(width, q);
    if c < t {
      MulLe(c + 1, t, q);
    }
  }

  /** Sampling every q-th of fewer than (q + 1) * t columns keeps fewer than 2 * t. */
  lemma CeilDivBelowTwice(width: nat, q: nat, t: nat)
    requires q >= 1 && t >= 1 && width < (q + 1) * t
    ensures CeilDiv(width, q) < 2 * t
  {
    CeilDivBounds(width, q);
    var c := CeilDiv(width, q);
    if c >= 2 * t {
      MulLe(2 * t - 1, c - 1, q);
      MulSucc(2 * t - 1, q);
      assert 2 * t * q == t * q + t * q;
      MulSucc(q, t);
      MulLe(1, t, q - 1);
      MulSucc(q - 1, t);
    }
  }

  lemma RatioBounds(width: nat, targetWidth: nat)
    requires targetWidth >= 1
    ensures var ratio := Max(1, width / targetWidth);
      && (targetWidth >= width ==> ratio == 1)
      && (targetWidth <= width ==> targetWidth <= CeilDiv(width, ratio) < 2 * targetWidth)
      && CeilDiv(width, ratio) <= width
  {
    var ratio := Max(1, width / targetWidth);
    CeilDivBounds(width, ratio);
    if 0 < width <= targetWidth {
      DivByAtLeast(width, targetWidth);
    }
    if targetWidth <= width {
      QuotientBounds(width, targetWidth);
      var q := width / targetWidth;
      MulLe(1, q, targetWidth);
      assert ratio == q;
      CeilDivAtLeast(width, q, targetWidth);
      CeilDivBelowTwice(width, q, targetWidth);
    }
  }

  /** The image of 100 rows and 50 columns asked at width 10 becomes 20 by 10. */
  lemma RescaleImageIntendedExample<P>(g: Grid<P>)
    requires g.Valid() && g.Height() == 100 && g.width == 50
    ensures RescaleImageIntended(g, 10).width == 10
    ensures RescaleImageIntended(g, 10).Height() == 20
  {
    assert g.width / 10 == 5;
    CeilDivBounds(50, 5);
    CeilDivBounds(100, 5);
  }

  // ---------------------------------------------------------------------------
  // read_image_from_bytes: decoder choice
  // ---------------------------------------------------------------------------

  /** Python's str.rfind for one character: the last index holding c, or -1. */
  function RFind(s: string, c: char): (r: int)
    ensures -1 <= r < |s|
    ensures r >= 0 ==> s[r] == c
    ensures forall k :: r < k < |s| ==> s[k] != c
  {
    if |s| == 0 then -1
    else if s[|s| - 1] == c then |s| - 1
    else RFind(s[..|s| - 1], c)
  }

  /** The second half of `os.path.splitext` for a POSIX path: from the last dot
      of the last path component on, unless only dots precede that dot in the
      component (a name such as ".exr" has no extension). */
  function Extension(path: string): (ext: string)
    ensures ext != [] <==>
      exists a, b :: RFind(path, '/') < a < b < |path| && path[a] != '.' && path[b] == '.'
    ensures ext != [] ==> 0 <= RFind(path, '.') && ext == path[RFind(path, '.')..]
    ensures ext == [] || (|ext| <= |path| && ext == path[|path| - |ext|..])
    ensures ext != [] ==> ext[0] == '.' && '.' !in ext[1..] && '/' !in ext
  {
    var sep := RFind(path, '/');
    var dot := RFind(path, '.');
    if dot > sep && exists k :: sep + 1 <= k < dot && path[k] != '.' then
      assert forall k :: dot < k < |path| ==> path[k] != '.' && path[k] != '/';
      path[dot..]
    else
      ""
  }

  /** The two decoding paths of read_image_from_bytes. */
  datatype Codec = OpenCv | ImageIo

  function CodecFor(name: string): Codec {
    if Extension(name) in [".exr", ".hdr"] then OpenCv else ImageIo
  }

  /** Appending characters other than c does not move the last c. */
  lemma RFindAppend(s: string, t: string, c: char)
    requires c !in t
    ensures RFind(s + t, c) == RFind(s, c)
  {
    var p := s + t;
    var rp := RFind(p, c);
    var rs := RFind(s, c);
    assert forall k :: |s| <= k < |p| ==> p[k] == t[k - |s|];
    if rs >= 0 {
      assert p[rs] == c;
    }
    if rp >= 0 {
      assert rp < |s| && p[rp] == s[rp];
    }
  }

  /** In a stem followed by ".exr" or ".hdr", the last dot is the suffix's and
      the last separator is the stem's. */
  lemma SuffixMarks(stem: string, suffix: string)
    requires suffix == ".exr" || suffix == ".hdr"
    ensures RFind(stem + suffix, '.') == |stem|
    ensures RFind(stem + suffix, '/') == RFind(stem, '/')
  {
    var path := stem + suffix;
    RFindAppend(stem, suffix, '/');
    assert path[|stem|] == '.';
    assert forall k :: |stem| < k < |path| ==> path[k] != '.';
  }

  /** Seen from the last dot: the extension is non-empty exactly when a
      character other than a dot lies between the last separator and the last
      dot, and then it runs from that dot. */
  lemma ExtensionFromLastDot(path: string, dot: int)
    requires RFind(path, '.') == dot
    ensures Extension(path) != [] <==> exists k :: RFind(path, '/') < k < dot && path[k] != '.'
    ensures Extension(path) != [] ==> Extension(path) == path[dot..]
  {
    var sep := RFind(path, '/');
    if exists k :: sep < k < dot && path[k] != '.' {
      var k :| sep < k < dot && path[k] != '.';
      assert sep < k < dot < |path| && path[k] != '.' && path[dot] == '.';
    }
    if Extension(path) != [] {
      var a, b :| sep < a < b < |path| && path[a] != '.' && path[b] == '.';
      assert b <= dot;
    }
  }

  /** A name ending in ".exr" or ".hdr" takes the OpenCV path exactly when the
      last component of what precedes the suffix holds a character other than a
      dot: "a.exr" and "a..exr" do, while ".exr" and "d/.exr" do not. */
  lemma HdrSuffixUsesOpenCv(stem: string, suffix: string)
    requires suffix == ".exr" || suffix == ".hdr"
    ensures CodecFor(stem + suffix) == OpenCv <==>
      exists k :: RFind(stem, '/') < k < |stem| && stem[k] != '.'
  {
    var path := stem + suffix;
    SuffixMarks(stem, suffix);
    ExtensionFromLastDot(path, |stem|);
    assert path[|stem|..] == suffix;
    assert forall k :: 0 <= k < |stem| ==> path[k] == stem[k];
  }

  /** Any other ending, including ".EXR" or ".Hdr", takes the imageio path. */
  lemma OtherSuffixUsesImageIo(name: string)
    requires |name| < 4 || (name[|name| - 4..] != ".exr" && name[|name| - 4..] != ".hdr")
    ensures CodecFor(name) == ImageIo
  {
  }

  // ---------------------------------------------------------------------------
  // read_image_from_bytes: channel order and channel count
  // ---------------------------------------------------------------------------

  /** A decoded array: two-dimensional (one sample per pixel) or
      three-dimensional with `channels` samples per pixel. */
  datatype Decoded<T> = Planar(plane: Grid<T>) | Stacked(pixels: Grid<seq<T>>, channels: nat) {
    ghost predicate Valid() {
      match this
      case Planar(g) => g.Valid()
      case Stacked(g, c) =>
        g.Valid() && forall i, j :: 0 <= i < |g.rows| && 0 <= j < |g.rows[i]| ==> |g.rows[i][j]| == c
    }
  }

  function MapGrid<A, B>(g: Grid<A>, f: A -> B): (r: Grid<B>)
    requires g.Valid()
    ensures r.Valid() && r.Height() == g.Height() && r.width == g.width
    ensures forall i, j :: 0 <= i < r.Height() && 0 <= j < r.width ==> r.rows[i][j] == f(g.rows[i][j])
  {
    Grid(seq(|g.rows|, i requires 0 <= i < |g.rows| =>
           seq(|g.rows[i]|, j requires 0 <= j < |g.rows[i]| => f(g.rows[i][j]))),
         g.width)
  }

  /** `p[:3]`, which Python clamps to the length of p. */
  function FirstThree<T>(p: seq<T>): seq<T> {
    if |p| <= 3 then p else p[..3]
  }

  /** A 2-D array is repeated into three equal channels; then an array with more
      than three channels keeps its first three. */
  function NormalizeChannels<T>(d: Decoded<T>): (r: Decoded<T>)
    requires d.Valid()
    ensures r.Valid() && r.Stacked? && r.channels <= 3
    ensures d.Planar? ==>
      && r.channels == 3 && r.pixels.Height() == d.plane.Height() && r.pixels.width == d.plane.width
      && forall i, j :: 0 <= i < r.pixels.Height() && 0 <= j < r.pixels.width ==>
           var v := d.plane.rows[i][j]; r.pixels.rows[i][j] == [v, v, v]
    ensures d.Stacked? && d.channels > 3 ==>
      && r.channels == 3 && r.pixels.Height() == d.pixels.Height() && r.pixels.width == d.pixels.width
      && forall i, j :: 0 <= i < r.pixels.Height() && 0 <= j < r.pixels.width ==>
           r.pixels.rows[i][j] == d.pixels.rows[i][j][..3]
    ensures d.Stacked? && d.channels <= 3 ==> r == d
  {
    var stacked := if d.Planar? then Stacked(MapGrid(d.plane, (v: T) => [v, v, v]), 3) else d;
    if stacked.channels > 3 then Stacked(MapGrid(stacked.pixels, FirstThree), 3) else stacked
  }

  /** The channel vector in reverse order of its first three samples. */
  function SwapRedBlue<T>(p: seq<T>): seq<T> {
    if |p| >= 3 then [p[2], p[1], p[0]] else p
  }

  /** OpenCV's BGR to RGB conversion: three- or four-channel input, three-channel
      output in reverse order; other inputs are refused. */
  function BgrToRgb<T>(d: Decoded<T>): (r: Result<Decoded<T>, Exception>)
    requires d.Valid()
    ensures r.Success? <==> d.Stacked? && (d.channels == 3 || d.channels == 4)
    ensures r.Failure? ==> r.error == ConversionError
    ensures r.Success? ==>
      && r.value.Valid() && r.value.Stacked? && r.value.channels == 3
      && r.value.pixels.Height() == d.pixels.Height() && r.value.pixels.width == d.pixels.width
      && forall i, j :: 0 <= i < r.value.pixels.Height() && 0 <= j < r.value.pixels.width ==>
           var p := d.pixels.rows[i][j]; r.value.pixels.rows[i][j] == [p[2], p[1], p[0]]
  {
    if d.Stacked? && (d.channels == 3 || d.channels == 4) then
      Success(Stacked(MapGrid(d.pixels, SwapRedBlue), 3))
    else
      Failure(ConversionError)
  }

  /** A foreign decoder: the decoded array, or None when it cannot decode. */
  type Decoder<T> = seq<bv8> -> Option<Decoded<T>>

  ghost predicate Sound<T>(decode: Decoder<T>) {
    forall b :: decode(b).Some? ==> decode(b).value.Valid()
  }

  /** read_image_from_bytes without the bit-depth conversion: choose the codec
      by extension, undo OpenCV's channel order, then normalise the channels. */
  function ReadImageFromBytes<T>(name: string, payload: seq<bv8>, openCv: Decoder<T>, imageIo: Decoder<T>)
    : (r: Result<Decoded<T>, Exception>)
    requires Sound(openCv) && Sound(imageIo)
    ensures r.Success? ==> r.value.Valid() && r.value.Stacked? && r.value.channels <= 3
    ensures CodecFor(name) == ImageIo ==>
      && (r.Success? <==> imageIo(payload).Some?)
      && (r.Success? ==> r.value == NormalizeChannels(imageIo(payload).value))
    ensures CodecFor(name) == OpenCv ==>
      && (r.Success? <==> openCv(payload).Some? && BgrToRgb(openCv(payload).value).Success?)
      && (r.Success? ==> r.value == BgrToRgb(openCv(payload).value).value)
    ensures r.Failure? ==> r.error in {DecodeError, ConversionError}
  {
    if CodecFor(name) == OpenCv then
      var raw :- (match openCv(payload) case Some(a) => Success(a) case None => Failure(DecodeError));
      var rgb :- BgrToRgb(raw);
      Success(NormalizeChannels(rgb))
    else
      var raw :- (match imageIo(payload) case Some(a) => Success(a) case None => Failure(DecodeError));
      Success(NormalizeChannels(raw))
  }
}
