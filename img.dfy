/**
 * work/img.py: the image workload's geometry. Pixels are abstracted away; an
 * image is its Shape (height, width). The contrast step (CLAHE in the LAB
 * colour space) keeps the shape and is otherwise not modelled.
 */
module Images {
  import opened Values

  /** Python's int() of a float: truncation toward zero. */
  function Trunc(x: real): int {
    if x >= 0.0 then x.Floor else -((-x).Floor)
  }

  /** A slice bound of a Python slice over a dimension of length n. */
  function SliceBound(i: int, n: nat): (b: nat)
    ensures b <= n
  {
    if i < 0 then (if i + n < 0 then 0 else i + n) else if i > n then n else i
  }

  /** len(range(n)[start:stop]): how many rows or columns a slice keeps. */
  function SliceLen(n: nat, start: int, stop: int): (len: nat)
    ensures SliceBound(start, n) + len <= n
  {
    var a, b := SliceBound(start, n), SliceBound(stop, n);
    if b <= a then 0 else b - a
  }

  /** The part of an image a crop keeps: its first row, first column and shape. */
  datatype Region = Region(top: nat, left: nat, shape: Shape)

  /**
   * img_crop(img, aspect_ratio) (work/img.py:25-35): a taller image keeps
   * every column and int(w * ar) rows from (h - crop_h) // 2 on; any other
   * keeps every row and int(h * ar) columns from (w - crop_w) // 2 on. The
   * region always lies inside the image.
   */
  function ImgCrop(img: Shape, ar: real): (r: Region)
    ensures r.top + r.shape.h <= img.h && r.left + r.shape.w <= img.w
    ensures img.h > img.w ==> r.left == 0 && r.shape.w == img.w
    ensures img.h <= img.w ==> r.top == 0 && r.shape.h == img.h
    ensures var cropH := Trunc(img.w as real * ar);
      img.h > img.w && 0 <= cropH <= img.h ==> r.shape.h == cropH && r.top == (img.h - cropH) / 2
    ensures var cropW := Trunc(img.h as real * ar);
      img.h <= img.w && 0 <= cropW <= img.w ==> r.shape.w == cropW && r.left == (img.w - cropW) / 2
  {
    if img.h > img.w then
      var cropH := Trunc(img.w as real * ar);
      var cropY := (img.h - cropH) / 2;
      Region(SliceBound(cropY, img.h), 0, Shape(SliceLen(img.h, cropY, cropY + cropH), img.w))
    else
      var cropW := Trunc(img.h as real * ar);
      var cropX := (img.w - cropW) / 2;
      Region(0, SliceBound(cropX, img.w), Shape(img.h, SliceLen(img.w, cropX, cropX + cropW)))
  }

  /**
   * With aspect ratio 1.0, the only one the workload uses, the crop is the
   * centred square whose side is the shorter dimension.
   */
  lemma SquareCrop(img: Shape)
    ensures var side := if img.h < img.w then img.h else img.w;
      ImgCrop(img, 1.0) == Region((img.h - side) / 2, (img.w - side) / 2, Shape(side, side))
  {
    assert Trunc(img.w as real * 1.0) == img.w;
    assert Trunc(img.h as real * 1.0) == img.h;
  }

  /**
   * img_resize(img, max_size) (work/img.py:16-22): the longer side becomes
   * max_size and the other int(side * max_size / longer), so the aspect ratio
   * is kept up to truncation; a zero-width image divides by zero, and
   * cv2.resize refuses an empty source or a target with a zero side.
   */
  function ImgResize(img: Shape, maxSize: nat): (r: Result<Shape>)
    ensures r.Ok? <==> (img.h > 0 && img.w > 0 &&
      if img.h > img.w then img.w * maxSize >= img.h else img.h * maxSize >= img.w)
    ensures r.Err? ==> r.error == if img.w == 0 && img.h == 0 then ZeroDivisionError else OpenCvError
    ensures r.Ok? && img.h > img.w ==>
      r.value.h == maxSize && 0 < r.value.w <= maxSize &&
      r.value.w * img.h <= img.w * maxSize < (r.value.w + 1) * img.h
    ensures r.Ok? && img.h <= img.w ==>
      r.value.w == maxSize && 0 < r.value.h <= maxSize &&
      r.value.h * img.w <= img.h * maxSize < (r.value.h + 1) * img.w
  {
    if img.h > img.w then
      var w := ScaledSide(img.w, maxSize, img.h);
      if img.w == 0 || w == 0 then Err(OpenCvError) else Ok(Shape(maxSize, w))
    else if img.w == 0 then Err(ZeroDivisionError)
    else
      var h := ScaledSide(img.h, maxSize, img.w);
      if img.h == 0 || h == 0 then Err(OpenCvError) else Ok(Shape(h, maxSize))
  }

  /** int(side * max_size / longer) for a shorter or equal side. */
  function ScaledSide(side: nat, maxSize: nat, longer: nat): (s: nat)
    requires side <= longer && longer > 0
    ensures s <= maxSize
    ensures s * longer <= side * maxSize < (s + 1) * longer
    ensures s == 0 <==> side * maxSize < longer
  {
    var x := (side * maxSize) as real / longer as real;
    FloorOfQuotient(side * maxSize, longer);
    ScaledAtMost(side, maxSize, longer);
    QuotientZero(side * maxSize, longer);
    Trunc(x)
  }

  lemma FloorOfQuotient(n: nat, d: nat)
    requires d > 0
    ensures Trunc(n as real / d as real) == n / d
  {
    var q, m := n / d, n % d;
    assert n == d * q + m;
    var x := n as real / d as real;
    assert x * d as real == n as real;
    assert (q as real) * (d as real) <= n as real;
    assert n as real < (q + 1) as real * d as real;
    DivBetween(n as real, d as real, q as real);
  }

  lemma DivBetween(n: real, d: real, q: real)
    requires d > 0.0 && q * d <= n < (q + 1.0) * d
    ensures q <= n / d < q + 1.0
  {
    var y := n - q * d;
    assert 0.0 <= y < d;
    assert (y / d) * d == y;
    assert n / d == q + y / d;
  }

  lemma ScaledAtMost(side: nat, maxSize: nat, longer: nat)
    requires side <= longer && longer > 0
    ensures (side * maxSize) / longer <= maxSize
    ensures ((side * maxSize) / longer) * longer <= side * maxSize < ((side * maxSize) / longer + 1) * longer
  {
    var n := side * maxSize;
    assert n <= longer * maxSize;
    var q := n / longer;
    assert n == longer * q + n % longer;
  }

  /** A quotient of naturals is zero exactly when the dividend is below the divisor. */
  lemma QuotientZero(n: nat, d: nat)
    requires d > 0
    ensures n / d == 0 <==> n < d
  {
    var q := n / d;
    assert n == d * q + n % d;
    if q > 0 {
      assert d * q >= d;
    }
  }

  lemma ScaleBack(s: real, m: real)
    requires s > 0.0
    ensures (s * m) / s == m
  {
  }

  /**
   * One image through the workload: crop to a square, resize to 512 on the
   * longer side, enhance contrast (shape unchanged).
   */
  function ProcessImage(img: Shape): Result<Shape> {
    var cropped := ImgCrop(img, 1.0);
    ImgResize(cropped.shape, 512)
  }

  /**
   * Every non-empty image comes out 512 x 512; an image with no rows or no
   * columns is cropped to nothing and then divides by zero in the resize.
   */
  lemma ProcessImageShape(img: Shape)
    ensures ProcessImage(img) == if img.h > 0 && img.w > 0 then Ok(Shape(512, 512)) else Err(ZeroDivisionError)
  {
    SquareCrop(img);
    var side := if img.h < img.w then img.h else img.w;
    ResizeSquare(side);
  }

  lemma ResizeSquare(side: nat)
    ensures ImgResize(Shape(side, side), 512) == if side > 0 then Ok(Shape(512, 512)) else Err(ZeroDivisionError)
  {
    if side > 0 {
      var sr := side as real;
      assert (side * 512) as real == sr * 512.0;
      ScaleBack(sr, 512.0);
      assert ScaledSide(side, 512, side) == 512;
    }
  }

  /** The outputs for the images in order, or the first failure. */
  function ManipulatedOf(imgs: seq<Shape>): Result<seq<Shape>> {
    if |imgs| == 0 then Ok([])
    else
      var init :- ManipulatedOf(imgs[..|imgs| - 1]);
      var last :- ProcessImage(imgs[|imgs| - 1]);
      Ok(init + [last])
  }

  /**
   * img_manipulation_task(imgs, work_index) (work/img.py:5-13): one output
   * per input, in order; work_index is not used.
   */
  method ImgManipulationTask(imgs: seq<Shape>, workIndex: int) returns (r: Result<seq<Shape>>)
    ensures r == ManipulatedOf(imgs)
  {
    var out: seq<Shape> := [];
    for k := 0 to |imgs|
      invariant ManipulatedOf(imgs[..k]) == Ok(out)
    {
      assert imgs[..k + 1][..k] == imgs[..k];
      var processed := ProcessImage(imgs[k]);
      if processed.Err? {
        ManipulatedStaysFailed(imgs, k + 1);
        return Err(processed.error);
      }
      out := out + [processed.value];
    }
    assert imgs[..|imgs|] == imgs;
    r := Ok(out);
  }

  lemma {:induction false} ManipulatedStaysFailed(imgs: seq<Shape>, n: nat)
    requires n <= |imgs|
    requires ManipulatedOf(imgs[..n]).Err?
    ensures ManipulatedOf(imgs) == ManipulatedOf(imgs[..n])
    decreases |imgs| - n
  {
    if n < |imgs| {
      assert imgs[..n + 1][..n] == imgs[..n];
      ManipulatedStaysFailed(imgs, n + 1);
    } else {
      assert imgs[..n] == imgs;
    }
  }

  /** n images of 512 x 512. */
  function Squares(n: nat): (s: seq<Shape>)
    ensures |s| == n
  {
    seq(n, _ => Shape(512, 512))
  }

  /** A batch of non-empty images comes out as one 512 x 512 image per input. */
  lemma {:induction false} ManipulatedAllSquare(imgs: seq<Shape>)
    requires forall k :: 0 <= k < |imgs| ==> imgs[k].h > 0 && imgs[k].w > 0
    ensures ManipulatedOf(imgs) == Ok(Squares(|imgs|))
  {
    if |imgs| > 0 {
      var init := imgs[..|imgs| - 1];
      ManipulatedAllSquare(init);
      ProcessImageShape(imgs[|imgs| - 1]);
      assert ManipulatedOf(init) == Ok(Squares(|imgs| - 1));
      assert ProcessImage(imgs[|imgs| - 1]) == Ok(Shape(512, 512));
      assert Squares(|imgs|) == Squares(|imgs| - 1) + [Shape(512, 512)];
    }
  }
}
