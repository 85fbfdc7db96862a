/**
 * The index arithmetic of `loadVolume`: the cubic working size of the voxel
 * grid, and the layer each decoded slice is written to.
 *
 * Slices are opaque: the grid is an array of `taille` layers, each either
 * still zero or holding the data of one slice (named by its position in the
 * index file).
 */
module VolumeLoader {
  import opened Wrappers

  // ---------------------------------------------------------------------
  // Powers of two
  // ---------------------------------------------------------------------

  /** 2 to the power k. */
  function Pow2(k: nat): (p: nat)
    ensures p >= 1
  {
    if k == 0 then 1 else 2 * Pow2(k - 1)
  }

  /** x is one of 1, 2, 4, 8, ... */
  predicate IsPowerOfTwo(x: int)
  {
    x == 1 || (x > 1 && x % 2 == 0 && IsPowerOfTwo(x / 2))
  }

  lemma {:induction false} Pow2IsPowerOfTwo(k: nat)
    ensures IsPowerOfTwo(Pow2(k))
  {
    if k > 0 {
      Pow2IsPowerOfTwo(k - 1);
      assert Pow2(k) / 2 == Pow2(k - 1);
    }
  }

  /** Every power of two is Pow2 of some exponent. */
  lemma {:induction false} PowerOfTwoExponent(x: int) returns (k: nat)
    requires IsPowerOfTwo(x)
    ensures Pow2(k) == x
  {
    if x == 1 {
      k := 0;
    } else {
      var j := PowerOfTwoExponent(x / 2);
      k := j + 1;
    }
  }

  lemma {:induction false} Pow2Monotone(i: nat, j: nat)
    requires i <= j
    ensures Pow2(i) <= Pow2(j)
  {
    if i < j {
      Pow2Monotone(i, j - 1);
    }
  }

  /** The exponent of the smallest power of two at or above m: the integer
      reading of `ceil(log2(m))` (for m = 0 the source's float -inf leads to
      the same final size once clamped to 256). */
  function CeilLog2(m: nat): (k: nat)
    ensures Pow2(k) >= m
    ensures k > 0 ==> Pow2(k - 1) < m
    decreases m
  {
    if m <= 1 then 0 else 1 + CeilLog2((m + 1) / 2)
  }

  /** No smaller exponent reaches m. */
  lemma {:induction false} CeilLog2Least(m: nat, k: nat)
    requires Pow2(k) >= m
    ensures CeilLog2(m) <= k
    decreases m
  {
    if m > 1 {
      assert k >= 1;
      assert 2 * Pow2(k - 1) >= m;
      CeilLog2Least((m + 1) / 2, k - 1);
    }
  }

  // ---------------------------------------------------------------------
  // Working size
  // ---------------------------------------------------------------------

  function Max3(a: nat, b: nat, c: nat): (m: nat)
    ensures m >= a && m >= b && m >= c
    ensures m == a || m == b || m == c
  {
    if a >= b && a >= c then a else if b >= c then b else c
  }

  /** Edge `taille` of the cubic working grid for a first slice of
      height x width pixels and n slices: the next power of two at or above
      the largest of the three, raised to 256 when below it. */
  function WorkingSize(height: nat, width: nat, n: nat): (taille: nat)
    ensures taille >= height && taille >= width && taille >= n
    ensures taille >= 256
  {
    var p := Pow2(CeilLog2(Max3(height, width, n)));
    if p < 256 then 256 else p
  }

  lemma WorkingSizeIsPowerOfTwo(height: nat, width: nat, n: nat)
    ensures IsPowerOfTwo(WorkingSize(height, width, n))
  {
    Pow2IsPowerOfTwo(8);
    Pow2IsPowerOfTwo(CeilLog2(Max3(height, width, n)));
  }

  /** The working size is the least power of two that is at least 256 and
      at least each of height, width and n. */
  lemma WorkingSizeLeast(height: nat, width: nat, n: nat, p: int)
    requires IsPowerOfTwo(p)
    requires p >= height && p >= width && p >= n && p >= 256
    ensures WorkingSize(height, width, n) <= p
  {
    var k := PowerOfTwoExponent(p);
    CeilLog2Least(Max3(height, width, n), k);
    Pow2Monotone(CeilLog2(Max3(height, width, n)), k);
  }

  /** The three worked sizes: 300 x 200 with 10 slices, 100 x 100 with 5
      slices, and 64 x 64 with 4 slices. */
  lemma WorkingSizeExamples()
    ensures WorkingSize(300, 200, 10) == 512
    ensures WorkingSize(100, 100, 5) == 256
    ensures WorkingSize(64, 64, 4) == 256
  {
    assert CeilLog2(300) == 9 by {
      assert CeilLog2(2) == 1 && CeilLog2(3) == 2 && CeilLog2(5) == 3;
      assert CeilLog2(10) == 4 && CeilLog2(19) == 5 && CeilLog2(38) == 6;
      assert CeilLog2(75) == 7 && CeilLog2(150) == 8;
    }
    assert CeilLog2(100) == 7 by {
      assert CeilLog2(2) == 1 && CeilLog2(4) == 2 && CeilLog2(7) == 3;
      assert CeilLog2(13) == 4 && CeilLog2(25) == 5 && CeilLog2(50) == 6;
    }
    assert CeilLog2(64) == 6 by {
      assert CeilLog2(2) == 1 && CeilLog2(4) == 2 && CeilLog2(8) == 3;
      assert CeilLog2(16) == 4 && CeilLog2(32) == 5;
    }
  }

  // ---------------------------------------------------------------------
  // Slice placement
  // ---------------------------------------------------------------------

  /** Python sequence indexing: an index k in [-len, len) addresses element
      k mod len (negative indices count from the end); any other index
      raises IndexError (None). */
  function PyIndex(k: int, len: nat): (r: Option<nat>)
    ensures r.Some? <==> -(len as int) <= k < len
    ensures r.Some? ==> r.value < len && r.value == k % len
  {
    if 0 <= k < len then Some(k)
    else if -(len as int) <= k < 0 then Some(len + k)
    else None
  }

  /** The layer `VOL[i-1]` that slice i is written to. */
  function LayerOf(i: nat, taille: nat): Option<nat>
  {
    PyIndex(i - 1, taille)
  }

  /** The slice that lands in layer l: the inverse of LayerOf. */
  function SliceFor(l: nat, taille: nat): nat
  {
    if l + 1 == taille then 0 else l + 1
  }

  /** Every slice index below taille addresses a layer, and SliceFor
      recovers the slice from it. */
  lemma LayerOfInRange(i: nat, taille: nat)
    requires i < taille
    ensures LayerOf(i, taille).Some?
    ensures SliceFor(LayerOf(i, taille).value, taille) == i
  {
  }

  /** Every layer is the target of exactly one slice index below taille. */
  lemma SliceForRoundTrip(l: nat, taille: nat)
    requires l < taille
    ensures SliceFor(l, taille) < taille
    ensures LayerOf(SliceFor(l, taille), taille) == Some(l)
  {
  }

  /** Two distinct slices never share a layer. */
  lemma LayerOfInjective(i: nat, j: nat, taille: nat)
    requires i < taille && j < taille && i != j
    ensures LayerOf(i, taille) != LayerOf(j, taille)
  {
  }

  datatype Layer = Zero | Holds(slice: nat)

  /** The grid after the first k slices have been written: layer l holds
      its slice SliceFor(l) if that slice is among the first k, else zero. */
  function Layout(k: nat, taille: nat): (g: seq<Layer>)
    ensures |g| == taille
  {
    seq(taille, l requires 0 <= l < taille =>
      if SliceFor(l, taille) < k then Holds(SliceFor(l, taille)) else Zero)
  }

  /** In the final grid of n slices, slice i >= 1 is in layer i - 1, slice 0
      is in the last layer, and layers n-1 .. taille-2 are still zero. */
  lemma LayoutPlacement(n: nat, taille: nat)
    requires n <= taille
    ensures forall i :: 1 <= i < n ==> Layout(n, taille)[i - 1] == Holds(i)
    ensures n > 0 ==> Layout(n, taille)[taille - 1] == Holds(0)
    ensures forall l :: 0 <= l && n - 1 <= l < taille - 1 ==> Layout(n, taille)[l] == Zero
    ensures forall l :: 0 <= l < taille && Layout(n, taille)[l].Holds? ==>
              Layout(n, taille)[l].slice < n && LayerOf(Layout(n, taille)[l].slice, taille) == Some(l)
  {
  }

  /** Writing slice k into its layer turns Layout(k) into Layout(k + 1). */
  lemma LayoutStep(k: nat, taille: nat)
    requires k < taille
    ensures Layout(k + 1, taille) == Layout(k, taille)[LayerOf(k, taille).value := Holds(k)]
  {
  }

  // ---------------------------------------------------------------------
  // Copying a slice into its layer
  // ---------------------------------------------------------------------

  /** Shape of a 2-D pixel array: rows x columns. */
  datatype Shape = Shape(rows: nat, cols: nat)

  function Min(a: nat, b: nat): nat
  {
    if a <= b then a else b
  }

  /** numpy broadcasting of a 2-D source into a 2-D destination: each
      source dimension equals the destination's or is 1. */
  predicate Broadcasts(src: Shape, dst: Shape)
  {
    (src.rows == dst.rows || src.rows == 1) && (src.cols == dst.cols || src.cols == 1)
  }

  /** The destination `VOL[l][0:height][0:width]` as written: a layer is
      taille x taille, and both slices cut its rows, so the view is
      min(height, width, taille) rows of taille columns. */
  function ChainedView(height: nat, width: nat, taille: nat): Shape
  {
    Shape(Min(Min(height, taille), width), taille)
  }

  /** The destination the copy evidently means, `VOL[l, 0:height, 0:width]`:
      the top-left height x width block of the layer. */
  function BlockView(height: nat, width: nat, taille: nat): Shape
  {
    Shape(Min(height, taille), Min(width, taille))
  }

  /** As written, a slice of the first slice's own shape (both sides at
      least 2) only fits when its width is the working size and it is no
      taller than wide. */
  lemma ChainedViewFitsOnlyFullWidth(height: nat, width: nat, taille: nat)
    requires 2 <= height <= taille && 2 <= width <= taille
    ensures Broadcasts(Shape(height, width), ChainedView(height, width, taille))
        <==> width == taille && height <= width
  {
  }

  /** As written, four 64 x 64 slices (working size 256) cannot be copied:
      a 64 x 64 array does not broadcast into a 64 x 256 view. */
  lemma ChainedViewRejects64By64()
    ensures WorkingSize(64, 64, 4) == 256
    ensures !Broadcasts(Shape(64, 64), ChainedView(64, 64, WorkingSize(64, 64, 4)))
  {
  }

  /** With the block view every slice of the first slice's shape fits, for
      any slice count. */
  lemma BlockViewFitsFirstShape(height: nat, width: nat, n: nat)
    ensures Broadcasts(Shape(height, width), BlockView(height, width, WorkingSize(height, width, n)))
  {
  }

  // ---------------------------------------------------------------------
  // loadVolume
  // ---------------------------------------------------------------------

  datatype LoadError =
    | EmptyIndexFile    // `lines[0]` on an empty file
    | EmptyFirstSlice   // `PixelArray[0]` on a slice without rows
    | FirstSliceWithoutColumns  // `np.max` on a pixel array of size zero
    | SliceDoesNotFit(slice: nat)  // the copy of that slice cannot broadcast

  /** The volume handed to the renderer: the working size, the layer map of
      the working grid, and the fixed output dimensions. */
  datatype Volume = Volume(taille: nat, layers: seq<Layer>, sizeX: nat, sizeY: nat, sizeZ: nat)

  /** Slice i of the index file fits the block of its layer. */
  predicate SliceFits(lines: seq<string>, decode: string -> Shape, i: nat)
    requires 0 < |lines| && i < |lines|
  {
    var first := decode(lines[0]);
    var taille := WorkingSize(first.rows, first.cols, |lines|);
    Broadcasts(decode(lines[i]), BlockView(first.rows, first.cols, taille))
  }

  /** `loadVolume`, with each slice copied into the block view: `lines` are
      the slice file names of the index file and `decode` stands for the
      DICOM decoder, reduced to the shape of the pixel array it returns. */
  method LoadVolume(lines: seq<string>, decode: string -> Shape) returns (r: Result<Volume, LoadError>)
    ensures |lines| == 0 <==> r == Failure(EmptyIndexFile)
    ensures |lines| > 0 && decode(lines[0]).rows == 0 <==> r == Failure(EmptyFirstSlice)
    ensures |lines| > 0 && decode(lines[0]).rows > 0 && decode(lines[0]).cols == 0
        <==> r == Failure(FirstSliceWithoutColumns)
    ensures r.Failure? && r.error.SliceDoesNotFit? ==>
      var i := r.error.slice;
      && 0 < i < |lines| && decode(lines[0]).rows > 0 && decode(lines[0]).cols > 0
      && !SliceFits(lines, decode, i)
      && forall j :: 0 <= j < i ==> SliceFits(lines, decode, j)
    ensures r.Success? <==>
      && |lines| > 0 && decode(lines[0]).rows > 0 && decode(lines[0]).cols > 0
      && forall i :: 0 <= i < |lines| ==> SliceFits(lines, decode, i)
    ensures r.Success? ==>
      var first := decode(lines[0]);
      var taille := WorkingSize(first.rows, first.cols, |lines|);
      && r.value.taille == taille
      && r.value.layers == Layout(|lines|, taille)
      && r.value.sizeX == 256 && r.value.sizeY == 256 && r.value.sizeZ == 256
  {
    var n := |lines|;
    if n == 0 {
      return Failure(EmptyIndexFile);
    }
    var first := decode(lines[0]);
    if first.rows == 0 {
      return Failure(EmptyFirstSlice);
    }
    if first.cols == 0 {
      return Failure(FirstSliceWithoutColumns);
    }
    var height, width := first.rows, first.cols;
    var taille := WorkingSize(height, width, n);
    var vol := new Layer[taille](_ => Zero);
    assert vol[..] == Layout(0, taille);
    for i := 0 to n
      invariant vol[..] == Layout(i, taille)
      invariant forall j :: 0 <= j < i ==> SliceFits(lines, decode, j)
    {
      var tab := decode(lines[i]);
      if !Broadcasts(tab, BlockView(height, width, taille)) {
        assert i != 0 by { BlockViewFitsFirstShape(height, width, n); }
        return Failure(SliceDoesNotFit(i));
      }
      LayerOfInRange(i, taille);
      LayoutStep(i, taille);
      var l := LayerOf(i, taille).value;
      vol[l] := Holds(i);
    }
    return Success(Volume(taille, vol[..], 256, 256, 256));
  }
}
