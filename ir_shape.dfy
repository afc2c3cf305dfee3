/** Layouts (ordered axis tags) and shapes bound to them
    (include/mera/ir/shape.h). Every `throw` of the source is an `Err`. */
module IrShape {
  import opened Wrappers

  datatype ShapeError =
    | RankMismatch         // dims and layout disagree in length
    | DimensionNotFound    // the axis tag is not in the layout
    | UnpackArityMismatch  // requested arity disagrees with the rank or target layout
    | LayoutIncompatible   // the target layout misses a tag of the source layout
    | AxisOutOfRange       // `shape.at(axis)` past the end of the dims

  /* ---------------------------------------------------------------- Layout */

  datatype Layout = Layout(tags: seq<char>)

  /** The diagnostic text of a layout: its tags, in order. */
  function AsStr(l: Layout): (s: string)
    ensures |s| == |l.tags|
    ensures forall i :: 0 <= i < |s| ==> s[i] == l.tags[i]
  {
    l.tags
  }

  /** Whether the layout contains the tag (a linear `std::find`). */
  function LayoutHasDim(l: Layout, t: char): (found: bool)
    ensures found <==> exists i :: 0 <= i < |l.tags| && l.tags[i] == t
  {
    t in l.tags
  }

  /** Position of the first occurrence of `t`, or `|tags|` if there is none. */
  function IndexOf(tags: seq<char>, t: char): (i: nat)
    ensures i <= |tags|
    ensures i < |tags| ==> tags[i] == t
    ensures forall j :: 0 <= j < i ==> tags[j] != t
    ensures i == |tags| <==> t !in tags
  {
    if tags == [] then 0
    else if tags[0] == t then 0
    else 1 + IndexOf(tags[1..], t)
  }

  /** `operator==` on layouts: equal lengths, then tag by tag. */
  method LayoutEquals(lhs: Layout, rhs: Layout) returns (eq: bool)
    ensures eq <==> |lhs.tags| == |rhs.tags| && forall i :: 0 <= i < |lhs.tags| ==> lhs.tags[i] == rhs.tags[i]
    ensures eq <==> lhs == rhs
  {
    if |lhs.tags| != |rhs.tags| {
      return false;
    }
    var i := 0;
    while i < |lhs.tags|
      invariant 0 <= i <= |lhs.tags|
      invariant forall j :: 0 <= j < i ==> lhs.tags[j] == rhs.tags[j]
    {
      if lhs.tags[i] != rhs.tags[i] {
        return false;
      }
      i := i + 1;
    }
    assert lhs.tags == rhs.tags;
    return true;
  }

  /** `operator!=` on layouts. */
  method LayoutDiffers(lhs: Layout, rhs: Layout) returns (ne: bool)
    ensures ne <==> lhs != rhs
  {
    var eq := LayoutEquals(lhs, rhs);
    ne := !eq;
  }

  // The layouts the source predefines.
  const OIHW := Layout(['O', 'I', 'H', 'W'])
  const X := Layout(['x'])
  const C := Layout(['C'])
  const W := Layout(['W'])
  const HW := Layout(['H', 'W'])
  const NHWC := Layout(['N', 'H', 'W', 'C'])
  const NCHW := Layout(['N', 'C', 'H', 'W'])
  const NHW := Layout(['N', 'H', 'W'])
  const NCW := Layout(['N', 'C', 'W'])
  const OIW := Layout(['O', 'I', 'W'])

  /* ----------------------------------------------------------------- Shape */

  /** A shape's fields are public and travel through the serializer, so a
      value need not satisfy `WellFormed`; the lookups re-check what they use. */
  datatype Shape = Shape(dims: seq<int>, rank: int, size: int, layout: Layout)

  /** Product of the extents; the empty product is 1. */
  function Product(dims: seq<int>): int
  {
    if dims == [] then 1 else Product(dims[..|dims| - 1]) * dims[|dims| - 1]
  }

  /** What the constructor establishes: rank and size agree with the dims,
      and there is one tag per dimension. */
  ghost predicate WellFormed(s: Shape)
  {
    && s.rank == |s.dims|
    && s.size == Product(s.dims)
    && |s.dims| == |s.layout.tags|
  }

  predicate NonNegative(dims: seq<int>)
  {
    forall i :: 0 <= i < |dims| ==> dims[i] >= 0
  }

  /** The constructor `Shape(dims, layout)`. */
  function MakeShape(dims: seq<int>, layout: Layout): (r: Result<Shape, ShapeError>)
    ensures r.Err? <==> |dims| != |layout.tags|
    ensures r.Err? ==> r.error == RankMismatch
    ensures r.Ok? ==> WellFormed(r.value) && r.value.dims == dims && r.value.layout == layout
  {
    var s := Shape(dims, |dims|, Product(dims), layout);
    if s.rank != |layout.tags| then Err(RankMismatch) else Ok(s)
  }

  /** The default shape: a single value under layout `x`. */
  function DefaultShape(): (s: Shape)
    ensures WellFormed(s)
    ensures s.dims == [1] && s.layout == X && s.rank == 1 && s.size == 1
  {
    var made := MakeShape([1], X);
    assert Product([1]) == 1 by {
      assert [1][..0] == [];
    }
    made.value
  }

  /** The predefined constant `s_one`. */
  const SOne: Shape := DefaultShape()

  lemma SOneIsDefault()
    ensures MakeShape([1], X) == Ok(SOne)
    ensures SOne == DefaultShape()
  {
  }

  function HasDim(s: Shape, t: char): (found: bool)
    ensures found <==> t in s.layout.tags
  {
    LayoutHasDim(s.layout, t)
  }

  /** `AxisOf(t)`: the first position of `t` in the layout. */
  function AxisOf(s: Shape, t: char): (r: Result<nat, ShapeError>)
    ensures r.Ok? <==> HasDim(s, t)
    ensures r.Ok? ==> r.value < |s.layout.tags| && s.layout.tags[r.value] == t
    ensures r.Ok? ==> forall j :: 0 <= j < r.value ==> s.layout.tags[j] != t
    ensures r.Err? ==> r.error == DimensionNotFound
  {
    var i := IndexOf(s.layout.tags, t);
    if i < |s.layout.tags| then Ok(i) else Err(DimensionNotFound)
  }

  /** `DimOf(t)`: the extent at the axis tagged `t`. */
  function DimOf(s: Shape, t: char): (r: Result<int, ShapeError>)
    ensures r.Ok? <==> |s.dims| == |s.layout.tags| && HasDim(s, t)
    ensures r.Ok? ==> r.value == s.dims[AxisOf(s, t).value]
    ensures |s.dims| != |s.layout.tags| ==> r == Err(RankMismatch)
    ensures |s.dims| == |s.layout.tags| && !HasDim(s, t) ==> r == Err(DimensionNotFound)
  {
    if |s.dims| != |s.layout.tags| then Err(RankMismatch)
    else
      match AxisOf(s, t)
      case Ok(axis) => Ok(s.dims[axis])
      case Err(e) => Err(e)
  }

  /** `DimOf(t, default)`. */
  function DimOfOr(s: Shape, t: char, default: int): (r: Result<int, ShapeError>)
    ensures !HasDim(s, t) ==> r == Ok(default)
    ensures HasDim(s, t) ==> r == DimOf(s, t)
    ensures |s.dims| == |s.layout.tags| ==> r.Ok?
    ensures r.Ok? && HasDim(s, t) ==> r.value == s.dims[AxisOf(s, t).value]
  {
    if HasDim(s, t) then DimOf(s, t) else Ok(default)
  }

  /* ----------------------------------------------------------- Padding */

  /** `((d + k - 1) / k) * k`, the source's rounding expression. */
  function RoundUp(d: int, k: int): int
    requires d >= 0 && k > 0
  {
    ((d + k - 1) / k) * k
  }

  /** A multiple of a positive number is at least that number. */
  lemma MulAtLeast(a: int, k: int)
    requires a >= 1 && k > 0
    ensures a * k >= k
  {
    assert a * k == (a - 1) * k + k;
  }

  /** Quotient and remainder are determined by `m == q * k + r` with `0 <= r < k`. */
  lemma DivModUnique(m: int, k: int, q: int, r: int)
    requires k > 0 && 0 <= r < k && m == q * k + r
    ensures m / k == q && m % k == r
  {
    var q', r' := m / k, m % k;
    var dq := q - q';
    assert dq * k == r' - r by {
      assert q * k - q' * k == dq * k;
    }
    if dq >= 1 {
      MulAtLeast(dq, k);
    } else if dq <= -1 {
      MulAtLeast(-dq, k);
    }
  }

  /** The rounded extent is the least multiple of `k` that is at least `d`. */
  lemma {:induction false} RoundUpIsLeastMultiple(d: int, k: int)
    requires d >= 0 && k > 0
    ensures RoundUp(d, k) % k == 0
    ensures d <= RoundUp(d, k) < d + k
    ensures forall m :: d <= m && m % k == 0 ==> RoundUp(d, k) <= m
  {
    var a := d + k - 1;
    var q, r := a / k, a % k;
    var up := q * k;
    assert a == up + r;
    assert RoundUp(d, k) == up;
    DivModUnique(up, k, q, 0);
    forall m | d <= m && m % k == 0
      ensures up <= m
    {
      NoSmallerMultiple(up, q, m, k);
    }
  }

  /** Two multiples of `k` less than `k` apart, the larger one first, are equal. */
  lemma NoSmallerMultiple(up: int, q: int, m: int, k: int)
    requires k > 0 && up == q * k && m % k == 0 && up - k < m
    ensures up <= m
  {
    var p := m / k;
    assert m == p * k + 0;
    assert up - m == (q - p) * k;
    if q - p >= 1 {
      MulAtLeast(q - p, k);
    }
  }

  /** Rounding an extent that is already a multiple of `k` leaves it alone. */
  lemma {:induction false} RoundUpIdempotent(d: int, k: int)
    requires d >= 0 && k > 0
    ensures RoundUp(d, k) >= 0
    ensures RoundUp(RoundUp(d, k), k) == RoundUp(d, k)
  {
    RoundUpIsLeastMultiple(d, k);
    var r := RoundUp(d, k);
    RoundUpIsLeastMultiple(r, k);
  }

  /** The shape `PadDimTo(t, k)` leaves behind (or the exception it throws). */
  function PadDim(s: Shape, t: char, k: nat): (r: Result<Shape, ShapeError>)
    requires k > 0 && NonNegative(s.dims)
    ensures r.Ok? <==> HasDim(s, t) && AxisOf(s, t).value < |s.dims|
    ensures !HasDim(s, t) ==> r == Err(DimensionNotFound)
    ensures HasDim(s, t) && AxisOf(s, t).value >= |s.dims| ==> r == Err(AxisOutOfRange)
    ensures r.Ok? ==>
      var axis := AxisOf(s, t).value;
      && |r.value.dims| == |s.dims|
      && r.value.dims[axis] % k == 0
      && s.dims[axis] <= r.value.dims[axis] < s.dims[axis] + k
      && (forall j :: 0 <= j < |s.dims| && j != axis ==> r.value.dims[j] == s.dims[j])
      && r.value.rank == s.rank
      && r.value.layout == s.layout
      && r.value.size == Product(r.value.dims)
  {
    match AxisOf(s, t)
    case Err(e) => Err(e)
    case Ok(axis) =>
      if axis >= |s.dims| then Err(AxisOutOfRange)
      else
        var padded := s.dims[axis := RoundUp(s.dims[axis], k)];
        RoundUpIsLeastMultiple(s.dims[axis], k);
        Ok(Shape(padded, s.rank, Product(padded), s.layout))
  }

  /** `PadDimTo(t, k)`: pads one extent in place, then recomputes the size
      with a running product over all extents. */
  method PadDimTo(s: Shape, t: char, k: nat) returns (r: Result<Shape, ShapeError>)
    requires k > 0 && NonNegative(s.dims)
    ensures r == PadDim(s, t, k)
  {
    var found := AxisOf(s, t);
    if found.Err? {
      return Err(found.error);
    }
    var axis := found.value;
    if axis >= |s.dims| {
      return Err(AxisOutOfRange);
    }
    var dims := s.dims[axis := ((s.dims[axis] + k - 1) / k) * k];
    var size := 1;
    var i := 0;
    while i < |dims|
      invariant 0 <= i <= |dims|
      invariant size == Product(dims[..i])
    {
      assert dims[..i + 1][..i] == dims[..i];
      size := size * dims[i];
      i := i + 1;
    }
    assert dims[..i] == dims;
    r := Ok(Shape(dims, s.rank, size, s.layout));
  }

  /** Padding a second time with the same tag and alignment changes nothing. */
  lemma PadDimIdempotent(s: Shape, t: char, k: nat)
    requires k > 0 && NonNegative(s.dims)
    requires PadDim(s, t, k).Ok?
    ensures NonNegative(PadDim(s, t, k).value.dims)
    ensures PadDim(PadDim(s, t, k).value, t, k) == PadDim(s, t, k)
  {
    var axis := AxisOf(s, t).value;
    var p := PadDim(s, t, k).value;
    RoundUpIdempotent(s.dims[axis], k);
    assert p.dims == s.dims[axis := RoundUp(s.dims[axis], k)];
    assert AxisOf(p, t) == AxisOf(s, t);
    assert p.dims[axis := RoundUp(p.dims[axis], k)] == p.dims;
  }

  /** Padding keeps a well-formed shape well-formed. */
  lemma PadDimKeepsWellFormed(s: Shape, t: char, k: nat)
    requires k > 0 && NonNegative(s.dims) && WellFormed(s)
    requires PadDim(s, t, k).Ok?
    ensures WellFormed(PadDim(s, t, k).value)
  {
  }

  lemma {:induction false} ProductNonNegative(dims: seq<int>)
    requires NonNegative(dims)
    ensures Product(dims) >= 0
  {
    if dims != [] {
      ProductNonNegative(dims[..|dims| - 1]);
    }
  }

  /** Growing one non-negative extent never shrinks the product. */
  lemma {:induction false} ProductMonotone(dims: seq<int>, i: nat, v: int)
    requires NonNegative(dims) && i < |dims| && dims[i] <= v
    ensures Product(dims) <= Product(dims[i := v])
  {
    var n := |dims| - 1;
    var grown := dims[i := v];
    assert grown[..n] == if i < n then dims[..n][i := v] else dims[..n];
    ProductNonNegative(dims[..n]);
    if i < n {
      ProductMonotone(dims[..n], i, v);
      assert Product(dims[..n]) * dims[n] <= Product(grown[..n]) * dims[n] by {
        MulMonotone(Product(dims[..n]), Product(grown[..n]), dims[n]);
      }
    } else {
      MulMonotone(dims[n], v, Product(dims[..n]));
    }
  }

  lemma MulMonotone(a: int, b: int, c: int)
    requires a <= b && c >= 0
    ensures a * c <= b * c
  {
  }

  /** Padding never reduces the element count of a well-formed shape. */
  lemma PadDimNeverShrinks(s: Shape, t: char, k: nat)
    requires k > 0 && NonNegative(s.dims) && WellFormed(s)
    requires PadDim(s, t, k).Ok?
    ensures s.size <= PadDim(s, t, k).value.size
  {
    var axis := AxisOf(s, t).value;
    ProductMonotone(s.dims, axis, RoundUp(s.dims[axis], k));
  }

  /* ---------------------------------------------------------- Unpacking */

  /** `Unpack<N>()`: the extents as a fixed-length array. The source checks the
      `rank` field and then reads `shape[i]` unchecked for `i < N`. */
  function Unpack(s: Shape, n: nat): (r: Result<seq<int>, ShapeError>)
    requires s.rank == n ==> n <= |s.dims|
    ensures r.Ok? <==> s.rank == n
    ensures r.Err? ==> r.error == UnpackArityMismatch
    ensures r.Ok? ==> |r.value| == n && forall i :: 0 <= i < n ==> r.value[i] == s.dims[i]
    ensures r.Ok? && WellFormed(s) ==> r.value == s.dims
  {
    if s.rank != n then Err(UnpackArityMismatch) else Ok(s.dims[..n])
  }

  /** Every tag of `inner` occurs in `outer`. */
  predicate Covers(outer: Layout, inner: Layout)
  {
    forall i :: 0 <= i < |inner.tags| ==> inner.tags[i] in outer.tags
  }

  /** The extent `UnpackAs` puts at target tag `t`: the source extent, or the
      broadcast 1 where the source has no such axis. */
  function ExtentOrOne(s: Shape, t: char): int
    requires |s.dims| == |s.layout.tags|
  {
    if HasDim(s, t) then s.dims[IndexOf(s.layout.tags, t)] else 1
  }

  /** The loop of `UnpackAs` over the target tags, position by position. */
  function BroadcastDims(s: Shape, tags: seq<char>): (r: Result<seq<int>, ShapeError>)
    ensures r.Err? <==> |s.dims| != |s.layout.tags| && exists i :: 0 <= i < |tags| && HasDim(s, tags[i])
    ensures r.Err? ==> r.error == RankMismatch
    ensures r.Ok? ==> |r.value| == |tags|
    ensures r.Ok? && |s.dims| == |s.layout.tags| ==>
      forall i :: 0 <= i < |tags| ==> r.value[i] == ExtentOrOne(s, tags[i])
    ensures r.Ok? && |s.dims| != |s.layout.tags| ==> forall i :: 0 <= i < |tags| ==> r.value[i] == 1
  {
    if tags == [] then Ok([])
    else
      var head := if HasDim(s, tags[0]) then DimOf(s, tags[0]) else Ok(1);
      if head.Err? then Err(head.error)
      else
        var rest := BroadcastDims(s, tags[1..]);
        if rest.Err? then rest
        else
          assert forall i :: 1 <= i < |tags| ==> tags[i] == tags[1..][i - 1];
          Ok([head.value] + rest.value)
  }

  /** `UnpackAs<N>(target)`: re-express the extents under a layout that
      contains every source tag, filling the axes the source lacks with 1. */
  function UnpackAs(s: Shape, n: nat, target: Layout): (r: Result<seq<int>, ShapeError>)
    ensures |target.tags| != n ==> r == Err(UnpackArityMismatch)
    ensures |target.tags| == n && !Covers(target, s.layout) ==> r == Err(LayoutIncompatible)
    ensures |s.dims| == |s.layout.tags| ==> (r.Ok? <==> |target.tags| == n && Covers(target, s.layout))
    ensures r.Ok? ==> |r.value| == n
    ensures r.Ok? && |s.dims| == |s.layout.tags| ==> forall i :: 0 <= i < n ==>
      r.value[i] == (if HasDim(s, target.tags[i]) then DimOf(s, target.tags[i]).value else 1)
  {
    if |target.tags| != n then Err(UnpackArityMismatch)
    else if !Covers(target, s.layout) then Err(LayoutIncompatible)
    else BroadcastDims(s, target.tags)
  }

  /** Every axis of a shape with one extent per tag keeps its extent under `UnpackAs`:
      it is found at the target's position for the same tag. */
  lemma UnpackAsPreservesExtent(s: Shape, n: nat, target: Layout, t: char)
    requires |s.dims| == |s.layout.tags| && UnpackAs(s, n, target).Ok?
    requires HasDim(s, t)
    ensures IndexOf(target.tags, t) < n
    ensures UnpackAs(s, n, target).value[IndexOf(target.tags, t)] == DimOf(s, t).value
  {
    var i := IndexOf(s.layout.tags, t);
    assert s.layout.tags[i] == t;
  }

  /** `ReshapeAs<N>(target)`: the unpacked extents as a new shape under `target`. */
  function ReshapeAs(s: Shape, n: nat, target: Layout): (r: Result<Shape, ShapeError>)
    ensures r.Ok? <==> UnpackAs(s, n, target).Ok?
    ensures r.Err? ==> r.error == UnpackAs(s, n, target).error
    ensures r.Ok? ==> WellFormed(r.value) && r.value.layout == target && r.value.rank == n
    ensures r.Ok? ==> r.value.dims == UnpackAs(s, n, target).value
    ensures r.Ok? ==> r.value.size == Product(UnpackAs(s, n, target).value)
  {
    match UnpackAs(s, n, target)
    case Err(e) => Err(e)
    case Ok(d) => MakeShape(d, target)
  }

  /** `operator==` on shapes: dims, rank, size, then the layouts. */
  method ShapeEquals(lhs: Shape, rhs: Shape) returns (eq: bool)
    ensures eq <==> lhs.dims == rhs.dims && lhs.rank == rhs.rank && lhs.size == rhs.size && lhs.layout == rhs.layout
    ensures eq <==> lhs == rhs
  {
    eq := lhs.dims == rhs.dims && lhs.rank == rhs.rank && lhs.size == rhs.size;
    if eq {
      eq := LayoutEquals(lhs.layout, rhs.layout);
    }
  }

  /** `operator!=` on shapes. */
  method ShapeDiffers(lhs: Shape, rhs: Shape) returns (ne: bool)
    ensures ne <==> lhs != rhs
  {
    var eq := ShapeEquals(lhs, rhs);
    ne := !eq;
  }

  lemma ProductOfFour(a: int, b: int, c: int, d: int)
    ensures Product([a, b, c, d]) == a * b * c * d
  {
    assert [a][..0] == [];
    assert Product([a]) == a;
    assert [a, b][..1] == [a];
    assert Product([a, b]) == a * b;
    assert [a, b, c][..2] == [a, b];
    assert Product([a, b, c]) == a * b * c;
    assert [a, b, c, d][..3] == [a, b, c];
  }

  /** The worked example: an NCHW image shape padded on C to a multiple of 8. */
  lemma PadImageChannelsExample()
    ensures MakeShape([1, 3, 224, 224], NCHW).Ok?
    ensures var s := MakeShape([1, 3, 224, 224], NCHW).value;
      && s.rank == 4 && s.size == 150528
      && DimOf(s, 'C') == Ok(3)
      && PadDim(s, 'C', 8) == Ok(Shape([1, 8, 224, 224], 4, 401408, NCHW))
  {
    var s := MakeShape([1, 3, 224, 224], NCHW).value;
    ProductOfFour(1, 3, 224, 224);
    assert IndexOf(NCHW.tags, 'C') == 1;
    assert RoundUp(3, 8) == 8;
    assert s.dims[1 := 8] == [1, 8, 224, 224];
    ProductOfFour(1, 8, 224, 224);
  }
}
