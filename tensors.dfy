/**
 * Abstract tensors and the array library the transformer calls.
 *
 * A tensor is a shape plus its elements in row-major order. The operations
 * whose shape rules matter to the transformer (matrix product, reshape,
 * transpose, elementwise arithmetic with broadcasting, gather, layer norm,
 * attention, dropout) fix the SHAPE of their result here, failing when the
 * operand shapes do not fit; the element values of the floating-point
 * kernels come from an uninterpreted `Backend`, which gives the k-th
 * element of the result.
 */
module Tensors {
  import opened Wrappers

  type Shape = seq<nat>

  /** Number of elements of an array of the given shape (1 for a 0-d array). */
  function Size(shape: Shape): nat
  {
    if shape == [] then 1 else shape[0] * Size(shape[1..])
  }

  function Last(shape: Shape): nat
    requires |shape| > 0
  {
    shape[|shape| - 1]
  }

  lemma {:induction false} SizeAppend(shape: Shape, d: nat)
    ensures Size(shape + [d]) == Size(shape) * d
  {
    if shape == [] {
      assert [] + [d] == [d];
      assert [d][1..] == [];
    } else {
      assert (shape + [d])[1..] == shape[1..] + [d];
      SizeAppend(shape[1..], d);
      calc {
        Size(shape + [d]);
        shape[0] * Size(shape[1..] + [d]);
        shape[0] * (Size(shape[1..]) * d);
        { MulAssoc(shape[0], Size(shape[1..]), d); }
        (shape[0] * Size(shape[1..])) * d;
      }
    }
  }

  lemma MulAssoc(a: int, b: int, c: int)
    ensures a * (b * c) == (a * b) * c
  {
  }

  /** Splitting off the last axis: the size is the prefix size times the last dimension. */
  lemma SizeSplitLast(shape: Shape)
    requires |shape| > 0
    ensures Size(shape) == Size(shape[..|shape| - 1]) * Last(shape)
  {
    assert shape == shape[..|shape| - 1] + [Last(shape)];
    SizeAppend(shape[..|shape| - 1], Last(shape));
  }

  lemma Size1(a: nat)
    ensures Size([a]) == a
  {
    assert [a][1..] == [];
    assert Size([a]) == a * Size([]);
  }

  lemma Size2(a: nat, b: nat)
    ensures Size([a, b]) == a * b
  {
    assert [a, b][1..] == [b];
    Size1(b);
    assert Size([a, b]) == a * Size([b]);
  }

  lemma Size3(a: nat, b: nat, c: nat)
    ensures Size([a, b, c]) == a * (b * c)
  {
    assert [a, b, c][1..] == [b, c];
    Size2(b, c);
    assert Size([a, b, c]) == a * Size([b, c]);
  }

  lemma Size4(a: nat, b: nat, c: nat, d: nat)
    ensures Size([a, b, c, d]) == a * (b * (c * d))
  {
    assert [a, b, c, d][1..] == [b, c, d];
    Size3(b, c, d);
    assert Size([a, b, c, d]) == a * Size([b, c, d]);
  }

  datatype RawTensor = Tensor(shape: Shape, data: seq<real>)

  /** An array: as many elements as its shape says. */
  type Tensor = t: RawTensor | |t.data| == Size(t.shape) witness Tensor([], [0.0])

  datatype TensorError = ShapeMismatch(op: string)

  /** The element values of the floating-point kernels, which are not modelled. */
  datatype Backend = Backend(
    matmul: (Tensor, Tensor, nat) -> real,
    gelu: real -> real,
    layerNorm: (Tensor, Tensor, Tensor, real, nat) -> real,
    attention: (Tensor, Tensor, Tensor, Tensor, real, nat) -> real,
    dropout: (Tensor, real, nat) -> real,
    take: (Tensor, seq<int>, nat) -> real,
    concat: (Tensor, Tensor, nat) -> real)

  /** An array of the given shape with every element equal to `v` (`zeros`, `ones`). */
  function Fill(shape: Shape, v: real): (t: Tensor)
    ensures t.shape == shape
    ensures forall k :: 0 <= k < |t.data| ==> t.data[k] == v
  {
    Tensor(shape, seq(Size(shape), _ => v))
  }

  function Zeros(shape: Shape): Tensor { Fill(shape, 0.0) }

  function Ones(shape: Shape): Tensor { Fill(shape, 1.0) }

  /** A default-constructed array: it holds no element. */
  const EmptyArray: Tensor := Tensor([0], [])

  /** The dimensions of an `int64` shape list, or None when one is negative (MLX raises). */
  function ToShape(dims: seq<int>): (r: Option<Shape>)
    ensures r.Some? <==> forall i :: 0 <= i < |dims| ==> dims[i] >= 0
    ensures r.Some? ==> r.value == dims
  {
    if forall i :: 0 <= i < |dims| ==> dims[i] >= 0 then
      Some(seq(|dims|, i requires 0 <= i < |dims| => dims[i] as nat))
    else
      None
  }

  /** A one-dimensional left operand of `matmul` is read as the single row `[1, k]`. */
  function RowMatrix(s: Shape): (m: Shape)
    requires |s| >= 1
    ensures |m| >= 2 && Last(m) == Last(s)
  {
    if |s| == 1 then [1] + s else s
  }

  /** A one-dimensional right operand of `matmul` is read as the single column `[k, 1]`. */
  function ColumnMatrix(s: Shape): (m: Shape)
    requires |s| >= 1
    ensures |m| >= 2 && m[|m| - 2] == (if |s| == 1 then s[0] else s[|s| - 2])
  {
    if |s| == 1 then s + [1] else s
  }

  /** All axes but the last two: the batch axes of a matrix operand. */
  function BatchAxes(s: Shape): Shape
    requires |s| >= 2
  {
    s[..|s| - 2]
  }

  /**
   * The shape of `matmul(a, b)`: both operands have an axis, a vector is read
   * as a row (left) or a column (right), the inner dimensions agree and the
   * batch axes broadcast; the axis added for a vector is dropped again. None
   * when MLX raises.
   */
  function MatMulShape(a: Shape, b: Shape): Option<Shape>
  {
    if |a| == 0 || |b| == 0 then None
    else
      var ma, mb := RowMatrix(a), ColumnMatrix(b);
      if Last(ma) != mb[|mb| - 2] then None
      else
        match BroadcastShape(BatchAxes(ma), BatchAxes(mb))
        case None => None
        case Some(batch) =>
          Some(batch + (if |a| == 1 then [] else [ma[|ma| - 2]]) + (if |b| == 1 then [] else [Last(mb)]))
  }

  /**
   * `matmul(a, b)`. Its shape is `MatMulShape`; with a two-dimensional right
   * operand that is `[..., m, k] x [k, n] -> [..., m, n]`.
   */
  function MatMul(be: Backend, a: Tensor, b: Tensor): (r: Result<Tensor, TensorError>)
    ensures r.Success? <==> MatMulShape(a.shape, b.shape).Some?
    ensures r.Success? ==> r.value.shape == MatMulShape(a.shape, b.shape).value
    ensures |b.shape| == 2 ==> (r.Success? <==> |a.shape| >= 1 && Last(a.shape) == b.shape[0])
    ensures |b.shape| == 2 && r.Success? ==> r.value.shape == a.shape[..|a.shape| - 1] + [b.shape[1]]
  {
    assert |b.shape| == 2 ==> (MatMulShape(a.shape, b.shape).Some? <==> |a.shape| >= 1 && Last(a.shape) == b.shape[0]) by {
      if |b.shape| == 2 {
        MatMulByMatrix(a.shape, b.shape);
      }
    }
    match MatMulShape(a.shape, b.shape)
    case None => Failure(ShapeMismatch("matmul"))
    case Some(shape) =>
      Success(Tensor(shape, seq(Size(shape), k requires 0 <= k => be.matmul(a, b, k))))
  }

  /** The product depends on the backend only through its `matmul` kernel. */
  lemma MatMulSameKernel(be1: Backend, be2: Backend, a: Tensor, b: Tensor)
    requires be1.matmul == be2.matmul
    ensures MatMul(be1, a, b) == MatMul(be2, a, b)
  {
    if MatMulShape(a.shape, b.shape).Some? {
      assert MatMul(be1, a, b).value.data == MatMul(be2, a, b).value.data;
    }
  }

  /**
   * With a two-dimensional right operand the batch axes are the left
   * operand's: `[..., m, k] x [k, n]` succeeds exactly when the inner
   * dimensions agree, giving `[..., m, n]` (`[n]` for a vector on the left).
   */
  lemma MatMulByMatrix(a: Shape, b: Shape)
    requires |b| == 2
    ensures MatMulShape(a, b).Some? <==> |a| >= 1 && Last(a) == b[0]
    ensures MatMulShape(a, b).Some? ==> MatMulShape(a, b).value == a[..|a| - 1] + [b[1]]
  {
    if |a| >= 1 {
      var ma := RowMatrix(a);
      assert BatchAxes(b) == [];
      assert BroadcastShape(BatchAxes(ma), []) == Some(BatchAxes(ma));
      if |a| >= 2 {
        assert a[..|a| - 1] == BatchAxes(a) + [a[|a| - 2]];
      }
    }
  }

  /**
   * A one-dimensional right operand is a column that is dropped again:
   * `[..., k] x [k]` gives `[...]`.
   */
  lemma MatMulByVector(a: Shape, b: Shape)
    requires |a| >= 1 && b == [Last(a)]
    ensures MatMulShape(a, b) == Some(a[..|a| - 1])
  {
    var ma, mb := RowMatrix(a), ColumnMatrix(b);
    assert mb == [Last(a), 1] && BatchAxes(mb) == [];
    assert BroadcastShape(BatchAxes(ma), []) == Some(BatchAxes(ma));
    if |a| >= 2 {
      assert a[..|a| - 1] == BatchAxes(a) + [a[|a| - 2]] + [];
      assert MatMulShape(a, b) == Some(BatchAxes(a) + [a[|a| - 2]] + []);
    } else {
      assert MatMulShape(a, b) == Some([] + [] + []);
      assert a[..|a| - 1] == [] + [] + [];
    }
  }

  /**
   * Stacked weights broadcast over the batch axis: states `[1, s, h]` times
   * a weight stored as `[1, h, n]` give `[1, s, n]`, and a three-dimensional
   * weight whose inner dimension is not `h` is refused.
   */
  lemma MatMulStackedWeight(s: nat, h: nat, n: nat, h2: nat)
    ensures MatMulShape([1, s, h], [1, h, n]) == Some([1, s, n])
    ensures h2 != h ==> MatMulShape([1, s, h], [1, h2, n]).None?
  {
    assert BatchAxes([1, s, h]) == [1] && BatchAxes([1, h, n]) == [1] && BatchAxes([1, h2, n]) == [1];
    assert BroadcastShape([1], [1]) == Some([1]) by {
      assert Init([1]) == [];
      assert BroadcastShape([], []) == Some([]);
    }
    assert MatMulShape([1, s, h], [1, h, n]) == Some([1] + [s] + [n]);
    assert [1] + [s] + [n] == [1, s, n];
  }

  /** All axes but the last. */
  function Init(shape: Shape): Shape
    requires |shape| > 0
  {
    shape[..|shape| - 1]
  }

  /**
   * `s` broadcasts into `out`: aligned from the last axis, each dimension of
   * `s` equals the matching one of `out` or is 1, and `out` has at least as
   * many axes.
   */
  predicate FitsInto(s: Shape, out: Shape)
    decreases |s|
  {
    s == [] || (out != [] && (Last(s) == Last(out) || Last(s) == 1) && FitsInto(Init(s), Init(out)))
  }

  /**
   * Numpy broadcasting of two shapes: aligned from the last axis, each pair of
   * dimensions is equal or one of them is 1; the result takes the larger rank
   * and, per axis, the dimension that is not 1. None when they do not broadcast.
   */
  function BroadcastShape(a: Shape, b: Shape): (r: Option<Shape>)
    decreases |a| + |b|
    ensures r.Some? ==> FitsInto(a, r.value) && FitsInto(b, r.value)
  {
    if a == [] then
      FitsIntoItself(b);
      Some(b)
    else if b == [] then
      FitsIntoItself(a);
      Some(a)
    else if Last(a) == Last(b) || Last(a) == 1 || Last(b) == 1 then
      match BroadcastShape(Init(a), Init(b))
      case Some(s) =>
        var out := s + [if Last(a) == 1 then Last(b) else Last(a)];
        assert Init(out) == s;
        Some(out)
      case None => None
    else
      None
  }

  lemma {:induction false} FitsIntoItself(s: Shape)
    decreases |s|
    ensures FitsInto(s, s)
  {
    if s != [] {
      FitsIntoItself(Init(s));
    }
  }

  /**
   * The flat index, in an array of shape `s` broadcast into `out`, of the
   * element that meets element `k` of the result.
   */
  function BroadcastIndex(s: Shape, out: Shape, k: nat): (i: nat)
    decreases |s|
    ensures FitsInto(s, out) && k < Size(out) ==> i < Size(s)
  {
    if s == [] || out == [] then 0
    else
      var n := Last(out);
      var q := if n == 0 then 0 else k / n;
      var inner := BroadcastIndex(Init(s), Init(out), q);
      var i := inner * Last(s) + (if Last(s) == 1 || n == 0 then 0 else k % n);
      assert FitsInto(s, out) && k < Size(out) ==> i < Size(s) by {
        if FitsInto(s, out) && k < Size(out) {
          SizeSplitLast(out);
          SizeSplitLast(s);
          IndexBound(k, n, Size(Init(out)), inner, Size(Init(s)), Last(s));
        }
      }
      i
  }

  lemma IndexBound(k: nat, n: nat, outer: nat, inner: nat, sOuter: nat, d: nat)
    requires k < outer * n
    requires d == n || d == 1
    requires k / n < outer ==> inner < sOuter
    ensures n > 0
    ensures inner * d + (if d == 1 then 0 else k % n) < sOuter * d
  {
    assert n > 0;
    assert k / n < outer;
    if d == 1 {
    } else {
      MulMono(inner + 1, sOuter, n);
    }
  }

  lemma ModBelow(k: nat, m: nat)
    requires k < m
    ensures k % m == k
  {
  }

  /**
   * The common broadcasting cases: equal shapes, or a one-dimensional right
   * operand of length one or of the left operand's last dimension.
   */
  predicate Broadcasts(a: Shape, b: Shape)
  {
    b == a || (|a| >= 1 && |b| == 1 && (b[0] == 1 || b[0] == Last(a)))
  }

  /** Equal shapes, and a `[1]` or `[last]` right operand, broadcast to the left shape. */
  lemma {:induction false} CommonBroadcastShape(a: Shape, b: Shape)
    requires Broadcasts(a, b)
    ensures BroadcastShape(a, b) == Some(a)
    decreases |a|
  {
    if a != [] {
      if b == a {
        CommonBroadcastShape(Init(a), Init(a));
      }
      assert a == Init(a) + [Last(a)];
    }
  }

  lemma BroadcastSize(a: Shape, b: Shape)
    requires Broadcasts(a, b)
    ensures Size(a) > 0 ==> Size(b) > 0
  {
    if b != a {
      assert [b[0]][1..] == [];
      assert Size(b) == b[0];
      SizeSplitLast(a);
    }
  }

  /** In the common cases element k of the left operand meets element `k % |b|` of the right one. */
  lemma {:induction false} CommonBroadcastIndex(a: Shape, b: Shape, k: nat)
    requires Broadcasts(a, b) && k < Size(a)
    ensures Size(b) > 0
    ensures BroadcastIndex(a, a, k) == k
    ensures BroadcastIndex(b, a, k) == k % Size(b)
    decreases |a|
  {
    SelfIndex(a, k);
    if b == a {
      ModBelow(k, Size(b));
    } else {
      SizeSplitLast(a);
      var n, d := Last(a), b[0];
      assert n > 0;
      assert Init(b) == [];
      assert Size(b) == d by {
        assert b[1..] == [];
      }
      assert BroadcastIndex(b, a, k) == (if d == 1 then 0 else k % n) by {
        assert BroadcastIndex(Init(b), Init(a), k / n) == 0;
      }
      if d == 1 {
        assert k % Size(b) == 0;
      }
    }
  }

  lemma {:induction false} SelfIndex(a: Shape, k: nat)
    requires k < Size(a)
    ensures BroadcastIndex(a, a, k) == k
    decreases |a|
  {
    if a != [] {
      SizeSplitLast(a);
      var n := Last(a);
      DivBelow(k, n, Size(Init(a)));
      SelfIndex(Init(a), k / n);
      var r := if n == 1 then 0 else k % n;
      assert BroadcastIndex(a, a, k) == BroadcastIndex(Init(a), Init(a), k / n) * n + r;
    }
  }

  /** Splitting a flat index below `outer * n` into its row and column. */
  lemma DivBelow(k: nat, n: nat, outer: nat)
    requires k < outer * n
    ensures n > 0 && k / n < outer
    ensures k == (k / n) * n + k % n
    ensures n == 1 ==> k % n == 0
  {
  }

  /** The elements of `f` applied over two operands broadcast into the shape `out`. */
  function BroadcastData(f: (real, real) -> real, a: Tensor, b: Tensor, out: Shape): (r: seq<real>)
    requires FitsInto(a.shape, out) && FitsInto(b.shape, out)
    ensures |r| == Size(out)
    ensures forall k :: 0 <= k < |r| ==>
      r[k] == f(a.data[BroadcastIndex(a.shape, out, k)], b.data[BroadcastIndex(b.shape, out, k)])
  {
    seq(Size(out), k requires 0 <= k < Size(out) =>
      f(a.data[BroadcastIndex(a.shape, out, k)], b.data[BroadcastIndex(b.shape, out, k)]))
  }

  /** Operands that differ at most in the last axis broadcast to a shape with the same leading axes. */
  lemma BroadcastKeepsLeading(p: Shape, x: nat, y: nat)
    ensures BroadcastShape(p + [x], p + [y]).Some? ==> Init(BroadcastShape(p + [x], p + [y]).value) == p
  {
    CommonBroadcastShape(p, p);
    assert Init(p + [x]) == p && Init(p + [y]) == p;
  }

  /**
   * Binary elementwise operation with numpy broadcasting: element k of the
   * result combines the elements of both operands that broadcast onto it.
   */
  function Elementwise(f: (real, real) -> real, a: Tensor, b: Tensor, op: string): (r: Result<Tensor, TensorError>)
    ensures r.Success? <==> BroadcastShape(a.shape, b.shape).Some?
    ensures r.Success? ==>
      var out := BroadcastShape(a.shape, b.shape).value;
      r.value.shape == out &&
      forall k :: 0 <= k < |r.value.data| ==>
        r.value.data[k] == f(a.data[BroadcastIndex(a.shape, out, k)], b.data[BroadcastIndex(b.shape, out, k)])
    ensures Broadcasts(a.shape, b.shape) ==>
      r.Success? && r.value.shape == a.shape &&
      forall k :: 0 <= k < |a.data| ==> |b.data| > 0 && r.value.data[k] == f(a.data[k], b.data[k % |b.data|])
  {
    match BroadcastShape(a.shape, b.shape)
    case Some(out) =>
      assert Broadcasts(a.shape, b.shape) ==>
        out == a.shape && (|a.data| > 0 ==> |b.data| > 0) &&
        forall k :: 0 <= k < |a.data| ==>
          |b.data| > 0 && BroadcastData(f, a, b, out)[k] == f(a.data[k], b.data[k % |b.data|]) by {
        if Broadcasts(a.shape, b.shape) { CommonBroadcastData(f, a, b); }
      }
      Success(Tensor(out, BroadcastData(f, a, b, out)))
    case None =>
      assert !Broadcasts(a.shape, b.shape) by {
        if Broadcasts(a.shape, b.shape) { CommonBroadcastShape(a.shape, b.shape); }
      }
      Failure(ShapeMismatch(op))
  }

  /** In the common cases the broadcast elements are the left operand's k-th against the right one's `k % |b|`-th. */
  lemma CommonBroadcastData(f: (real, real) -> real, a: Tensor, b: Tensor)
    requires Broadcasts(a.shape, b.shape)
    ensures BroadcastShape(a.shape, b.shape) == Some(a.shape)
    ensures |a.data| > 0 ==> |b.data| > 0
    ensures var r := BroadcastData(f, a, b, a.shape);
      forall k :: 0 <= k < |a.data| ==> |b.data| > 0 && r[k] == f(a.data[k], b.data[k % |b.data|])
  {
    CommonBroadcastShape(a.shape, b.shape);
    BroadcastSize(a.shape, b.shape);
    var r := BroadcastData(f, a, b, a.shape);
    forall k | 0 <= k < |a.data|
      ensures |b.data| > 0 && r[k] == f(a.data[k], b.data[k % |b.data|])
    {
      CommonBroadcastIndex(a.shape, b.shape, k);
    }
  }

  function Add(a: Tensor, b: Tensor): Result<Tensor, TensorError> { Elementwise((x, y) => x + y, a, b, "add") }

  function Multiply(a: Tensor, b: Tensor): Result<Tensor, TensorError> { Elementwise((x, y) => x * y, a, b, "multiply") }

  function Subtract(a: Tensor, b: Tensor): Result<Tensor, TensorError> { Elementwise((x, y) => x - y, a, b, "subtract") }

  /** `reshape(a, dims)`: succeeds exactly when the element count is kept; the elements are not moved. */
  function Reshape(a: Tensor, dims: seq<int>): (r: Result<Tensor, TensorError>)
    ensures r.Success? <==> ToShape(dims).Some? && Size(ToShape(dims).value) == Size(a.shape)
    ensures r.Success? ==> r.value.shape == dims && r.value.data == a.data
  {
    match ToShape(dims)
    case Some(shape) =>
      if Size(shape) == Size(a.shape) then Success(Tensor(shape, a.data)) else Failure(ShapeMismatch("reshape"))
    case None => Failure(ShapeMismatch("reshape"))
  }

  lemma MulMono(a: nat, b: nat, c: nat)
    requires a <= b
    ensures a * c <= b * c
  {
  }

  lemma TransposeIndex(rows: nat, cols: nat, k: nat)
    requires k < cols * rows
    ensures rows > 0 && (k % rows) * cols + k / rows < rows * cols
  {
    assert rows == 0 ==> cols * rows == 0;
    var i, j := k % rows, k / rows;
    assert k == j * rows + i;
    assert cols <= j ==> cols * rows <= j * rows by {
      if cols <= j { MulMono(cols, j, rows); }
    }
    assert j < cols;
    MulMono(i, rows - 1, cols);
    assert (rows - 1) * cols == rows * cols - cols;
  }

  /** Row-major elements of the transpose of a `rows x cols` matrix. */
  function TransposedData(data: seq<real>, rows: nat, cols: nat): (r: seq<real>)
    requires |data| == rows * cols
    ensures |r| == cols * rows
  {
    seq(cols * rows, k requires 0 <= k < cols * rows =>
      TransposeIndex(rows, cols, k);
      data[(k % rows) * cols + k / rows])
  }

  /** `transpose(a, {1, 0})` of a two-dimensional array: element (i, j) moves to (j, i). */
  function Transpose2(a: Tensor): (r: Result<Tensor, TensorError>)
    ensures r.Success? <==> |a.shape| == 2
    ensures r.Success? ==> r.value.shape == [a.shape[1], a.shape[0]]
  {
    if |a.shape| == 2 then
      var rows, cols := a.shape[0], a.shape[1];
      assert a.shape == [rows, cols];
      Size2(rows, cols);
      Size2(cols, rows);
      Success(Tensor([cols, rows], TransposedData(a.data, rows, cols)))
    else
      Failure(ShapeMismatch("transpose"))
  }

  /** Elementwise GELU: shape kept, each element mapped by the backend's scalar function. */
  function Gelu(be: Backend, a: Tensor): (r: Tensor)
    ensures r.shape == a.shape
    ensures forall k :: 0 <= k < |a.data| ==> r.data[k] == be.gelu(a.data[k])
  {
    Tensor(a.shape, seq(|a.data|, k requires 0 <= k < |a.data| => be.gelu(a.data[k])))
  }

  /** Layer normalisation over the last axis: weight and bias are vectors of the last dimension. */
  function LayerNorm(be: Backend, x: Tensor, w: Tensor, b: Tensor, eps: real): (r: Result<Tensor, TensorError>)
    ensures r.Success? <==> |x.shape| >= 1 && w.shape == [Last(x.shape)] && b.shape == [Last(x.shape)]
    ensures r.Success? ==> r.value.shape == x.shape
  {
    if |x.shape| >= 1 && w.shape == [Last(x.shape)] && b.shape == [Last(x.shape)] then
      Success(Tensor(x.shape, seq(|x.data|, k requires 0 <= k => be.layerNorm(x, w, b, eps, k))))
    else
      Failure(ShapeMismatch("layer_norm"))
  }

  /** Scaled dot-product attention over four-dimensional query, key and value of one shape. */
  function ScaledDotProductAttention(be: Backend, q: Tensor, k: Tensor, v: Tensor, mask: Tensor, p: real)
    : (r: Result<Tensor, TensorError>)
    ensures r.Success? <==> |q.shape| == 4 && k.shape == q.shape && v.shape == q.shape
    ensures r.Success? ==> r.value.shape == q.shape
  {
    if |q.shape| == 4 && k.shape == q.shape && v.shape == q.shape then
      Success(Tensor(q.shape, seq(|q.data|, n requires 0 <= n => be.attention(q, k, v, mask, p, n))))
    else
      Failure(ShapeMismatch("scaled_dot_product_attention"))
  }

  /** Random dropout: shape kept, values from the backend. */
  function Dropout(be: Backend, x: Tensor, p: real): (r: Tensor)
    ensures r.shape == x.shape
  {
    Tensor(x.shape, seq(|x.data|, k requires 0 <= k => be.dropout(x, p, k)))
  }

  /**
   * `take(table, ids, 0)` for ids of shape `[1, n]`: one slice of the table
   * along axis 0 per id, so `[1, n]` followed by the table's other axes.
   */
  function Embed(be: Backend, table: Tensor, ids: seq<int>): (r: Result<Tensor, TensorError>)
    ensures r.Success? <==> |table.shape| >= 1
    ensures r.Success? ==> r.value.shape == [1, |ids|] + table.shape[1..]
    ensures |table.shape| == 2 ==> r.Success? && r.value.shape == [1, |ids|, table.shape[1]]
  {
    if |table.shape| >= 1 then
      var shape := [1, |ids|] + table.shape[1..];
      assert |table.shape| == 2 ==> shape == [1, |ids|, table.shape[1]];
      Success(Tensor(shape, seq(Size(shape), k requires 0 <= k => be.take(table, ids, k))))
    else
      Failure(ShapeMismatch("take"))
  }

  /**
   * A table of any rank embeds: a vector gives `[1, n]` and a table with two
   * trailing axes gives `[1, n, a, b]`.
   */
  lemma EmbedAnyRank(be: Backend, ids: seq<int>, vector: Tensor, stacked: Tensor, a: nat, b: nat)
    requires |vector.shape| == 1 && |stacked.shape| == 3 && stacked.shape[1..] == [a, b]
    ensures Embed(be, vector, ids).Success? && Embed(be, vector, ids).value.shape == [1, |ids|]
    ensures Embed(be, stacked, ids).Success? && Embed(be, stacked, ids).value.shape == [1, |ids|, a, b]
  {
    assert vector.shape[1..] == [];
    assert [1, |ids|] + [] == [1, |ids|];
    assert [1, |ids|] + [a, b] == [1, |ids|, a, b];
  }

  /** `concatenate({a, b}, 1)`: equal ranks of at least two, equal dimensions off axis 1, and axis 1 adds up. */
  function Concat1(be: Backend, a: Tensor, b: Tensor): (r: Result<Tensor, TensorError>)
    ensures r.Success? <==>
      |a.shape| >= 2 && |b.shape| == |a.shape| && b.shape[0] == a.shape[0] && b.shape[2..] == a.shape[2..]
    ensures r.Success? ==> r.value.shape == [a.shape[0], a.shape[1] + b.shape[1]] + a.shape[2..]
  {
    if |a.shape| >= 2 && |b.shape| == |a.shape| && b.shape[0] == a.shape[0] && b.shape[2..] == a.shape[2..] then
      var shape := [a.shape[0], a.shape[1] + b.shape[1]] + a.shape[2..];
      Success(Tensor(shape, seq(Size(shape), k requires 0 <= k => be.concat(a, b, k))))
    else
      Failure(ShapeMismatch("concatenate"))
  }
}
