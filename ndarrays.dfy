/** Models of the two tensor conversions the service relies on: numpy's
    `reshape` of the flat request data to the request's shape (server side),
    and the row-major `flatten` of a 2-D array that the client sends. */
module NdArrays {
  import opened Wrappers

  /** Product of the dimensions of a shape; 1 for the empty shape. */
  function Product(dims: seq<int>): (p: int)
  {
    if dims == [] then 1 else dims[0] * Product(dims[1..])
  }

  /** An n-dimensional array: its dimensions and its elements in row-major order. */
  datatype NdArray<T> = NdArray(dims: seq<nat>, elems: seq<T>)
  {
    /** The element count agrees with the dimensions. */
    predicate Valid()
    {
      Product(dims) == |elems|
    }
  }

  /** The two ways numpy refuses a new shape. */
  datatype ReshapeError =
    | MultipleUnknownDimensions
    | SizeMismatch(size: nat, shape: seq<int>)

  /** Number of negative ("unknown") entries of a shape. */
  function CountUnknown(shape: seq<int>): (n: nat)
  {
    if shape == [] then 0 else (if shape[0] < 0 then 1 else 0) + CountUnknown(shape[1..])
  }

  /** Product of the non-negative entries of a shape. */
  function KnownProduct(shape: seq<int>): (p: nat)
  {
    if shape == [] then 1
    else (if shape[0] < 0 then 1 else shape[0]) * KnownProduct(shape[1..])
  }

  /** The shape with every negative entry replaced by `fill`. */
  function Resolve(shape: seq<int>, fill: nat): (dims: seq<nat>)
    ensures |dims| == |shape|
    ensures forall i :: 0 <= i < |shape| ==> dims[i] == if shape[i] < 0 then fill else shape[i]
  {
    if shape == [] then [] else [if shape[0] < 0 then fill else shape[0]] + Resolve(shape[1..], fill)
  }

  lemma {:induction false} KnownProductOfNonNegative(shape: seq<int>)
    requires CountUnknown(shape) == 0
    ensures KnownProduct(shape) == Product(shape)
  {
    if shape != [] {
      KnownProductOfNonNegative(shape[1..]);
    }
  }

  lemma {:induction false} ResolvedProduct(shape: seq<int>, fill: nat)
    requires CountUnknown(shape) <= 1
    ensures Product(Resolve(shape, fill)) == KnownProduct(shape) * (if CountUnknown(shape) == 1 then fill else 1)
  {
    if shape != [] {
      var rest := shape[1..];
      assert Resolve(shape, fill)[1..] == Resolve(rest, fill);
      ResolvedProduct(rest, fill);
      if shape[0] < 0 {
        assert CountUnknown(rest) == 0;
      }
    }
  }

  /** numpy's `reshape` of a flat array of `|data|` elements to `shape`: at most
      one entry may be negative, and it is then inferred from the others;
      otherwise the product of the entries must be the element count. */
  function Reshape<T>(shape: seq<int>, data: seq<T>): (r: Result<NdArray<T>, ReshapeError>)
    ensures r.Success? ==> r.value.Valid() && r.value.elems == data && |r.value.dims| == |shape|
    ensures r.Success? ==> forall i :: 0 <= i < |shape| && shape[i] >= 0 ==> r.value.dims[i] == shape[i]
    ensures CountUnknown(shape) == 0 ==> (r.Success? <==> Product(shape) == |data|)
    ensures CountUnknown(shape) >= 2 ==> r == Failure(MultipleUnknownDimensions)
    ensures CountUnknown(shape) == 1 ==>
      (r.Success? <==> KnownProduct(shape) != 0 && |data| % KnownProduct(shape) == 0)
    ensures r.Failure? && CountUnknown(shape) < 2 ==> r.error == SizeMismatch(|data|, shape)
  {
    var unknown := CountUnknown(shape);
    var known := KnownProduct(shape);
    if unknown >= 2 then
      Failure(MultipleUnknownDimensions)
    else if unknown == 1 then
      if known == 0 || |data| % known != 0 then
        Failure(SizeMismatch(|data|, shape))
      else
        ResolvedProduct(shape, |data| / known);
        Success(NdArray(Resolve(shape, |data| / known), data))
    else
      KnownProductOfNonNegative(shape);
      if known != |data| then
        Failure(SizeMismatch(|data|, shape))
      else
        ResolvedProduct(shape, 0);
        Success(NdArray(Resolve(shape, 0), data))
  }

  lemma TwoDimensions(t: int, v: int)
    ensures Product([t, v]) == t * v
    ensures CountUnknown([t, v]) == (if t < 0 then 1 else 0) + (if v < 0 then 1 else 0)
  {
    var shape := [t, v];
    assert shape[1..] == [v];
    assert shape[1..][1..] == [];
    assert Product([v]) == v;
    assert CountUnknown([v]) == if v < 0 then 1 else 0;
  }

  /** Where row `i` of a row-major array with rows of length `v` starts:
      `i * v`, written as a sum so that the proofs below stay linear. */
  function RowStart(i: nat, v: nat): nat
  {
    if i == 0 then 0 else RowStart(i - 1, v) + v
  }

  lemma {:induction false} RowStartIsProduct(i: nat, v: nat)
    ensures RowStart(i, v) == i * v
  {
    if i > 0 {
      RowStartIsProduct(i - 1, v);
      assert (i - 1) * v + v == i * v;
    }
  }

  /** The first `t` consecutive chunks of length `v` of `s` (shorter ones once
      `s` runs out). */
  function Chunks<T>(s: seq<T>, t: nat, v: nat): (m: seq<seq<T>>)
    ensures |m| == t
  {
    if t == 0 then []
    else
      var w := if v <= |s| then v else |s|;
      [s[..w]] + Chunks(s[w..], t - 1, v)
  }

  lemma {:induction false} ChunksAt<T>(s: seq<T>, t: nat, v: nat, i: nat, j: nat)
    requires |s| >= RowStart(t, v) && i < t && j < v
    ensures RowStart(i, v) + j < |s|
    ensures |Chunks(s, t, v)[i]| == v && Chunks(s, t, v)[i][j] == s[RowStart(i, v) + j]
  {
    assert Chunks(s, t, v)[0] == s[..v];
    if i > 0 {
      assert Chunks(s, t, v)[i] == Chunks(s[v..], t - 1, v)[i - 1];
      ChunksAt(s[v..], t - 1, v, i - 1, j);
    }
  }

  /** The rows of a 2-D array. */
  function Rows<T>(a: NdArray<T>): (m: seq<seq<T>>)
    requires a.Valid() && |a.dims| == 2
    ensures |m| == a.dims[0]
    ensures forall i :: 0 <= i < |m| ==> |m[i]| == a.dims[1]
  {
    var t, v := a.dims[0], a.dims[1];
    assert a.dims == [t, v];
    TwoDimensions(t, v);
    RowStartIsProduct(t, v);
    var m := Chunks(a.elems, t, v);
    assert forall i :: 0 <= i < t ==> |m[i]| == v by {
      forall i | 0 <= i < t ensures |m[i]| == v {
        if v > 0 {
          ChunksAt(a.elems, t, v, i, 0);
        } else {
          assert RowStart(t, 0) == 0;
          ChunksEmptyRows(a.elems, t, i);
        }
      }
    }
    m
  }

  /** Row `i`, column `j` of a `t` by `v` array is element `i * v + j`. */
  lemma RowsAt<T>(a: NdArray<T>, t: nat, v: nat, i: nat, j: nat)
    requires a.Valid() && a.dims == [t, v] && i < t && j < v
    ensures i * v + j < |a.elems| && Rows(a)[i][j] == a.elems[i * v + j]
  {
    TwoDimensions(t, v);
    RowStartIsProduct(t, v);
    ChunksAt(a.elems, t, v, i, j);
    RowStartIsProduct(i, v);
  }

  lemma {:induction false} ChunksEmptyRows<T>(s: seq<T>, t: nat, i: nat)
    requires i < t
    ensures Chunks(s, t, 0)[i] == []
  {
    if i > 0 {
      assert Chunks(s, t, 0)[i] == Chunks(s[0..], t - 1, 0)[i - 1];
      ChunksEmptyRows(s[0..], t - 1, i - 1);
    }
  }

  /** The client's row-major flatten: the rows concatenated in order. */
  function Flatten<T>(m: seq<seq<T>>): (flat: seq<T>)
  {
    if m == [] then [] else m[0] + Flatten(m[1..])
  }

  /** A `t` by `v` matrix. */
  predicate IsMatrix<T>(m: seq<seq<T>>, t: nat, v: nat)
  {
    |m| == t && forall i :: 0 <= i < t ==> |m[i]| == v
  }

  lemma {:induction false} FlattenLength<T>(m: seq<seq<T>>, t: nat, v: nat)
    requires IsMatrix(m, t, v)
    ensures |Flatten(m)| == RowStart(t, v)
  {
    if t > 0 {
      FlattenLength(m[1..], t - 1, v);
    }
  }

  /** Cutting a flattened matrix back into rows gives the matrix again. */
  lemma {:induction false} ChunksOfFlatten<T>(m: seq<seq<T>>, t: nat, v: nat)
    requires IsMatrix(m, t, v)
    ensures |Flatten(m)| == RowStart(t, v)
    ensures Chunks(Flatten(m), t, v) == m
  {
    FlattenLength(m, t, v);
    if t > 0 {
      var f := Flatten(m);
      assert f[..v] == m[0];
      assert f[v..] == Flatten(m[1..]);
      ChunksOfFlatten(m[1..], t - 1, v);
    }
  }

  /** Flattening the rows of a 2-D array gives back its elements. */
  lemma {:induction false} FlattenOfChunks<T>(s: seq<T>, t: nat, v: nat)
    requires |s| == RowStart(t, v)
    ensures Flatten(Chunks(s, t, v)) == s
  {
    if t > 0 {
      FlattenOfChunks(s[v..], t - 1, v);
      var c := Chunks(s, t, v);
      assert c[1..] == Chunks(s[v..], t - 1, v);
      assert s == s[..v] + s[v..];
    }
  }

  /** Reshaping the client's flatten of a `t` by `v` matrix with shape `[t, v]`
      reproduces the matrix exactly. */
  lemma ReshapeFlattenRoundTrip<T>(m: seq<seq<T>>, t: nat, v: nat)
    requires IsMatrix(m, t, v)
    ensures Reshape([t, v], Flatten(m)).Success?
    ensures Reshape([t, v], Flatten(m)).value.dims == [t, v]
    ensures Rows(Reshape([t, v], Flatten(m)).value) == m
  {
    ChunksOfFlatten(m, t, v);
    RowStartIsProduct(t, v);
    TwoDimensions(t, v);
  }

  /** Flattening the rows of a reshaped 2-D array gives back the flat data. */
  lemma FlattenRowsRoundTrip<T>(a: NdArray<T>)
    requires a.Valid() && |a.dims| == 2
    ensures Flatten(Rows(a)) == a.elems
  {
    assert Product(a.dims) == a.dims[0] * a.dims[1] by {
      assert a.dims == [a.dims[0], a.dims[1]];
      TwoDimensions(a.dims[0], a.dims[1]);
    }
    RowStartIsProduct(a.dims[0], a.dims[1]);
    FlattenOfChunks(a.elems, a.dims[0], a.dims[1]);
  }

  /** A 2-D shape `[t, v]` with non-negative entries is accepted exactly when
      the data has `t * v` elements, and the result has that shape. */
  lemma Reshape2DAccepts<T>(t: nat, v: nat, data: seq<T>)
    ensures Reshape([t, v], data).Success? <==> |data| == t * v
    ensures Reshape([t, v], data).Success? ==> Reshape([t, v], data).value.dims == [t, v]
  {
    TwoDimensions(t, v);
    var shape: seq<int> := [t, v];
    if Reshape(shape, data).Success? {
      var a := Reshape(shape, data).value;
      assert a.dims[0] == shape[0] && a.dims[1] == shape[1];
      assert a.dims == [t, v];
    }
  }

  /** Row `i`, column `j` of the reshaped `[t, v]` array is `data[i * v + j]`. */
  lemma Reshape2DEntry<T>(t: nat, v: nat, data: seq<T>, i: nat, j: nat)
    requires |data| == t * v && i < t && j < v
    ensures Reshape([t, v], data).Success?
    ensures var a := Reshape([t, v], data).value;
      a.dims == [t, v] && i * v + j < |data| && Rows(a)[i][j] == data[i * v + j]
  {
    Reshape2DAccepts(t, v, data);
    var a := Reshape([t, v], data).value;
    assert a.elems == data;
    RowsAt(a, t, v, i, j);
  }
}
