/** Dimension helpers of the aggregator configuration: the length of a client's
    update once flattened into one vector, and that length padded to a power of two. */
module Dimensions {

  /** The extent of one tensor along each of its axes. */
  type Shape = seq<nat>

  /** A client template: the shapes of all tensors of one client's update, in order. */
  type Template = seq<Shape>

  /** Number of elements of a tensor of the given shape; a scalar (empty shape) has one. */
  function Product(shape: Shape): (r: nat)
    ensures shape == [] ==> r == 1
    ensures r == 0 <==> 0 in shape
  {
    if shape == [] then 1
    else
      assert shape == [shape[0]] + shape[1..];
      shape[0] * Product(shape[1..])
  }

  lemma {:induction false} ProductAppend(a: Shape, b: Shape)
    ensures Product(a + b) == Product(a) * Product(b)
  {
    if a == [] {
      assert a + b == b;
    } else {
      assert (a + b)[1..] == a[1..] + b;
      ProductAppend(a[1..], b);
      assert Product(a + b) == a[0] * (Product(a[1..]) * Product(b));
    }
  }

  /** Length of the vector obtained by flattening and concatenating every tensor of
      the template: the sum over tensors of their element counts. */
  function TotalDim(template: Template): (r: nat)
    ensures template == [] ==> r == 0
    ensures forall i :: 0 <= i < |template| ==> Product(template[i]) <= r
    ensures r == 0 <==> forall i :: 0 <= i < |template| ==> Product(template[i]) == 0
  {
    if template == [] then 0
    else
      assert forall i :: 1 <= i < |template| ==> template[i] == template[1..][i - 1];
      Product(template[0]) + TotalDim(template[1..])
  }

  /** The flattened length is additive: splitting the template anywhere splits the sum. */
  lemma {:induction false} TotalDimAppend(a: Template, b: Template)
    ensures TotalDim(a + b) == TotalDim(a) + TotalDim(b)
  {
    if a == [] {
      assert a + b == b;
    } else {
      assert (a + b)[1..] == a[1..] + b;
      TotalDimAppend(a[1..], b);
    }
  }

  /** A template of one tensor has as many elements as that tensor. */
  lemma SingleTensorDim(shape: Shape)
    ensures TotalDim([shape]) == Product(shape)
  {
    assert [shape][1..] == [];
  }

  /** 2 raised to the power k. */
  function Pow2(k: nat): (r: nat)
    ensures r >= 1
  {
    if k == 0 then 1 else 2 * Pow2(k - 1)
  }

  lemma {:induction false} Pow2Add(a: nat, b: nat)
    ensures Pow2(a + b) == Pow2(a) * Pow2(b)
  {
    if a > 0 {
      Pow2Add(a - 1, b);
    }
  }

  /** n is 2^k for some k: 1, or an even number whose half is a power of two. */
  predicate IsPowerOfTwo(n: nat)
  {
    n == 1 || (n >= 2 && n % 2 == 0 && IsPowerOfTwo(n / 2))
  }

  lemma {:induction false} Pow2IsPowerOfTwo(k: nat)
    ensures IsPowerOfTwo(Pow2(k))
  {
    if k > 0 {
      Pow2IsPowerOfTwo(k - 1);
      assert Pow2(k) / 2 == Pow2(k - 1);
    }
  }

  /** Every power of two is some 2^k (the converse of Pow2IsPowerOfTwo). */
  lemma {:induction false} PowerOfTwoIsPow2(n: nat)
    requires IsPowerOfTwo(n)
    ensures exists k: nat :: Pow2(k) == n
  {
    if n == 1 {
      assert Pow2(0) == 1;
    } else {
      PowerOfTwoIsPow2(n / 2);
      var k: nat :| Pow2(k) == n / 2;
      assert Pow2(k + 1) == n;
    }
  }

  /** Of two powers of two, one less than twice the other is at most the other. */
  lemma {:induction false} PowerOfTwoOrder(a: nat, b: nat)
    requires IsPowerOfTwo(a) && IsPowerOfTwo(b) && a < 2 * b
    ensures a <= b
  {
    if a != 1 && b != 1 {
      PowerOfTwoOrder(a / 2, b / 2);
    }
  }

  /** The padded dimension: the smallest power of two that is at least dim. The source
      evaluates 2^ceil(log2(dim)) in floating point, which gives 0 for dim = 0. */
  function PadDim(dim: nat): (r: nat)
    ensures dim == 0 ==> r == 0
    ensures dim >= 1 ==> IsPowerOfTwo(r) && dim <= r < 2 * dim
  {
    if dim <= 1 then dim else 2 * PadDim((dim + 1) / 2)
  }

  /** No power of two at least dim is below PadDim(dim). */
  lemma PadDimIsLeast(dim: nat, p: nat)
    requires dim >= 1 && IsPowerOfTwo(p) && dim <= p
    ensures PadDim(dim) <= p
  {
    PowerOfTwoOrder(PadDim(dim), p);
  }

  /** PadDim(dim) is the one power of two in [dim, 2 * dim). */
  lemma PadDimUnique(dim: nat, p: nat)
    requires dim >= 1 && IsPowerOfTwo(p)
    ensures PadDim(dim) == p <==> dim <= p < 2 * dim
  {
    if dim <= p < 2 * dim {
      PadDimIsLeast(dim, p);
      PowerOfTwoOrder(p, PadDim(dim));
    }
  }

  /** A dimension that is already a power of two is not padded. */
  lemma PadDimOfPowerOfTwo(dim: nat)
    requires IsPowerOfTwo(dim)
    ensures PadDim(dim) == dim
  {
    PadDimUnique(dim, dim);
  }

  /** Padding twice is padding once. */
  lemma PadDimIdempotent(dim: nat)
    ensures PadDim(PadDim(dim)) == PadDim(dim)
  {
    if dim >= 1 {
      PadDimOfPowerOfTwo(PadDim(dim));
    }
  }

  /** A million coordinates are padded to 2^20. */
  lemma PadDimMillion()
    ensures PadDim(1000000) == 1048576 == Pow2(20)
  {
    assert Pow2(5) == 32;
    Pow2Add(5, 5);
    Pow2Add(10, 10);
    Pow2IsPowerOfTwo(20);
    PadDimUnique(1000000, Pow2(20));
  }
}
