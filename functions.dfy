/** util/Functions.kt: the zero-array builders and the inverse square root. */
module Functions {
  import opened KotlinMath

  /** Number of elements of the Kotlin range `0..x`: it includes both ends,
      so it is x + 1 when x >= 0 and empty otherwise. */
  function InclusiveRangeLength(x: int): nat {
    if x < 0 then 0 else x + 1
  }

  /** zeros(x): appends 0.0 to a growing list once per element of `0..x`, then
      copies the list into a fresh array. Despite its "x-sized" comment the
      result has x + 1 elements. */
  method Zeros(x: int) returns (a: array<real>)
    ensures fresh(a)
    ensures a.Length == InclusiveRangeLength(x)
    ensures forall k :: 0 <= k < a.Length ==> a[k] == 0.0
  {
    var newList: seq<real> := [];
    var i := 0;
    while i <= x
      invariant 0 <= i <= InclusiveRangeLength(x)
      invariant |newList| == i
      invariant forall k :: 0 <= k < |newList| ==> newList[k] == 0.0
    {
      newList := newList + [0.0];
      i := i + 1;
    }
    a := new real[|newList|];
    forall k | 0 <= k < |newList| {
      a[k] := newList[k];
    }
  }

  /** zeros(row, col): one freshly built zeros(col) array per element of `0..row`. */
  method Zeros2D(row: int, col: int) returns (m: array<array<real>>)
    ensures fresh(m)
    ensures m.Length == InclusiveRangeLength(row)
    ensures forall i :: 0 <= i < m.Length ==>
      fresh(m[i]) && m[i].Length == InclusiveRangeLength(col)
    ensures forall i, k :: 0 <= i < m.Length && 0 <= k < m[i].Length ==> m[i][k] == 0.0
    ensures forall i, j :: 0 <= i < j < m.Length ==> m[i] != m[j]
  {
    var newList: seq<array<real>> := [];
    var i := 0;
    while i <= row
      invariant 0 <= i <= InclusiveRangeLength(row)
      invariant |newList| == i
      invariant forall r :: 0 <= r < |newList| ==>
        fresh(newList[r]) && newList[r].Length == InclusiveRangeLength(col)
      invariant forall r, k :: 0 <= r < |newList| && 0 <= k < newList[r].Length ==> newList[r][k] == 0.0
      invariant forall r, s :: 0 <= r < s < |newList| ==> newList[r] != newList[s]
    {
      var zs := Zeros(col);
      newList := newList + [zs];
      i := i + 1;
    }
    m := new array<real>[|newList|];
    forall k | 0 <= k < |newList| {
      m[k] := newList[k];
    }
  }

  /** invSqrt(x) = 1 / sqrt(x). Defined only for x > 0: at 0 the source divides
      by zero. The result is the positive number whose square times x is one. */
  function InvSqrt(math: Math, x: real): (r: real)
    requires math.Valid() && 0.0 < x
    ensures 0.0 < r && r * r * x == 1.0
  {
    var root := math.sqrt(x);
    assert 0.0 < root && root * root == x;
    assert (1.0 / root) * root == 1.0;
    1.0 / root
  }

  /** invSqrt(1) = 1: renormalising a unit quaternion leaves it unchanged. */
  lemma InvSqrtOne(math: Math)
    requires math.Valid()
    ensures InvSqrt(math, 1.0) == 1.0
  {
    var r := InvSqrt(math, 1.0);
    calc {
      (r - 1.0) * (r + 1.0);
      r * r * 1.0 - 1.0;
      0.0;
    }
    ZeroProduct(r - 1.0, r + 1.0);
  }

  lemma ZeroProduct(x: real, y: real)
    requires x * y == 0.0 && y != 0.0
    ensures x == 0.0
  {
  }

  lemma ProductNonZero(x: real, y: real)
    requires x != 0.0 && y != 0.0
    ensures x * y != 0.0
  {
  }
}
