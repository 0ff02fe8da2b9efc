/** Wrappers and small facts shared by every module. */
module Common {

  datatype Option<+T> = None | Some(value: T)

  datatype Result<+T, +E> = Ok(value: T) | Err(error: E)

  type Byte = b: nat | b < 256

  type Bytes = seq<Byte>

  /** Strictly positive quantities: block sizes and window widths after the source's `max(1)`. */
  type Pos = n: nat | n > 0 witness 1

  function Min(a: int, b: int): int { if a <= b then a else b }

  function Max(a: int, b: int): int { if a >= b then a else b }

  /** `a` and everything of `b` that follows it, for prefixes of one byte string. */
  lemma PrefixDrop(a: Bytes, whole: Bytes, n: nat)
    requires a <= whole && n <= |a|
    ensures a[..n] == whole[..n]
    ensures a[n..] <= whole[n..]
  {
    assert whole[..|a|] == a;
  }

  /** Neighbouring stretches of a byte string join. */
  lemma Adjacent(data: Bytes, i: nat, j: nat, k: nat)
    requires i <= j <= k <= |data|
    ensures data[i..j] + data[j..k] == data[i..k]
  {
  }

  /** A stretch of a stretch. */
  lemma Within(data: Bytes, from: nat, to: nat, i: nat, j: nat)
    requires i <= j <= to - from && to <= |data|
    ensures data[from..to][i..j] == data[from + i..from + j]
  {
    var part, whole := data[from..to][i..j], data[from + i..from + j];
    assert |part| == |whole| && forall k :: 0 <= k < |part| ==> part[k] == whole[k];
  }

  /** Multiplication by a positive block size is strictly monotone. */
  lemma MulMonotone(i: nat, j: nat, b: Pos)
    ensures i < j ==> i * b + b <= j * b
    ensures i <= j ==> i * b <= j * b
    decreases j
  {
    if i + 1 < j {
      MulMonotone(i, j - 1, b);
      assert j * b == (j - 1) * b + b;
    }
  }

  /** Euclidean division pins the quotient. */
  lemma DivUnique(x: nat, b: Pos, q: nat)
    requires q * b <= x < q * b + b
    ensures x / b == q
  {
    var r := x / b;
    assert r * b <= x < r * b + b;
    MulMonotone(r, q, b);
    MulMonotone(q, r, b);
  }
}
