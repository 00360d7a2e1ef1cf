/** Two-dimensional vectors over exact reals, standing in for glam's `Vec2` with `f32`
    components, and the two vector operations the kernel calls without seeing their code:
    `length` and `try_normalize`. */
module Vectors {

  datatype Option<T> = None | Some(value: T) {
    /** `Option::unwrap_or`: the wrapped value, or `default` when there is none. */
    function UnwrapOr(default: T): T {
      match this
      case Some(v) => v
      case None => default
    }
  }

  function Abs(x: real): real {
    if x < 0.0 then -x else x
  }

  /** `f32::max` on non-NaN operands. */
  function Max(a: real, b: real): real {
    if a < b then b else a
  }

  datatype Vec2 = Vec2(x: real, y: real)

  const Zero: Vec2 := Vec2(0.0, 0.0)

  function Add(u: Vec2, v: Vec2): Vec2 {
    Vec2(u.x + v.x, u.y + v.y)
  }

  function Sub(u: Vec2, v: Vec2): Vec2 {
    Vec2(u.x - v.x, u.y - v.y)
  }

  function Scale(k: real, v: Vec2): Vec2 {
    Vec2(k * v.x, k * v.y)
  }

  /** What the model assumes of `Vec2::length`, whose square root it does not model: the
      length is never negative and is zero exactly at the zero vector. The Euclidean length
      is one such function; every statement below holds for all of them. */
  ghost predicate IsLength(len: Vec2 -> real) {
    (forall v :: len(v) >= 0.0) &&
    (forall v :: len(v) == 0.0 <==> v == Zero)
  }

  /** `Vec2::try_normalize`: the vector times the reciprocal of its length when that
      reciprocal is a finite positive number, and nothing otherwise. Over the reals the
      reciprocal is finite and positive exactly when the length is positive. */
  function TryNormalize(v: Vec2, len: Vec2 -> real): (r: Option<Vec2>)
    ensures IsLength(len) ==> (r.Some? <==> v != Zero)
    ensures r.Some? ==> len(v) > 0.0 && r.value == Scale(1.0 / len(v), v)
  {
    var l := len(v);
    if l > 0.0 then Some(Scale(1.0 / l, v)) else None
  }

  /** A normalized vector is a positive multiple of the original, and normalization
      succeeds exactly for the non-zero vectors. */
  lemma NormalizeIsPositiveMultiple(v: Vec2, len: Vec2 -> real)
    requires IsLength(len)
    ensures TryNormalize(v, len).Some? <==> v != Zero
    ensures TryNormalize(v, len).Some? ==>
              exists c :: c > 0.0 && TryNormalize(v, len).value == Scale(c, v)
  {
    if v != Zero {
      assert len(v) > 0.0;
      assert TryNormalize(v, len).value == Scale(1.0 / len(v), v);
    }
  }

  lemma ScaleScale(a: real, b: real, v: Vec2)
    ensures Scale(a, Scale(b, v)) == Scale(a * b, v)
  {
  }

  lemma AddAssociative(u: Vec2, v: Vec2, w: Vec2)
    ensures Add(Add(u, v), w) == Add(u, Add(v, w))
  {
  }
}
