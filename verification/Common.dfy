/** Values shared by every model: optional values and error returns. */
module Common {

  datatype Option<+T> = None | Some(value: T)

  datatype Result<+T, +E> = Ok(value: T) | Err(error: E)

  /** One second in the nanosecond unit of the program's durations. */
  const SECOND: int := 1_000_000_000

  /** Ceiling division of a non-negative count by a positive step. */
  function CeilDiv(a: int, b: int): (r: int)
    requires 0 <= a && 0 < b
    ensures 0 <= r && a <= r * b < a + b
  {
    DivBounds(a + b - 1, b);
    (a + b - 1) / b
  }

  lemma DivBounds(a: int, b: int)
    requires 0 <= a && 0 < b
    ensures 0 <= a / b && a / b * b <= a < a / b * b + b
  {
    assert a == a / b * b + a % b;
  }

  lemma ProductGrows(x: int, y: int, b: int)
    requires x <= y && 0 < b
    ensures x * b <= y * b
  {
    var d := y - x;
    assert y * b == x * b + d * b && d * b >= 0;
  }

  lemma OneFewer(r: int, b: int)
    ensures (r - 1) * b == r * b - b
  {}

  /** The least multiple of b that reaches a is the CeilDiv(a, b)-th. */
  lemma CeilDivIsLeast(a: int, b: int, k: int)
    requires 0 <= a && 0 < b
    ensures k < CeilDiv(a, b) <==> k * b < a
  {
    var r := CeilDiv(a, b);
    OneFewer(r, b);
    if k < r {
      ProductGrows(k, r - 1, b);
    } else {
      ProductGrows(r, k, b);
    }
  }
}
