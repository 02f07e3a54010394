/** Result types and integer helpers shared by the pipeline model. */
module Common {

  datatype Option<T> = None | Some(value: T)

  /** The exceptions the modelled code raises itself. */
  datatype Error =
    | InvalidArgs                     // data_pipeline.exceptions.InvalidArgs
    | DuplicateKeyword(key: string)   // the TypeError of dict(**a, **b) on a repeated key
    | IndexError                      // list(d.keys())[0] on an empty dict

  datatype Result<T> = Ok(value: T) | Err(error: Error)

  function Min(a: int, b: int): (m: int)
    ensures m <= a && m <= b && (m == a || m == b)
  {
    if a < b then a else b
  }

  function Max(a: int, b: int): (m: int)
    ensures m >= a && m >= b && (m == a || m == b)
  {
    if a < b then b else a
  }

  /** Python's math.ceil(n / d) for a positive divisor, on integers. */
  function CeilDiv(n: int, d: int): (q: int)
    requires d > 0
    ensures (q - 1) * d < n <= q * d
  {
    if n >= 0 then
      var q := (n + d - 1) / d;
      assert (n + d - 1) == q * d + (n + d - 1) % d;
      q
    else
      var f := (-n) / d;
      assert -n == f * d + (-n) % d;
      -f
  }

  /** Multiplying by a positive number keeps the order. */
  lemma {:induction false} MulMonotone(a: int, b: int, d: int)
    requires a <= b && d > 0
    ensures a * d <= b * d
    decreases b - a
  {
    if a < b {
      MulMonotone(a, b - 1, d);
      assert b * d == (b - 1) * d + d;
    }
  }

  /** The ceiling is the only integer q with (q - 1) * d < n <= q * d. */
  lemma CeilDivUnique(n: int, d: int, q: int)
    requires d > 0 && (q - 1) * d < n <= q * d
    ensures q == CeilDiv(n, d)
  {
    var c := CeilDiv(n, d);
    if q < c {
      MulMonotone(q, c - 1, d);
    } else if q > c {
      MulMonotone(c, q - 1, d);
    }
  }
}
