/** Values shared by every component: Go strings, Go's 64-bit integers, and the
    replies a Redis write can give its caller. */
module Common {

  newtype byte = x: int | 0 <= x < 256

  /** A Go string or []byte: both are byte sequences, and []byte(s) copies s. */
  type GoString = seq<byte>

  /** The bytes of an ASCII literal. */
  function Ascii(s: string): (r: GoString)
    ensures |r| == |s|
  {
    seq(|s|, i requires 0 <= i < |s| => (s[i] as int % 256) as byte)
  }

  datatype Option<+T> = None | Some(value: T)

  datatype Result<+T, +E> = Ok(value: T) | Err(error: E)

  /** What the caller of a Redis write learns.  A write that errors may still
      have been applied by the server: that is Ambiguous. */
  datatype Reply =
    | Done
    | Failed(error: GoString)
    | Ambiguous(error: GoString)
  {
    predicate Applied() { !Failed? }
  }

  const TWO63: int := 0x8000_0000_0000_0000
  const TWO64: int := 0x1_0000_0000_0000_0000

  predicate FitsInt64(x: int) { -TWO63 <= x < TWO63 }

  /** Two's-complement wrap-around of an int64 operation. */
  function Wrap64(x: int): (r: int)
    ensures FitsInt64(r)
    ensures FitsInt64(x) ==> r == x
    ensures (r - x) % TWO64 == 0
  {
    (x + TWO63) % TWO64 - TWO63
  }

  /** Go's integer division truncates toward zero. */
  function TruncDiv(a: int, b: int): int
    requires b > 0
  {
    if a >= 0 then a / b else -((-a) / b)
  }

  function Min(a: int, b: int): int { if a < b then a else b }

  function Max(a: int, b: int): int { if a < b then b else a }

  function Abs(a: int): int { if a < 0 then -a else a }

  /** The positions from a up to, but not including, b. */
  function Span(a: nat, b: nat): set<nat> { set p: nat | p < b && Within(a, p, b) }

  predicate Within(a: nat, p: nat, b: nat) { a <= p < b }

  lemma {:induction false} SpanSize(a: nat, b: nat)
    requires a <= b
    ensures |Span(a, b)| == b - a
    decreases b
  {
    if a < b {
      SpanSize(a, b - 1);
      assert Span(a, b) == Span(a, b - 1) + {b - 1};
    } else {
      assert Span(a, b) == {};
    }
  }
}
