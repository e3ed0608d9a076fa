/**
 * Result codes and small wrappers shared by every plugin model.
 *
 * Thunder plugins return a `Core::hresult`; only the codes the modelled
 * plugins actually produce are listed.
 */
module Core {

  datatype HResult =
    | ERROR_NONE
    | ERROR_GENERAL
    | ERROR_UNAVAILABLE
    | ERROR_BAD_REQUEST
    | ERROR_NOT_EXIST
    | ERROR_INVALID_PARAMETER
    | ERROR_FILE_IO
    | ERROR_UNKNOWN_KEY

  datatype Option<T> = None | Some(value: T)
  {
    function GetOr(default: T): (r: T)
      ensures Some? ==> r == value
      ensures None? ==> r == default
    {
      match this
      case Some(v) => v
      case None => default
    }
  }

  /** `std::min` / `Math.min` on unbounded integers. */
  function Min(a: int, b: int): (r: int)
    ensures r <= a && r <= b
    ensures r == a || r == b
  {
    if a <= b then a else b
  }

  /** The C conversion of an integer to a 32-bit `int`: its low 32 bits, read in two's complement. */
  function ToInt32(x: int): (r: int)
    ensures -0x8000_0000 <= r < 0x8000_0000
    ensures -0x8000_0000 <= x < 0x8000_0000 ==> r == x
    ensures (r - x) % 0x1_0000_0000 == 0
  {
    var low := x % 0x1_0000_0000;
    if low >= 0x8000_0000 then low - 0x1_0000_0000 else low
  }

  /** Sequence concatenation is associative. */
  lemma ConcatAssoc<T>(a: seq<T>, b: seq<T>, c: seq<T>)
    ensures a + b + c == a + (b + c)
  {
  }

  /** Four single appends are one append of the four. */
  lemma AppendFour<T>(l: seq<T>, a: T, b: T, c: T, d: T)
    ensures l + [a] + [b] + [c] + [d] == l + [a, b, c, d]
  {
  }

  /** Three single appends are one append of the three. */
  lemma AppendThree<T>(l: seq<T>, a: T, b: T, c: T)
    ensures l + [a] + [b] + [c] == l + [a, b, c]
  {
  }

  /** Updating the right operand of a map union updates the union. */
  lemma UnionUpdate<K, V>(a: map<K, V>, b: map<K, V>, k: K, v: V)
    ensures a + b[k := v] == (a + b)[k := v]
  {
  }
}
