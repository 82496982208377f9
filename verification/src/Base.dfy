/** Shared vocabulary: failure-carrying results, machine integers, blank strings,
    byte order on strings, and sorting. */
module Base {

  datatype Option<+T> = None | Some(value: T)

  /** The sentinel errors of internal/core/errors.go, and the one of internal/scheduler/scheduler.go. */
  datatype Error =
    | ErrInvalidDefinition | ErrInvalidCommand | ErrInvalidTransition | ErrRequestConflict
    | ErrWorkflowNotFound | ErrWorkflowExists | ErrSequence | ErrTimeRegression | ErrTimeOverflow
    | ErrBatchVersion | ErrSnapshotVersion | ErrAttemptOverflow | ErrFencingOverflow
    | ErrLeaseExpired | ErrFenced | ErrBackpressure

  datatype Result<+T> = Ok(value: T) | Err(error: Error) {
    predicate IsFailure() {
      Err?
    }

    function PropagateFailure<U>(): Result<U>
      requires Err?
    {
      Err(error)
    }

    function Extract(): T
      requires Ok?
    {
      value
    }
  }

  /** A guard of the source: refuse with `error` unless `condition` holds. */
  function Need(condition: bool, error: Error): (r: Result<()>)
    ensures r.Ok? <==> condition
  {
    if condition then Ok(()) else Err(error)
  }

  const MAX_UINT32: int := 0xFFFF_FFFF
  const MAX_UINT64: int := 0xFFFF_FFFF_FFFF_FFFF
  const MAX_INT64: int := 0x7FFF_FFFF_FFFF_FFFF
  const MIN_INT64: int := -0x8000_0000_0000_0000
  const MAX_INT32: int := 0x7FFF_FFFF

  type uint32 = x: int | 0 <= x <= 0xFFFF_FFFF
  type uint64 = x: int | 0 <= x <= 0xFFFF_FFFF_FFFF_FFFF
  type int64 = x: int | -0x8000_0000_0000_0000 <= x <= 0x7FFF_FFFF_FFFF_FFFF

  /** uint32 and uint64 addition wrap around. */
  function Next32(x: uint32): uint32 {
    if x == 0xFFFF_FFFF then 0 else x + 1
  }

  function Next64(x: uint64): uint64 {
    if x == 0xFFFF_FFFF_FFFF_FFFF then 0 else x + 1
  }

  /** The characters that strings.TrimSpace removes (Unicode White_Space). */
  predicate IsSpace(c: char) {
    var n := c as int;
    || 9 <= n <= 13 || n == 0x20 || n == 0x85 || n == 0xA0 || n == 0x1680
    || 0x2000 <= n <= 0x200A || n == 0x2028 || n == 0x2029 || n == 0x202F || n == 0x205F || n == 0x3000
  }

  /** strings.TrimSpace(s) == "" */
  predicate BlankText(s: string) {
    forall i | 0 <= i < |s| :: IsSpace(s[i])
  }

  /** Byte order on UTF-8 strings is code point order. */
  predicate TextBefore(a: string, b: string)
    decreases |a|
  {
    if |b| == 0 then false
    else if |a| == 0 then true
    else if a[0] != b[0] then a[0] < b[0]
    else TextBefore(a[1..], b[1..])
  }

  lemma {:induction false} TextTrichotomy(a: string, b: string)
    ensures a == b || TextBefore(a, b) || TextBefore(b, a)
    ensures !(TextBefore(a, b) && TextBefore(b, a))
    ensures !TextBefore(a, a)
    decreases |a|
  {
    if |a| > 0 && |b| > 0 && a[0] == b[0] {
      TextTrichotomy(a[1..], b[1..]);
      if a[1..] == b[1..] {
        assert a == [a[0]] + a[1..] && b == [b[0]] + b[1..];
      }
    }
    if |a| > 0 {
      TextTrichotomy(a[1..], a[1..]);
    }
  }

  lemma {:induction false} TextTransitive(a: string, b: string, c: string)
    requires TextBefore(a, b) && TextBefore(b, c)
    ensures TextBefore(a, c)
    decreases |a|
  {
    if |a| > 0 && a[0] == b[0] && b[0] == c[0] {
      TextTransitive(a[1..], b[1..], c[1..]);
    }
  }
}
