/** The data offset: ports, channels, programs and scenes may be numbered from
    `dataOffset` (a configuration option) for the user, while the engine always
    numbers them from 0.  The option is passed in as a parameter.
 */
module Offsets {
  import opened Values

  /** actual() of an integer: the engine's number for it; a NoDataOffset is
      already the engine's number. */
  function ActualValue(n: Value, dataOffset: int): int
    requires n.IsInt()
  {
    if n.NoOffset? then n.i else n.i - dataOffset
  }

  /** offset(n): the user's number for the engine's `n`.  A NoDataOffset is not
      exempt here, and the sum is a plain int. */
  function Offset(n: Value, dataOffset: int): (r: Result<Value>)
    ensures r.Ok? <==> n.IsInt()
    ensures r.Ok? ==> r.value.Int? && r.value.i - dataOffset == n.AsInt()
  {
    if n.IsInt() then Ok(Int(n.AsInt() + dataOffset)) else Err(TypeError)
  }

  /** actual(n): the engine's number for the user's `n`. */
  function Actual(n: Value, dataOffset: int): (r: Result<Value>)
    ensures r.Ok? <==> n.IsInt()
    ensures n.NoOffset? ==> r == Ok(Int(n.i))
    ensures n.Int? ==> r.Ok? && r.value.Int? && r.value.i + dataOffset == n.i
  {
    if n.IsInt() then Ok(Int(ActualValue(n, dataOffset))) else Err(TypeError)
  }

  /** actual(offset(n)) == n for a plain int. */
  lemma ActualOfOffset(n: int, dataOffset: int)
    ensures Actual(Offset(Int(n), dataOffset).value, dataOffset) == Ok(Int(n))
  {
  }

  /** offset(actual(n)) == n for a plain int. */
  lemma OffsetOfActual(n: int, dataOffset: int)
    ensures Offset(Actual(Int(n), dataOffset).value, dataOffset) == Ok(Int(n))
  {
  }

  /** A NoDataOffset keeps its number under actual(), whatever the offset, but
      offset() shifts it like any other int. */
  lemma NoOffsetExemptOnlyFromActual(n: int, dataOffset: int)
    ensures Actual(NoOffset(n), dataOffset) == Ok(Int(n))
    ensures Offset(NoOffset(n), dataOffset) == Ok(Int(n + dataOffset))
  {
  }
}
