/** Result and error values shared by the link-layer codecs, and the range
    checks the writers run before emitting a field. */
module Errors {

  /** Outcome of an operation that may fail with an error of type E. */
  datatype Result<+T, +E> = Ok(value: T) | Err(error: E)

  /** The one kind of I/O failure the codec can cause: the input ended early. */
  datatype IoErrorKind = UnexpectedEof

  /** The header field a value-range error is about. */
  datatype ErrorField = VlanTagPriorityCodePoint | VlanTagVlanId

  /** A field value above the largest value its wire width can carry. */
  datatype ValueTooLarge =
    | U8TooLarge(value8: bv8, max8: bv8, field: ErrorField)
    | U16TooLarge(value16: bv16, max16: bv16, field: ErrorField)

  /** Errors of the decoders. */
  datatype ReadError =
    | IoError(kind: IoErrorKind)
    | VlanDoubleTaggingUnexpectedOuterTpid(tpid: bv16)

  /** Errors of the encoders (the writer itself never fails in this model). */
  datatype WriteError = ValueError(cause: ValueTooLarge)

  /** Passes when value <= max, otherwise reports the value, the maximum and the field. */
  function MaxCheckU8(value: bv8, max: bv8, field: ErrorField): (r: Result<(), ValueTooLarge>)
    ensures r.Ok? <==> value <= max
    ensures r.Err? ==> r.error == U8TooLarge(value, max, field)
  {
    if value <= max then Ok(()) else Err(U8TooLarge(value, max, field))
  }

  /** Passes when value <= max, otherwise reports the value, the maximum and the field. */
  function MaxCheckU16(value: bv16, max: bv16, field: ErrorField): (r: Result<(), ValueTooLarge>)
    ensures r.Ok? <==> value <= max
    ensures r.Err? ==> r.error == U16TooLarge(value, max, field)
  {
    if value <= max then Ok(()) else Err(U16TooLarge(value, max, field))
  }
}
