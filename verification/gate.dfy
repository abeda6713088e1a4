/**
 * The type gate: the pure decision made on the first chunk of a response
 * (status policy, classification, then the caller's filter).
 */
module Gate {
  import opened Wrappers
  import opened Types

  /** Why a transfer is refused. */
  datatype Reason =
    | StatusFailure(code: int)
    | InvalidType(typeName: Option<string>, code: int)

  datatype Decision = Accept(descriptor: TypeDescriptor) | Reject(reason: Reason)

  /** The status policy: a 2xx status, or `ignoreStatus` set to exactly `true`. */
  predicate StatusAccepted(ignoreStatus: Option<bool>, statusCode: int) {
    ignoreStatus == Some(true) || 200 <= statusCode < 300
  }

  /**
   * The descriptor: the header content type, merged with the classifier's
   * mime and extension when it recognises the chunk.
   */
  function Describe(chunk: Bytes, contentType: Option<string>, detect: Detector): (d: TypeDescriptor)
    ensures d.contentType == contentType
    ensures d.mime.Some? <==> detect(chunk).Some?
    ensures d.ext.Some? <==> detect(chunk).Some?
    ensures detect(chunk).Some? ==>
      d.mime.value == detect(chunk).value.mime && d.ext.value == detect(chunk).value.ext
  {
    match detect(chunk)
    case None => TypeDescriptor(contentType, None, None)
    case Some(found) => TypeDescriptor(contentType, Some(found.mime), Some(found.ext))
  }

  /** A filter refuses only when it is present and returns exactly `false`. */
  predicate Refuses(filter: Option<Filter>, d: TypeDescriptor, chunk: Bytes, statusCode: int) {
    filter.Some? && filter.value(d, chunk, statusCode) == Some(false)
  }

  /** The label of a type rejection: the mime when it is a non-empty string, else the content type. */
  function Label(d: TypeDescriptor): Option<string> {
    if d.mime.Some? && d.mime.value != "" then d.mime else d.contentType
  }

  /** The gate decision on the first chunk of a response. */
  function Evaluate(chunk: Bytes, statusCode: int, contentType: Option<string>,
                    options: Options, detect: Detector): (r: Decision)
    ensures !StatusAccepted(options.ignoreStatus, statusCode) ==> r == Reject(StatusFailure(statusCode))
    ensures r.Reject? && r.reason.StatusFailure? ==> !StatusAccepted(options.ignoreStatus, statusCode)
    ensures r.Accept? <==>
      StatusAccepted(options.ignoreStatus, statusCode) &&
      !Refuses(options.filter, Describe(chunk, contentType, detect), chunk, statusCode)
    ensures r.Accept? ==> r.descriptor == Describe(chunk, contentType, detect)
    ensures r.Reject? && r.reason.InvalidType? ==>
      r.reason == InvalidType(Label(Describe(chunk, contentType, detect)), statusCode)
  {
    if !StatusAccepted(options.ignoreStatus, statusCode) then
      Reject(StatusFailure(statusCode))
    else
      var d := Describe(chunk, contentType, detect);
      if Refuses(options.filter, d, chunk, statusCode) then
        Reject(InvalidType(Label(d), statusCode))
      else
        Accept(d)
  }

  /**
   * When the status check fails, neither the chunk, the classifier nor the
   * filter has any influence on the decision.
   */
  lemma StatusRejectionIgnoresContent(chunk1: Bytes, chunk2: Bytes, statusCode: int,
                                      type1: Option<string>, type2: Option<string>,
                                      options1: Options, options2: Options,
                                      detect1: Detector, detect2: Detector)
    requires options1.ignoreStatus == options2.ignoreStatus
    requires !StatusAccepted(options1.ignoreStatus, statusCode)
    ensures Evaluate(chunk1, statusCode, type1, options1, detect1)
         == Evaluate(chunk2, statusCode, type2, options2, detect2)
         == Reject(StatusFailure(statusCode))
  {
  }

  /**
   * A chunk the classifier does not recognise is still accepted (absent a
   * refusing filter) with a descriptor that carries the content type alone.
   */
  lemma UnrecognisedChunkFallsBack(chunk: Bytes, statusCode: int, contentType: Option<string>,
                                   options: Options, detect: Detector)
    requires detect(chunk).None?
    requires StatusAccepted(options.ignoreStatus, statusCode)
    requires !Refuses(options.filter, TypeDescriptor(contentType, None, None), chunk, statusCode)
    ensures Evaluate(chunk, statusCode, contentType, options, detect)
         == Accept(TypeDescriptor(contentType, None, None))
  {
  }
}
