/**
 * The values exchanged by a transfer: bytes, the type descriptor announced
 * with the `type` event, and the options bag a caller passes in.
 */
module Types {
  import opened Wrappers

  newtype Byte = b: int | 0 <= b < 256

  type Bytes = seq<Byte>

  /** A match reported by the magic-byte classifier. */
  datatype Detection = Detection(mime: string, ext: string)

  /**
   * The descriptor emitted with `type`. `contentType` is the response's
   * `content-type` header, absent when the header is missing; `mime` and
   * `ext` are present only when the classifier recognised the first chunk.
   */
  datatype TypeDescriptor = TypeDescriptor(
    contentType: Option<string>,
    mime: Option<string>,
    ext: Option<string>)

  /** The magic-byte classifier, an external collaborator. */
  type Detector = Bytes -> Option<Detection>

  /**
   * The caller's filter, applied to (descriptor, first chunk, status code).
   * Its result is tri-state: `Some(b)` for a boolean return, `None` for any
   * other value (undefined, a string, ...).
   */
  type Filter = (TypeDescriptor, Bytes, int) -> Option<bool>

  /** The identity of a writable destination. */
  type SinkId = string

  /**
   * `target` is either a destination or a function of the detected
   * extension that returns one; the function may return nothing (a falsy
   * value), in which case no destination is used.
   */
  datatype Target =
    | Fixed(sink: SinkId)
    | ByExtension(choose: Option<string> -> Option<SinkId>)

  /**
   * The options bag. `ignoreStatus` is `None` when absent; only
   * `Some(true)` switches off the status check.
   */
  datatype Options = Options(
    ignoreStatus: Option<bool>,
    filter: Option<Filter>,
    target: Option<Target>)
}
