# downldr: the type gate and the peek-and-splice relay

`downldr(url, options)` starts an HTTP request and returns a pass-through
stream straight away. When the response arrives, a one-shot `data` listener
takes the first chunk and pauses the response. It then runs the type gate
(`getTypeAndFilter`):

1. A status outside 2xx is refused unless `ignoreStatus` is exactly `true`.
2. Otherwise the chunk is classified by magic number. The header
   content type is merged with the detected `mime` and `ext`.
3. The caller's optional `filter` refuses only when it returns exactly
   `false`.

On a refusal the response is destroyed with an error, and that error is
forwarded to the outward stream. On acceptance the relay does four things:

- it emits `type` with the descriptor;
- it pushes the chunk back in front of the response (`unshift`);
- it pipes the response into the outward stream;
- it pipes the outward stream on into a `target` if there is one. The target
  is resolved from the detected extension when it is a function.

`complete` is emitted when the last stream of that chain emits `finish`.
Request and response errors are forwarded as `error`, and a request abort is
forwarded as `abort`.

The model has seven modules:

- `Wrappers` holds `Option`, which stands for an absent JavaScript property.
- `Types` holds bytes, descriptors, options and targets.
- `Gate` holds the gate as a pure function `Evaluate` returning
  `Accept(descriptor)` or `Reject(reason)`. The classifier and the filter are
  function parameters. The filter's result is an `Option<bool>`, where `None`
  means it returned something other than a boolean.
- `Splice` models the response as a reader with a pushed-back prefix. It
  proves that peeking a chunk, pushing it back and draining the reader
  loses, duplicates and reorders nothing.
- `Events` describes the outward stream as one ordered event log, and states
  the shape of that log (`type` before data, `complete` after data).
- `Relay` holds the class `Transfer`. Each event that the client or the
  streams deliver is one method call. The invariant `Valid` ties the log,
  the delivered bytes and the unread response to the transfer's phase.
- `Scenarios` has three clients of the contracts:
  - a PNG body that is typed, relayed whole and completed;
  - a 404 response that logs one error and delivers nothing;
  - a 200 response with an empty body, which never reaches the gate.

## Model

| member | source | states |
|---|---|---|
| Gate.Describe | index.js:18-20 | the descriptor's `contentType` is the header value; `mime` and `ext` are present exactly when detection succeeds, and then carry the detected values |
| Gate.Evaluate | index.js:7-30 | a failing status (not 2xx, `ignoreStatus` not exactly `true`) rejects with the status code; a status rejection happens only then; accepts exactly when the status passes and the filter does not return exactly `false`; an accepted descriptor is the merged descriptor; a type rejection carries the mime if non-empty, else the content type, and the status code |
| Gate.StatusRejectionIgnoresContent | index.js:11-15 | when the status fails, the chunk, the header, the classifier and the filter have no influence: every combination gives the same status rejection |
| Gate.UnrecognisedChunkFallsBack | index.js:18-28 | a chunk for which the classifier returns nothing is accepted when the filter does not refuse, with a descriptor holding only the content type |
| Splice.Open | index.js:65-67 | a fresh response has its whole body unread |
| Splice.Unshift | index.js:45 | pushing a chunk back puts it in front of everything still unread |
| Splice.Read | index.js:47 | a read splits what was unread into the bytes delivered and the bytes left, in order; it delivers `size` bytes, or all that is left when fewer remain |
| Splice.DrainConserves | index.js:47 | whatever the sizes of successive reads, the bytes they deliver followed by those left are exactly what was unread |
| Splice.SpliceLosesNothing | index.js:44-47 | peeking a chunk, pushing it back and draining gives a prefix of the original bytes, starting with the chunk; once the reader is exhausted it is the whole original sequence |
| Events.AnnouncedOrder | index.js:42-47 | while relaying, every `data` event comes after the single `type` event, and there is no `complete` |
| Events.FinishedOrder | index.js:42-54 | in a completed log, every `data` event lies strictly between the single `type` and the single `complete` |
| Relay.Transfer.constructor | index.js:58-59 | a new transfer is pending, with no events and nothing delivered |
| Relay.Transfer.OnResponse | index.js:65-67 | the response is recorded with its whole body unread, and the transfer waits for its first chunk; nothing is emitted |
| Relay.Transfer.OnData | index.js:32-54 | the first chunk (only while peeking, and only as a non-empty `data` event of a non-empty body) goes through the gate, as `Decided` states; later chunks of an accepted transfer are relayed in order, as `Relayed` states; in any other phase nothing changes |
| Relay.Transfer.HandleChunk | index.js:32-54 | after the first chunk, a rejection leaves only an error in the log, a paused response and nothing delivered; an acceptance logs `type` with the gate's descriptor, restores the whole unread body, and resolves the target from the detected extension; the peeked chunk is a non-empty prefix of what was unread |
| Relay.Transfer.Refuse | index.js:35-38 | a refusal appends exactly one error carrying the reason, leaves the response paused, and pushes nothing back |
| Relay.Transfer.Splice | index.js:42-52 | given a chunk read from the front of the response, acceptance appends `type`, unshifts the chunk back in front of the rest, so the unread bytes are what they were before the read, resumes the response, and records the resolved target |
| Relay.Transfer.Pipe | index.js:47-52 | the next bytes leave the response and are appended to the outward stream, and to the target when there is one; a `data` event is logged exactly when bytes moved |
| Relay.Transfer.OnFinish | index.js:49-54 | `finish` of the last stream of the chain (the target if any, else the outward stream) completes the transfer: `complete` is appended, and the outward stream and the target hold exactly the response body; a `finish` from any other stream changes nothing |
| Relay.Transfer.OnError | index.js:61-66 | request errors, and response errors once there is a response, are appended as `error` with nothing else changed; a response error before the response changes nothing |
| Relay.Transfer.OnAbort | index.js:70 | a request abort appends `abort`, with nothing else changed |
| Relay.UndecidedIsSilent | index.js:35-38 | before the gate accepts, and after it refuses, the log has no `type`, `data` or `complete` event and no payload byte has been delivered |
| Relay.TypePrecedesPayload | index.js:42-47 | in every reachable state, each `data` event in the log is preceded by the `type` event carrying the transfer's descriptor |
| Scenarios.RelayRemainder | index.js:47-54 | an accepted transfer drained in one read and then finished logs the remaining bytes as one `data` event, then `complete` |

## Left out

- The `request` HTTP client (connection, TLS, redirects, timeouts) and the
  `url` argument are not modelled. The client is only the source of the
  `OnResponse`, `OnError` and `OnAbort` calls. Status code, content-type
  header and body are parameters of `OnResponse`.
- The `file-type` signature database is not part of this model. It is the
  `Detector` parameter, a function from the first chunk to an optional
  mime and extension.
- Node stream internals are not modelled: buffering, backpressure, and the
  way `pipe` and `unshift` work. Events are sequential method calls, and a
  chunk's size is a parameter of `OnData`. The error that `destroy(err)`
  makes the response emit appears in the log at once, as
  `Error(Refused(reason))`.
- The relay relies on `response.destroy(...)` returning a falsy value so
  that the listener stops after a refusal. In Node versions where `destroy`
  returns the stream, that check would not fire. The model makes the refusal
  explicit as `Reject` and does not model that runtime dependency.
- Error messages are not modelled as strings. A rejection carries a
  `Reason`: the status code, or the label and the status code.
- `downldr.promise` (index.js:76-84) is a promise adapter over `complete`
  and `error`, and is not modelled.
- `stream.abort` (index.js:71) only forwards to the foreign `req.abort()`,
  and is not modelled. The resulting `abort` event is modelled by `OnAbort`.
- The code does not stop forwarding after the first `error`, `abort` or
  `complete`. Each handler emits unconditionally, so more than one of these
  can appear in the log. The model follows the code and does not claim that
  terminal events are exclusive.
- A body with no bytes produces no `data` event, and no `data` event is
  empty. `OnData` therefore requires, while peeking, a positive size and
  something left to read. An empty body leaves the transfer in `Peeking`
  with no `type` or `complete`, as `Scenarios.EmptyBody` and
  `Relay.UndecidedIsSilent` show. No `end` handler exists to model.
- Gate.Evaluate: the filter is a pure function of the descriptor, the chunk
  and the status code. In the source the filter receives the live
  descriptor object and could mutate it. The emitted `type`, the rejection
  label and the target's extension would then see the mutated values.
  The model does not capture such a mutation.
- Gate.Evaluate: the filter always returns. In the source a filter that
  throws escapes the `data` listener. Then no `type` and no `error` reach
  the outward stream, and the response stays paused. The model has no such
  outcome.
- Relay.Transfer.HandleChunk: a target function always returns, and it sees
  the detected extension. In the source, a `target` function that throws
  leaves `complete` unemitted: the response is already piped, but no
  `finish` listener is attached. A `type` listener could also change
  `type.ext` before the target is resolved. The model covers neither case.
- Errors emitted by the target stream are not forwarded to the outward
  stream, because the code attaches no `error` listener to the target. The
  model has no event for them.
- Relay.Transfer.OnFinish: requires the response to be drained when `finish`
  comes from the last stream of the chain, because the pipe ends its
  destination only after the source ends. It does not model an early
  `finish`.
- The invariant `Valid` of `Relay.Transfer` does not restate the gate's verdict, to keep the
  proofs small. The verdict is stated at the moment it is made, by `Decided`
  in the contracts of `OnData` and `HandleChunk`.
