/**
 * The peek-and-splice relay: one transfer, driven by the events the HTTP
 * client and the streams deliver, each a method call on `Transfer`.
 */
module Relay {
  import opened Wrappers
  import opened Types
  import opened Gate
  import opened Splice
  import opened Events

  datatype Phase =
    | Pending     // request issued, no response yet
    | Peeking     // response received, waiting for its first `data` event
    | Relaying    // accepted: the response is piped into the outward stream
    | Rejected    // the gate refused: the response was destroyed
    | Completed   // the last stream of the pipe chain has finished

  /** Where an `error` event comes from. */
  datatype Origin = FromRequest | FromResponse

  /** A stream whose `finish` event may be observed. */
  datatype Endpoint = Outward | ToTarget

  /** The destination chosen once the type is known. */
  function ResolveTarget(target: Option<Target>, ext: Option<string>): Option<SinkId> {
    match target
    case None => None
    case Some(Fixed(sink)) => Some(sink)
    case Some(ByExtension(choose)) => choose(ext)
  }

  class Transfer {
    const options: Options
    const detect: Detector

    var phase: Phase
    var statusCode: int
    var contentType: Option<string>
    /** The response's readable side: what it has still to deliver. */
    var response: Reader
    var paused: bool
    /** Every event emitted on the outward stream, in order. */
    var log: seq<Event>
    /** The bytes written into the outward stream. */
    var delivered: Bytes
    /** The destination the outward stream is piped into, if any. */
    var target: Option<SinkId>
    /** The bytes written into that destination. */
    var mirrored: Bytes
    /** The descriptor announced with `type`, once accepted. */
    var descriptor: Option<TypeDescriptor>

    /** The whole response body, as the client hands it over. */
    ghost var body: Bytes
    /** The first chunk, taken by the one-shot `data` listener. */
    ghost var peeked: Bytes
    /** Positions of the `type` and `complete` events in the log. */
    ghost var typeAt: nat
    ghost var completeAt: nat

    ghost predicate Valid()
      reads this
    {
      && Payload(log) == delivered
      && (if target.Some? then mirrored == delivered else mirrored == [])
      && match phase
         case Pending =>
           Quiet(log) && Undecided() && body == [] && response == Reader([], []) && !paused
         case Peeking =>
           Quiet(log) && Undecided() && response.Unread() == body && !paused
         case Rejected =>
           Quiet(log) && Undecided() && paused && body == peeked + response.Unread()
         case Relaying =>
           Accepted() && Announced(log, typeAt, descriptor.value)
         case Completed =>
           Accepted() && Finished(log, typeAt, completeAt, descriptor.value) && response.Unread() == []
    }

    /** Nothing announced, no destination resolved, nothing delivered. */
    ghost predicate Undecided()
      reads this
    {
      descriptor.None? && target.None? && delivered == []
    }

    /**
     * Announced, piped into the destination resolved from the extension, and
     * every byte of the body either delivered or still unread, in order.
     */
    ghost predicate Accepted()
      reads this
    {
      && descriptor.Some?
      && !paused
      && target == ResolveTarget(options.target, descriptor.value.ext)
      && delivered + response.Unread() == body
    }

    /** The last stream of the pipe chain, whose `finish` completes the transfer. */
    function Piped(): Endpoint
      reads this
    {
      if target.Some? then ToTarget else Outward
    }

    /** Issues the request: a fresh outward stream with nothing on it. */
    constructor (options: Options, detect: Detector)
      ensures Valid()
      ensures this.options == options && this.detect == detect
      ensures phase == Pending && log == [] && delivered == [] && mirrored == []
    {
      this.options := options;
      this.detect := detect;
      phase := Pending;
      statusCode := 0;
      contentType := None;
      response := Reader([], []);
      paused := false;
      log := [];
      delivered := [];
      target := None;
      mirrored := [];
      descriptor := None;
      body := [];
      peeked := [];
      typeAt := 0;
      completeAt := 0;
    }

    /** The client surfaces the response; a one-shot `data` listener is attached. */
    method OnResponse(statusCode: int, contentType: Option<string>, body: Bytes)
      requires Valid() && phase == Pending
      modifies this`statusCode, this`contentType, this`response, this`body, this`phase
      ensures Valid()
      ensures phase == Peeking
      ensures this.statusCode == statusCode && this.contentType == contentType
      ensures response.Unread() == body && this.body == body && !paused
      ensures log == old(log) && delivered == [] && target.None? && descriptor.None?
    {
      this.statusCode := statusCode;
      this.contentType := contentType;
      response := Open(body);
      this.body := body;
      phase := Peeking;
    }

    /**
     * The response emits `data` with (up to) `size` bytes. Only the first
     * one reaches the one-shot listener, which runs the gate; after
     * acceptance the pipe carries each later one into the outward stream.
     * Before the response, after a rejection and after completion no `data`
     * event reaches the relay. A `data` event carries at least one byte, so
     * a response with an empty body never reaches the listener.
     */
    method OnData(size: nat)
      requires Valid()
      requires phase == Peeking ==> 0 < size && response.Unread() != []
      modifies this`phase, this`response, this`paused, this`log, this`delivered, this`target, this`mirrored,
               this`descriptor, this`peeked, this`typeAt
      ensures Valid()
      ensures old(phase) == Peeking ==> Decided(old(response), old(log), size)
      ensures old(phase) == Relaying ==>
        Relayed(old(response), old(log), old(delivered), old(mirrored), old(target), old(descriptor), size)
      ensures old(phase) !in {Peeking, Relaying} ==> unchanged(this)
    {
      if phase == Peeking {
        HandleChunk(size);
      } else if phase == Relaying {
        var (bytes, rest) := Read(response, size);
        Pipe(bytes, rest);
      }
    }

    /**
     * The state after the first chunk, read from `before`, went through the
     * gate: on rejection an error and nothing else; on acceptance `type`,
     * the chunk back in front of the response, and the target resolved from
     * the detected extension.
     */
    ghost predicate Decided(before: Reader, logBefore: seq<Event>, size: nat)
      reads this
    {
      var (chunk, rest) := Read(before, size);
      && peeked == chunk
      && match Evaluate(chunk, statusCode, contentType, options, detect)
         case Reject(reason) =>
           && phase == Rejected && paused
           && log == logBefore + [Error(Refused(reason))]
           && response == rest
           && delivered == [] && mirrored == [] && target.None? && descriptor.None?
         case Accept(d) =>
           && phase == Relaying && !paused
           && log == logBefore + [Type(d)]
           && response == Unshift(rest, chunk)
           && response.Unread() == before.Unread()
           && delivered == [] && mirrored == []
           && descriptor == Some(d)
           && target == ResolveTarget(options.target, d.ext)
    }

    /**
     * The state after the pipe moved the next bytes of `before` into the
     * outward stream (and into the target, when there is one).
     */
    ghost predicate Relayed(before: Reader, logBefore: seq<Event>, deliveredBefore: Bytes,
                            mirroredBefore: Bytes, targetBefore: Option<SinkId>,
                            descriptorBefore: Option<TypeDescriptor>, size: nat)
      reads this
    {
      var (bytes, rest) := Read(before, size);
      && phase == Relaying
      && response == rest
      && delivered == deliveredBefore + bytes
      && mirrored == (if target.Some? then mirroredBefore + bytes else mirroredBefore)
      && log == logBefore + (if bytes == [] then [] else [Data(bytes)])
      && target == targetBefore && descriptor == descriptorBefore
    }

    /** The one-shot `data` listener: pause, gate, and on acceptance splice and pipe. */
    method HandleChunk(size: nat)
      requires Valid() && phase == Peeking
      requires 0 < size && response.Unread() != []
      modifies this`phase, this`response, this`paused, this`log, this`target, this`descriptor, this`peeked, this`typeAt
      ensures Valid()
      ensures Decided(old(response), old(log), size)
      ensures peeked != [] && peeked == old(response.Unread())[..|peeked|]
    {
      var (chunk, rest) := Read(response, size);
      var decision := Evaluate(chunk, statusCode, contentType, options, detect);
      match decision {
        case Reject(reason) =>
          Refuse(chunk, rest, reason);
        case Accept(d) =>
          var sink := ResolveTarget(options.target, d.ext);
          Splice(chunk, rest, d, sink);
      }
    }

    /**
     * Rejection: the response, paused after its first chunk, is destroyed and
     * its error forwarded; nothing is pushed back or piped.
     */
    method Refuse(chunk: Bytes, rest: Reader, reason: Reason)
      requires Valid() && phase == Peeking
      requires chunk + rest.Unread() == response.Unread()
      modifies this`phase, this`response, this`paused, this`log, this`peeked
      ensures Valid()
      ensures phase == Rejected && paused
      ensures log == old(log) + [Error(Refused(reason))]
      ensures peeked == chunk && response == rest
    {
      PayloadAppend(log, Error(Refused(reason)));
      QuietExtend(log, Error(Refused(reason)));
      phase, response, paused, log, peeked :=
        Rejected, rest, true, log + [Error(Refused(reason))], chunk;
    }

    /**
     * Acceptance: `type` is emitted, the first chunk is pushed back in front
     * of the response, the response is piped (which resumes it), and the
     * target is resolved from the detected extension.
     */
    method Splice(chunk: Bytes, rest: Reader, d: TypeDescriptor, sink: Option<SinkId>)
      requires Valid() && phase == Peeking
      requires chunk + rest.Unread() == response.Unread()
      requires sink == ResolveTarget(options.target, d.ext)
      modifies this`phase, this`response, this`paused, this`log, this`target, this`descriptor, this`peeked, this`typeAt
      ensures Valid()
      ensures phase == Relaying && !paused
      ensures log == old(log) + [Type(d)]
      ensures peeked == chunk && response == Unshift(rest, chunk)
      ensures response.Unread() == old(response.Unread())
      ensures descriptor == Some(d) && target == sink
    {
      PayloadAppend(log, Type(d));
      AnnounceAfterQuiet(log, d);
      var primed := Unshift(rest, chunk);
      phase, response, paused, log, target, descriptor, peeked, typeAt :=
        Relaying, primed, false, log + [Type(d)], sink, Some(d), chunk, |log|;
    }

    /** The pipe moves the response's next bytes into the outward stream. */
    method Pipe(bytes: Bytes, rest: Reader)
      requires Valid() && phase == Relaying
      requires bytes + rest.Unread() == response.Unread()
      modifies this`response, this`delivered, this`mirrored, this`log
      ensures Valid()
      ensures response == rest
      ensures delivered == old(delivered) + bytes
      ensures mirrored == (if target.Some? then old(mirrored) + bytes else old(mirrored))
      ensures log == old(log) + (if bytes == [] then [] else [Data(bytes)])
    {
      assert delivered + bytes + rest.Unread() == delivered + (bytes + rest.Unread());
      var emitted: seq<Event> := [];
      if bytes != [] {
        PayloadAppend(log, Data(bytes));
        AnnouncedExtend(log, typeAt, descriptor.value, Data(bytes));
        emitted := [Data(bytes)];
      } else {
        assert log + emitted == log;
      }
      response, delivered, log := rest, delivered + bytes, log + emitted;
      if target.Some? {
        mirrored := mirrored + bytes;
      }
    }

    /**
     * A stream of the chain emits `finish`. The listener sits on the last
     * stream of the chain, and `finish` follows the end of the response.
     */
    method OnFinish(origin: Endpoint)
      requires Valid()
      requires phase == Relaying && origin == Piped() ==> response.Unread() == []
      modifies this`phase, this`log, this`completeAt
      ensures Valid()
      ensures old(phase) == Relaying && origin == old(Piped()) ==>
        && phase == Completed
        && log == old(log) + [Complete]
        && delivered == old(delivered) == body
        && (target.Some? ==> mirrored == body)
      ensures !(old(phase) == Relaying && origin == old(Piped())) ==> unchanged(this)
    {
      if phase == Relaying && origin == Piped() {
        PayloadAppend(log, Complete);
        FinishAnnounced(log, typeAt, descriptor.value);
        phase, log, completeAt := Completed, log + [Complete], |log|;
      }
    }

    /**
     * The request or the response emits `error`; the response's listener
     * exists only once there is a response.
     */
    method OnError(origin: Origin, message: string)
      requires Valid()
      modifies this`log
      ensures Valid()
      ensures origin == FromResponse && old(phase) == Pending ==> unchanged(this)
      ensures !(origin == FromResponse && old(phase) == Pending) ==>
        && log == old(log) + [Error(Network(message))]
        && phase == old(phase) && response == old(response)
        && delivered == old(delivered) && mirrored == old(mirrored)
        && target == old(target) && descriptor == old(descriptor)
    {
      if !(origin == FromResponse && phase == Pending) {
        ForwardOutOfBand(Error(Network(message)));
      }
    }

    /** The request emits `abort`. */
    method OnAbort()
      requires Valid()
      modifies this`log
      ensures Valid()
      ensures log == old(log) + [Abort]
      ensures phase == old(phase) && response == old(response)
      ensures delivered == old(delivered) && mirrored == old(mirrored)
      ensures target == old(target) && descriptor == old(descriptor)
    {
      ForwardOutOfBand(Abort);
    }

    /** Emits an out-of-band event on the outward stream, changing nothing else. */
    method ForwardOutOfBand(e: Event)
      requires Valid() && OutOfBand(e)
      modifies this`log
      ensures Valid()
      ensures log == old(log) + [e]
    {
      PayloadAppend(log, e);
      match phase {
        case Relaying => AnnouncedExtend(log, typeAt, descriptor.value, e);
        case Completed => FinishedExtend(log, typeAt, completeAt, descriptor.value, e);
        case _ => QuietExtend(log, e);
      }
      log := log + [e];
    }
  }

  /**
   * Until the gate accepts, and for good after it refuses, the outward stream
   * carries no `type`, no payload byte and no `complete`.
   */
  lemma UndecidedIsSilent(t: Transfer)
    requires t.Valid() && t.phase in {Pending, Peeking, Rejected}
    ensures Payload(t.log) == [] && t.delivered == []
    ensures forall i :: 0 <= i < |t.log| ==> !t.log[i].Type? && !t.log[i].Data? && !t.log[i].Complete?
  {
  }

  /**
   * Whatever the transfer's history, every payload byte on the outward
   * stream is preceded by the `type` event.
   */
  lemma TypePrecedesPayload(t: Transfer)
    requires t.Valid()
    ensures forall j :: 0 <= j < |t.log| && t.log[j].Data? ==>
      exists i :: 0 <= i < j && t.log[i] == Type(t.descriptor.value)
  {
  }
}
