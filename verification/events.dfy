/**
 * The outward stream's events as one ordered log, and the bytes it carries.
 */
module Events {
  import opened Types
  import opened Gate

  /** What an `error` event carries. */
  datatype Failure =
    | Network(message: string)   // an error of the request or of the response
    | Refused(reason: Reason)    // the gate's rejection, mirrored from the destroyed response

  datatype Event =
    | Type(descriptor: TypeDescriptor)
    | Data(bytes: Bytes)
    | Complete
    | Error(failure: Failure)
    | Abort

  /** Events forwarded from the request or the response, outside the relay protocol. */
  predicate OutOfBand(e: Event) {
    e.Error? || e.Abort?
  }

  /** The bytes an event delivers to the consumer. */
  function Carried(e: Event): Bytes {
    if e.Data? then e.bytes else []
  }

  /** The concatenation of every `data` payload in the log, in order. */
  function Payload(log: seq<Event>): Bytes
  {
    if log == [] then [] else Carried(log[0]) + Payload(log[1..])
  }

  lemma {:induction false} PayloadAppend(log: seq<Event>, e: Event)
    ensures Payload(log + [e]) == Payload(log) + Carried(e)
  {
    if log == [] {
      assert [] + [e] == [e];
      assert [e][1..] == [];
    } else {
      assert (log + [e])[0] == log[0];
      assert (log + [e])[1..] == log[1..] + [e];
      PayloadAppend(log[1..], e);
    }
  }

  /** Nothing but out-of-band events: no `type`, no `data`, no `complete`. */
  ghost predicate Quiet(log: seq<Event>) {
    forall i :: 0 <= i < |log| ==> OutOfBand(log[i])
  }

  /**
   * The log of a transfer that has announced its type and is relaying:
   * only out-of-band events before the one `type` event at `at`, and only
   * `data` and out-of-band events after it.
   */
  ghost predicate Announced(log: seq<Event>, at: nat, d: TypeDescriptor) {
    && at < |log|
    && log[at] == Type(d)
    && (forall i :: 0 <= i < at ==> OutOfBand(log[i]))
    && (forall i :: at < i < |log| ==> log[i].Data? || OutOfBand(log[i]))
  }

  /**
   * The log of a completed transfer: `Announced` up to the one `complete`
   * event at `done`, and only out-of-band events after it.
   */
  ghost predicate Finished(log: seq<Event>, at: nat, done: nat, d: TypeDescriptor) {
    && at < done < |log|
    && Announced(log[..done], at, d)
    && log[done] == Complete
    && (forall i :: done < i < |log| ==> OutOfBand(log[i]))
  }

  lemma QuietExtend(log: seq<Event>, e: Event)
    requires Quiet(log) && OutOfBand(e)
    ensures Quiet(log + [e])
  {
  }

  lemma AnnounceAfterQuiet(log: seq<Event>, d: TypeDescriptor)
    requires Quiet(log)
    ensures Announced(log + [Type(d)], |log|, d)
  {
  }

  lemma AnnouncedExtend(log: seq<Event>, at: nat, d: TypeDescriptor, e: Event)
    requires Announced(log, at, d) && (e.Data? || OutOfBand(e))
    ensures Announced(log + [e], at, d)
  {
  }

  lemma FinishAnnounced(log: seq<Event>, at: nat, d: TypeDescriptor)
    requires Announced(log, at, d)
    ensures Finished(log + [Complete], at, |log|, d)
  {
  }

  lemma FinishedExtend(log: seq<Event>, at: nat, done: nat, d: TypeDescriptor, e: Event)
    requires Finished(log, at, done, d) && OutOfBand(e)
    ensures Finished(log + [e], at, done, d)
  {
  }

  /** In an announced log, `type` comes before every payload byte and occurs once. */
  lemma AnnouncedOrder(log: seq<Event>, at: nat, d: TypeDescriptor)
    requires Announced(log, at, d)
    ensures forall j :: 0 <= j < |log| && log[j].Data? ==> at < j
    ensures forall j :: 0 <= j < |log| && log[j].Type? ==> j == at
    ensures forall j :: 0 <= j < |log| ==> !log[j].Complete?
  {
  }

  /**
   * In a finished log, `type` comes first, `complete` follows every payload
   * byte, and each occurs once.
   */
  lemma FinishedOrder(log: seq<Event>, at: nat, done: nat, d: TypeDescriptor)
    requires Finished(log, at, done, d)
    ensures forall j :: 0 <= j < |log| && log[j].Data? ==> at < j < done
    ensures forall j :: 0 <= j < |log| && log[j].Type? ==> j == at
    ensures forall j :: 0 <= j < |log| && log[j].Complete? ==> j == done
  {
  }
}
