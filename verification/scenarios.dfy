/**
 * Clients of the relay: what a caller can conclude from the contracts
 * alone, for a recognised PNG body, for a 404 response and for a response
 * with an empty body.
 */
module Scenarios {
  import opened Wrappers
  import opened Types
  import opened Gate
  import opened Splice
  import opened Events
  import opened Relay

  /** A classifier that knows one signature, the PNG magic number. */
  function PngOnly(chunk: Bytes): Option<Detection> {
    if |chunk| >= 4 && chunk[..4] == [0x89, 0x50, 0x4E, 0x47] then Some(Detection("image/png", "png"))
    else None
  }

  /** A PNG body peeked four bytes at a time: typed, then relayed whole, then completed. */
  method PngTransfer()
  {
    var head: Bytes := [0x89, 0x50, 0x4E, 0x47];
    var rest: Bytes := [0x0D, 0x0A];
    var body := head + rest;
    var options := Options(None, None, None);
    var png := TypeDescriptor(Some("image/png"), Some("image/png"), Some("png"));
    assert body[..4] == head && body[4..] == rest;
    assert Read(Open(body), 4) == (head, Reader([], rest));
    assert Evaluate(head, 200, Some("image/png"), options, PngOnly) == Accept(png);

    var t := new Transfer(options, PngOnly);
    t.OnResponse(200, Some("image/png"), body);
    t.OnData(4);
    assert t.log == [Type(png)];
    RelayRemainder(t);
    assert t.log == [Type(png), Data(body), Complete];
  }

  /** Drains an accepted transfer in one read and lets the outward pipe finish. */
  method RelayRemainder(t: Transfer)
    requires t.Valid() && t.phase == Relaying && t.target.None?
    modifies t
    ensures t.Valid() && t.phase == Completed
    ensures t.log == old(t.log) + (if old(t.response.Unread()) == [] then [] else [Data(old(t.response.Unread()))]) + [Complete]
  {
    var n := |t.response.Unread()|;
    var (bytes, left) := Read(t.response, n);
    assert |left.Unread()| == 0 && bytes == bytes + left.Unread() == t.response.Unread();
    t.OnData(n);
    t.OnFinish(Outward);
  }

  method NotFound(body: Bytes)
    requires body != []
  {
    var t := new Transfer(Options(None, None, None), PngOnly);
    t.OnResponse(404, Some("text/html"), body);
    t.OnData(|body|);
    assert t.log == [Error(Refused(StatusFailure(404)))];
    t.OnData(|body|);
    t.OnFinish(Outward);
    assert t.log == [Error(Refused(StatusFailure(404)))] && t.delivered == [];
  }

  /**
   * A 200 response with an empty body: no `data` event ever comes, so the
   * transfer keeps waiting and only forwarded events reach the outward stream.
   */
  method EmptyBody()
  {
    var t := new Transfer(Options(None, None, None), PngOnly);
    t.OnResponse(200, Some("image/png"), []);
    t.OnFinish(Outward);
    t.OnError(FromResponse, "socket hang up");
    assert t.phase == Peeking && t.log == [Error(Network("socket hang up"))];
    UndecidedIsSilent(t);
  }
}
