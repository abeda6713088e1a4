/**
 * The response's byte source as a forward-only reader that can be primed
 * with bytes pushed back to its front: the "unshift then pipe" step.
 */
module Splice {
  import opened Types

  /**
   * `pushedBack` holds bytes returned to the front of the stream; `source`
   * holds the bytes the response has not yet delivered.
   */
  datatype Reader = Reader(pushedBack: Bytes, source: Bytes) {
    /** Everything still to be read, in order. */
    function Unread(): Bytes {
      pushedBack + source
    }
  }

  /** A reader over a body of which nothing has been read. */
  function Open(body: Bytes): (r: Reader)
    ensures r.Unread() == body
  {
    Reader([], body)
  }

  /** Puts `chunk` back in front of everything still unread. */
  function Unshift(r: Reader, chunk: Bytes): (r': Reader)
    ensures r'.Unread() == chunk + r.Unread()
  {
    assert chunk + r.pushedBack + r.source == chunk + (r.pushedBack + r.source);
    Reader(chunk + r.pushedBack, r.source)
  }

  /**
   * Reads up to `size` bytes: the pushed-back bytes first, then the source.
   * The bytes read and the bytes left are a split of what was unread.
   */
  function Read(r: Reader, size: nat): (result: (Bytes, Reader))
    ensures result.0 + result.1.Unread() == r.Unread()
    ensures |result.0| == if size <= |r.Unread()| then size else |r.Unread()|
  {
    if size <= |r.pushedBack| then
      assert r.pushedBack == r.pushedBack[..size] + r.pushedBack[size..];
      (r.pushedBack[..size], Reader(r.pushedBack[size..], r.source))
    else
      var k := if size - |r.pushedBack| <= |r.source| then size - |r.pushedBack| else |r.source|;
      assert r.source == r.source[..k] + r.source[k..];
      (r.pushedBack + r.source[..k], Reader([], r.source[k..]))
  }

  /** Successive reads of the given sizes, as a pipe performs them. */
  function Drain(r: Reader, sizes: seq<nat>): (Bytes, Reader)
    decreases |sizes|
  {
    if sizes == [] then ([], r)
    else
      var (first, r1) := Read(r, sizes[0]);
      var (rest, r2) := Drain(r1, sizes[1..]);
      (first + rest, r2)
  }

  /** However the reads are sized, no byte is lost, duplicated or reordered. */
  lemma {:induction false} DrainConserves(r: Reader, sizes: seq<nat>)
    ensures Drain(r, sizes).0 + Drain(r, sizes).1.Unread() == r.Unread()
    decreases |sizes|
  {
    if sizes != [] {
      var (first, r1) := Read(r, sizes[0]);
      DrainConserves(r1, sizes[1..]);
      var (rest, r2) := Drain(r1, sizes[1..]);
      assert Drain(r, sizes) == (first + rest, r2);
      assert first + rest + r2.Unread() == first + (rest + r2.Unread());
    }
  }

  /**
   * Peek-and-splice: read a first chunk, push it back, and drain the reader.
   * What comes out is a prefix of the original byte sequence; once the reader
   * is exhausted it is the whole sequence, first chunk first.
   */
  lemma {:induction false} SpliceLosesNothing(r: Reader, size: nat, sizes: seq<nat>)
    ensures var (chunk, rest) := Read(r, size);
            var (out, left) := Drain(Unshift(rest, chunk), sizes);
            out + left.Unread() == r.Unread() &&
            chunk == r.Unread()[..|chunk|] &&
            (left.Unread() == [] ==> out == r.Unread())
  {
    var (chunk, rest) := Read(r, size);
    DrainConserves(Unshift(rest, chunk), sizes);
    var (out, left) := Drain(Unshift(rest, chunk), sizes);
    assert out + left.Unread() == chunk + rest.Unread();
    assert r.Unread() == chunk + rest.Unread();
    if left.Unread() == [] {
      assert out + [] == out;
    }
  }
}
