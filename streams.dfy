/**
 * A request body as a stream of bytes, and the part of Go's bufio.Reader and
 * bytes.Buffer that parsedRequest.build relies on: a reader with the default
 * 4096-byte buffer, its Peek, and Truncate.
 */
module Streams {

  newtype byte = x: int | 0 <= x < 256

  /** The bytes a body yields before it fails: with io.EOF, or with another error when `hardError`. */
  datatype Stream = Stream(data: seq<byte>, hardError: bool)

  /** bufio.Reader: the bytes it has buffered and the part of its source it has not read yet. */
  datatype BufReader = BufReader(buf: seq<byte>, src: Stream)

  /** An http.Request body: nil, http.NoBody, a plain reader, or a bufio.Reader put back in its place. */
  datatype Body = NilBody | NoBody | Plain(stream: Stream) | Buffered(reader: BufReader)

  /** The size of the buffer bufio.NewReader allocates. */
  const BufferSize: nat := 4096

  /** What reading from the reader yields from now on: the buffered bytes, then the rest of the source. */
  function Remaining(rd: BufReader): Stream
  {
    Stream(rd.buf + rd.src.data, rd.src.hardError)
  }

  /** Whether reading the body goes through a reader (neither nil nor http.NoBody). */
  predicate HasStream(b: Body)
  {
    b.Plain? || b.Buffered?
  }

  /** What reading the body yields. */
  function Contents(b: Body): Stream
    requires HasStream(b)
  {
    if b.Plain? then b.stream else Remaining(b.reader)
  }

  /** bufio.NewReader: nothing buffered yet. */
  function NewReader(s: Stream): (rd: BufReader)
    ensures |rd.buf| <= BufferSize && Remaining(rd) == s
  {
    assert [] + s.data == s.data;
    BufReader([], s)
  }

  function Min(a: int, b: int): int
  {
    if a <= b then a else b
  }

  /** The error Peek reports: none, io.EOF, bufio.ErrBufferFull, bufio.ErrNegativeCount, or the source's own error. */
  datatype PeekError = NoError | EOF | BufferFull | NegativeCount | HardError

  datatype Peeked = Peeked(reader: BufReader, bytes: seq<byte>, err: PeekError)

  /**
   * bufio.Reader.Peek(n). The reader fills its buffer while it holds fewer
   * than min(n, BufferSize) bytes and the source has not failed; each read of
   * the source is taken to return as much as fits. A negative count is
   * refused before anything is read. A request larger than the buffer always
   * reports ErrBufferFull with whatever is buffered, even when the source
   * failed; otherwise a short stream reports its own error.
   */
  function Peek(rd: BufReader, n: int): (p: Peeked)
    requires |rd.buf| <= BufferSize
    ensures Remaining(p.reader) == Remaining(rd) && |p.reader.buf| <= BufferSize
    ensures p.err == NegativeCount <==> n < 0
    ensures n < 0 ==> p.reader == rd && p.bytes == []
    ensures n >= 0 ==> |p.bytes| == Min(Min(n, BufferSize), |Remaining(rd).data|)
    ensures p.bytes == Remaining(rd).data[..|p.bytes|]
    ensures p.err == BufferFull <==> n > BufferSize
    ensures p.err == NoError <==> 0 <= n <= BufferSize && n <= |Remaining(rd).data|
    ensures p.err == HardError <==> 0 <= n <= BufferSize && |Remaining(rd).data| < n && rd.src.hardError
  {
    if n < 0 then Peeked(rd, [], NegativeCount) else
    var all := Remaining(rd);
    var k := Min(BufferSize, |all.data|);
    var filled :=
      if |rd.buf| < Min(n, BufferSize) then BufReader(all.data[..k], Stream(all.data[k..], all.hardError))
      else rd;
    assert filled.buf + filled.src.data == all.data;
    if n > BufferSize then Peeked(filled, filled.buf, BufferFull)
    else if |filled.buf| >= n then Peeked(filled, filled.buf[..n], NoError)
    else Peeked(filled, filled.buf, if all.hardError then HardError else EOF)
  }

  /** bytes.Buffer.Truncate(n): keeps the first n bytes; Go panics when n exceeds the length. */
  function Truncate(b: seq<byte>, n: nat): (r: seq<byte>)
    requires n <= |b|
    ensures |r| == n && r == b[..n]
  {
    b[..n]
  }

  /** bytes.Buffer.String: each byte becomes one character. */
  function AsString(b: seq<byte>): (s: string)
    ensures |s| == |b|
  {
    if b == [] then [] else [b[0] as int as char] + AsString(b[1..])
  }

  /** Reading a bufio.Reader put back in place of a body yields exactly what the body would have. */
  lemma PeekThenReadBack(s: Stream, n: nat)
    ensures Contents(Buffered(Peek(NewReader(s), n).reader)) == s
  {
  }

  /** A peek within the buffer sees the whole of a short stream and exactly n bytes of a long one. */
  lemma {:induction false} PeekWithinBuffer(s: Stream, n: nat)
    requires n <= BufferSize
    ensures var p := Peek(NewReader(s), n);
      && (|s.data| >= n ==> p.err == NoError && p.bytes == s.data[..n])
      && (|s.data| < n ==> p.bytes == s.data && p.err == (if s.hardError then HardError else EOF))
  {
    var p := Peek(NewReader(s), n);
    if |s.data| < n {
      assert p.bytes == s.data[..|s.data|];
    }
  }

  /** A peek beyond the buffer hides a failing source behind ErrBufferFull. */
  lemma PeekBeyondBufferMasksError()
    ensures Peek(NewReader(Stream([1, 2, 3], true)), BufferSize + 1).err == BufferFull
    ensures Peek(NewReader(Stream([1, 2, 3], true)), BufferSize + 1).bytes == [1, 2, 3]
  {
    var s := Stream([1, 2, 3], true);
    var p := Peek(NewReader(s), BufferSize + 1);
    assert |p.bytes| == 3;
    assert p.bytes == s.data[..3];
  }
}
