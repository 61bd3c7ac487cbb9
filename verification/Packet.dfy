/** Packet framing: the 4-byte header, both builders of it, and the client's exact reads. */
module Packet {
  import opened Bytes

  const HEADER_SIZE := 4

  /** _MSG_HEADER: total size including the header, then the two type bytes read as one number. */
  datatype Header = Header(size: u16, kind: u16)

  datatype Message = Message(kind: u16, body: seq<byte>)

  function HeaderBytes(h: Header): (r: seq<byte>)
    ensures |r| == HEADER_SIZE && ParseHeader(r) == h
  {
    LE16(h.size) + LE16(h.kind)
  }

  function ParseHeader(b: seq<byte>): Header
    requires |b| == HEADER_SIZE
  {
    Header(FromLE16(b[..2]), FromLE16(b[2..]))
  }

  /** Size first, then type, each with its low byte first. */
  lemma HeaderLayout(h: Header)
    ensures HeaderBytes(h) == [h.size % 256, h.size / 256, h.kind % 256, h.kind / 256]
  {}

  /** The size field is the low 16 bits of header plus body: both builders cast to 16 bits. */
  function MakeHeader(kind: u16, bodySize: nat): Header
  {
    Header((HEADER_SIZE + bodySize) % TWO_TO_16, kind)
  }

  /** What the C# client puts on its stream for one send. */
  function SendAsync(kind: u16, body: seq<byte>): seq<byte>
  {
    HeaderBytes(MakeHeader(kind, |body|)) + body
  }

  /** One turn of the C# read loop: a size below the header size counts as an empty body. */
  function ReceiveOne(input: seq<byte>): Option<(Message, seq<byte>)>
  {
    if |input| < HEADER_SIZE then None
    else
      var h := ParseHeader(input[..HEADER_SIZE]);
      var n := if h.size < HEADER_SIZE then 0 else h.size - HEADER_SIZE;
      var rest := input[HEADER_SIZE..];
      if |rest| < n then None else Some((Message(h.kind, rest[..n]), rest[n..]))
  }

  /** A sent packet is received as sent, with nothing left over, exactly up to 65531 body bytes. */
  lemma SendAsyncIsFramed(kind: u16, body: seq<byte>)
    ensures ReceiveOne(SendAsync(kind, body)) == Some((Message(kind, body), [])) <==> |body| <= 65531
  {
    var wire := SendAsync(kind, body);
    assert wire[..HEADER_SIZE] == HeaderBytes(MakeHeader(kind, |body|));
    assert wire[HEADER_SIZE..] == body;
    if |body| <= 65531 {
      assert body[..|body|] == body && body[|body|..] == [];
    } else {
      var n := (HEADER_SIZE + |body|) % TWO_TO_16;
      assert n < TWO_TO_16;
      assert n - HEADER_SIZE < |body|;
    }
  }

  /** A stream whose reads hand over any positive number of the bytes that are left. */
  class Stream {
    ghost const data: seq<byte>
    var left: seq<byte>

    constructor (bytes: seq<byte>)
      ensures data == left == bytes
    {
      data := bytes;
      left := bytes;
    }

    /** ReadAsync: 0 only at the end of the stream. */
    method Read(buffer: array<byte>, offset: nat, count: nat) returns (n: nat)
      requires 0 < count && offset + count <= buffer.Length
      modifies this`left, buffer
      ensures n <= count && n <= |old(left)| && (n == 0 <==> old(left) == [])
      ensures left == old(left)[n..]
      ensures buffer[..] == old(buffer[..offset]) + old(left)[..n] + old(buffer[offset + n..])
    {
      n :| 0 <= n <= count && n <= |left| && (n == 0 <==> left == []) by {
        var some := if left == [] then 0 else 1;
        assert 0 <= some <= count && some <= |left| && (some == 0 <==> left == []);
      }
      CopyTo(left[..n], buffer, offset);
      left := left[n..];
    }
  }

  method CopyTo(bytes: seq<byte>, buffer: array<byte>, offset: nat)
    requires offset + |bytes| <= buffer.Length
    modifies buffer
    ensures buffer[..] == old(buffer[..offset]) + bytes + old(buffer[offset + |bytes|..])
  {
    for i := 0 to |bytes|
      invariant buffer[..] == old(buffer[..offset]) + bytes[..i] + old(buffer[offset + i..])
    {
      buffer[offset + i] := bytes[i];
      assert bytes[..i + 1] == bytes[..i] + [bytes[i]];
    }
    assert bytes[..|bytes|] == bytes;
  }

  /** However the stream cuts its bytes into reads, exactly the next `size` bytes arrive, or the stream was shorter. */
  method ReadExact(stream: Stream, buffer: array<byte>, size: nat) returns (ok: bool)
    requires size <= buffer.Length
    modifies stream`left, buffer
    ensures ok <==> size <= |old(stream.left)|
    ensures ok ==> buffer[..size] == old(stream.left)[..size] && stream.left == old(stream.left)[size..]
    ensures !ok ==> stream.left == []
    ensures buffer[size..] == old(buffer[size..])
  {
    var read := 0;
    while read < size
      invariant 0 <= read <= size && read <= |old(stream.left)|
      invariant stream.left == old(stream.left)[read..]
      invariant buffer[..read] == old(stream.left)[..read]
      invariant buffer[size..] == old(buffer[size..])
    {
      var n := stream.Read(buffer, read, size - read);
      if n == 0 {
        return false;
      }
      assert old(stream.left)[..read + n] == old(stream.left)[..read] + old(stream.left)[read..][..n];
      read := read + n;
    }
    ok := true;
  }
}
