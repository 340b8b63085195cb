/** The hand-written registration frame that a map server sends. */
module Frame {
  import opened Prelude
  import opened HexCodec

  const SHORT := 0x1_0000
  const MAX_RECEIVED := 2048
  const REGISTRATION_OPCODE := 0xFFFC

  /** A 16-bit wire encoding; the byte order belongs to the buffer library, which is not part of this model. */
  datatype Wire = Wire(put: nat -> seq<byte>, get: seq<byte> -> nat)

  ghost predicate Invertible(w: Wire) {
    forall n: nat {:trigger w.put(n)} :: n < SHORT ==> |w.put(n)| == 2 && w.get(w.put(n)) == n
  }

  datatype Registration = Registration(name: seq<byte>, address: seq<byte>, port: nat)

  /** `putShort` truncates to 16 bits. */
  function PutShort(w: Wire, n: nat): seq<byte> {
    w.put(n % SHORT)
  }

  function Write(w: Wire, r: Registration): seq<byte> {
    PutShort(w, REGISTRATION_OPCODE)
      + PutShort(w, |r.name|) + r.name
      + PutShort(w, |r.address|) + r.address
      + PutShort(w, r.port)
  }

  /** The frame of a map server "a" at "bc", port 258, if numbers are written high byte first. */
  lemma FrameBytes(w: Wire, r: Registration)
    requires forall n: nat :: n < SHORT ==> w.put(n) == [n / 256, n % 256]
    requires r == Registration([97], [98, 99], 258)
    ensures Write(w, r) == [0xFF, 0xFC, 0, 1, 97, 0, 2, 98, 99, 1, 2]
  {
    assert w.put(REGISTRATION_OPCODE) == [0xFF, 0xFC] && w.put(1) == [0, 1] && w.put(2) == [0, 2] && w.put(258) == [1, 2];
  }

  /** The constructor appends field after field to its buffer. */
  method BuildFrame(w: Wire, r: Registration) returns (buffer: seq<byte>)
    ensures buffer == Write(w, r)
  {
    buffer := PutShort(w, REGISTRATION_OPCODE);
    buffer := buffer + PutShort(w, |r.name|);
    buffer := buffer + r.name;
    buffer := buffer + PutShort(w, |r.address|);
    buffer := buffer + r.address;
    buffer := buffer + PutShort(w, r.port);
  }

  /** A read of `n` bytes and what remains; `None` when the buffer holds fewer. */
  function Take(s: seq<byte>, n: nat): Option<(seq<byte>, seq<byte>)> {
    if n <= |s| then Some((s[..n], s[n..])) else None
  }

  function GetShort(w: Wire, s: seq<byte>): Option<(nat, seq<byte>)> {
    match Take(s, 2)
    case Some((b, rest)) => Some((w.get(b), rest))
    case None => None
  }

  /** A length and that many bytes. */
  function GetString(w: Wire, s: seq<byte>): Option<(seq<byte>, seq<byte>)> {
    match GetShort(w, s)
    case Some((n, rest)) => Take(rest, n)
    case None => None
  }

  function ReadBody(w: Wire, s: seq<byte>): Option<Registration> {
    match GetString(w, s)
    case None => None
    case Some((name, s1)) =>
      match GetString(w, s1)
      case None => None
      case Some((address, s2)) =>
        match GetShort(w, s2)
        case None => None
        case Some((port, _)) => Some(Registration(name, address, port))
  }

  /** What the login server reads: at most 2048 bytes, the opcode, then the three fields. */
  function ReceiveFrame(w: Wire, sent: seq<byte>): Option<Registration> {
    match GetShort(w, sent[..if |sent| <= MAX_RECEIVED then |sent| else MAX_RECEIVED])
    case Some((op, body)) => if op == REGISTRATION_OPCODE then ReadBody(w, body) else None
    case None => None
  }

  lemma ReadShort(w: Wire, n: nat, rest: seq<byte>, cut: nat)
    requires Invertible(w) && 2 <= cut <= 2 + |rest|
    ensures GetShort(w, (PutShort(w, n) + rest)[..cut]) == Some((n % SHORT, rest[..cut - 2]))
  {
    var b := w.put(n % SHORT);
    assert |b| == 2 && (b + rest)[..cut][..2] == b && (b + rest)[..cut][2..] == rest[..cut - 2];
  }

  lemma ReadString(w: Wire, v: seq<byte>, rest: seq<byte>, cut: nat)
    requires Invertible(w) && |v| < SHORT && 2 + |v| <= cut <= 2 + |v| + |rest|
    ensures GetString(w, (PutShort(w, |v|) + v + rest)[..cut]) == Some((v, rest[..cut - 2 - |v|]))
  {
    assert PutShort(w, |v|) + v + rest == PutShort(w, |v|) + (v + rest);
    ReadShort(w, |v|, v + rest, cut);
    assert (v + rest)[..cut - 2][..|v|] == v && (v + rest)[..cut - 2][|v|..] == rest[..cut - 2 - |v|];
  }

  /** A string, and then all of what follows it. */
  lemma ReadStringThen(w: Wire, v: seq<byte>, rest: seq<byte>)
    requires Invertible(w) && |v| < SHORT
    ensures GetString(w, PutShort(w, |v|) + v + rest) == Some((v, rest))
  {
    var s := PutShort(w, |v|) + v + rest;
    assert |w.put(|v|)| == 2;
    ReadString(w, v, rest, |s|);
    hide GetString;
    assert s[..|s|] == s && rest[..|rest|] == rest;
  }

  lemma ReadLastShort(w: Wire, n: nat)
    requires Invertible(w) && n < SHORT
    ensures GetShort(w, PutShort(w, n)) == Some((n, []))
  {
    assert |w.put(n)| == 2;
    ReadShort(w, n, [], 2);
    hide GetShort;
    assert (PutShort(w, n) + [])[..2] == PutShort(w, n);
  }

  lemma ReadWholeBody(w: Wire, r: Registration)
    requires Invertible(w) && r.port < SHORT && |r.name| < SHORT && |r.address| < SHORT
    ensures ReadBody(w, Body(w, r)) == Some(r)
  {
    hide GetString, GetShort, PutShort;
    var tail := PutShort(w, r.port);
    ReadStringThen(w, r.name, PutShort(w, |r.address|) + r.address + tail);
    ReadStringThen(w, r.address, tail);
    ReadLastShort(w, r.port);
  }

  /** A body that parses holds two lengths, two strings and a port. */
  lemma ParsedLength(w: Wire, s: seq<byte>)
    ensures var r := ReadBody(w, s); r.Some? ==> 6 + |r.value.name| + |r.value.address| <= |s|
  {
  }

  /**
   * The server reads back exactly what the map server wrote if and only if the whole frame fits one
   * receive; that bound already keeps both lengths within 16 bits.
   */
  lemma FrameRoundTrip(w: Wire, r: Registration)
    requires Invertible(w) && r.port < SHORT
    ensures ReceiveFrame(w, Write(w, r)) == Some(r) <==> 8 + |r.name| + |r.address| <= MAX_RECEIVED
  {
    var body, frame := Body(w, r), Write(w, r);
    FrameLength(w, r);
    assert frame == PutShort(w, REGISTRATION_OPCODE) + body;
    var cut := if |frame| <= MAX_RECEIVED then |frame| else MAX_RECEIVED;
    ReadShort(w, REGISTRATION_OPCODE, body, cut);
    ParsedLength(w, body[..cut - 2]);
    if |frame| <= MAX_RECEIVED {
      ReadWholeBody(w, r);
      assert body[..cut - 2] == body;
    }
  }

  /** A packet with any other opcode is no registration, whatever follows the opcode. */
  lemma OpcodeDecides(w: Wire, n: nat, rest: seq<byte>)
    requires Invertible(w) && n < SHORT && n != REGISTRATION_OPCODE && |rest| + 2 <= MAX_RECEIVED
    ensures ReceiveFrame(w, PutShort(w, n) + rest) == None
  {
    var s := PutShort(w, n) + rest;
    assert |w.put(n)| == 2;
    ReadShort(w, n, rest, |s|);
    assert s[..|s|] == s;
  }

  function Body(w: Wire, r: Registration): seq<byte> {
    PutShort(w, |r.name|) + r.name + (PutShort(w, |r.address|) + r.address + PutShort(w, r.port))
  }

  lemma FrameLength(w: Wire, r: Registration)
    requires Invertible(w)
    ensures |Write(w, r)| == 8 + |r.name| + |r.address| == 2 + |Body(w, r)|
    ensures Write(w, r) == PutShort(w, REGISTRATION_OPCODE) + Body(w, r)
  {
    assert |w.put(REGISTRATION_OPCODE % SHORT)| == 2 && |w.put(|r.name| % SHORT)| == 2
        && |w.put(|r.address| % SHORT)| == 2 && |w.put(r.port % SHORT)| == 2;
  }
}
