/** JRP framing: the fixed header, and frames on a byte stream. A build speaks a range of
    protocol versions and refuses headers outside it. */
module Frames {
  import opened Base

  const HEADER_LEN := 16
  const MAX_PAYLOAD := 8388608
  const MAGIC: Bytes := [74, 82]  // "JR"

  datatype Build = Build(minVersion: Word16, maxVersion: Word16, caps: Word32) {
    predicate Speaks(version: nat) { minVersion <= version <= maxVersion }

    predicate Ok() { minVersion <= maxVersion }
  }

  datatype MsgType =
    | Hello | HelloAck | Goodbye | Error | Ping | Pong
    | Auth | AuthOk
    | SubmitRun | RunAccepted | GetRun | RunInfo | CancelRun
    | TailLogs | LogChunk
    | CasQuery | CasMissing | CasPut | CasGet | BulkHeader

  function Code(m: MsgType): (c: nat)
    ensures c < U16
  {
    match m
    case Hello => 0x0001
    case HelloAck => 0x0002
    case Goodbye => 0x0003
    case Error => 0x0004
    case Ping => 0x0005
    case Pong => 0x0006
    case Auth => 0x0101
    case AuthOk => 0x0102
    case SubmitRun => 0x0201
    case RunAccepted => 0x0202
    case GetRun => 0x0203
    case RunInfo => 0x0204
    case CancelRun => 0x0205
    case TailLogs => 0x0301
    case LogChunk => 0x0302
    case CasQuery => 0x0401
    case CasMissing => 0x0402
    case CasPut => 0x0403
    case CasGet => 0x0404
    case BulkHeader => 0x0405
  }

  function FromCode(c: nat): (m: Option<MsgType>)
    ensures m.Some? ==> Code(m.value) == c
    ensures m.None? ==> forall x :: Code(x) != c
  {
    if c == 0x0001 then Some(Hello)
    else if c == 0x0002 then Some(HelloAck)
    else if c == 0x0003 then Some(Goodbye)
    else if c == 0x0004 then Some(Error)
    else if c == 0x0005 then Some(Ping)
    else if c == 0x0006 then Some(Pong)
    else if c == 0x0101 then Some(Auth)
    else if c == 0x0102 then Some(AuthOk)
    else if c == 0x0201 then Some(SubmitRun)
    else if c == 0x0202 then Some(RunAccepted)
    else if c == 0x0203 then Some(GetRun)
    else if c == 0x0204 then Some(RunInfo)
    else if c == 0x0205 then Some(CancelRun)
    else if c == 0x0301 then Some(TailLogs)
    else if c == 0x0302 then Some(LogChunk)
    else if c == 0x0401 then Some(CasQuery)
    else if c == 0x0402 then Some(CasMissing)
    else if c == 0x0403 then Some(CasPut)
    else if c == 0x0404 then Some(CasGet)
    else if c == 0x0405 then Some(BulkHeader)
    else None
  }

  lemma CodeRoundTrip(m: MsgType)
    ensures FromCode(Code(m)) == Some(m)
  {
  }

  datatype Header = Header(version: nat, msgType: MsgType, flags: nat, streamId: nat, payloadLen: nat) {
    predicate WellTyped() { version < U16 && flags < U16 && streamId < U32 && payloadLen < U32 }
  }

  datatype FrameError = BadMagic | UnsupportedVersion(version: nat) | UnknownType(code: nat) | PayloadTooLarge(len: nat)

  function HeaderBytes(h: Header): (b: Bytes)
    ensures |b| == HEADER_LEN
  {
    MAGIC + ToLE(h.version, 2) + ToLE(Code(h.msgType), 2) + ToLE(h.flags, 2) + ToLE(h.streamId, 4) + ToLE(h.payloadLen, 4)
  }

  function DecodeHeader(build: Build, b: Bytes): (r: Result<Header, FrameError>)
    requires |b| == HEADER_LEN
    ensures r.Ok? ==> r.value.payloadLen <= MAX_PAYLOAD
  {
    var version, code, len := FromLE(b[2..4]), FromLE(b[4..6]), FromLE(b[12..16]);
    if b[0..2] != MAGIC then Err(BadMagic)
    else if !build.Speaks(version) then Err(UnsupportedVersion(version))
    else if FromCode(code).None? then Err(UnknownType(code))
    else if len > MAX_PAYLOAD then Err(PayloadTooLarge(len))
    else Ok(Header(version, FromCode(code).value, FromLE(b[6..8]), FromLE(b[8..12]), len))
  }

  lemma SixFields(m: Bytes, v: Bytes, c: Bytes, f: Bytes, s: Bytes, l: Bytes)
    requires |m| == |v| == |c| == |f| == 2 && |s| == |l| == 4
    ensures var b := m + v + c + f + s + l;
            && |b| == 16 && b[0..2] == m && b[2..4] == v && b[4..6] == c
            && b[6..8] == f && b[8..12] == s && b[12..16] == l
  {
  }

  /** Where each field of a header stands. */
  lemma HeaderFields(h: Header)
    requires h.WellTyped()
    ensures var b := HeaderBytes(h);
            && |b| == 16 && b[0..2] == [74, 82] && FromLE(b[2..4]) == h.version && FromLE(b[4..6]) == Code(h.msgType)
            && FromLE(b[6..8]) == h.flags && FromLE(b[8..12]) == h.streamId && FromLE(b[12..16]) == h.payloadLen
  {
    hide ToLE, FromLE;
    Pow256Values();
    SixFields(MAGIC, ToLE(h.version, 2), ToLE(Code(h.msgType), 2), ToLE(h.flags, 2), ToLE(h.streamId, 4), ToLE(h.payloadLen, 4));
    FromToLE(h.version, 2);
    FromToLE(Code(h.msgType), 2);
    FromToLE(h.flags, 2);
    FromToLE(h.streamId, 4);
    FromToLE(h.payloadLen, 4);
  }

  /** A header survives the wire exactly when the receiving build speaks its version and its
      payload is within the limit. */
  lemma HeaderRoundTrip(build: Build, h: Header)
    requires h.WellTyped()
    ensures DecodeHeader(build, HeaderBytes(h)) == Ok(h) <==> build.Speaks(h.version) && h.payloadLen <= MAX_PAYLOAD
    ensures !build.Speaks(h.version) ==> DecodeHeader(build, HeaderBytes(h)) == Err(UnsupportedVersion(h.version))
  {
    hide HeaderBytes, FromLE, Code, FromCode;
    HeaderFields(h);
    CodeRoundTrip(h.msgType);
  }

  /** The first check that a header fails, and what passes all of them. */
  lemma HeaderRefused(build: Build, b: Bytes)
    requires |b| == 16
    ensures var r, version, code, len := DecodeHeader(build, b), FromLE(b[2..4]), FromLE(b[4..6]), FromLE(b[12..16]);
            var ours := build.minVersion <= version <= build.maxVersion;
            && (r == Err(BadMagic) <==> b[0..2] != [74, 82])
            && (r == Err(UnsupportedVersion(version)) <==> b[0..2] == [74, 82] && !ours)
            && (r == Err(UnknownType(code)) <==> b[0..2] == [74, 82] && ours && forall m :: Code(m) != code)
            && (r == Err(PayloadTooLarge(len)) <==>
                  b[0..2] == [74, 82] && ours && (exists m :: Code(m) == code) && len > 8388608)
            && (r.Ok? <==> b[0..2] == [74, 82] && ours && (exists m :: Code(m) == code) && len <= 8388608)
  {
    hide FromLE, FromCode, Code;
  }

  /** Whatever sixteen bytes are accepted are the encoding of the header they are accepted as. */
  lemma AcceptedIsCanonical(build: Build, b: Bytes)
    requires |b| == HEADER_LEN && DecodeHeader(build, b).Ok?
    ensures HeaderBytes(DecodeHeader(build, b).value) == b && DecodeHeader(build, b).value.WellTyped()
  {
    hide ToLE, FromLE, Code, FromCode;
    Pow256Values();
    ToFromLE(b[2..4]);
    ToFromLE(b[4..6]);
    ToFromLE(b[6..8]);
    ToFromLE(b[8..12]);
    ToFromLE(b[12..16]);
    assert b == b[0..2] + b[2..4] + b[4..6] + b[6..8] + b[8..12] + b[12..16];
  }

  /** `FrameHeader::encode` fills its sixteen-byte array field by field. */
  method EncodeHeader(h: Header) returns (b: array<Byte>)
    ensures fresh(b) && b[..] == HeaderBytes(h)
  {
    b := new Byte[HEADER_LEN](_ => 0);
    Put(b, 0, MAGIC);
    Put(b, 2, ToLE(h.version, 2));
    Put(b, 4, ToLE(Code(h.msgType), 2));
    Put(b, 6, ToLE(h.flags, 2));
    Put(b, 8, ToLE(h.streamId, 4));
    Put(b, 12, ToLE(h.payloadLen, 4));
  }

  /** `copy_from_slice` into a range of an array. */
  method Put(b: array<Byte>, at: nat, field: Bytes)
    requires at + |field| <= b.Length
    modifies b
    ensures b[..] == old(b[..at]) + field + old(b[at + |field|..])
  {
    var i := 0;
    while i < |field|
      invariant 0 <= i <= |field|
      invariant forall k :: 0 <= k < b.Length ==> b[k] == if at <= k < at + i then field[k - at] else old(b[k])
    {
      b[at + i] := field[i];
      i := i + 1;
    }
    assert |b[..]| == |old(b[..at]) + field + old(b[at + |field|..])|;
  }

  // ------------------------------------------------------------------ frames on a stream

  datatype Frame = Frame(header: Header, payload: Bytes)

  datatype ConnError =
    | Io | BadFrame(error: FrameError) | TooLarge(len: nat) | Unexpected(msgType: MsgType) | Codec | Invalid | Peer(code: nat)

  /** The bytes that `send` writes, unless the payload is too large. */
  function SendBytes(version: nat, m: MsgType, streamId: nat, flags: nat, payload: Bytes): (r: Result<Bytes, ConnError>)
    ensures r.Ok? <==> |payload| <= MAX_PAYLOAD
  {
    if |payload| > MAX_PAYLOAD then Err(TooLarge(|payload|))
    else Ok(HeaderBytes(Header(version, m, flags, streamId, |payload|)) + payload)
  }

  /** One `recv`: the frame at the front of the stream and what is left of it. */
  function RecvFrame(build: Build, input: Bytes): Result<(Frame, Bytes), ConnError>
  {
    if |input| < HEADER_LEN then Err(Io)
    else match DecodeHeader(build, input[..HEADER_LEN])
      case Err(e) => Err(BadFrame(e))
      case Ok(h) =>
        var rest := input[HEADER_LEN..];
        if |rest| < h.payloadLen then Err(Io)
        else Ok((Frame(h, rest[..h.payloadLen]), rest[h.payloadLen..]))
  }

  /** A frame that `send` can have written to a peer of this build. */
  predicate Sendable(build: Build, f: Frame)
  {
    f.header.WellTyped() && build.Speaks(f.header.version) && f.header.payloadLen == |f.payload| <= MAX_PAYLOAD
  }

  function FrameBytes(f: Frame): Bytes
  {
    HeaderBytes(f.header) + f.payload
  }

  lemma RecvFirst(build: Build, f: Frame, rest: Bytes)
    requires Sendable(build, f)
    ensures RecvFrame(build, FrameBytes(f) + rest) == Ok((f, rest))
  {
    hide HeaderBytes, DecodeHeader;
    HeaderRoundTrip(build, f.header);
    var input := FrameBytes(f) + rest;
    assert input[..HEADER_LEN] == HeaderBytes(f.header);
    assert input[HEADER_LEN..] == f.payload + rest;
    assert (f.payload + rest)[..|f.payload|] == f.payload && (f.payload + rest)[|f.payload|..] == rest;
  }

  function StreamBytes(fs: seq<Frame>): Bytes
  {
    if fs == [] then [] else FrameBytes(fs[0]) + StreamBytes(fs[1..])
  }

  /** `recv` again and again until the stream ends or breaks. */
  function RecvAll(build: Build, input: Bytes): (seq<Frame>, ConnError)
    decreases |input|
  {
    match RecvFrame(build, input)
    case Err(e) => ([], e)
    case Ok((f, rest)) =>
      var (fs, e) := RecvAll(build, rest);
      ([f] + fs, e)
  }

  /** Whatever list of sendable frames is written back to back, the peer reads exactly that list,
      and then finds the end of the stream. */
  lemma {:induction false} StreamRoundTrip(build: Build, fs: seq<Frame>)
    requires forall f :: f in fs ==> Sendable(build, f)
    ensures RecvAll(build, StreamBytes(fs)) == (fs, Io)
  {
    hide RecvFrame, FrameBytes, Sendable;
    if fs == [] {
      assert RecvFrame(build, []) == Err(Io) by { EndOfStream(build); }
    } else {
      RecvFirst(build, fs[0], StreamBytes(fs[1..]));
      StreamRoundTrip(build, fs[1..]);
      assert [fs[0]] + fs[1..] == fs;
    }
  }

  lemma EndOfStream(build: Build)
    ensures RecvFrame(build, []) == Err(Io)
  {
  }
}
