/** A JRP connection: stream ids on both sides of it, and the handshake between two builds. */
module Connection {
  import opened Base
  import opened Frames

  const MAX_AGENT_LEN := 128
  const BAD_REQUEST := 2
  const VERSION_MISMATCH := 6
  const END_STREAM := 2

  // ------------------------------------------------------------------ stream ids

  function FirstId(client: bool): nat { if client then 1 else 2 }

  /** `wrapping_add(2).max(1 or 2)`. */
  function NextId(client: bool, id: nat): nat
  {
    var bumped := (id + 2) % U32;
    if bumped < FirstId(client) then FirstId(client) else bumped
  }

  function NthId(client: bool, n: nat): nat
  {
    if n == 0 then FirstId(client) else NextId(client, NthId(client, n - 1))
  }

  /** How many ids a side hands out before it starts over. */
  function Period(client: bool): (p: nat)
    ensures p > 1
  {
    if client then 2147483648 else 2147483647
  }

  /** One allocation, within a period and at its end. */
  lemma NextIdIs(client: bool, k: nat)
    requires k < Period(client)
    ensures NextId(client, FirstId(client) + 2 * k) == FirstId(client) + 2 * if k + 1 == Period(client) then 0 else k + 1
  {
  }

  lemma ModNext(p: nat, n: nat)
    requires p > 1
    ensures (n + 1) % p == if n % p + 1 == p then 0 else n % p + 1
  {
    var q, r := n / p, n % p;
    assert n == p * q + r;
    if r + 1 == p {
      assert p * (q + 1) == p * q + p;
      ModUnique(n + 1, p, q + 1, 0);
    } else {
      ModUnique(n + 1, p, q, r + 1);
    }
  }

  lemma ModAgree(p: nat, m: nat, n: nat)
    requires p > 1 && m <= n
    ensures m % p == n % p <==> (n - m) % p == 0
  {
    var k, d, r := (n - m) / p, (n - m) % p, m % p;
    var q := m / p;
    assert n == p * (q + k) + (r + d) by { assert p * (q + k) == p * q + p * k; }
    if r + d < p {
      ModUnique(n, p, q + k, r + d);
    } else {
      assert p * (q + k + 1) == p * (q + k) + p;
      ModUnique(n, p, q + k + 1, r + d - p);
    }
  }

  lemma {:induction false} NthIdIs(client: bool, n: nat)
    ensures NthId(client, n) == FirstId(client) + 2 * (n % Period(client))
    decreases n
  {
    if n > 0 {
      hide NextId, Period, FirstId;
      NthIdIs(client, n - 1);
      ModNext(Period(client), n - 1);
      NextIdIs(client, (n - 1) % Period(client));
    }
  }

  /** Client ids are odd, server ids even and not zero, so the two sides never collide. */
  lemma SidesNeverCollide(m: nat, n: nat)
    ensures NthId(true, m) % 2 == 1 && NthId(false, n) % 2 == 0 && NthId(false, n) != 0
    ensures 0 < NthId(true, m) < U32 && 0 < NthId(false, n) < U32
    ensures NthId(true, m) != NthId(false, n)
  {
    NthIdIs(true, m);
    NthIdIs(false, n);
  }

  /** Across the 32-bit wraparound, two allocations of one side agree exactly when they are a
      whole number of periods apart: any 2^31 consecutive client ids, or 2^31 - 1 consecutive
      server ids, are distinct. */
  lemma IdsRepeatOnlyAfterAPeriod(client: bool, m: nat, n: nat)
    requires m <= n
    ensures NthId(client, m) == NthId(client, n) <==> (n - m) % Period(client) == 0
    ensures 0 < n - m < Period(client) ==> NthId(client, m) != NthId(client, n)
  {
    NthIdIs(client, m);
    NthIdIs(client, n);
    hide NthId, Period, FirstId;
    ModAgree(Period(client), m, n);
    if 0 < n - m < Period(client) { ModUnique(n - m, Period(client), 0, n - m); }
  }

  // ------------------------------------------------------------------ handshake messages

  datatype HelloMsg = HelloMsg(agent: Bytes, minVersion: Word16, maxVersion: Word16, caps: Word32)
  datatype AckMsg = AckMsg(agent: Bytes, version: Word16, caps: Word32, session: Bytes)
  datatype ErrorMsg = ErrorMsg(code: Word16, message: Bytes)

  /** Payload serialization, as two peers share it. */
  datatype Payloads = Payloads(
    hello: HelloMsg -> Bytes, ack: AckMsg -> Bytes, error: ErrorMsg -> Bytes,
    readHello: Bytes -> Option<HelloMsg>, readAck: Bytes -> Option<AckMsg>, readError: Bytes -> Option<ErrorMsg>)

  ghost predicate Faithful(c: Payloads)
  {
    && (forall m :: c.readHello(c.hello(m)) == Some(m))
    && (forall m :: c.readAck(c.ack(m)) == Some(m))
    && (forall m :: c.readError(c.error(m)) == Some(m))
  }

  predicate ValidHello(h: HelloMsg) { |h.agent| <= MAX_AGENT_LEN && h.minVersion <= h.maxVersion }

  /** The server's choice for a decoded Hello. */
  function Negotiate(server: Build, h: HelloMsg): Option<Word16>
  {
    var n := if server.maxVersion < h.maxVersion then server.maxVersion else h.maxVersion;
    if n < server.minVersion || n < h.minVersion then None else Some(n)
  }

  /** The highest version in both ranges, and a refusal exactly when there is none. */
  lemma NegotiateIsMaximum(server: Build, h: HelloMsg)
    requires server.Ok() && h.minVersion <= h.maxVersion
    ensures Negotiate(server, h).Some? <==> exists v: nat :: server.Speaks(v) && h.minVersion <= v <= h.maxVersion
    ensures forall v: nat :: server.Speaks(v) && h.minVersion <= v <= h.maxVersion && Negotiate(server, h).Some? ==>
      v <= Negotiate(server, h).value
    ensures Negotiate(server, h).Some? ==>
      var v := Negotiate(server, h).value; server.Speaks(v) && h.minVersion <= v <= h.maxVersion
  {
    if Negotiate(server, h).Some? { assert server.Speaks(Negotiate(server, h).value); }
  }

  /** Never claim a capability that the peer cannot use. */
  function Common(ours: Word32, theirs: Word32): Word32 { And(ours, theirs) }

  lemma CommonIsBoth(ours: Word32, theirs: Word32, i: nat)
    ensures Bit(Common(ours, theirs), i) <==> Bit(ours, i) && Bit(theirs, i)
  {
    AndBits(ours, theirs, i);
  }

  function HelloFrom(client: Build, agent: Bytes): HelloMsg
  {
    HelloMsg(agent, client.minVersion, client.maxVersion, client.caps)
  }

  // ------------------------------------------------------------------ the two halves, on bytes

  datatype Settled = Settled(version: Word16, peerCaps: Word32)

  /** What the server writes back for `input`, and what it settles on. */
  function ServerSide(c: Payloads, server: Build, agent: Bytes, session: Bytes, input: Bytes): (Result<Settled, ConnError>, Bytes)
  {
    match RecvFrame(server, input)
    case Err(e) => (Err(e), [])
    case Ok((f, _)) =>
      if f.header.msgType != Hello then Refuse(c, server, f, BAD_REQUEST, Unexpected(f.header.msgType))
      else match c.readHello(f.payload)
        case None => (Err(Codec), [])
        case Some(h) =>
          if !ValidHello(h) then Refuse(c, server, f, BAD_REQUEST, Invalid)
          else match Negotiate(server, h)
            case None => Refuse(c, server, f, VERSION_MISMATCH, BadFrame(UnsupportedVersion(h.maxVersion)))
            case Some(v) =>
              var ack := c.ack(AckMsg(agent, v, Common(server.caps, h.caps), session));
              match SendBytes(v, HelloAck, f.header.streamId, 0, ack)
              case Err(e) => (Err(e), [])
              case Ok(bytes) => (Ok(Settled(v, h.caps)), bytes)
  }

  function Refuse(c: Payloads, server: Build, f: Frame, code: Word16, why: ConnError): (Result<Settled, ConnError>, Bytes)
  {
    match SendBytes(server.maxVersion, Error, f.header.streamId, END_STREAM, c.error(ErrorMsg(code, [])))
    case Err(e) => (Err(e), [])
    case Ok(bytes) => (Err(why), bytes)
  }

  /** What the client makes of the reply. */
  function ClientSide(c: Payloads, client: Build, input: Bytes): Result<Settled, ConnError>
  {
    match RecvFrame(client, input)
    case Err(e) => Err(e)
    case Ok((f, _)) =>
      match f.header.msgType
      case HelloAck =>
        (match c.readAck(f.payload)
         case None => Err(Codec)
         case Some(a) => if !client.Speaks(a.version) then Err(BadFrame(UnsupportedVersion(a.version))) else Ok(Settled(a.version, a.caps)))
      case Error =>
        (match c.readError(f.payload)
         case None => Err(Codec)
         case Some(e) => Err(Peer(e.code)))
      case other => Err(Unexpected(other))
  }

  /** What keeps a hello from being answered: an agent name over the limit, or an ack that is too
      large for a frame. */
  ghost predicate Fitting(c: Payloads, client: Build, server: Build, clientAgent: Bytes, serverAgent: Bytes, session: Bytes)
  {
    && |clientAgent| <= MAX_AGENT_LEN
    && |c.ack(AckMsg(serverAgent, client.maxVersion, Common(server.caps, client.caps), session))| <= MAX_PAYLOAD
  }

  /** The client settled, the server settled, and both hold the same version of both ranges; the
      client's view of the peer is what both can use. */
  ghost predicate Agreed(client: Build, server: Build, atClient: Result<Settled, ConnError>, atServer: Result<Settled, ConnError>)
  {
    && atClient.Ok? && atServer.Ok?
    && atClient.value.version == atServer.value.version
    && client.Speaks(atClient.value.version) && server.Speaks(atClient.value.version)
    && atClient.value.peerCaps == Common(server.caps, client.caps) && atServer.value.peerCaps == client.caps
  }

  lemma ServerAccepts(c: Payloads, server: Build, agent: Bytes, session: Bytes, input: Bytes, f: Frame, rest: Bytes, h: HelloMsg, v: Word16)
    requires RecvFrame(server, input) == Ok((f, rest)) && f.header.msgType == Hello && c.readHello(f.payload) == Some(h)
    requires ValidHello(h) && Negotiate(server, h) == Some(v)
    requires |c.ack(AckMsg(agent, v, Common(server.caps, h.caps), session))| <= MAX_PAYLOAD
    ensures var ack := c.ack(AckMsg(agent, v, Common(server.caps, h.caps), session));
            ServerSide(c, server, agent, session, input) ==
            (Ok(Settled(v, h.caps)), FrameBytes(Frame(Header(v, HelloAck, 0, f.header.streamId, |ack|), ack)))
  {
    hide FrameBytes, RecvFrame, Common, SendBytes, Negotiate, ValidHello;
    SendIsFrame(v, HelloAck, f.header.streamId, 0, c.ack(AckMsg(agent, v, Common(server.caps, h.caps), session)));
  }

  /** To the hello of any build, the server answers with the client's highest version if it
      speaks it. Otherwise the header is refused and nothing is sent back. */
  lemma ServerAnswers(c: Payloads, client: Build, server: Build, clientAgent: Bytes, serverAgent: Bytes, session: Bytes, streamId: nat)
    requires Faithful(c) && client.Ok() && server.Ok() && streamId < U32
    requires |c.hello(HelloFrom(client, clientAgent))| <= MAX_PAYLOAD
    ensures var hello := c.hello(HelloFrom(client, clientAgent));
            var v := client.maxVersion;
            var f := Frame(Header(v, Hello, 0, streamId, |hello|), hello);
            var ack := c.ack(AckMsg(serverAgent, v, Common(server.caps, client.caps), session));
            ServerSide(c, server, serverAgent, session, FrameBytes(f)) ==
              if !server.Speaks(v) then (Err(BadFrame(UnsupportedVersion(v))), [])
              else if |clientAgent| > MAX_AGENT_LEN then Refuse(c, server, f, BAD_REQUEST, Invalid)
              else if |ack| > MAX_PAYLOAD then (Err(TooLarge(|ack|)), [])
              else (Ok(Settled(v, client.caps)), FrameBytes(Frame(Header(v, HelloAck, 0, streamId, |ack|), ack)))
  {
    var hello := HelloFrom(client, clientAgent);
    var f := Frame(Header(client.maxVersion, Hello, 0, streamId, |c.hello(hello)|), c.hello(hello));
    assert FrameBytes(f) + [] == FrameBytes(f);
    if server.Speaks(client.maxVersion) {
      hide FrameBytes, RecvFrame, Common;
      RecvFirst(server, f, []);
      if Fitting(c, client, server, clientAgent, serverAgent, session) {
        hide ServerSide;
        ServerAccepts(c, server, serverAgent, session, FrameBytes(f), f, [], hello, client.maxVersion);
      } else {
        hide Refuse, HeaderBytes;
      }
    } else {
      hide FrameBytes, RecvFrame;
      RecvRefuses(server, f);
    }
  }

  /** A refused client fails, whether or not it can read why. */
  lemma RefusedFails(c: Payloads, client: Build, server: Build, f: Frame, code: Word16, why: ConnError)
    requires Faithful(c) && f.header.WellTyped()
    ensures ClientSide(c, client, Refuse(c, server, f, code, why).1).Err?
  {
    var e := c.error(ErrorMsg(code, []));
    if |e| > MAX_PAYLOAD {
      hide HeaderBytes, RecvFrame;
      EndOfStream(client);
    } else {
      var g := Frame(Header(server.maxVersion, Error, END_STREAM, f.header.streamId, |e|), e);
      SendIsFrame(server.maxVersion, Error, f.header.streamId, END_STREAM, e);
      assert FrameBytes(g) + [] == FrameBytes(g);
      hide FrameBytes, RecvFrame, SendBytes;
      if client.Speaks(server.maxVersion) { RecvFirst(client, g, []); } else { RecvRefuses(client, g); }
    }
  }

  lemma SendIsFrame(version: nat, m: MsgType, streamId: nat, flags: nat, payload: Bytes)
    requires |payload| <= MAX_PAYLOAD
    ensures SendBytes(version, m, streamId, flags, payload) ==
            Ok(FrameBytes(Frame(Header(version, m, flags, streamId, |payload|), payload)))
  {
    hide HeaderBytes;
  }

  lemma RecvRefuses(build: Build, f: Frame)
    requires f.header.WellTyped() && !build.Speaks(f.header.version)
    ensures RecvFrame(build, FrameBytes(f)) == Err(BadFrame(UnsupportedVersion(f.header.version)))
  {
    hide HeaderBytes, DecodeHeader;
    HeaderRoundTrip(build, f.header);
    assert FrameBytes(f)[..HEADER_LEN] == HeaderBytes(f.header);
  }

  /** Two builds complete the handshake exactly when the server speaks the client's highest
      version, which is then the version both hold, and the messages are within their limits. */
  lemma HandshakeAgreement(c: Payloads, client: Build, server: Build, clientAgent: Bytes, serverAgent: Bytes, session: Bytes, streamId: nat)
    requires Faithful(c) && client.Ok() && server.Ok() && streamId < U32
    ensures var hello := SendBytes(client.maxVersion, Hello, streamId, 0, c.hello(HelloFrom(client, clientAgent)));
            hello.Ok? ==>
              var (atServer, reply) := ServerSide(c, server, serverAgent, session, hello.value);
              var atClient := ClientSide(c, client, reply);
              && (atClient.Ok? <==> server.Speaks(client.maxVersion) && Fitting(c, client, server, clientAgent, serverAgent, session))
              && (atClient.Ok? ==> Agreed(client, server, atClient, atServer) && atClient.value.version == client.maxVersion)
  {
    var hello := c.hello(HelloFrom(client, clientAgent));
    if |hello| <= MAX_PAYLOAD {
      hide FrameBytes, HeaderBytes, RecvFrame, ServerSide, Common, SendBytes, Refuse;
      SendIsFrame(client.maxVersion, Hello, streamId, 0, hello);
      ServerAnswers(c, client, server, clientAgent, serverAgent, session, streamId);
      var v := client.maxVersion;
      var ack := c.ack(AckMsg(serverAgent, v, Common(server.caps, client.caps), session));
      EndOfStream(client);
      if server.Speaks(v) && |clientAgent| > MAX_AGENT_LEN {
        RefusedFails(c, client, server, Frame(Header(v, Hello, 0, streamId, |hello|), hello), BAD_REQUEST, Invalid);
      } else if server.Speaks(v) && |ack| <= MAX_PAYLOAD {
        var f := Frame(Header(v, HelloAck, 0, streamId, |ack|), ack);
        assert FrameBytes(f) + [] == FrameBytes(f);
        RecvFirst(client, f, []);
      }
    }
  }

  /** So a client that is newer than the server is refused even where the two ranges overlap and
      the server would have had a version to pick. */
  lemma NewerClientIsRefused(c: Payloads, client: Build, server: Build, clientAgent: Bytes, serverAgent: Bytes, session: Bytes, streamId: nat)
    requires Faithful(c) && client.Ok() && server.Ok() && streamId < U32
    requires client.minVersion <= server.maxVersion < client.maxVersion
    ensures Negotiate(server, HelloFrom(client, clientAgent)) == Some(server.maxVersion)
    ensures var hello := SendBytes(client.maxVersion, Hello, streamId, 0, c.hello(HelloFrom(client, clientAgent)));
            hello.Ok? ==> ClientSide(c, client, ServerSide(c, server, serverAgent, session, hello.value).1).Err?
  {
    hide ServerSide, ClientSide;
    HandshakeAgreement(c, client, server, clientAgent, serverAgent, session, streamId);
  }

  // ------------------------------------------------------------------ refusals that are explained

  function ErrorFrame(c: Payloads, server: Build, streamId: nat, code: Word16): Frame
  {
    var e := c.error(ErrorMsg(code, []));
    Frame(Header(server.maxVersion, Error, 2, streamId, |e|), e)
  }

  /** What the server does with a first frame that it cannot accept: it says why on the same stream
      and fails, except for a payload that it cannot read. Code 2 is a bad request, and 6 a version
      mismatch. */
  lemma ServerRefuses(c: Payloads, server: Build, agent: Bytes, session: Bytes, input: Bytes, f: Frame, rest: Bytes)
    requires RecvFrame(server, input) == Ok((f, rest))
    requires |c.error(ErrorMsg(2, []))| <= MAX_PAYLOAD && |c.error(ErrorMsg(6, []))| <= MAX_PAYLOAD
    ensures var reply, h := ServerSide(c, server, agent, session, input), c.readHello(f.payload);
      && (f.header.msgType != Hello ==>
            reply == (Err(Unexpected(f.header.msgType)), FrameBytes(ErrorFrame(c, server, f.header.streamId, 2))))
      && (f.header.msgType == Hello && h.None? ==> reply == (Err(Codec), []))
      && (f.header.msgType == Hello && h.Some? && (|h.value.agent| > 128 || h.value.minVersion > h.value.maxVersion) ==>
            reply == (Err(Invalid), FrameBytes(ErrorFrame(c, server, f.header.streamId, 2))))
      && (f.header.msgType == Hello && h.Some? && |h.value.agent| <= 128 && h.value.minVersion <= h.value.maxVersion
          && (server.maxVersion < h.value.minVersion || h.value.maxVersion < server.minVersion) && server.Ok() ==>
            reply == (Err(BadFrame(UnsupportedVersion(h.value.maxVersion))), FrameBytes(ErrorFrame(c, server, f.header.streamId, 6))))
  {
    hide RecvFrame, FrameBytes, SendBytes, Common;
    SendIsFrame(server.maxVersion, Error, f.header.streamId, 2, c.error(ErrorMsg(2, [])));
    SendIsFrame(server.maxVersion, Error, f.header.streamId, 2, c.error(ErrorMsg(6, [])));
  }

  /** What the client makes of a reply that it can receive. */
  lemma ClientReads(c: Payloads, client: Build, f: Frame, rest: Bytes)
    requires Sendable(client, f)
    ensures var r, ack, e := ClientSide(c, client, FrameBytes(f) + rest), c.readAck(f.payload), c.readError(f.payload);
      && (r.Ok? <==> f.header.msgType == HelloAck && ack.Some? && client.minVersion <= ack.value.version <= client.maxVersion)
      && (r.Ok? ==> r.value == Settled(ack.value.version, ack.value.caps))
      && (f.header.msgType == HelloAck && ack.Some? && !client.Speaks(ack.value.version) ==>
            r == Err(BadFrame(UnsupportedVersion(ack.value.version))))
      && (f.header.msgType == Error && e.Some? ==> r == Err(Peer(e.value.code)))
      && (f.header.msgType != HelloAck && f.header.msgType != Error ==> r == Err(Unexpected(f.header.msgType)))
      && ((f.header.msgType == HelloAck && ack.None?) || (f.header.msgType == Error && e.None?) ==> r == Err(Codec))
  {
    hide FrameBytes, RecvFrame;
    RecvFirst(client, f, rest);
  }

  /** So a refused client that can read the server's frames learns the code. */
  lemma RefusedLearnsWhy(c: Payloads, client: Build, server: Build, streamId: nat, code: Word16)
    requires Faithful(c) && client.Speaks(server.maxVersion) && streamId < U32
    requires |c.error(ErrorMsg(code, []))| <= MAX_PAYLOAD
    ensures ClientSide(c, client, FrameBytes(ErrorFrame(c, server, streamId, code))) == Err(Peer(code))
  {
    var f := ErrorFrame(c, server, streamId, code);
    hide FrameBytes, ClientSide;
    ClientReads(c, client, f, []);
    assert FrameBytes(f) + [] == FrameBytes(f);
  }

  // ------------------------------------------------------------------ payloads exist

  /** A length that can be read off the front of a byte string. */
  function Unary(n: nat): (b: Bytes)
    ensures |b| == n + 1 && b[n] == 0 && forall i :: 0 <= i < n ==> b[i] == 1
  {
    seq(n, _ => 1) + [0]
  }

  function HelloBytes(m: HelloMsg): (b: Bytes)
    ensures |b| == 8 + |m.agent|
  {
    ToLE(m.minVersion, 2) + ToLE(m.maxVersion, 2) + ToLE(m.caps, 4) + m.agent
  }

  function AckBytes(m: AckMsg): (b: Bytes)
    ensures |b| == 7 + 2 * |m.agent| + |m.session|
  {
    Unary(|m.agent|) + ToLE(m.version, 2) + ToLE(m.caps, 4) + m.agent + m.session
  }

  function ErrorBytes(m: ErrorMsg): Bytes { ToLE(m.code, 2) + m.message }

  lemma HelloInjective(a: HelloMsg, b: HelloMsg)
    requires HelloBytes(a) == HelloBytes(b)
    ensures a == b
  {
    Pow256Values();
    forall m | m == a || m == b
      ensures FromLE(HelloBytes(m)[0..2]) == m.minVersion && FromLE(HelloBytes(m)[2..4]) == m.maxVersion
      ensures FromLE(HelloBytes(m)[4..8]) == m.caps && HelloBytes(m)[8..] == m.agent
    {
      var x := HelloBytes(m);
      assert x[0..2] == ToLE(m.minVersion, 2) && x[2..4] == ToLE(m.maxVersion, 2) && x[4..8] == ToLE(m.caps, 4);
      FromToLE(m.minVersion, 2);
      FromToLE(m.maxVersion, 2);
      FromToLE(m.caps, 4);
    }
  }

  lemma AckParts(m: AckMsg)
    ensures var b, n := AckBytes(m), |m.agent|;
            && b[..n + 1] == Unary(n)
            && FromLE(b[n + 1..n + 3]) == m.version && FromLE(b[n + 3..n + 7]) == m.caps
            && b[n + 7..2 * n + 7] == m.agent && b[2 * n + 7..] == m.session
  {
    Pow256Values();
    var b, n := AckBytes(m), |m.agent|;
    FromToLE(m.version, 2);
    FromToLE(m.caps, 4);
    hide FromLE, ToLE;
    assert b[..n + 1] == Unary(n);
    assert b[n + 1..n + 3] == ToLE(m.version, 2);
    assert b[n + 3..n + 7] == ToLE(m.caps, 4);
    assert b[n + 7..2 * n + 7] == m.agent;
    assert b[2 * n + 7..] == m.session;
  }

  /** The first zero tells the length of the agent name. */
  lemma SameAgentLength(b: Bytes, m: nat, n: nat)
    requires m < |b| && n < |b| && b[..m + 1] == Unary(m) && b[..n + 1] == Unary(n)
    ensures m == n
  {
    assert b[m] == b[..m + 1][m] && b[n] == b[..n + 1][n];
  }

  lemma AckInjective(a: AckMsg, b: AckMsg)
    requires AckBytes(a) == AckBytes(b)
    ensures a == b
  {
    AckParts(a);
    AckParts(b);
    hide AckBytes;
    SameAgentLength(AckBytes(a), |a.agent|, |b.agent|);
  }

  lemma ErrorInjective(a: ErrorMsg, b: ErrorMsg)
    requires ErrorBytes(a) == ErrorBytes(b)
    ensures a == b
  {
    Pow256Values();
    forall m | m == a || m == b ensures FromLE(ErrorBytes(m)[0..2]) == m.code && ErrorBytes(m)[2..] == m.message {
      assert ErrorBytes(m)[0..2] == ToLE(m.code, 2);
      FromToLE(m.code, 2);
    }
  }

  /** A reader for any injective writer. */
  ghost function Reader<M(!new)>(write: M -> Bytes): (read: Bytes -> Option<M>)
    requires forall a, b :: write(a) == write(b) ==> a == b
    ensures forall m :: read(write(m)) == Some(m)
  {
    (b: Bytes) => if exists m: M :: write(m) == b then var m: M :| write(m) == b; Some(m) else None
  }

  /** There are faithful payloads under which messages with ordinary strings fit, so the
      agreement theorem speaks of every pair of builds. */
  lemma FaithfulPayloadsExist(client: Build, server: Build, clientAgent: Bytes, serverAgent: Bytes, session: Bytes)
    returns (c: Payloads)
    requires |clientAgent| <= MAX_AGENT_LEN && |serverAgent| <= MAX_AGENT_LEN && |session| <= 1000000
    ensures Faithful(c) && |c.hello(HelloFrom(client, clientAgent))| <= MAX_PAYLOAD
    ensures Fitting(c, client, server, clientAgent, serverAgent, session)
  {
    forall a, b ensures HelloBytes(a) == HelloBytes(b) ==> a == b { if HelloBytes(a) == HelloBytes(b) { HelloInjective(a, b); } }
    forall a, b ensures AckBytes(a) == AckBytes(b) ==> a == b { if AckBytes(a) == AckBytes(b) { AckInjective(a, b); } }
    forall a, b ensures ErrorBytes(a) == ErrorBytes(b) ==> a == b { if ErrorBytes(a) == ErrorBytes(b) { ErrorInjective(a, b); } }
    c := Payloads(HelloBytes, AckBytes, ErrorBytes, Reader(HelloBytes), Reader(AckBytes), Reader(ErrorBytes));
  }

  // ------------------------------------------------------------------ the connection object

  class JrpConn {
    const build: Build
    const clientSide: bool
    var version: Word16
    var peerCaps: Word32
    var nextStreamId: nat
    var inbound: Bytes
    var outbound: Bytes
    ghost var drawn: nat

    ghost predicate Valid()
      reads this
    {
      build.Ok() && nextStreamId == NthId(clientSide, drawn)
    }

    constructor (build: Build, clientSide: bool)
      requires build.Ok()
      ensures Valid() && this.build == build && this.clientSide == clientSide
      ensures version == build.maxVersion && drawn == 0 && inbound == [] && outbound == [] && peerCaps == 0
      ensures nextStreamId == if clientSide then 1 else 2
    {
      this.build, this.clientSide := build, clientSide;
      version, peerCaps, nextStreamId := build.maxVersion, 0, FirstId(clientSide);
      inbound, outbound, drawn := [], [], 0;
    }

    /** The `n`th call returns the `n`th id of this side. */
    method NextStream() returns (id: nat)
      requires Valid()
      modifies this`nextStreamId, this`drawn
      ensures Valid() && id == NthId(clientSide, old(drawn)) && drawn == old(drawn) + 1
    {
      id := nextStreamId;
      nextStreamId := NextId(clientSide, nextStreamId);
      drawn := drawn + 1;
    }

    method Send(m: MsgType, streamId: nat, payload: Bytes, flags: nat) returns (r: Result<(), ConnError>)
      requires Valid()
      modifies this`outbound
      ensures match SendBytes(version, m, streamId, flags, payload)
              case Ok(bytes) => r.Ok? && outbound == old(outbound) + bytes
              case Err(e) => r == Err(e) && outbound == old(outbound)
    {
      if |payload| > MAX_PAYLOAD { return Err(TooLarge(|payload|)); }
      var header := EncodeHeader(Header(version, m, flags, streamId, |payload|));
      outbound := outbound + (header[..] + payload);
      return Ok(());
    }

    method Recv() returns (r: Result<Frame, ConnError>)
      requires Valid()
      modifies this`inbound
      ensures match RecvFrame(build, old(inbound))
              case Ok((f, rest)) => r == Ok(f) && inbound == rest && |f.payload| <= MAX_PAYLOAD
              case Err(e) => r == Err(e)
    {
      if |inbound| < HEADER_LEN { return Err(Io); }
      var header := DecodeHeader(build, inbound[..HEADER_LEN]);
      inbound := inbound[HEADER_LEN..];
      if header.Err? { return Err(BadFrame(header.error)); }
      var len := header.value.payloadLen;
      if |inbound| < len { return Err(Io); }
      var payload := inbound[..len];
      inbound := inbound[len..];
      return Ok(Frame(header.value, payload));
    }

    /** Tell the peer why, then fail for that reason. */
    method SendError(c: Payloads, f: Frame, code: Word16, why: ConnError) returns (r: Result<(), ConnError>)
      requires Valid() && version == build.maxVersion
      modifies this`outbound
      ensures var (settled, reply) := Refuse(c, build, f, code, why);
              settled.Err? && r == Err(settled.error) && outbound == old(outbound) + reply
    {
      hide SendBytes;
      var _ :- Send(Error, f.header.streamId, c.error(ErrorMsg(code, [])), END_STREAM);
      return Err(why);
    }

    /** The server half of the handshake. */
    method ServerHandshake(c: Payloads, agent: Bytes, session: Bytes) returns (r: Result<(), ConnError>)
      requires Valid() && version == build.maxVersion
      modifies this`inbound, this`outbound, this`version, this`peerCaps
      ensures var (settled, reply) := ServerSide(c, build, agent, session, old(inbound));
              && outbound == old(outbound) + reply
              && (if settled.Ok? then r.Ok? && version == settled.value.version && peerCaps == settled.value.peerCaps
                  else r == Err(settled.error))
      ensures r.Ok? ==> Valid()
    {
      hide RecvFrame, SendBytes, NthId, Common;
      var f :- Recv();
      if f.header.msgType != Hello {
        r := SendError(c, f, BAD_REQUEST, Unexpected(f.header.msgType));
        return;
      }
      var hello := c.readHello(f.payload);
      if hello.None? { return Err(Codec); }
      if !ValidHello(hello.value) {
        r := SendError(c, f, BAD_REQUEST, Invalid);
        return;
      }
      var h := hello.value;
      var negotiated := if build.maxVersion < h.maxVersion then build.maxVersion else h.maxVersion;
      if negotiated < build.minVersion || negotiated < h.minVersion {
        r := SendError(c, f, VERSION_MISMATCH, BadFrame(UnsupportedVersion(h.maxVersion)));
        return;
      }
      version, peerCaps := negotiated, h.caps;
      r := Send(HelloAck, f.header.streamId, c.ack(AckMsg(agent, negotiated, Common(build.caps, h.caps), session)), 0);
    }

    /** The client half up to the point where it waits for the reply. */
    method SendHello(c: Payloads, agent: Bytes) returns (r: Result<(), ConnError>)
      requires Valid() && version == build.maxVersion
      modifies this`nextStreamId, this`drawn, this`outbound
      ensures Valid() && drawn == old(drawn) + 1
      ensures match SendBytes(version, Hello, NthId(clientSide, old(drawn)), 0, c.hello(HelloFrom(build, agent)))
              case Ok(bytes) => r.Ok? && outbound == old(outbound) + bytes
              case Err(e) => r == Err(e) && outbound == old(outbound)
    {
      var id := NextStream();
      r := Send(Hello, id, c.hello(HelloMsg(agent, build.minVersion, build.maxVersion, build.caps)), 0);
    }

    /** The client half from the reply on. */
    method ReceiveAck(c: Payloads) returns (r: Result<(), ConnError>)
      requires Valid()
      modifies this`inbound, this`version, this`peerCaps
      ensures match ClientSide(c, build, old(inbound))
              case Ok(settled) => r.Ok? && version == settled.version && peerCaps == settled.peerCaps
              case Err(e) => r == Err(e) && version == old(version)
      ensures Valid()
    {
      hide RecvFrame, NthId;
      var f :- Recv();
      if f.header.msgType == HelloAck {
        var ack := c.readAck(f.payload);
        if ack.None? { return Err(Codec); }
        if ack.value.version < build.minVersion || ack.value.version > build.maxVersion {
          return Err(BadFrame(UnsupportedVersion(ack.value.version)));
        }
        version, peerCaps := ack.value.version, ack.value.caps;
        return Ok(());
      } else if f.header.msgType == Error {
        var e := c.readError(f.payload);
        if e.None? { return Err(Codec); }
        return Err(Peer(e.value.code));
      }
      return Err(Unexpected(f.header.msgType));
    }
  }
}
