/**
 The Provider's side of one connection: HELLO, CHALLENGE, AUTH, ACCEPT, then
 authenticated requests. What the authorization registry and the clock answer is
 given with each frame; the authentication tag is checked by the registry.
 */
module ProviderSession {
  import opened Options
  import opened WireBytes
  import opened Wire
  import opened WireRoundTrip

  datatype Phase = WaitHello | WaitAuth | Ready | Closed

  datatype Session = Session(
    phase: Phase, localMinor: U16, minor: U16, supported: U64, required: U64, capabilities: U64,
    sessionId: U64, lastRequestId: U64, until: U64, version: U64, deadline: U32, lastError: U16,
    mode: U8, pool: U8, nonce: Block, consumer: Text, keyId: Text, helloFrame: Bytes, challengeFrame: Bytes)

  function Init(localMinor: U16, supported: U64, required: U64, nonce: Block, sessionId: U64): Session {
    Session(WaitHello, localMinor, localMinor, supported, required, supported, sessionId, 0, 0, 0, 0, 0, 0, 0, nonce,
            [], [], [], [])
  }

  // Parameters the daemon may set a session up with.
  predicate ParametersValid(localMinor: U16, required: U64, sessionId: U64) {
    MinorValid(localMinor) && BitsWithin(required, CAPABILITIES_KNOWN) && sessionId != 0
  }

  const ERROR_MALFORMED: U16 := 1
  const ERROR_VERSION: U16 := 2
  const ERROR_CAPABILITY: U16 := 3
  const ERROR_OUT_OF_ORDER: U16 := 4
  const ERROR_AUTHENTICATION: U16 := 5
  const ERROR_REPLAY: U16 := 6
  const ERROR_REVOKED: U16 := 7
  const ERROR_RESOURCE: U16 := 8

  datatype Verdict = Verified(until: U64, version: U64) | Revoked | Denied

  // What the registry and the clock answer while one frame is handled. A clock that cannot be read gives no time.
  datatype Answers = Answers(
    verify: (Text, Text, Bytes, Bytes, Block) -> Verdict, validate: (Text, U64) -> Verdict, now: Option<nat>)

  datatype Outcome =
    | Handled(response: Option<Bytes>, request: Option<Message>, close: bool)
    | Failed

  // ------------------------------------------------------------------- rejection

  function ErrorMessage(s: Session, requestId: U64, offending: U16, code: U16): Message {
    Message(Header(MAJOR, s.minor, FLAGS_KNOWN, if requestId == 0 then 1 else requestId,
                   if s.phase.Ready? then s.sessionId else 0, s.capabilities, BitAnd(s.required, s.capabilities)),
            Error(code, offending, if code == ERROR_RESOURCE then 1 else 0))
  }

  function Reject(s: Session, requestId: U64, offending: U16, code: U16, capacity: nat): (Session, Outcome) {
    match Encode(ErrorMessage(s, requestId, offending, code), capacity)
    case EncodeFault(_) => (s, Failed)
    case Frame(bytes) => (s.(phase := Closed, lastError := code), Handled(Some(bytes), None, true))
  }

  const ERROR_TYPE: U16 := 13

  // The type and request number of a frame that could not be decoded.
  function FrameType(f: Bytes): U16 { if |f| < 10 then 1 else Get16(f, 8) }
  function FrameRequest(f: Bytes): U64 { if |f| < 24 || Get64(f, 16) == 0 then 1 else Get64(f, 16) }

  function ErrorFor(fault: Fault): U16 {
    match fault
    case UnsupportedVersion => ERROR_VERSION
    case UnknownRequiredCapability => ERROR_CAPABILITY
    case InvalidCapabilities => ERROR_CAPABILITY
    case _ => ERROR_MALFORMED
  }

  // ------------------------------------------------------------------- handshake

  predicate Bit(n: nat, mask: nat)
    requires mask > 0
  {
    n / mask % 2 == 1
  }

  predicate HelloSupported(p: Payload, capabilities: U64)
    requires p.Hello?
  {
    && !(p.mode == MODE_BACKED && p.pool != POOL_OPPORTUNISTIC)
    && !(p.mode == MODE_REMOTE_ONLY && p.pool != POOL_COMMITTED)
    && Bit(capabilities, if p.mode == MODE_BACKED then 0x01 else 0x02)
    && Bit(capabilities, if p.pool == POOL_OPPORTUNISTIC then 0x04 else 0x08)
    && Bit(capabilities, 0x10) && Bit(capabilities, 0x20) && Bit(capabilities, 0x40)
  }

  function ChallengeMessage(s: Session, requestId: U64): Message {
    Message(Header(MAJOR, s.minor, FLAG_RESPONSE, requestId, 0, s.capabilities, s.required), Challenge(s.nonce, s.minor))
  }

  function HandleHello(s: Session, m: Message, f: Bytes, capacity: nat): (Session, Outcome)
    requires m.payload.Hello?
  {
    var p := m.payload;
    var agreement := Negotiate(s.localMinor, s.supported, s.required, m.header.minor, m.header.capabilities, m.header.required);
    var t := if agreement.Agreed? then s.(minor := agreement.minor, capabilities := agreement.capabilities) else s;
    if !agreement.Agreed? || !HelloSupported(p, t.capabilities) then Reject(t, m.header.requestId, 1, ERROR_CAPABILITY, capacity)
    else
      var u := t.(helloFrame := f, consumer := p.consumer, keyId := p.keyId, mode := p.mode, pool := p.pool,
                  deadline := p.deadline, lastRequestId := m.header.requestId);
      match Encode(ChallengeMessage(u, m.header.requestId), capacity)
      case EncodeFault(_) => (u, Failed)
      case Frame(bytes) => (u.(challengeFrame := bytes, phase := WaitAuth), Handled(Some(bytes), None, false))
  }

  function AcceptMessage(s: Session, requestId: U64): Message {
    Message(Header(MAJOR, s.minor, FLAG_RESPONSE, requestId, s.sessionId, s.capabilities, s.required), Accept(s.minor))
  }

  function HandleAuth(s: Session, m: Message, a: Answers, capacity: nat): (Session, Outcome)
    requires m.payload.Auth?
  {
    var id := m.header.requestId;
    if id <= s.lastRequestId then Reject(s, id, 3, ERROR_REPLAY, capacity)
    else if m.header.minor != s.minor || m.header.capabilities != s.capabilities then Reject(s, id, 3, ERROR_CAPABILITY, capacity)
    else
      match a.verify(s.consumer, s.keyId, s.helloFrame, s.challengeFrame, m.payload.tag)
      case Revoked => Reject(s, id, 3, ERROR_REVOKED, capacity)
      case Denied => Reject(s, id, 3, ERROR_AUTHENTICATION, capacity)
      case Verified(until, version) =>
        var t := s.(until := until, version := version, lastRequestId := id, phase := Ready);
        match Encode(AcceptMessage(t, id), capacity)
        case EncodeFault(_) => (t, Failed)
        case Frame(bytes) => (t, Handled(Some(bytes), None, false))
  }

  // ------------------------------------------------------------------- requests

  predicate IsResponse(h: Header) { h.flags % 2 == 1 }

  predicate Allowed(m: Message) {
    if IsResponse(m.header) then m.payload.Activity? || m.payload.Release?
    else m.payload.StatusRequest? || m.payload.ChunkRequest? || m.payload.Goodbye?
  }

  predicate Expired(s: Session, now: Option<nat>) { s.until != 0 && (now.None? || now.value >= s.until) }

  function RequestFault(s: Session, m: Message, a: Answers): Option<U16> {
    var h := m.header;
    if !IsResponse(h) && h.requestId <= s.lastRequestId then Some(ERROR_REPLAY)
    else if h.sessionId != s.sessionId || h.minor != s.minor || h.capabilities != s.capabilities then Some(ERROR_CAPABILITY)
    else if Expired(s, a.now) then Some(ERROR_AUTHENTICATION)
    else if a.validate(s.consumer, s.version).Revoked? then Some(ERROR_REVOKED)
    else if !a.validate(s.consumer, s.version).Verified? then Some(ERROR_AUTHENTICATION)
    else if !Allowed(m) then Some(ERROR_OUT_OF_ORDER)
    else if m.payload.StatusRequest? && !Bit(s.capabilities, 0x20) then Some(ERROR_CAPABILITY)
    else if m.payload.ChunkRequest? && m.payload.pool != s.pool then Some(ERROR_CAPABILITY)
    else None
  }

  function HandleRequest(s: Session, m: Message, a: Answers, capacity: nat): (Session, Outcome) {
    match RequestFault(s, m, a)
    case Some(code) => Reject(s, m.header.requestId, TypeOf(m.payload), code, capacity)
    case None =>
      (if IsResponse(m.header) then s else s.(lastRequestId := m.header.requestId), Handled(None, Some(m), false))
  }

  function Handle(s: Session, f: Bytes, a: Answers, capacity: nat): (Session, Outcome) {
    if s.sessionId == 0 || capacity == 0 then (s, Failed)
    else
      match Decode(f)
      case DecodeFault(fault) =>
        if FrameType(f) == ERROR_TYPE then (s.(phase := Closed), Handled(None, None, true))
        else Reject(s, FrameRequest(f), FrameType(f), ErrorFor(fault), capacity)
      case Heard(m) =>
        if m.payload.Error? then
          (s.(phase := Closed), Handled(None, if s.phase.Ready? then Some(m) else None, true))
        else
          match s.phase
          case WaitHello =>
            if !m.payload.Hello? || m.header.flags != 0
            then Reject(s, m.header.requestId, TypeOf(m.payload), ERROR_OUT_OF_ORDER, capacity)
            else HandleHello(s, m, f, capacity)
          case WaitAuth =>
            if !m.payload.Auth? || m.header.flags != 0
            then Reject(s, m.header.requestId, TypeOf(m.payload), ERROR_OUT_OF_ORDER, capacity)
            else HandleAuth(s, m, a, capacity)
          case Ready => HandleRequest(s, m, a, capacity)
          case Closed => Reject(s, m.header.requestId, TypeOf(m.payload), ERROR_OUT_OF_ORDER, capacity)
  }

  // ------------------------------------------------------------------- invariant

  ghost predicate Inv(s: Session) {
    && MinorValid(s.localMinor) && MinorValid(s.minor) && BitsWithin(s.required, CAPABILITIES_KNOWN) && s.sessionId != 0
    && (s.phase.WaitAuth? || s.phase.Ready? ==> BitsWithin(s.required, s.capabilities))
    && (s.phase.WaitHello? ==> s.lastRequestId == 0)
  }

  lemma InitInv(localMinor: U16, supported: U64, required: U64, nonce: Block, sessionId: U64)
    requires ParametersValid(localMinor, required, sessionId)
    ensures Inv(Init(localMinor, supported, required, nonce, sessionId))
  {}

  lemma {:induction false} WithinTransitive(a: nat, b: nat, c: nat)
    requires BitsWithin(a, b) && BitsWithin(b, c)
    ensures BitsWithin(a, c)
    decreases a
  {
    if a != 0 {
      if b == 0 { NothingWithinZero(a); } else { WithinTransitive(a / 2, b / 2, c / 2); }
    }
  }

  // The refusal itself: an ERROR frame that the peer decodes to what was meant.
  ghost predicate RejectedWith(s: Session, t: Session, o: Outcome) {
    && t.phase.Closed? && o.Handled? && o.response.Some? && o.request.None? && o.close
    && Decode(o.response.value).Heard?
    && var m := Decode(o.response.value).message;
       m.payload.Error? && m.payload.code == t.lastError && m.header.minor == s.minor
  }

  lemma RejectSpeaks(s: Session, requestId: U64, offending: U16, code: U16, capacity: nat)
    requires Inv(s) && 1 <= code <= 9 && capacity >= MAX_FRAME_SIZE
    ensures var (t, o) := Reject(s, requestId, offending, code, capacity);
      && RejectedWith(s, t, o) && t == s.(phase := Closed, lastError := code)
      && Decode(o.response.value) == Heard(ErrorMessage(s, requestId, offending, code))
  {
    hide HeaderBytes, BitsWithin, BitAnd, Decode, Encode;
    var m := ErrorMessage(s, requestId, offending, code);
    AndWithin(s.required, s.capabilities);
    WithinTransitive(BitAnd(s.required, s.capabilities), s.required, CAPABILITIES_KNOWN);
    KnownFlags();
    EncodeSucceeds(m, capacity);
    EncodeThenDecode(m, capacity);
  }

  lemma KnownFlags()
    ensures BitsWithin(FLAGS_KNOWN, FLAGS_KNOWN) && BitsWithin(FLAG_RESPONSE, FLAGS_KNOWN) && BitsWithin(0, FLAGS_KNOWN)
  {
    assert BitsWithin(1, 1);
  }

  lemma EncodeSucceeds(m: Message, capacity: nat)
    requires HeaderFault(m.header, TypeOf(m.payload)).None? && PayloadValid(m.payload) && capacity >= MAX_FRAME_SIZE
    ensures Encode(m, capacity).Frame?
  {
    hide HeaderBytes, PayloadBytes, HeaderFault, PayloadValid;
    PayloadFits(m.payload);
  }

  lemma ChallengeSpeaks(s: Session, requestId: U64, capacity: nat)
    requires MinorValid(s.minor) && BitsWithin(s.required, CAPABILITIES_KNOWN) && BitsWithin(s.required, s.capabilities)
    requires requestId != 0 && capacity >= MAX_FRAME_SIZE
    ensures Encode(ChallengeMessage(s, requestId), capacity).Frame?
    ensures s.sessionId != 0 ==> Encode(AcceptMessage(s, requestId), capacity).Frame?
  {
    hide BitsWithin, Encode;
    KnownFlags();
    EncodeSucceeds(ChallengeMessage(s, requestId), capacity);
    if s.sessionId != 0 { EncodeSucceeds(AcceptMessage(s, requestId), capacity); }
  }

  // ------------------------------------------------------------------- one frame

  // What handling a frame keeps, and the kinds of answer it can give.
  ghost predicate Steps(s: Session, t: Session, o: Outcome) {
    && Inv(t) && o.Handled? && t.sessionId == s.sessionId && s.lastRequestId <= t.lastRequestId
    && (s.phase.Closed? ==> t.phase.Closed? && o.request.None?)
    && (t.phase.Closed? && !s.phase.Closed? ==> o.close) && (o.close ==> t.phase.Closed?)
    && (o.response.Some? ==> Decode(o.response.value).Heard?)
    && (o.response.Some? && t.phase.Closed? ==> RejectedWith(t, t, o))
  }

  lemma RejectSteps(s: Session, requestId: U64, offending: U16, code: U16, capacity: nat)
    requires Inv(s) && 1 <= code <= 9 && capacity >= MAX_FRAME_SIZE
    ensures var (t, o) := Reject(s, requestId, offending, code, capacity); Steps(s, t, o) && t.phase.Closed?
  {
    hide Reject, BitsWithin, Decode;
    RejectSpeaks(s, requestId, offending, code, capacity);
  }

  lemma HelloSteps(s: Session, m: Message, f: Bytes, capacity: nat)
    requires Inv(s) && s.phase.WaitHello? && s.lastRequestId == 0 && m.payload.Hello? && m.header.requestId != 0
    requires capacity >= MAX_FRAME_SIZE
    ensures var (t, o) := HandleHello(s, m, f, capacity);
      && Steps(s, t, o)
      && (t.phase.WaitAuth? ==>
            && t.helloFrame == f && t.consumer == m.payload.consumer && t.keyId == m.payload.keyId
            && t.pool == m.payload.pool && o.response == Some(t.challengeFrame))
      && !t.phase.Ready?
  {
    hide BitsWithin, Decode, Encode, Negotiate, Reject, HelloSupported;
    var h := m.header;
    var agreement := Negotiate(s.localMinor, s.supported, s.required, h.minor, h.capabilities, h.required);
    AgreementKeeps(s, h);
    var t := if agreement.Agreed? then s.(minor := agreement.minor, capabilities := agreement.capabilities) else s;
    RejectSpeaks(t, h.requestId, 1, ERROR_CAPABILITY, capacity);
    if agreement.Agreed? && HelloSupported(m.payload, t.capabilities) {
      var u := t.(helloFrame := f, consumer := m.payload.consumer, keyId := m.payload.keyId, mode := m.payload.mode,
                  pool := m.payload.pool, deadline := m.payload.deadline, lastRequestId := h.requestId);
      ChallengeSpeaks(u, h.requestId, capacity);
      EncodeThenDecode(ChallengeMessage(u, h.requestId), capacity);
    }
  }

  lemma AgreementKeeps(s: Session, h: Header)
    requires Inv(s)
    ensures var r := Negotiate(s.localMinor, s.supported, s.required, h.minor, h.capabilities, h.required);
      r.Agreed? ==> MinorValid(r.minor) && BitsWithin(s.required, r.capabilities)
  {
    hide BitsWithin, BitAnd, BitOr;
    NegotiationMeets(s.localMinor, s.supported, s.required, h.minor, h.capabilities, h.required);
    OrWithin(s.required, h.required, BitAnd(s.supported, h.capabilities));
  }

  lemma AuthSteps(s: Session, m: Message, a: Answers, capacity: nat)
    requires Inv(s) && s.phase.WaitAuth? && m.payload.Auth? && m.header.requestId != 0 && capacity >= MAX_FRAME_SIZE
    ensures var (t, o) := HandleAuth(s, m, a, capacity);
      && Steps(s, t, o)
      && (t.phase.Ready? ==>
            a.verify(s.consumer, s.keyId, s.helloFrame, s.challengeFrame, m.payload.tag) == Verified(t.until, t.version))
      && (t.phase.Ready? ==> t.pool == s.pool && t.helloFrame == s.helloFrame && t.challengeFrame == s.challengeFrame)
      && (t.phase.Ready? || t.phase.Closed?) && o.request.None?
  {
    hide BitsWithin, Decode, Encode, Reject;
    var id := m.header.requestId;
    RejectSteps(s, id, 3, ERROR_REPLAY, capacity);
    RejectSteps(s, id, 3, ERROR_CAPABILITY, capacity);
    RejectSteps(s, id, 3, ERROR_REVOKED, capacity);
    RejectSteps(s, id, 3, ERROR_AUTHENTICATION, capacity);
    RejectShape(s, id, 3, capacity);
    var verdict := a.verify(s.consumer, s.keyId, s.helloFrame, s.challengeFrame, m.payload.tag);
    if verdict.Verified? {
      var t := s.(until := verdict.until, version := verdict.version, lastRequestId := id, phase := Ready);
      ChallengeSpeaks(t, id, capacity);
      EncodeThenDecode(AcceptMessage(t, id), capacity);
    }
  }

  lemma RejectShape(s: Session, requestId: U64, offending: U16, capacity: nat)
    ensures forall code :: var (t, o) := Reject(s, requestId, offending, code, capacity);
      (o.Failed? || (o.request.None? && o.response.Some?))
  {
    hide Encode;
  }

  lemma RequestSteps(s: Session, m: Message, a: Answers, capacity: nat)
    requires Inv(s) && s.phase.Ready? && capacity >= MAX_FRAME_SIZE
    ensures var (t, o) := HandleRequest(s, m, a, capacity);
      && Steps(s, t, o)
      && (t.phase.Ready? ==> t == s.(lastRequestId := t.lastRequestId))
      && (o.request.Some? ==>
            && o.request.value == m && Allowed(m) && a.validate(s.consumer, s.version).Verified? && !Expired(s, a.now)
            && (!IsResponse(m.header) ==> s.lastRequestId < m.header.requestId == t.lastRequestId)
            && (m.payload.ChunkRequest? ==> m.payload.pool == s.pool))
      && (t.phase.Ready? || t.phase.Closed?) && (t.phase.Closed? ==> o.response.Some?)
  {
    hide BitsWithin, Decode, Encode, Reject, Allowed, Bit;
    var fault := RequestFault(s, m, a);
    if fault.Some? {
      RejectSteps(s, m.header.requestId, TypeOf(m.payload), fault.value, capacity);
      RejectShape(s, m.header.requestId, TypeOf(m.payload), capacity);
    }
  }

  // A request handed to the daemon: heard in an authenticated session, and either the peer's ERROR or an allowed message
  // under an authorization that is still valid, with a new request number and the pool asked for in the HELLO.
  ghost predicate Delivers(s: Session, t: Session, f: Bytes, a: Answers, m: Message) {
    && s.phase.Ready? && Decode(f) == Heard(m)
    && (!m.payload.Error? ==>
          && Allowed(m) && a.validate(s.consumer, s.version).Verified? && !Expired(s, a.now)
          && (!IsResponse(m.header) ==> s.lastRequestId < m.header.requestId == t.lastRequestId)
          && (m.payload.ChunkRequest? ==> m.payload.pool == s.pool))
  }

  // What the handshake has fixed for the session.
  ghost predicate SameHandshake(s: Session, t: Session) {
    && t.pool == s.pool && t.consumer == s.consumer && t.keyId == s.keyId
    && t.helloFrame == s.helloFrame && t.challengeFrame == s.challengeFrame
  }

  ghost predicate HelloStep(s: Session, t: Session, f: Bytes, o: Outcome) {
    && s.phase.WaitHello? && Decode(f).Heard? && Decode(f).message.payload.Hello?
    && var p := Decode(f).message.payload;
       && t.helloFrame == f && t.consumer == p.consumer && t.keyId == p.keyId && t.pool == p.pool
       && o.Handled? && o.response == Some(t.challengeFrame)
  }

  // The registry verifies an AUTH against the session's HELLO and CHALLENGE, and the session keeps what it answers.
  ghost predicate AuthStep(s: Session, f: Bytes, a: Answers, version: U64, until: U64) {
    && s.phase.WaitAuth? && Decode(f).Heard? && Decode(f).message.payload.Auth?
    && a.verify(s.consumer, s.keyId, s.helloFrame, s.challengeFrame, Decode(f).message.payload.tag) == Verified(until, version)
  }

  // Every way a frame can move the session.
  ghost predicate Moves(s: Session, t: Session, f: Bytes, a: Answers, o: Outcome) {
    && Steps(s, t, o)
    && (o.Handled? && o.request.Some? ==> Delivers(s, t, f, a, o.request.value))
    && (t.phase.WaitAuth? ==> HelloStep(s, t, f, o))
    && (t.phase.Ready? ==>
          && SameHandshake(s, t)
          && ((s.phase.Ready? && t.version == s.version && t.until == s.until) || AuthStep(s, f, a, t.version, t.until)))
    && !t.phase.WaitHello? && (t.phase.Closed? ==> (o.response.None? <==> FrameType(f) == ERROR_TYPE))
  }

  lemma HeardRequest(f: Bytes)
    requires Decode(f).Heard?
    ensures Decode(f).message.header.requestId != 0
    ensures FrameType(f) == TypeOf(Decode(f).message.payload)
    ensures FrameType(f) == ERROR_TYPE <==> Decode(f).message.payload.Error?
  {
    hide HeaderFrom, ParsePayload, Get16, Get32, BitsWithin, PayloadBytes, ZeroInIdentifiers;
    PayloadWrites(Get16(f, 8), f[HEADER_SIZE..]);
  }

  lemma RejectMoves(s: Session, requestId: U64, offending: U16, code: U16, f: Bytes, a: Answers, capacity: nat)
    requires Inv(s) && 1 <= code <= 9 && capacity >= MAX_FRAME_SIZE && FrameType(f) != ERROR_TYPE
    ensures var (t, o) := Reject(s, requestId, offending, code, capacity); Moves(s, t, f, a, o)
  {
    hide Decode, BitsWithin, Reject, FrameType;
    RejectSteps(s, requestId, offending, code, capacity);
    RejectShape(s, requestId, offending, capacity);
  }

  // Given a full-size buffer, every byte string is handled without internal failure.
  lemma HandleMoves(s: Session, f: Bytes, a: Answers, capacity: nat)
    requires Inv(s) && capacity >= MAX_FRAME_SIZE
    ensures var (t, o) := Handle(s, f, a, capacity); Moves(s, t, f, a, o)
  {
    hide Decode, BitsWithin, Reject, HandleHello, HandleAuth, HandleRequest, FrameType, FrameRequest;
    match Decode(f)
    case DecodeFault(fault) =>
      if FrameType(f) != ERROR_TYPE { RejectMoves(s, FrameRequest(f), FrameType(f), ErrorFor(fault), f, a, capacity); }
    case Heard(m) =>
      HeardRequest(f);
      if !m.payload.Error? { RejectMoves(s, m.header.requestId, TypeOf(m.payload), ERROR_OUT_OF_ORDER, f, a, capacity); }
      if m.payload.Error? {
      } else if s.phase.WaitHello? && m.payload.Hello? {
        HelloSteps(s, m, f, capacity);
        HelloFollows(s, m, f, a, capacity);
      } else if s.phase.WaitAuth? && m.payload.Auth? {
        AuthSteps(s, m, a, capacity);
        AuthFollows(s, m, a, capacity);
      } else if s.phase.Ready? {
        RequestSteps(s, m, a, capacity);
      }
  }

  lemma HelloFollows(s: Session, m: Message, f: Bytes, a: Answers, capacity: nat)
    requires m.payload.Hello? && s.phase.WaitHello?
    ensures var (t, o) := HandleHello(s, m, f, capacity);
      (o.Handled? ==> o.request.None? && o.response.Some? && (t.phase.WaitAuth? || t.phase.Closed?))
  {
    hide Encode, Negotiate, HelloSupported;
  }

  lemma AuthFollows(s: Session, m: Message, a: Answers, capacity: nat)
    requires m.payload.Auth? && s.phase.WaitAuth?
    ensures var (t, o) := HandleAuth(s, m, a, capacity);
      (t.phase.Ready? ==> SameHandshake(s, t)) && (o.Handled? ==> o.response.Some?)
  {
    hide Encode;
  }

  // ------------------------------------------------------------------------ runs

  datatype Input = Input(frame: Bytes, answers: Answers)

  // The session after the first k frames.
  function After(s: Session, inputs: seq<Input>, k: nat): Session
    requires k <= |inputs|
  {
    if k == 0 then s
    else Handle(After(s, inputs, k - 1), inputs[k - 1].frame, inputs[k - 1].answers, MAX_FRAME_SIZE).0
  }

  function Answer(s: Session, inputs: seq<Input>, k: nat): Outcome
    requires k < |inputs|
  {
    Handle(After(s, inputs, k), inputs[k].frame, inputs[k].answers, MAX_FRAME_SIZE).1
  }

  ghost predicate Moved(s: Session, inputs: seq<Input>, k: nat)
    requires k < |inputs|
  {
    Moves(After(s, inputs, k), After(s, inputs, k + 1), inputs[k].frame, inputs[k].answers, Answer(s, inputs, k))
  }

  // A session set up with valid parameters never fails internally, whatever it is sent.
  lemma {:induction false} NeverFails(s: Session, inputs: seq<Input>, k: nat)
    requires Inv(s) && k <= |inputs|
    ensures Inv(After(s, inputs, k)) && forall i :: 0 <= i < k ==> Moved(s, inputs, i)
  {
    hide Inv, Handle, Moves;
    if k > 0 {
      NeverFails(s, inputs, k - 1);
      HandleMoves(After(s, inputs, k - 1), inputs[k - 1].frame, inputs[k - 1].answers, MAX_FRAME_SIZE);
      MovesKeeps(After(s, inputs, k - 1), After(s, inputs, k), inputs[k - 1].frame, inputs[k - 1].answers, Answer(s, inputs, k - 1));
    }
  }

  lemma MovesKeeps(s: Session, t: Session, f: Bytes, a: Answers, o: Outcome)
    requires Moves(s, t, f, a, o)
    ensures Inv(t) && o.Handled? && s.lastRequestId <= t.lastRequestId && (s.phase.Closed? ==> t.phase.Closed?)
  {
    hide Decode, BitsWithin;
  }

  // A frame that closes the session, or finds it closed, is answered with a decodable ERROR unless it is itself an ERROR,
  // which is met with silence; nothing is delivered once the session is closed.
  lemma RejectionSpeaks(s: Session, inputs: seq<Input>, k: nat)
    requires Inv(s) && k < |inputs| && After(s, inputs, k + 1).phase.Closed?
    ensures var o := Answer(s, inputs, k);
      && o.Handled? && (o.response.None? <==> FrameType(inputs[k].frame) == ERROR_TYPE)
      && (o.response.Some? ==> Decode(o.response.value).Heard? && Decode(o.response.value).message.payload.Error?)
      && (After(s, inputs, k).phase.Closed? ==> o.request.None?)
  {
    hide Handle, Decode, BitsWithin, After;
    NeverFails(s, inputs, k + 1);
    assert Moved(s, inputs, k);
  }

  lemma {:induction false} ClosedStays(s: Session, inputs: seq<Input>, i: nat, j: nat)
    requires Inv(s) && i <= j <= |inputs| && After(s, inputs, i).phase.Closed?
    ensures After(s, inputs, j).phase.Closed?
    decreases j
  {
    hide Handle, Moves, Inv;
    if i < j {
      ClosedStays(s, inputs, i, j - 1);
      NeverFails(s, inputs, j);
      assert Moved(s, inputs, j - 1);
      MovesKeeps(After(s, inputs, j - 1), After(s, inputs, j), inputs[j - 1].frame, inputs[j - 1].answers, Answer(s, inputs, j - 1));
    }
  }

  ghost predicate HelloHeard(s: Session, inputs: seq<Input>, k: nat, h: nat)
    requires h < k <= |inputs|
  {
    && HelloStep(After(s, inputs, h), After(s, inputs, h + 1), inputs[h].frame, Answer(s, inputs, h))
    && SameHandshake(After(s, inputs, h + 1), After(s, inputs, k))
  }

  // A session under way rests on one HELLO it was sent and the CHALLENGE it answered with.
  lemma {:induction false} RestsOnHello(s: Session, inputs: seq<Input>, k: nat) returns (h: nat)
    requires Inv(s) && s.phase.WaitHello? && k <= |inputs|
    requires After(s, inputs, k).phase.WaitAuth? || After(s, inputs, k).phase.Ready?
    ensures h < k && HelloHeard(s, inputs, k, h)
  {
    hide Handle, Decode, BitsWithin, Inv, Steps, Delivers, HelloStep, AuthStep;
    NeverFails(s, inputs, k);
    h := k - 1;
    assert Moved(s, inputs, h);
    if After(s, inputs, k).phase.Ready? {
      ReadyBefore(After(s, inputs, h), inputs[h].frame, inputs[h].answers, After(s, inputs, k).version, After(s, inputs, k).until);
      h := RestsOnHello(s, inputs, k - 1);
    }
  }

  lemma ReadyBefore(s: Session, f: Bytes, a: Answers, version: U64, until: U64)
    ensures AuthStep(s, f, a, version, until) ==> s.phase.WaitAuth?
  {
    hide Decode;
  }

  // A session is ready only after an AUTH whose tag the registry verified against that HELLO and CHALLENGE.
  lemma {:induction false} ReadyIsVerified(s: Session, inputs: seq<Input>, k: nat) returns (j: nat)
    requires Inv(s) && s.phase.WaitHello? && k <= |inputs| && After(s, inputs, k).phase.Ready?
    ensures var t := After(s, inputs, k);
      && j < k && AuthStep(After(s, inputs, j), inputs[j].frame, inputs[j].answers, t.version, t.until)
      && SameHandshake(After(s, inputs, j), t)
  {
    hide Handle, Decode, BitsWithin, Inv, Steps, Delivers, HelloStep, AuthStep;
    NeverFails(s, inputs, k);
    j := k - 1;
    assert Moved(s, inputs, j);
    ReadyBefore(After(s, inputs, j), inputs[j].frame, inputs[j].answers, After(s, inputs, k).version, After(s, inputs, k).until);
    if After(s, inputs, j).phase.Ready? { j := ReadyIsVerified(s, inputs, k - 1); }
  }

  // Everything delivered, other than a peer's ERROR, comes after a verified AUTH, and asks for the pool of the HELLO.
  lemma DeliveredIsAuthorized(s: Session, inputs: seq<Input>, k: nat) returns (h: nat, j: nat)
    requires Inv(s) && s.phase.WaitHello? && k < |inputs|
    requires Answer(s, inputs, k).Handled? && Answer(s, inputs, k).request.Some?
    ensures h < k && HelloHeard(s, inputs, k, h) && j < k
    ensures AuthStep(After(s, inputs, j), inputs[j].frame, inputs[j].answers, After(s, inputs, k).version, After(s, inputs, k).until)
    ensures SameHandshake(After(s, inputs, h + 1), After(s, inputs, j)) && SameHandshake(After(s, inputs, j), After(s, inputs, k))
    ensures var m := Answer(s, inputs, k).request.value;
      && Decode(inputs[k].frame) == Heard(m)
      && (m.payload.ChunkRequest? ==> m.payload.pool == Decode(inputs[h].frame).message.payload.pool)
      && (!m.payload.Error? ==>
            && inputs[k].answers.validate(After(s, inputs, k).consumer, After(s, inputs, k).version).Verified?
            && !Expired(After(s, inputs, k), inputs[k].answers.now))
  {
    hide Handle, Decode, BitsWithin, Inv, Steps, AuthStep, Allowed;
    NeverFails(s, inputs, k + 1);
    assert Moved(s, inputs, k);
    h := RestsOnHello(s, inputs, k);
    j := ReadyIsVerified(s, inputs, k);
  }

  lemma {:induction false} NumbersGrow(s: Session, inputs: seq<Input>, i: nat, j: nat)
    requires Inv(s) && i <= j <= |inputs|
    ensures After(s, inputs, i).lastRequestId <= After(s, inputs, j).lastRequestId
    decreases j
  {
    hide Handle, Moves, Inv;
    if i < j {
      NumbersGrow(s, inputs, i, j - 1);
      NeverFails(s, inputs, j);
      assert Moved(s, inputs, j - 1);
      MovesKeeps(After(s, inputs, j - 1), After(s, inputs, j), inputs[j - 1].frame, inputs[j - 1].answers, Answer(s, inputs, j - 1));
    }
  }

  // Requests that are not responses are delivered with strictly increasing numbers.
  lemma RequestNumbersIncrease(s: Session, inputs: seq<Input>, i: nat, j: nat)
    requires Inv(s) && i < j < |inputs|
    requires Answer(s, inputs, i).Handled? && Answer(s, inputs, i).request.Some? && Answer(s, inputs, j).Handled?
    requires Answer(s, inputs, j).request.Some?
    ensures var a, b := Answer(s, inputs, i).request.value, Answer(s, inputs, j).request.value;
      !a.payload.Error? && !IsResponse(a.header) && !b.payload.Error? && !IsResponse(b.header) ==>
        a.header.requestId < b.header.requestId
  {
    hide Handle, Decode, BitsWithin, Inv, Steps, Allowed, After;
    NeverFails(s, inputs, j + 1);
    assert Moved(s, inputs, i) && Moved(s, inputs, j);
    NumbersGrow(s, inputs, i + 1, j);
  }
}
