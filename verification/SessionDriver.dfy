/**
 The Provider session as it runs: fields updated frame by frame, answers written
 into the caller's buffer. Each step is proved against ProviderSession.
 */
module SessionDriver {
  import opened Options
  import opened WireBytes
  import opened Wire
  import opened WireCodec
  import opened ProviderSession

  // The buffer holds the response, if there is one.
  ghost predicate Answered(before: Bytes, after: Bytes, o: Outcome, size: nat) {
    if o.Handled? && o.response.Some? then size == |o.response.value| && Written(before, after, 0, o.response.value)
    else size == 0
  }

  class LiveSession {
    const localMinor: U16
    const supported: U64
    const required: U64
    const sessionId: U64
    const nonce: Block
    var phase: Phase
    var minor: U16
    var capabilities: U64
    var lastRequestId: U64
    var until: U64
    var version: U64
    var deadline: U32
    var lastError: U16
    var mode: U8
    var pool: U8
    var consumer: Text
    var keyId: Text
    var helloFrame: Bytes
    var challengeFrame: Bytes

    ghost function Model(): Session
      reads this
    {
      Session(phase, localMinor, minor, supported, required, capabilities, sessionId, lastRequestId, until, version, deadline,
              lastError, mode, pool, nonce, consumer, keyId, helloFrame, challengeFrame)
    }

    constructor (localMinor: U16, supported: U64, required: U64, nonce: Block, sessionId: U64)
      ensures Model() == Init(localMinor, supported, required, nonce, sessionId)
    {
      this.localMinor, this.supported, this.required, this.nonce, this.sessionId := localMinor, supported, required, nonce, sessionId;
      phase, minor, capabilities := WaitHello, localMinor, supported;
      lastRequestId, until, version, deadline, lastError, mode, pool := 0, 0, 0, 0, 0, 0, 0;
      consumer, keyId, helloFrame, challengeFrame := [], [], [], [];
    }

    method Close(code: U16)
      modifies `phase, `lastError
      ensures Model() == old(Model()).(phase := Closed, lastError := code)
    {
      phase, lastError := Closed, code;
    }

    method BuildError(requestId: U64, offending: U16, code: U16, out: array<U8>) returns (o: Outcome, size: nat)
      modifies this, out
      ensures (Model(), o) == Reject(old(Model()), requestId, offending, code, out.Length)
      ensures Answered(old(out[..]), out[..], o, size)
    {
      hide Encode, Written;
      var m := Message(
        Header(MAJOR, minor, FLAGS_KNOWN, if requestId == 0 then 1 else requestId, if phase.Ready? then sessionId else 0,
               capabilities, BitAnd(required, capabilities)),
        Error(code, offending, if code == ERROR_RESOURCE then 1 else 0));
      var fault;
      fault, size := EncodeFrame(m, out);
      if fault.Some? {
        o := Failed;
      } else {
        Close(code);
        WrittenPrefix(old(out[..]), out[..], size);
        o := Handled(Some(out[..size]), None, true);
      }
    }

    method Agree(agreement: Agreement)
      requires agreement.Agreed?
      modifies `minor, `capabilities
      ensures Model() == old(Model()).(minor := agreement.minor, capabilities := agreement.capabilities)
    {
      minor, capabilities := agreement.minor, agreement.capabilities;
    }

    method KeepIdentity(p: Payload, f: Bytes)
      requires p.Hello?
      modifies `helloFrame, `consumer, `keyId
      ensures Model() == old(Model()).(helloFrame := f, consumer := p.consumer, keyId := p.keyId)
    {
      helloFrame, consumer, keyId := f, p.consumer, p.keyId;
    }

    method KeepTerms(p: Payload, requestId: U64)
      requires p.Hello?
      modifies `mode, `pool, `deadline, `lastRequestId
      ensures Model() == old(Model()).(mode := p.mode, pool := p.pool, deadline := p.deadline, lastRequestId := requestId)
    {
      mode, pool, deadline, lastRequestId := p.mode, p.pool, p.deadline, requestId;
    }

    method OnHello(m: Message, f: Bytes, out: array<U8>) returns (o: Outcome, size: nat)
      requires m.payload.Hello?
      modifies this, out
      ensures (Model(), o) == HandleHello(old(Model()), m, f, out.Length)
      ensures Answered(old(out[..]), out[..], o, size)
    {
      hide Encode, Negotiate, HelloSupported, Reject, Written;
      var p := m.payload;
      var agreement := Negotiate(localMinor, supported, required, m.header.minor, m.header.capabilities, m.header.required);
      if agreement.Agreed? { Agree(agreement); }
      if !agreement.Agreed? || !HelloSupported(p, capabilities) {
        o, size := BuildError(m.header.requestId, 1, ERROR_CAPABILITY, out);
        return;
      }
      KeepIdentity(p, f);
      KeepTerms(p, m.header.requestId);
      var challenge := Message(Header(MAJOR, minor, FLAG_RESPONSE, m.header.requestId, 0, capabilities, required), Challenge(nonce, minor));
      var fault;
      fault, size := EncodeFrame(challenge, out);
      if fault.Some? { return Failed, 0; }
      WrittenPrefix(old(out[..]), out[..], size);
      challengeFrame, phase := out[..size], WaitAuth;
      o := Handled(Some(out[..size]), None, false);
    }

    method Authenticate(lease: Verdict, requestId: U64)
      requires lease.Verified?
      modifies `until, `version, `lastRequestId, `phase
      ensures Model() == old(Model()).(until := lease.until, version := lease.version, lastRequestId := requestId, phase := Ready)
    {
      until, version, lastRequestId, phase := lease.until, lease.version, requestId, Ready;
    }

    method OnAuth(m: Message, a: Answers, out: array<U8>) returns (o: Outcome, size: nat)
      requires m.payload.Auth?
      modifies this, out
      ensures (Model(), o) == HandleAuth(old(Model()), m, a, out.Length)
      ensures Answered(old(out[..]), out[..], o, size)
    {
      hide Encode, Reject, Written;
      var id := m.header.requestId;
      var verdict := a.verify(consumer, keyId, helloFrame, challengeFrame, m.payload.tag);
      if id <= lastRequestId {
        o, size := BuildError(id, 3, ERROR_REPLAY, out);
      } else if m.header.minor != minor || m.header.capabilities != capabilities {
        o, size := BuildError(id, 3, ERROR_CAPABILITY, out);
      } else if !verdict.Verified? {
        o, size := BuildError(id, 3, if verdict.Revoked? then ERROR_REVOKED else ERROR_AUTHENTICATION, out);
      } else {
        Authenticate(verdict, id);
        var accept := Message(Header(MAJOR, minor, FLAG_RESPONSE, id, sessionId, capabilities, required), Accept(minor));
        var fault;
        fault, size := EncodeFrame(accept, out);
        if fault.Some? { return Failed, 0; }
        WrittenPrefix(old(out[..]), out[..], size);
        o := Handled(Some(out[..size]), None, false);
      }
    }

    // The checks an authenticated request passes, in order.
    method CheckRequest(m: Message, a: Answers) returns (fault: Option<U16>)
      ensures fault == RequestFault(Model(), m, a)
    {
      hide Bit, Allowed;
      var h := m.header;
      if !IsResponse(h) && h.requestId <= lastRequestId { return Some(ERROR_REPLAY); }
      if h.sessionId != sessionId || h.minor != minor || h.capabilities != capabilities { return Some(ERROR_CAPABILITY); }
      if until != 0 && (a.now.None? || a.now.value >= until) { return Some(ERROR_AUTHENTICATION); }
      var standing := a.validate(consumer, version);
      if !standing.Verified? { return Some(if standing.Revoked? then ERROR_REVOKED else ERROR_AUTHENTICATION); }
      if !Allowed(m) { return Some(ERROR_OUT_OF_ORDER); }
      if m.payload.StatusRequest? && !Bit(capabilities, 0x20) { return Some(ERROR_CAPABILITY); }
      if m.payload.ChunkRequest? && m.payload.pool != pool { return Some(ERROR_CAPABILITY); }
      return None;
    }

    method OnRequest(m: Message, a: Answers, out: array<U8>) returns (o: Outcome, size: nat)
      modifies this, out
      ensures (Model(), o) == HandleRequest(old(Model()), m, a, out.Length)
      ensures Answered(old(out[..]), out[..], o, size)
    {
      hide Reject, Written, RequestFault;
      var fault := CheckRequest(m, a);
      if fault.Some? {
        o, size := BuildError(m.header.requestId, TypeOf(m.payload), fault.value, out);
      } else {
        if !IsResponse(m.header) { lastRequestId := m.header.requestId; }
        o, size := Handled(None, Some(m), false), 0;
      }
    }

    method Handle(f: Bytes, a: Answers, out: array<U8>) returns (o: Outcome, size: nat)
      modifies this, out
      ensures (Model(), o) == ProviderSession.Handle(old(Model()), f, a, out.Length)
      ensures Answered(old(out[..]), out[..], o, size)
    {
      hide Decode, Reject, HandleHello, HandleAuth, HandleRequest, FrameType, FrameRequest, ErrorFor, Written;
      o, size := Failed, 0;
      if sessionId == 0 || out.Length == 0 { return; }
      var heard := DecodeFrame(f);
      if heard.DecodeFault? {
        if FrameType(f) == 13 {
          phase := Closed;
          o := Handled(None, None, true);
        } else {
          o, size := BuildError(FrameRequest(f), FrameType(f), ErrorFor(heard.fault), out);
        }
        return;
      }
      var m := heard.message;
      if m.payload.Error? {
        o := Handled(None, if phase.Ready? then Some(m) else None, true);
        phase := Closed;
      } else if phase.WaitHello? && m.payload.Hello? && m.header.flags == 0 {
        o, size := OnHello(m, f, out);
      } else if phase.WaitAuth? && m.payload.Auth? && m.header.flags == 0 {
        o, size := OnAuth(m, a, out);
      } else if phase.Ready? {
        o, size := OnRequest(m, a, out);
      } else {
        o, size := BuildError(m.header.requestId, TypeOf(m.payload), ERROR_OUT_OF_ORDER, out);
      }
    }
  }

  lemma WrittenPrefix(before: Bytes, after: Bytes, size: nat)
    ensures forall bytes :: Written(before, after, 0, bytes) && size == |bytes| ==> size <= |after| && after[..size] == bytes
  {}
}
