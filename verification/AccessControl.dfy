/**
 A Provider session together with the authorization registry it consults while
 credentials are added, revoked and reloaded beside it: every request a session
 delivers was made under a credential that has stood unchanged since the peer
 proved that it holds one of its keys.
 */
module AccessControl {
  import opened Options
  import opened WireBytes
  import opened Wire
  import S = ProviderSession
  import R = AuthRegistry

  type Mac = (Bytes, Bytes, Bytes) -> Option<Block>

  function SessionVerdict(v: R.Verdict): S.Verdict {
    match v
    case Verified(until, version) => S.Verified(until, version)
    case Refused(result) => if result.Revoked? then S.Revoked else S.Denied
  }

  function StandingVerdict(result: R.Result): S.Verdict {
    if result.Ok? then S.Verified(0, 0) else if result.Revoked? then S.Revoked else S.Denied
  }

  // What the registry answers a session in a given state.
  function AnswersOf(r: R.Registry, now: Option<nat>, mac: Mac): S.Answers {
    S.Answers((consumer: Text, keyId: Text, hello: Bytes, challenge: Bytes, tag: Block) =>
                SessionVerdict(R.Verify(r, consumer, keyId, hello, challenge, tag, now, mac)),
              (consumer: Text, version: U64) => StandingVerdict(R.Validate(r, consumer, version)), now)
  }

  // One frame, handled after the first `at` changes to the registry.
  datatype Visit = Visit(frame: Bytes, at: nat, now: Option<nat>)

  // Frames arrive in the order in which the registry changes.
  ghost predicate InOrder(visits: seq<Visit>, ops: seq<R.Op>) {
    && (forall i :: 0 <= i < |visits| ==> visits[i].at <= |ops|)
    && forall i, j :: 0 <= i < j < |visits| ==> visits[i].at <= visits[j].at
  }

  function RegistryAt(r: R.Registry, ops: seq<R.Op>, v: Visit): R.Registry {
    if v.at <= |ops| then R.After(r, ops, v.at) else r
  }

  function Inputs(r: R.Registry, ops: seq<R.Op>, visits: seq<Visit>, mac: Mac): (inputs: seq<S.Input>)
    ensures |inputs| == |visits|
    ensures forall i :: 0 <= i < |visits| ==>
      inputs[i] == S.Input(visits[i].frame, AnswersOf(RegistryAt(r, ops, visits[i]), visits[i].now, mac))
  {
    seq(|visits|, i requires 0 <= i < |visits| =>
      S.Input(visits[i].frame, AnswersOf(RegistryAt(r, ops, visits[i]), visits[i].now, mac)))
  }

  // A peer proved a key of the credential: its tag is the code over the HELLO and the CHALLENGE.
  ghost predicate ProvedKey(r: R.Registry, s: S.Session, tag: Block, now: Option<nat>, mac: Mac) {
    var c := R.Find(r.entries, s.consumer);
    && c.Some? && !c.value.revoked
    && var key := R.KeyFor(c.value, s.keyId, now);
       key.Some? && mac(key.value.0.secret, s.helloFrame, s.challengeFrame) == Some(tag)
  }

  lemma VerifiedProves(r: R.Registry, s: S.Session, tag: Block, now: Option<nat>, mac: Mac, version: U64, until: U64)
    requires AnswersOf(r, now, mac).verify(s.consumer, s.keyId, s.helloFrame, s.challengeFrame, tag) == S.Verified(until, version)
    ensures ProvedKey(r, s, tag, now, mac)
    ensures var c := R.Find(r.entries, s.consumer).value;
      && c.version == version
      && (s.keyId != c.terms.current.keyId ==> until == c.terms.nextUntil > 0)
  {
    assert SessionVerdict(R.Verify(r, s.consumer, s.keyId, s.helloFrame, s.challengeFrame, tag, now, mac)).Verified?;
  }

  lemma ValidatedStands(r: R.Registry, consumer: Text, version: U64, now: Option<nat>, mac: Mac)
    requires AnswersOf(r, now, mac).validate(consumer, version).Verified?
    ensures R.Validate(r, consumer, version) == R.Ok
  {
    assert StandingVerdict(R.Validate(r, consumer, version)).Verified?;
  }

  lemma NotExpired(r: R.Registry, s: S.Session, now: Option<nat>, mac: Mac)
    requires !S.Expired(s, AnswersOf(r, now, mac).now)
    ensures s.until > 0 ==> now.Some? && now.value < s.until
  {}

  lemma {:induction false} AfterSplit(r: R.Registry, ops: seq<R.Op>, a: nat, b: nat, k: nat)
    requires a <= b <= |ops| && k <= b - a
    ensures R.After(R.After(r, ops, a), ops[a..b], k) == R.After(r, ops, a + k)
  {
    if k > 0 {
      AfterSplit(r, ops, a, b, k - 1);
      assert ops[a..b][k - 1] == ops[a + k - 1];
    }
  }

  // Between two points of the run the credential stood unchanged.
  ghost predicate StoodFrom(r: R.Registry, ops: seq<R.Op>, a: nat, b: nat, consumer: Text, terms: R.Terms)
    requires a <= b <= |ops|
  {
    forall i :: a <= i <= b ==> R.Standing(R.After(r, ops, i), consumer, terms)
  }

  lemma StandingSpans(r: R.Registry, ops: seq<R.Op>, a: nat, b: nat, consumer: Text, version: U64)
    requires R.Inv(r) && a <= b <= |ops| && R.RoomFor(r, |ops|)
    requires var c := R.Find(R.After(r, ops, a).entries, consumer); c.Some? && !c.value.revoked && c.value.version == version
    requires R.Validate(R.After(r, ops, b), consumer, version) == R.Ok
    ensures StoodFrom(r, ops, a, b, consumer, R.Find(R.After(r, ops, a).entries, consumer).value.terms)
  {
    hide R.Inv, R.Step;
    var start, rest := R.After(r, ops, a), ops[a..b];
    var terms := R.Find(start.entries, consumer).value.terms;
    R.RunInv(r, ops, a);
    AfterSplit(r, ops, a, b, b - a);
    R.VersionProvesStanding(start, rest, b - a, consumer, terms, version);
    forall i | a <= i <= b ensures R.Standing(R.After(r, ops, i), consumer, terms) {
      AfterSplit(r, ops, a, b, i - a);
      assert R.Standing(R.After(start, rest, i - a), consumer, terms);
    }
  }

  // Every request delivered, other than a peer's ERROR, follows an AUTH whose tag was made with a key of the consumer's
  // credential, and from that AUTH to the delivery the credential was never revoked, removed or changed. If the key was
  // the next one, the delivery comes before that key runs out.
  lemma DeliveredUnderStandingCredential(
    s: S.Session, r: R.Registry, ops: seq<R.Op>, visits: seq<Visit>, mac: Mac, k: nat) returns (j: nat)
    requires S.Inv(s) && s.phase.WaitHello? && R.Inv(r) && R.RoomFor(r, |ops|) && InOrder(visits, ops) && k < |visits|
    requires var o := S.Answer(s, Inputs(r, ops, visits, mac), k);
      o.Handled? && o.request.Some? && !o.request.value.payload.Error?
    ensures j < k && visits[j].at <= visits[k].at <= |ops|
    ensures var inputs := Inputs(r, ops, visits, mac);
      var t := S.After(s, inputs, k);
      var registry := R.After(r, ops, visits[j].at);
      && Decode(visits[j].frame).Heard? && Decode(visits[j].frame).message.payload.Auth?
      && ProvedKey(registry, t, Decode(visits[j].frame).message.payload.tag, visits[j].now, mac)
      && var terms := R.Find(registry.entries, t.consumer).value.terms;
         && StoodFrom(r, ops, visits[j].at, visits[k].at, t.consumer, terms)
         && (t.keyId != terms.current.keyId ==> visits[k].now.Some? && visits[k].now.value < terms.nextUntil)
  {
    hide S.Handle, S.Inv, R.Inv, R.Step, R.Verify, R.Validate, R.Find, S.Expired, Decode, AnswersOf, ProvedKey, StoodFrom;
    var inputs := Inputs(r, ops, visits, mac);
    var t := S.After(s, inputs, k);
    var h: nat;
    h, j := S.DeliveredIsAuthorized(s, inputs, k);
    var u := S.After(s, inputs, j);
    var tag := Decode(visits[j].frame).message.payload.tag;
    VerifiedProves(RegistryAt(r, ops, visits[j]), u, tag, visits[j].now, mac, t.version, t.until);
    SameProof(RegistryAt(r, ops, visits[j]), u, t, tag, visits[j].now, mac);
    ValidatedStands(RegistryAt(r, ops, visits[k]), t.consumer, t.version, visits[k].now, mac);
    NotExpired(RegistryAt(r, ops, visits[k]), t, visits[k].now, mac);
    StandingSpans(r, ops, visits[j].at, visits[k].at, t.consumer, t.version);
  }

  lemma SameProof(r: R.Registry, s: S.Session, t: S.Session, tag: Block, now: Option<nat>, mac: Mac)
    requires ProvedKey(r, s, tag, now, mac) && S.SameHandshake(s, t)
    ensures ProvedKey(r, t, tag, now, mac) && !R.Find(r.entries, t.consumer).value.revoked
  {}
}
