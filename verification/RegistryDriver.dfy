/**
 The authorization registry as it works: entries, listeners and the version
 counter changed in place under the lock, by loops over both tables. Each call is
 proved against its function in AuthRegistry.
 */
module RegistryDriver {
  import opened Options
  import opened WireBytes
  import opened Wire
  import opened AuthRegistry

  // The contexts of the flagged ones among the first n listeners.
  function Flagged(ls: seq<Listener>, flags: seq<bool>, n: nat): set<nat>
    requires n <= |ls| && |flags| == |ls|
  {
    set k | 0 <= k < n && flags[k] :: ls[k].context
  }

  lemma FlaggedNext(ls: seq<Listener>, flags: seq<bool>, n: nat)
    requires n < |ls| && |flags| == |ls|
    ensures Flagged(ls, flags, n + 1) == Flagged(ls, flags, n) + if flags[n] then {ls[n].context} else {}
  {
    var before, after := Flagged(ls, flags, n), Flagged(ls, flags, n + 1);
    forall x | x in after ensures x in before + if flags[n] then {ls[n].context} else {} {
      var k :| 0 <= k < n + 1 && flags[k] && ls[k].context == x;
      if k < n { assert x in before; }
    }
    forall x | x in before ensures x in after {
      var k :| 0 <= k < n && flags[k] && ls[k].context == x;
    }
  }

  // A reload calls back the listeners whose authorization does not stay in force.
  lemma ReloadCalls(r: Registry, cs: seq<Credential>, now: Option<nat>, flags: seq<bool>)
    requires EntriesValid(cs, now) && |flags| == |r.listeners|
    requires forall k :: 0 <= k < |flags| ==>
      flags[k] == !AuthorizationEqual(Find(r.entries, r.listeners[k].consumer), Find(cs, r.listeners[k].consumer))
    ensures Reload(r, cs, now).2 == Flagged(r.listeners, flags, |flags|)
  {
    hide AuthorizationEqual, Find, EntriesValid, Reissued;
  }

  lemma ContextsAreFlagged(ls: seq<Listener>, consumer: Text, flags: seq<bool>)
    requires |flags| == |ls| && forall k :: 0 <= k < |ls| ==> flags[k] == (ls[k].consumer == consumer)
    ensures ContextsOf(ls, consumer) == Flagged(ls, flags, |ls|)
  {}

  class LiveRegistry {
    var entries: seq<Credential>
    var listeners: seq<Listener>
    var lastVersion: U64
    ghost var called: set<nat>      // contexts called back so far

    ghost function Model(): Registry
      reads this
    {
      Registry(entries, listeners, lastVersion)
    }

    constructor ()
      ensures Model() == EMPTY_REGISTRY && called == {}
    {
      entries, listeners, lastVersion, called := [], [], 0, {};
    }

    method IssueVersion() returns (version: U64)
      modifies `lastVersion
      ensures version == lastVersion == NextVersion(old(lastVersion)) != 0
    {
      var next := (lastVersion as int + 1) % VERSION_SIZE;
      if next == 0 { next := next + 1; }
      lastVersion, version := next, next;
    }

    method FindEntry(cs: seq<Credential>, consumer: Text) returns (r: Option<nat>)
      ensures r == FindFrom(cs, consumer, 0)
    {
      for index := 0 to |cs|
        invariant FindFrom(cs, consumer, 0) == FindFrom(cs, consumer, index)
      {
        if cs[index].consumer == consumer { return Some(index); }
      }
      return None;
    }

    method Lookup(cs: seq<Credential>, consumer: Text) returns (c: Option<Credential>)
      ensures c == Find(cs, consumer)
    {
      var found := FindEntry(cs, consumer);
      return if found.Some? then Some(cs[found.value]) else None;
    }

    method Add(c: Credential, now: Option<nat>) returns (result: Result)
      modifies `entries, `lastVersion
      ensures (Model(), result) == AuthRegistry.Add(old(Model()), c, now)
    {
      hide CredentialValid;
      if !CredentialValid(c, now) { return Invalid; }
      if |entries| == MAX_CONSUMERS { return Full; }
      var found := FindEntry(entries, c.consumer);
      if found.Some? { return Duplicate; }
      var version := IssueVersion();
      entries := entries + [c.(version := version)];
      return Ok;
    }

    method Subscribe(consumer: Text, version: U64, context: nat) returns (result: Result)
      modifies `listeners
      ensures (Model(), result) == AuthRegistry.Subscribe(old(Model()), consumer, version, context)
    {
      if context == 0 { return Invalid; }
      var found := Lookup(entries, consumer);
      if found.None? { return NotFound; }
      if found.value.revoked { return Revoked; }
      if version == 0 || found.value.version != version { return Denied; }
      if |listeners| == MAX_CONSUMERS { return Full; }
      for index := 0 to |listeners|
        invariant listeners == old(listeners)
        invariant forall i :: 0 <= i < index ==> listeners[i].context != context
      {
        if listeners[index].context == context { return Duplicate; }
      }
      listeners := listeners + [Listener(consumer, context)];
      return Ok;
    }

    method Unsubscribe(context: nat)
      modifies `listeners
      ensures Model() == AuthRegistry.Unsubscribe(old(Model()), context)
    {
      if context == 0 { return; }
      for index := 0 to |listeners|
        invariant listeners == old(listeners)
        invariant ListenerFrom(listeners, context, 0) == ListenerFrom(listeners, context, index)
      {
        if listeners[index].context == context {
          var last := |listeners| - 1;
          listeners := listeners[index := listeners[last]][..last];
          return;
        }
      }
    }

    // Calls back the flagged listeners, one after another.
    method CallBack(flags: seq<bool>)
      requires |flags| == |listeners|
      modifies `called
      ensures called == old(called) + Flagged(listeners, flags, |flags|)
    {
      for index := 0 to |listeners|
        invariant called == old(called) + Flagged(listeners, flags, index)
      {
        FlaggedNext(listeners, flags, index);
        if flags[index] { called := called + {listeners[index].context}; }
      }
    }

    method NotifyRevocation(consumer: Text)
      modifies `called
      ensures called == old(called) + ContextsOf(listeners, consumer)
    {
      var flags := seq(|listeners|, k requires 0 <= k < |listeners| reads this => listeners[k].consumer == consumer);
      ContextsAreFlagged(listeners, consumer, flags);
      CallBack(flags);
    }

    method Revoke(consumer: Text) returns (result: Result)
      modifies this
      ensures listeners == old(listeners)
      ensures var (after, r, calls) := AuthRegistry.Revoke(old(Model()), consumer);
        Model() == after && result == r && called == old(called) + calls
    {
      var found := FindEntry(entries, consumer);
      if found.None? { return NotFound; }
      var version := IssueVersion();
      entries := entries[found.value := entries[found.value].(revoked := true, version := version)];
      NotifyRevocation(consumer);
      return Ok;
    }

    method ValidateVersion(consumer: Text, version: U64) returns (result: Result)
      ensures result == Validate(Model(), consumer, version)
    {
      if version == 0 { return Invalid; }
      var found := Lookup(entries, consumer);
      if found.None? { return NotFound; }
      return if found.value.revoked then Revoked else if found.value.version != version then Denied else Ok;
    }

    method VerifyTag(consumer: Text, keyId: Text, hello: Bytes, challenge: Bytes, tag: Block, now: Option<nat>,
                     mac: (Bytes, Bytes, Bytes) -> Option<Block>) returns (verdict: Verdict)
      ensures verdict == Verify(Model(), consumer, keyId, hello, challenge, tag, now, mac)
    {
      var found := Lookup(entries, consumer);
      if found.None? { return Refused(NotFound); }
      var c := found.value;
      if c.revoked { return Refused(Revoked); }
      var key := None;
      var until: U64 := 0;
      if c.terms.current.keyId == keyId {
        key := Some(c.terms.current);
      } else if now.Some? && c.terms.next.secret != [] && c.terms.nextUntil > now.value && c.terms.next.keyId == keyId {
        key, until := Some(c.terms.next), c.terms.nextUntil;
      }
      if key.None? { return Refused(Denied); }
      var expected := mac(key.value.secret, hello, challenge);
      if expected.None? { return Refused(CryptoError); }
      return if expected.value != tag then Refused(Denied) else Verified(until, c.version);
    }

    // Which listeners rest on an authorization the new entries do not leave in force.
    method Affected(cs: seq<Credential>) returns (flags: seq<bool>)
      ensures |flags| == |listeners|
      ensures forall k :: 0 <= k < |flags| ==>
        flags[k] == !AuthorizationEqual(Find(entries, listeners[k].consumer), Find(cs, listeners[k].consumer))
    {
      hide AuthorizationEqual, Find;
      flags := [];
      for index := 0 to |listeners|
        invariant |flags| == index
        invariant forall k :: 0 <= k < index ==>
          flags[k] == !AuthorizationEqual(Find(entries, listeners[k].consumer), Find(cs, listeners[k].consumer))
      {
        var before := Lookup(entries, listeners[index].consumer);
        var after := Lookup(cs, listeners[index].consumer);
        flags := flags + [!AuthorizationEqual(before, after)];
      }
    }

    // Gives the new entries their versions, in order.
    method Reissue(cs: seq<Credential>) returns (issued: seq<Credential>)
      modifies `lastVersion
      ensures (issued, lastVersion) == Reissued(old(Model()), cs, |cs|)
    {
      ghost var r := Model();
      issued := [];
      for index := 0 to |cs|
        invariant (issued, lastVersion) == Reissued(r, cs, index)
      {
        var before := Lookup(entries, cs[index].consumer);
        if AuthorizationEqual(before, Some(cs[index])) {
          issued := issued + [cs[index].(version := before.value.version)];
        } else {
          var version := IssueVersion();
          issued := issued + [cs[index].(version := version)];
        }
      }
    }

    method Reload(cs: seq<Credential>, now: Option<nat>) returns (result: Result)
      modifies this
      ensures listeners == old(listeners)
      ensures var (after, r, calls) := AuthRegistry.Reload(old(Model()), cs, now);
        Model() == after && result == r && called == old(called) + calls
    {
      hide EntriesValid, Reissued, AuthorizationEqual, Find;
      if !EntriesValid(cs, now) { return Invalid; }
      var flags := Affected(cs);
      ReloadCalls(Model(), cs, now, flags);
      entries := Reissue(cs);
      CallBack(flags);
      return Ok;
    }
  }
}
