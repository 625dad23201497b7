/** The encoder as it runs: validate, push every part, validate again. */
module ModelInputEncoding {
  import opened Bytes
  import opened Sorting
  import opened PublicAction
  import opened PublicActionKeys
  import opened PublicActionDomain
  import opened SafeState
  import opened EncodedState
  import opened CardVocabulary
  import opened EncodedInput
  import opened LogicalInput
  import opened ModelInputChecks
  import opened ModelInputEncoder
  import opened ModelInputValidity

  // ---------------------------------------------------------------- pushing the parts

  method PushAll<A, B>(f: A -> B, xs: seq<A>) returns (ys: seq<B>)
    ensures ys == Map(f, xs)
  {
    ys := [];
    for i := 0 to |xs|
      invariant |ys| == i && forall j :: 0 <= j < i ==> ys[j] == f(xs[j])
    {
      ys := ys + [f(xs[i])];
    }
  }

  method VocabularyId(passcodes: seq<U32>, passcode: U32) returns (r: Attempt<U32>)
    requires PasscodesOk(passcodes)
    ensures r == EncodeCode(passcodes, passcode)
  {
    hide IdOf, PasscodesOk;
    var id := IdForPublicPasscode(passcodes, passcode);
    if id.None? || id.value < 2 {
      return Failed(UnknownPasscode);
    }
    return Done(id.value);
  }

  lemma EachPrefix<A, B>(f: A -> Attempt<B>, xs: seq<A>, i: nat)
    requires i < |xs| && Each(f, xs[..i]).Done?
    ensures f(xs[i]).Failed? ==> Each(f, xs) == Failed(f(xs[i]).fault)
    ensures f(xs[i]).Done? ==> Each(f, xs[..i + 1]) == Done(Each(f, xs[..i]).value + [f(xs[i]).value])
  {
    if f(xs[i]).Failed? {
      EachStops(f, xs, i);
    }
    assert xs[..i + 1][..i] == xs[..i];
  }

  method EncodeCodes(passcodes: seq<U32>, codes: seq<U32>) returns (r: Attempt<seq<U32>>)
    requires PasscodesOk(passcodes)
    ensures r == Each(CodeEncoder(passcodes), codes)
  {
    hide PasscodesOk, EncodeCode;
    var ids: seq<U32> := [];
    for i := 0 to |codes|
      invariant Each(CodeEncoder(passcodes), codes[..i]) == Done(ids)
    {
      EachPrefix(CodeEncoder(passcodes), codes, i);
      var id :- VocabularyId(passcodes, codes[i]);
      ids := ids + [id];
    }
    assert codes[..|codes|] == codes;
    return Done(ids);
  }

  method EncodeEntities(passcodes: seq<U32>, es: seq<LogicalEntity>) returns (r: Attempt<seq<Entity<nat>>>)
    requires PasscodesOk(passcodes)
    ensures r == Each(EntityEncoder(passcodes), es)
  {
    hide PasscodesOk, EncodeCode, EntityWith;
    var encoded: seq<Entity<nat>> := [];
    for i := 0 to |es|
      invariant Each(EntityEncoder(passcodes), es[..i]) == Done(encoded)
    {
      EachPrefix(EntityEncoder(passcodes), es, i);
      var id: U32 := UNKNOWN_ID;
      if es[i].card.identityKnown {
        if es[i].card.passcode.None? {
          return Failed(InvalidLogical);
        }
        id :- VocabularyId(passcodes, es[i].card.passcode.value);
      }
      encoded := encoded + [EntityWith(es[i], id)];
    }
    assert es[..|es|] == es;
    return Done(encoded);
  }

  method EncodeEvents(passcodes: seq<U32>, es: seq<LogicalEvent>) returns (r: Attempt<seq<Event<nat>>>)
    requires PasscodesOk(passcodes)
    ensures r == Each(EventEncoder(passcodes), es)
  {
    hide PasscodesOk, EncodeCode, EventWith;
    var encoded: seq<Event<nat>> := [];
    for i := 0 to |es|
      invariant Each(EventEncoder(passcodes), es[..i]) == Done(encoded)
    {
      EachPrefix(EventEncoder(passcodes), es, i);
      var id: Option<U32> := None;
      if es[i].publicPasscode.Some? {
        var known :- VocabularyId(passcodes, es[i].publicPasscode.value);
        id := Some(known);
      }
      encoded := encoded + [EventWith(es[i], id)];
    }
    assert es[..|es|] == es;
    return Done(encoded);
  }

  method EncodeCandidates(cs: seq<LogicalCandidate>) returns (r: Attempt<seq<EncodedCandidate>>)
    ensures r == Each(EncodeCandidate, cs)
  {
    hide EncodeCandidate;
    var encoded: seq<EncodedCandidate> := [];
    for i := 0 to |cs|
      invariant Each(EncodeCandidate, cs[..i]) == Done(encoded)
    {
      EachPrefix(EncodeCandidate, cs, i);
      var candidate :- EncodeCandidate(cs[i]);
      encoded := encoded + [candidate];
    }
    assert cs[..|cs|] == cs;
    return Done(encoded);
  }

  method EncodeDecks(passcodes: seq<U32>, m: MatchContext) returns (r: Attempt<EncodedContext>)
    requires PasscodesOk(passcodes)
    ensures r == EncodeContext(passcodes, m)
  {
    hide PasscodesOk, Each;
    var ownMain :- EncodeCodes(passcodes, m.ownDeck.mainDeck);
    var ownExtra :- EncodeCodes(passcodes, m.ownDeck.extraDeck);
    var opponentMain :- EncodeCodes(passcodes, m.opponentDeck.mainDeck);
    var opponentExtra :- EncodeCodes(passcodes, m.opponentDeck.extraDeck);
    return Done(EncodedContext(m.perspectivePlayer, m.duelFlags, m.ownDecklistKnown, m.opponentDecklistKnown,
      Deck(m.ownDeck.known, ownMain, ownExtra), Deck(m.opponentDeck.known, opponentMain, opponentExtra)));
  }

  method EncodeUnchecked(sha256: Bytes -> Bytes, passcodes: seq<U32>, l: LogicalModelInput)
    returns (r: Attempt<EncodedModelInput>)
    requires PasscodesOk(passcodes)
    ensures r == Encode(sha256, passcodes, l)
  {
    hide PasscodesOk, Each, EncodeContext, Map, Identity, KindCode;
    var s := l.state;
    var table := PushAll(ValueOf(), l.table);
    var references := PushAll(OrdinalOf(), l.references);
    var zones := PushAll(EncodeZone, s.zones);
    var entities :- EncodeEntities(passcodes, s.entities);
    var relationships := PushAll(EncodeRelationship, s.relationships);
    var links := PushAll(EncodeLink, s.links);
    var events :- EncodeEvents(passcodes, s.events);
    var context :- EncodeDecks(passcodes, s.context);
    var candidates :- EncodeCandidates(l.candidates);
    var state := State(references, s.globals, zones, entities, relationships, s.chainLength, links, events, context);
    return Done(EncodedModelInput(Identity(sha256, passcodes), l.observationDigest, l.perspectivePlayer,
      l.decisionIndex,
      table, KindCode(l.contextKind), l.contextPlayer, state, l.domainDigest, candidates, l.routingKeys));
  }

  // ---------------------------------------------------------------- validating

  method ValidateDigest(sha256: Bytes -> Bytes, kind: Option<Bytes>, keys: seq<Bytes>, digest: Option<Bytes>)
    returns (ok: bool)
    ensures ok <==> LogicalDigestOk(sha256, kind, keys, digest)
  {
    hide DomainOk, PutDomain;
    if kind.None? {
      return digest.None?;
    }
    if digest.None? {
      return false;
    }
    var bytes := CanonicalDomainBytes(V1, kind.value, keys);
    return bytes.Some? && digest.value == sha256(bytes.value);
  }

  lemma OneMoreKey(keys: seq<Bytes>, i: nat)
    requires i < |keys| && KeysOk(V1, keys[..i])
    ensures KeysOk(V1, keys[..i + 1]) <==> IsPublicKey(V1, keys[i]) && keys[i] !in keys[..i]
    ensures KeysOk(V1, keys) ==> KeysOk(V1, keys[..i + 1])
  {
    hide IsPublicKey;
    assert keys[..i + 1] == keys[..i] + [keys[i]];
  }

  predicate CandidateChecked(l: LogicalModelInput, i: nat)
    requires i < |l.candidates| == |l.routingKeys|
  {
    LogicalCandidateOk(l.table, l.state.entities, l.candidates[i]) && KeyMatches(l.candidates[i], l.routingKeys[i])
  }

  method ValidateCandidate(l: LogicalModelInput, i: nat) returns (ok: bool)
    requires i < |l.candidates| == |l.routingKeys| && KeysOk(V1, l.routingKeys[..i])
    ensures ok <==> CandidateChecked(l, i) && KeysOk(V1, l.routingKeys[..i + 1])
  {
    hide KeysOk, IsPublicKey, ActionOk, KeyOf, LogicalCandidateOk, LogicalAction;
    OneMoreKey(l.routingKeys, i);
    var key := l.routingKeys[i];
    var public := IsPublicActionKey(V1, key);
    if !public || key in l.routingKeys[..i] || !LogicalCandidateOk(l.table, l.state.entities, l.candidates[i]) {
      return false;
    }
    var expected := PublicActionKey(V1, LogicalAction(l.candidates[i]));
    return expected == Some(key);
  }

  /** The candidate loop, with the keys seen so far. */
  method ValidateCandidates(l: LogicalModelInput) returns (ok: bool)
    requires |l.candidates| == |l.routingKeys|
    ensures ok <==> KeysOk(V1, l.routingKeys) && forall i :: 0 <= i < |l.candidates| ==> CandidateChecked(l, i)
  {
    hide KeysOk, IsPublicKey, CandidateChecked;
    ghost var keys := l.routingKeys;
    NoKeys();
    assert keys[..0] == [];
    for index := 0 to |l.candidates|
      invariant KeysOk(V1, keys[..index]) && forall i :: 0 <= i < index ==> CandidateChecked(l, i)
    {
      OneMoreKey(keys, index);
      var valid := ValidateCandidate(l, index);
      if !valid {
        return false;
      }
    }
    assert keys[..|keys|] == keys;
    return true;
  }

  lemma CheckedIsOk(l: LogicalModelInput)
    ensures LogicalCandidatesOk(l.table, l.state.entities, l.candidates, l.routingKeys)
      <==> 0 < |l.candidates| == |l.routingKeys| <= U32_MAX && forall i :: 0 <= i < |l.candidates| ==>
        CandidateChecked(l, i)
  {
    hide LogicalCandidateOk, KeyMatches;
    if |l.candidates| == |l.routingKeys| && forall i :: 0 <= i < |l.candidates| ==> CandidateChecked(l, i) {
      forall i | 0 <= i < |l.candidates|
        ensures LogicalCandidateOk(l.table, l.state.entities, l.candidates[i])
          && KeyMatches(l.candidates[i], l.routingKeys[i])
      {
        assert CandidateChecked(l, i);
      }
    }
  }

  method ValidateLogical(sha256: Bytes -> Bytes, l: LogicalModelInput) returns (ok: bool)
    ensures ok <==> LogicalOk(sha256, l)
  {
    hide KeysOk, LogicalStateOk, LogicalHeaderOk, LogicalDigestOk, LogicalCandidatesOk, CandidateChecked;
    CheckedIsOk(l);
    if l.candidates == [] || |l.candidates| > U32_MAX || |l.candidates| != |l.routingKeys| {
      return false;
    }
    var valid := HeaderIsOk(l);
    if !valid {
      return false;
    }
    valid := LogicalStateIsOk(l.table, l.perspectivePlayer, l.state);
    if !valid {
      return false;
    }
    valid := ValidateCandidates(l);
    if !valid {
      return false;
    }
    ok := ValidateDigest(sha256, l.contextKind, l.routingKeys, l.domainDigest);
  }

  lemma NoKeys()
    ensures KeysOk(V1, [])
  {
  }

  method ValidateRouting(e: EncodedModelInput, i: nat) returns (ok: bool)
    requires i < |e.candidates| == |e.routingKeys|
    ensures ok <==> RoutingOk(e.table, e.state.entities, e.candidates[i], e.routingKeys[i])
  {
    hide ActionOk, KeyOf, ActionOf, CandidateOk;
    if !CandidateOk(|e.table|, e.state.entities, e.candidates[i]) {
      return false;
    }
    var key := PublicActionKey(V1, ActionOf(e.table, e.state.entities, e.candidates[i]));
    return key == Some(e.routingKeys[i]);
  }

  method ValidateEncoded(sha256: Bytes -> Bytes, e: EncodedModelInput) returns (ok: bool)
    ensures ok <==> EncodedOk(sha256, e)
  {
    hide KeysOk, StateOk, HeaderOk, RoutingOk, DomainOk, PutDomain, DigestOk, RequestKindBytes;
    if e.candidates == [] || |e.candidates| != |e.routingKeys| || |e.routingKeys| > U32_MAX {
      return false;
    }
    var valid := EncodedHeaderIsOk(e);
    if !valid {
      return false;
    }
    valid := StateIsOk(e.table, e.perspectivePlayer, e.state);
    if !valid {
      return false;
    }
    valid := ValidKeys(V1, e.routingKeys);
    if !valid {
      return false;
    }
    for index := 0 to |e.candidates|
      invariant forall i :: 0 <= i < index ==> RoutingOk(e.table, e.state.entities, e.candidates[i], e.routingKeys[i])
    {
      var routed := ValidateRouting(e, index);
      if !routed {
        return false;
      }
    }
    if e.domainDigest.Some? && !DigestOk(e.domainDigest.value) && e.contextKindCode.Some? {
      return false;
    }
    ok := ValidateDigest(sha256, MapOption(RequestKindBytes, e.contextKindCode), e.routingKeys, e.domainDigest);
  }

  // ---------------------------------------------------------------- the entry point

  datatype EncodeError = InvalidLogicalModelInput | UnknownPublicPasscode | InvalidEncodedModelInput | InternalFailure

  datatype EncodeResult = EncodedInput(value: EncodedModelInput) | EncodeFailed(error: EncodeError)

  function ErrorOf(fault: Fault): EncodeError {
    match fault
    case InvalidLogical => InvalidLogicalModelInput
    case UnknownPasscode => UnknownPublicPasscode
  }

  /** A valid input with a vocabulary that names every identity it shows is encoded, into a
      valid encoded input; every other outcome says which of its conditions failed, and the
      check on the result is never one of them. */
  method EncodeModelInput(sha256: Bytes -> Bytes, l: LogicalModelInput, passcodes: seq<U32>) returns (r: EncodeResult)
    requires IsDigest(sha256)
    ensures r.EncodedInput? <==> LogicalOk(sha256, l) && PasscodesOk(passcodes) && AllNamed(passcodes, l.state)
    ensures r.EncodedInput? ==> Encode(sha256, passcodes, l) == Done(r.value) && EncodedOk(sha256, r.value)
    ensures r == EncodeFailed(InvalidLogicalModelInput) <==>
      !LogicalOk(sha256, l) || (PasscodesOk(passcodes) && !AllNamed(passcodes, l.state)
        && exists i :: Nameless(passcodes, l.state.entities, i))
    ensures r != EncodeFailed(InvalidEncodedModelInput)
  {
    hide IsDigest, LogicalOk, PasscodesOk, AllNamed, Encode, EncodedOk;
    var valid := ValidateLogical(sha256, l);
    if !valid {
      return EncodeFailed(InvalidLogicalModelInput);
    }
    valid := ValidatePasscodes(passcodes);
    if !valid {
      return EncodeFailed(InternalFailure);
    }
    EncodesIffNamed(sha256, passcodes, l);
    var encoded := EncodeUnchecked(sha256, passcodes, l);
    if encoded.Failed? {
      FaultIsFirst(sha256, passcodes, l);
      return EncodeFailed(ErrorOf(encoded.fault));
    }
    EncodingIsValid(sha256, passcodes, l);
    valid := ValidateEncoded(sha256, encoded.value);
    return if valid then EncodedInput(encoded.value) else EncodeFailed(InvalidEncodedModelInput);
  }
}
