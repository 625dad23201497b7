/** What is built from public action keys: the candidate-domain bytes, the decision-identity
    bytes, and the resolver that maps a chosen key back to the engine-side one. */
module PublicActionDomain {
  import opened Bytes
  import opened Text
  import opened Sorting
  import opened Writers
  import opened PublicAction
  import opened PublicActionKeys

  // ---------------------------------------------------------------- ordered candidate domains

  function DomainSchemaId(version: Version): string {
    match version
    case V1 => "ocgforge.public_candidate_domain.v1"
    case V2 => "ocgforge.public_candidate_domain.v2"
  }

  predicate AnyText(a: Bytes, b: Bytes) {
    true
  }

  function PutDomain(version: Version, kind: Bytes, keys: seq<Bytes>): Bytes {
    PutString(Ascii(DomainSchemaId(version)), PutString(kind, PutList(PutString, keys, [])))
  }

  ghost predicate KeysOk(version: Version, keys: seq<Bytes>) {
    Distinct(keys) && forall i :: 0 <= i < |keys| ==> IsPublicKey(version, keys[i])
  }

  predicate DomainFits(kind: Bytes, keys: seq<Bytes>) {
    |kind| <= U32_MAX && ListOk(TextRule(false), AnyText, keys)
  }

  ghost predicate DomainOk(version: Version, kind: Bytes, keys: seq<Bytes>) {
    IsLowerToken(kind) && keys != [] && KeysOk(version, keys) && DomainFits(kind, keys)
  }

  /** Neither the version, nor the request kind, nor the keys and their order can be confused. */
  lemma DomainBytesAreInjective(v: Version, kind: Bytes, keys: seq<Bytes>, w: Version, other: Bytes, others: seq<Bytes>)
    requires DomainFits(kind, keys) && DomainFits(other, others)
    ensures PutDomain(v, kind, keys) == PutDomain(w, other, others) <==> v == w && kind == other && keys == others
  {
    DomainNames();
    var a, b := Ascii(DomainSchemaId(v)), Ascii(DomainSchemaId(w));
    hide PutString, GetString, TextOk, PutList, GetList, Ascii, DomainSchemaId, ListOk;
    StringLaws(false);
    ListIsRead(TextRule(false), PutString, StringGetter(false), AnyText, keys, []);
    ListIsRead(TextRule(false), PutString, StringGetter(false), AnyText, others, []);
    ShortText(kind);
    ShortText(other);
    ShortText(a);
    ShortText(b);
    assert GetString(false, PutDomain(v, kind, keys)).value.0 == a;
    assert GetString(false, PutDomain(w, other, others)).value.0 == b;
  }

  lemma ShortText(s: Bytes)
    ensures TextOk(false, s) <==> |s| <= U32_MAX
  {
  }

  lemma DomainNames()
    ensures |Ascii(DomainSchemaId(V1))| == 35 == |Ascii(DomainSchemaId(V2))|
    ensures Ascii(DomainSchemaId(V1))[34] != Ascii(DomainSchemaId(V2))[34]
  {
  }

  method ValidKeys(version: Version, keys: seq<Bytes>) returns (ok: bool)
    ensures ok <==> KeysOk(version, keys)
  {
    hide IsPublicKey;
    for index := 0 to |keys|
      invariant forall j :: 0 <= j < index ==> IsPublicKey(version, keys[j])
      invariant forall i, j :: 0 <= i < j < index ==> keys[i] != keys[j]
    {
      var valid := IsPublicActionKey(version, keys[index]);
      if !valid {
        return false;
      }
      for previous := 0 to index
        invariant forall i :: 0 <= i < previous ==> keys[i] != keys[index]
      {
        if keys[index] == keys[previous] {
          return false;
        }
      }
    }
    return true;
  }

  method AppendKeys(w: Writer, keys: seq<Bytes>) returns (r: Option<()>)
    modifies w
    ensures r.Some? <==> ListOk(TextRule(false), AnyText, keys)
    ensures r.Some? ==> forall k :: w.bytes + k == old(w.bytes) + PutList(PutString, keys, k)
  {
    hide PutCount, PutString;
    var _ :- w.Count(|keys|);
    ghost var start := w.bytes;
    for i := 0 to |keys|
      invariant forall k :: w.bytes + PutMany(PutString, keys[i..], k) == start + PutMany(PutString, keys, k)
      invariant forall j :: 0 <= j < i ==> TextRule(false)(keys[j])
    {
      PutManyStep(PutString, keys, i);
      hide PutMany;
      var _ :- w.Text(keys[i]);
    }
    assert keys[|keys|..] == [];
    r := Some(());
  }

  /** The domain bytes of a token and a non-empty list of distinct public keys; anything else
      throws. */
  method CanonicalDomainBytes(version: Version, kind: Bytes, keys: seq<Bytes>) returns (r: Option<Bytes>)
    ensures r.Some? <==> DomainOk(version, kind, keys)
    ensures r.Some? ==> r.value == PutDomain(version, kind, keys)
  {
    DomainNames();
    var name := Ascii(DomainSchemaId(version));
    hide KeysOk, IsLowerToken, PutString, PutList, Ascii, DomainSchemaId, ListOk;
    if !IsLowerToken(kind) || keys == [] {
      return None;
    }
    var valid := ValidKeys(version, keys);
    if !valid {
      return None;
    }
    var w := new Writer();
    var named := w.Text(name);
    var _ :- w.Text(kind);
    var _ :- AppendKeys(w, keys);
    assert w.bytes + [] == w.bytes;
    assert [] + PutDomain(version, kind, keys) == PutDomain(version, kind, keys);
    r := Some(w.bytes);
  }

  // ---------------------------------------------------------------- decision identity

  datatype DecisionIdentity = DecisionIdentity(
    episodeId: Bytes, decisionIndex: U64, actingPlayer: Byte, requestKind: Bytes, observationDigest: Bytes,
    domainDigest: Bytes)

  /** In two parts: a literal this long is not read character by character. */
  function DecisionSchemaId(version: Version): string {
    match version
    case V1 => "ocgforge.public_semantic_" + "decision_identity.v1"
    case V2 => "ocgforge.public_semantic_" + "decision_identity.v2"
  }

  predicate IsHexByte(b: Byte) {
    '0' as int <= b <= '9' as int || 'a' as int <= b <= 'f' as int
  }

  predicate IsHexDigest(s: Bytes) {
    |s| == 64 && forall i :: 0 <= i < 64 ==> IsHexByte(s[i])
  }

  predicate DecisionOk(d: DecisionIdentity) {
    && IsHexDigest(d.episodeId) && d.actingPlayer <= 1 && IsLowerToken(d.requestKind) && |d.requestKind| <= U32_MAX
    && IsHexDigest(d.observationDigest) && IsHexDigest(d.domainDigest)
  }

  function PutDecisionFields(d: DecisionIdentity): Bytes {
    PutString(d.episodeId, PutU64(d.decisionIndex, PutU8(d.actingPlayer, PutString(d.requestKind,
    PutString(d.observationDigest, PutString(d.domainDigest, []))))))
  }

  function PutDecision(version: Version, d: DecisionIdentity): Bytes {
    PutString(Ascii(DecisionSchemaId(version)), PutString(Ascii(DecisionSchemaId(version)), PutDecisionFields(d)))
  }

  lemma DecisionNames()
    ensures |Ascii(DecisionSchemaId(V1))| == 45 == |Ascii(DecisionSchemaId(V2))|
    ensures Ascii(DecisionSchemaId(V1))[44] != Ascii(DecisionSchemaId(V2))[44]
  {
  }

  /** Equal texts followed by equal bytes: nothing can shift between the two. */
  lemma TextSplits(s: Bytes, k: Bytes, t: Bytes, l: Bytes)
    requires |s| <= U32_MAX && |t| <= U32_MAX && PutString(s, k) == PutString(t, l)
    ensures s == t && k == l
  {
    hide PutString, GetString;
    StringComplete(false, s, k);
    StringComplete(false, t, l);
  }

  lemma DecisionFieldsAreInjective(d: DecisionIdentity, e: DecisionIdentity)
    requires DecisionOk(d) && DecisionOk(e) && PutDecisionFields(d) == PutDecisionFields(e)
    ensures d == e
  {
    hide PutString, PutU64, GetU64, PutU8, GetU8, IsLowerToken, IsHexByte;
    FieldsComplete();
    var d3, e3 := PutString(d.domainDigest, []), PutString(e.domainDigest, []);
    var d2, e2 := PutString(d.observationDigest, d3), PutString(e.observationDigest, e3);
    var d1, e1 := PutString(d.requestKind, d2), PutString(e.requestKind, e2);
    TextSplits(d.episodeId, PutU64(d.decisionIndex, PutU8(d.actingPlayer, d1)), e.episodeId,
      PutU64(e.decisionIndex, PutU8(e.actingPlayer, e1)));
    TextSplits(d.requestKind, d2, e.requestKind, e2);
    TextSplits(d.observationDigest, d3, e.observationDigest, e3);
    TextSplits(d.domainDigest, [], e.domainDigest, []);
  }

  /** The bytes that are hashed into a decision identifier determine the decision. */
  lemma DecisionBytesAreInjective(v: Version, d: DecisionIdentity, w: Version, e: DecisionIdentity)
    requires DecisionOk(d) && DecisionOk(e)
    ensures PutDecision(v, d) == PutDecision(w, e) <==> v == w && d == e
  {
    hide DecisionOk, PutString, Ascii, DecisionSchemaId, PutDecisionFields;
    DecisionNames();
    var a, b := Ascii(DecisionSchemaId(v)), Ascii(DecisionSchemaId(w));
    if PutDecision(v, d) == PutDecision(w, e) {
      TextSplits(a, PutString(a, PutDecisionFields(d)), b, PutString(b, PutDecisionFields(e)));
      TextSplits(a, PutDecisionFields(d), b, PutDecisionFields(e));
      assert a[44] == b[44];
      DecisionFieldsAreInjective(d, e);
    }
  }

  method CanonicalDecisionBytes(version: Version, d: DecisionIdentity) returns (r: Option<Bytes>)
    ensures r == if DecisionOk(d) then Some(PutDecision(version, d)) else None
  {
    DecisionNames();
    var name := Ascii(DecisionSchemaId(version));
    hide PutString, PutU64, PutU8, Ascii, DecisionSchemaId, IsLowerToken, IsHexByte;
    if !IsHexDigest(d.episodeId) || d.actingPlayer > 1 || !IsLowerToken(d.requestKind)
       || !IsHexDigest(d.observationDigest) || !IsHexDigest(d.domainDigest) {
      return None;
    }
    var w := new Writer();
    var field := w.Text(name);
    field := w.Text(name);
    field := w.Text(d.episodeId);
    w.U64(d.decisionIndex);
    w.U8(d.actingPlayer);
    var _ :- w.Text(d.requestKind);
    field := w.Text(d.observationDigest);
    field := w.Text(d.domainDigest);
    assert w.bytes + [] == w.bytes;
    assert [] + PutDecision(version, d) == PutDecision(version, d);
    r := Some(w.bytes);
  }

  // ---------------------------------------------------------------- the resolver

  datatype Binding = Binding(publicKey: Bytes, internalKey: Bytes)

  function PublicKeyOf(b: Binding): Bytes {
    b.publicKey
  }

  ghost predicate BindingsOk(version: Version, bindings: seq<Binding>) {
    && KeysOk(version, Map(PublicKeyOf, bindings))
    && forall i :: 0 <= i < |bindings| ==> bindings[i].internalKey != []
  }

  /** What the resolver promises: an answer only for a bound public key among bindings that are
      all valid and pairwise distinct, and then the internal key bound to it. */
  ghost predicate Resolves(version: Version, bindings: seq<Binding>, key: Bytes, internalKey: Bytes) {
    IsPublicKey(version, key) && BindingsOk(version, bindings) && Binding(key, internalKey) in bindings
  }

  lemma ResolvesOnce(version: Version, bindings: seq<Binding>, i: nat, internalKey: Bytes)
    requires BindingsOk(version, bindings) && i < |bindings|
    ensures Resolves(version, bindings, bindings[i].publicKey, internalKey) <==> internalKey == bindings[i].internalKey
  {
    hide IsPublicKey;
    var keys := Map(PublicKeyOf, bindings);
    var key := bindings[i].publicKey;
    assert keys[i] == key && IsPublicKey(version, keys[i]);
    assert Binding(key, bindings[i].internalKey) == bindings[i];
    if Binding(key, internalKey) in bindings {
      var j :| 0 <= j < |bindings| && bindings[j] == Binding(key, internalKey);
      assert keys[j] == keys[i];
    }
  }

  method ResolvePublicActionKey(version: Version, bindings: seq<Binding>, key: Bytes) returns (r: Option<Bytes>)
    ensures r.Some? ==> Resolves(version, bindings, key, r.value)
    ensures r.None? ==> forall internalKey :: !Resolves(version, bindings, key, internalKey)
  {
    hide IsPublicKey;
    var valid := IsPublicActionKey(version, key);
    if !valid {
      return None;
    }
    ghost var keys := Map(PublicKeyOf, bindings);
    var resolved: Option<Bytes> := None;
    for index := 0 to |bindings|
      invariant forall j :: 0 <= j < index ==> IsPublicKey(version, keys[j]) && bindings[j].internalKey != []
      invariant forall i, j :: 0 <= i < j < index ==> keys[i] != keys[j]
      invariant resolved.Some? ==> Binding(key, resolved.value) in bindings
      invariant resolved.None? ==> forall j :: 0 <= j < index ==> bindings[j].publicKey != key
    {
      var binding := bindings[index];
      assert keys[index] == binding.publicKey;
      valid := IsPublicActionKey(version, binding.publicKey);
      if !valid || binding.internalKey == [] {
        return None;
      }
      for previous := 0 to index
        invariant forall i :: 0 <= i < previous ==> keys[i] != keys[index]
      {
        if binding.publicKey == bindings[previous].publicKey {
          assert keys[previous] == keys[index];
          return None;
        }
      }
      if binding.publicKey != key {
        continue;
      }
      assert binding == Binding(key, binding.internalKey);
      resolved := Some(binding.internalKey);
    }
    return resolved;
  }
}
