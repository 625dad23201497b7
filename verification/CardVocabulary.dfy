/** The card vocabulary: an ascending list of passcodes and the dense ids it gives them. */
module CardVocabulary {
  import opened Bytes
  import opened Text
  import opened PublicActionDomain

  /** Non-zero passcodes in strictly ascending order. */
  predicate PasscodesOk(passcodes: seq<U32>) {
    && |passcodes| <= U32_MAX && (forall i :: 0 <= i < |passcodes| ==> passcodes[i] != 0)
    && forall i, j :: 0 <= i < j < |passcodes| ==> passcodes[i] < passcodes[j]
  }

  const SCHEMA_ID: string := "ocgforge.model_card_vocabulary.v1"
  const MAPPING_RULE: string := "ascending_public_passcode_rank_plus_two"
  const IDENTITY_PREFIX: string := "model_card_vocabulary.v1."

  /** The check a vocabulary goes through when it is made, and again when it is written. */
  method ValidatePasscodes(passcodes: seq<U32>) returns (ok: bool)
    ensures ok <==> PasscodesOk(passcodes)
  {
    if |passcodes| > U32_MAX {
      return false;
    }
    var previous: U32, havePrevious := 0, false;
    for i := 0 to |passcodes|
      invariant havePrevious <==> i > 0
      invariant i > 0 ==> previous == passcodes[i - 1]
      invariant forall j :: 0 <= j < i ==> passcodes[j] != 0
      invariant forall j, k :: 0 <= j < k < i ==> passcodes[j] < passcodes[k]
    {
      if passcodes[i] == 0 || (havePrevious && passcodes[i] <= previous) {
        return false;
      }
      previous, havePrevious := passcodes[i], true;
    }
    return true;
  }

  // ---------------------------------------------------------------- ids

  /** Two more than a passcode's rank; none for a passcode that is not listed, nor for a rank
      whose id would not fit. */
  function IdOf(passcodes: seq<U32>, passcode: U32): Option<U32> {
    if passcodes == [] then None
    else
      var last := |passcodes| - 1;
      if passcodes[last] != passcode then IdOf(passcodes[..last], passcode)
      else if last > U32_MAX - 2 then None
      else Some(last + 2)
  }

  function PasscodeOf(passcodes: seq<U32>, id: U32): Option<U32> {
    if 2 <= id < |passcodes| + 2 then Some(passcodes[id - 2]) else None
  }

  lemma {:induction false} IdIsRank(passcodes: seq<U32>, passcode: U32)
    ensures var r := IdOf(passcodes, passcode);
      r.Some? ==> 2 <= r.value < |passcodes| + 2 && passcodes[r.value - 2] == passcode
    ensures passcode !in passcodes ==> IdOf(passcodes, passcode).None?
  {
    if passcodes != [] {
      var init := passcodes[..|passcodes| - 1];
      IdIsRank(init, passcode);
      assert forall p :: p in init ==> p in passcodes;
    }
  }

  lemma {:induction false} RankHasId(passcodes: seq<U32>, i: nat)
    requires PasscodesOk(passcodes) && i < |passcodes|
    ensures IdOf(passcodes, passcodes[i]) == if i > U32_MAX - 2 then None else Some(i + 2)
  {
    if i < |passcodes| - 1 {
      var init := passcodes[..|passcodes| - 1];
      RankHasId(init, i);
      assert init[i] == passcodes[i] < passcodes[|passcodes| - 1];
    }
  }

  /** Ids and passcodes name each other. */
  lemma IdsAndPasscodes(passcodes: seq<U32>, passcode: U32, id: U32)
    requires PasscodesOk(passcodes)
    ensures IdOf(passcodes, passcode) == Some(id) <==> PasscodeOf(passcodes, id) == Some(passcode)
  {
    hide IdOf, PasscodesOk;
    IdIsRank(passcodes, passcode);
    if 2 <= id < |passcodes| + 2 {
      RankHasId(passcodes, id - 2);
    }
  }

  /** Ids keep the order of the passcodes and stay clear of the two reserved ones. */
  lemma IdsAscend(passcodes: seq<U32>, p: U32, q: U32)
    requires PasscodesOk(passcodes) && IdOf(passcodes, p).Some? && IdOf(passcodes, q).Some?
    ensures IdOf(passcodes, p).value >= 2
    ensures p < q <==> IdOf(passcodes, p).value < IdOf(passcodes, q).value
  {
    hide IdOf;
    IdIsRank(passcodes, p);
    IdIsRank(passcodes, q);
  }

  /** The library's binary search, then the two tests on what it found. */
  method IdForPublicPasscode(passcodes: seq<U32>, passcode: U32) returns (r: Option<U32>)
    requires PasscodesOk(passcodes)
    ensures r == IdOf(passcodes, passcode)
  {
    hide IdOf;
    var low, high := 0, |passcodes|;
    while low < high
      invariant 0 <= low <= high <= |passcodes|
      invariant forall i :: 0 <= i < low ==> passcodes[i] < passcode
      invariant forall i :: high <= i < |passcodes| ==> passcodes[i] >= passcode
    {
      var mid := (low + high) / 2;
      if passcodes[mid] < passcode {
        low := mid + 1;
      } else {
        high := mid;
      }
    }
    if low == |passcodes| || passcodes[low] != passcode {
      assert passcode !in passcodes;
      IdIsRank(passcodes, passcode);
      return None;
    }
    RankHasId(passcodes, low);
    return if low > U32_MAX - 2 then None else Some(low + 2);
  }

  // ---------------------------------------------------------------- identity

  /** The schema name, twice, and the name of the mapping rule. */
  function PutNames(schema: Bytes, rule: Bytes, k: Bytes): Bytes {
    PutString(schema, PutString(schema, PutString(rule, k)))
  }

  function VocabularyBytes(passcodes: seq<U32>): Bytes {
    PutNames(Ascii(SCHEMA_ID), Ascii(MAPPING_RULE), PutList(PutU32, passcodes, []))
  }

  function Identity(sha256: Bytes -> Bytes, passcodes: seq<U32>): Bytes {
    Ascii(IDENTITY_PREFIX) + sha256(VocabularyBytes(passcodes))
  }

  /** All that is used of the digest: it writes sixty-four lower-case hex digits. */
  ghost predicate IsDigest(sha256: Bytes -> Bytes) {
    forall b :: IsHexDigest(sha256(b))
  }

  lemma NamesSplit(schema: Bytes, rule: Bytes, k: Bytes, l: Bytes)
    requires |schema| <= U32_MAX && |rule| <= U32_MAX && PutNames(schema, rule, k) == PutNames(schema, rule, l)
    ensures k == l
  {
    hide PutString;
    TextSplits(schema, PutString(schema, PutString(rule, k)), schema, PutString(schema, PutString(rule, l)));
    TextSplits(schema, PutString(rule, k), schema, PutString(rule, l));
    TextSplits(rule, k, rule, l);
  }

  /** The identity's bytes name the list. */
  lemma VocabularyBytesAreInjective(p: seq<U32>, q: seq<U32>)
    requires |p| <= U32_MAX && |q| <= U32_MAX
    ensures VocabularyBytes(p) == VocabularyBytes(q) <==> p == q
  {
    hide PutNames, PutList, GetList, PutU32, GetU32;
    FieldLaws();
    ListIsRead(AnyOk, PutU32, GetU32, AnyCodes, p, []);
    ListIsRead(AnyOk, PutU32, GetU32, AnyCodes, q, []);
    if VocabularyBytes(p) == VocabularyBytes(q) {
      NamesSplit(Ascii(SCHEMA_ID), Ascii(MAPPING_RULE), PutList(PutU32, p, []), PutList(PutU32, q, []));
    }
  }

  predicate AnyCodes(a: U32, b: U32) {
    true
  }
}
