/** Encoding and batching together: the batches of encoded inputs, with the encoder's own
    validation as the one that batching asks. */
module BatchPipeline {
  import opened Bytes
  import opened CardVocabulary
  import opened EncodedInput
  import opened LogicalInput
  import opened ModelInputEncoder
  import opened ModelInputValidity
  import opened RaggedBatches
  import opened PaddedBatches
  import opened PaddedBatchRun

  /** What the encoded-input layer accepts. */
  ghost function Accepted(sha256: Bytes -> Bytes): EncodedModelInput -> bool {
    (e: EncodedModelInput) => EncodedOk(sha256, e)
  }

  /** It accepts only samples with a routing key for each candidate. */
  lemma AcceptedPairsKeys(sha256: Bytes -> Bytes)
    ensures PairsKeys(Accepted(sha256))
  {
    hide HeaderOk, RoutingOk, DomainDigestOk;
  }

  /** Valid logical inputs that encode under one vocabulary. */
  ghost predicate Encodable(sha256: Bytes -> Bytes, passcodes: seq<U32>, ls: seq<LogicalModelInput>) {
    forall i :: 0 <= i < |ls| ==> LogicalOk(sha256, ls[i]) && Encode(sha256, passcodes, ls[i]).Done?
  }

  ghost function EncodedAll(sha256: Bytes -> Bytes, passcodes: seq<U32>,
    ls: seq<LogicalModelInput>): (es: seq<EncodedModelInput>)
    requires Encodable(sha256, passcodes, ls)
    ensures |es| == |ls| && forall i :: 0 <= i < |ls| ==> es[i] == Encode(sha256, passcodes, ls[i]).value
  {
    seq(|ls|, i requires 0 <= i < |ls| && Encodable(sha256, passcodes, ls) => Encode(sha256, passcodes, ls[i]).value)
  }

  /** Encoded inputs batch, pad and come back: the batch is valid, so is what it is padded to,
      and the logical input at an index is recovered from the unpadded batch. */
  lemma EncodedInputsSurvive(sha256: Bytes -> Bytes, passcodes: seq<U32>, ls: seq<LogicalModelInput>, w: Widths, i: nat)
    requires IsDigest(sha256) && PasscodesOk(passcodes) && i < |ls| <= U32_MAX && Encodable(sha256, passcodes, ls)
    requires WidthsFit(RaggedOf(EncodedAll(sha256, passcodes, ls)).columns, |ls|, w) && SizesOk(|ls|, w)
    ensures var ragged := RaggedOf(EncodedAll(sha256, passcodes, ls));
      && RaggedOk(Accepted(sha256), ragged) && PaddedOk(Accepted(sha256), PadOf(ragged, w))
      && |UnpadOf(PadOf(ragged, w)).samples| == |ls|
      && LogicalOf(passcodes, SamplesOf(UnpadOf(PadOf(ragged, w)))[i]) == ls[i]
  {
    hide IsDigest, PasscodesOk, LogicalOk, EncodedOk, Encode, WidthsFit, SizesOk, RaggedOk, PaddedOk, PadOf,
      UnpadOf, RaggedOf, SamplesOf, PairsKeys, LogicalOf;
    var es := EncodedAll(sha256, passcodes, ls);
    AcceptedPairsKeys(sha256);
    forall j | 0 <= j < |es| ensures Accepted(sha256)(es[j]) {
      EncodingIsValid(sha256, passcodes, ls[j]);
    }
    BatchedIsValid(Accepted(sha256), es);
    BatchedCount(es);
    PadUndone(Accepted(sha256), RaggedOf(es), w);
    BatchedSampleSurvives(Accepted(sha256), es, w, i);
    EncodingUndone(sha256, passcodes, ls[i]);
  }
}
