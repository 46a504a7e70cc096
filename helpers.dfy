/** The decoding helpers of the server: the decoder configuration fixed when
    the module is loaded, and `decode_logits`, which runs the greedy decoder and
    then the beam-search decoder on the same logits and keeps the top candidate
    of the first batch element of each. The decoders themselves are external:
    they appear here as functions supplied by the caller. */
module Helpers {
  import opened Wrappers
  import opened NdArrays

  const LANGUAGE_MODEL_PATH: string := "./server/ngram_model/4gram_small.bin"
  const BEAM_WIDTH: nat := 10
  const PAD_TOKEN: string := "<pad>"
  const CUTOFF_TOP_N: nat := 40
  const CUTOFF_PROB: real := 1.0
  const NUM_PROCESSES: nat := 8

  /** Python's `list.index`: the position of the first occurrence, if any. */
  function IndexOf(s: seq<string>, x: string): (r: Option<nat>)
    ensures r.None? <==> x !in s
    ensures r.Some? ==> r.value < |s| && s[r.value] == x
    ensures r.Some? ==> forall k :: 0 <= k < r.value ==> s[k] != x
  {
    if s == [] then None
    else if s[0] == x then Some(0)
    else match IndexOf(s[1..], x)
      case None => None
      case Some(k) => Some(k + 1)
  }

  /** Arguments the greedy decoder is built with. */
  datatype GreedyConfig = GreedyConfig(labels: seq<string>, blankIndex: nat)

  /** Arguments the beam-search decoder is built with. */
  datatype BeamConfig = BeamConfig(
    labels: seq<string>,
    lmPath: string,
    cutoffTopN: nat,
    cutoffProb: real,
    beamWidth: nat,
    numProcesses: nat,
    blankIndex: nat)

  /** What a decoder returns for a batch: per batch element, the ranked
      candidate transcripts and, for each candidate, its character offsets. */
  datatype DecoderOutput = DecoderOutput(transcripts: seq<seq<string>>, offsets: seq<seq<seq<int>>>)

  /** A decoder's `decode`, which may raise (the error carries its message). */
  type Decoder<!T> = NdArray<T> -> Result<DecoderOutput, string>

  /** The two decoder instances created when the module is loaded. */
  datatype Decoders<!T> = Decoders(
    greedyConfig: GreedyConfig,
    beamConfig: BeamConfig,
    greedy: Decoder<T>,
    beam: Decoder<T>)

  datatype DecoderKind = Greedy | Beam

  /** The `[0][0]` selections of `decode_logits`, in the order they run. */
  datatype Selection = GreedyOffsets | GreedyTranscript | BeamOffsets | BeamTranscript

  datatype HelperError =
    | PadTokenMissing                               // `list.index` raises ValueError
    | DecoderRaised(kind: DecoderKind, message: string)
    | IndexOutOfRange(selection: Selection)         // IndexError at `[0][0]`

  /** Building the module's decoders: both get the vocabulary and, as blank
      index, the first position of the pad token; the beam decoder also gets the
      fixed language-model path and search parameters. The decoder behaviour
      for a configuration is supplied by `greedyImpl` and `beamImpl`. */
  function LoadDecoders<T>(
    vocab: seq<string>,
    greedyImpl: GreedyConfig -> Decoder<T>,
    beamImpl: BeamConfig -> Decoder<T>): (r: Result<Decoders<T>, HelperError>)
    ensures r.Failure? <==> PAD_TOKEN !in vocab
    ensures r.Failure? ==> r.error == PadTokenMissing
    ensures r.Success? ==>
      var d := r.value;
      && d.greedyConfig.blankIndex == d.beamConfig.blankIndex
      && d.beamConfig.blankIndex < |vocab|
      && vocab[d.beamConfig.blankIndex] == PAD_TOKEN
      && (forall k :: 0 <= k < d.beamConfig.blankIndex ==> vocab[k] != PAD_TOKEN)
      && d.greedyConfig.labels == vocab && d.beamConfig.labels == vocab
      && d.beamConfig.lmPath == LANGUAGE_MODEL_PATH
      && d.beamConfig.beamWidth == 10 && d.beamConfig.cutoffTopN == 40
      && d.beamConfig.cutoffProb == 1.0 && d.beamConfig.numProcesses == 8
      && d.greedy == greedyImpl(d.greedyConfig) && d.beam == beamImpl(d.beamConfig)
  {
    match IndexOf(vocab, PAD_TOKEN)
    case None => Failure(PadTokenMissing)
    case Some(blank) =>
      var beamConfig := BeamConfig(vocab, LANGUAGE_MODEL_PATH, CUTOFF_TOP_N, CUTOFF_PROB,
                                   BEAM_WIDTH, NUM_PROCESSES, blank);
      var greedyConfig := GreedyConfig(vocab, blank);
      Success(Decoders(greedyConfig, beamConfig, greedyImpl(greedyConfig), beamImpl(beamConfig)))
  }

  /** Element `[0][0]` of a batch of ranked candidates, or the IndexError
      raised when the batch or its first candidate list is empty. */
  function TopOfFirst<X>(batch: seq<seq<X>>, selection: Selection): (r: Result<X, HelperError>)
    ensures r.Success? <==> |batch| > 0 && |batch[0]| > 0
    ensures r.Success? ==> r.value == batch[0][0]
    ensures r.Failure? ==> r.error == IndexOutOfRange(selection)
  {
    if |batch| > 0 && |batch[0]| > 0 then Success(batch[0][0]) else Failure(IndexOutOfRange(selection))
  }

  /** Runs one decoder, turning what it raises into a `DecoderRaised` error. */
  function Run<T>(decoder: Decoder<T>, kind: DecoderKind, logits: NdArray<T>): (r: Result<DecoderOutput, HelperError>)
  {
    match decoder(logits)
    case Success(out) => Success(out)
    case Failure(message) => Failure(DecoderRaised(kind, message))
  }

  /** The triple `decode_logits` returns. */
  datatype Decoded = Decoded(greedyTrans: string, beamTrans: string, beamOffsets: seq<int>)

  /** `decode_logits`: greedy decoding, then beam decoding, of the same logits;
      the greedy offsets are selected (and may fail) but are not returned. */
  function DecodeLogits<T>(d: Decoders<T>, logits: NdArray<T>): (r: Result<Decoded, HelperError>)
  {
    var greedyOut :- Run(d.greedy, Greedy, logits);
    var _ :- TopOfFirst(greedyOut.offsets, GreedyOffsets);
    var greedyTrans :- TopOfFirst(greedyOut.transcripts, GreedyTranscript);
    var beamOut :- Run(d.beam, Beam, logits);
    var beamOffsets :- TopOfFirst(beamOut.offsets, BeamOffsets);
    var beamTrans :- TopOfFirst(beamOut.transcripts, BeamTranscript);
    Success(Decoded(greedyTrans, beamTrans, beamOffsets))
  }

  /** A decoder output whose first batch element has a top candidate, with
      offsets for it. */
  predicate HasTop(out: DecoderOutput)
  {
    |out.transcripts| > 0 && |out.transcripts[0]| > 0 && |out.offsets| > 0 && |out.offsets[0]| > 0
  }

  /** `decode_logits` succeeds exactly when both decoders succeed with a top
      candidate, and then returns the greedy top transcript, the beam top
      transcript and the beam top offsets, unchanged. */
  lemma DecodeLogitsSuccess<T>(d: Decoders<T>, logits: NdArray<T>)
    ensures DecodeLogits(d, logits).Success? <==>
      d.greedy(logits).Success? && HasTop(d.greedy(logits).value) &&
      d.beam(logits).Success? && HasTop(d.beam(logits).value)
    ensures DecodeLogits(d, logits).Success? ==>
      DecodeLogits(d, logits).value == Decoded(
        d.greedy(logits).value.transcripts[0][0],
        d.beam(logits).value.transcripts[0][0],
        d.beam(logits).value.offsets[0][0])
  {
  }

  /** An error raised by either decoder is the error of `decode_logits`, the
      greedy one taking precedence since it runs first. */
  lemma DecoderErrorsPropagate<T>(d: Decoders<T>, logits: NdArray<T>)
    ensures d.greedy(logits).Failure? ==>
      DecodeLogits(d, logits) == Failure(DecoderRaised(Greedy, d.greedy(logits).error))
    ensures d.greedy(logits).Success? && HasTop(d.greedy(logits).value) && d.beam(logits).Failure? ==>
      DecodeLogits(d, logits) == Failure(DecoderRaised(Beam, d.beam(logits).error))
  {
  }

  /** An empty batch or candidate list is an IndexError, reported at the first
      selection that fails; there is no placeholder result. */
  lemma EmptyResultsFail<T>(d: Decoders<T>, logits: NdArray<T>)
    ensures d.greedy(logits).Success? && d.greedy(logits).value.offsets == [] ==>
      DecodeLogits(d, logits) == Failure(IndexOutOfRange(GreedyOffsets))
    ensures
      (&& d.greedy(logits).Success? && HasTop(d.greedy(logits).value)
       && d.beam(logits).Success? && d.beam(logits).value.transcripts == []
       && |d.beam(logits).value.offsets| > 0 && |d.beam(logits).value.offsets[0]| > 0)
      ==> DecodeLogits(d, logits) == Failure(IndexOutOfRange(BeamTranscript))
  {
  }

  /** When the greedy path fails, the beam decoder is never consulted: the
      result is the same whichever beam decoder is installed. */
  lemma GreedyFailureSkipsBeam<T>(d: Decoders<T>, otherBeam: Decoder<T>, logits: NdArray<T>)
    requires DecodeLogits(d, logits).Failure?
    requires !(d.greedy(logits).Success? && HasTop(d.greedy(logits).value))
    ensures DecodeLogits(d.(beam := otherBeam), logits) == DecodeLogits(d, logits)
  {
  }

  /** All or nothing: when the beam path fails after greedy decoding
      succeeded, the whole call fails. */
  lemma BeamFailureFailsAll<T>(d: Decoders<T>, logits: NdArray<T>)
    requires d.greedy(logits).Success? && HasTop(d.greedy(logits).value)
    requires !(d.beam(logits).Success? && HasTop(d.beam(logits).value))
    ensures DecodeLogits(d, logits).Failure?
    ensures d.beam(logits).Failure? ==> DecodeLogits(d, logits).error == DecoderRaised(Beam, d.beam(logits).error)
    ensures d.beam(logits).Success? ==> DecodeLogits(d, logits).error in {IndexOutOfRange(BeamOffsets), IndexOutOfRange(BeamTranscript)}
  {
  }

  /** Independence: the greedy transcript does not depend on the beam decoder,
      and the beam transcript and offsets do not depend on the greedy one. */
  lemma DecodersIndependent<T>(d: Decoders<T>, otherGreedy: Decoder<T>, otherBeam: Decoder<T>, logits: NdArray<T>)
    requires DecodeLogits(d, logits).Success?
    ensures DecodeLogits(d.(beam := otherBeam), logits).Success? ==>
      DecodeLogits(d.(beam := otherBeam), logits).value.greedyTrans == DecodeLogits(d, logits).value.greedyTrans
    ensures DecodeLogits(d.(greedy := otherGreedy), logits).Success? ==>
      DecodeLogits(d.(greedy := otherGreedy), logits).value.beamTrans == DecodeLogits(d, logits).value.beamTrans &&
      DecodeLogits(d.(greedy := otherGreedy), logits).value.beamOffsets == DecodeLogits(d, logits).value.beamOffsets
  {
  }

  /** The greedy offsets are dropped: two greedy decoders that agree on the
      transcripts and both have some top offsets give the same result. */
  lemma GreedyOffsetsDropped<T>(d: Decoders<T>, otherGreedy: Decoder<T>, logits: NdArray<T>)
    requires d.greedy(logits).Success? && otherGreedy(logits).Success?
    requires d.greedy(logits).value.transcripts == otherGreedy(logits).value.transcripts
    requires HasTop(d.greedy(logits).value) && HasTop(otherGreedy(logits).value)
    ensures DecodeLogits(d.(greedy := otherGreedy), logits) == DecodeLogits(d, logits)
  {
  }
}
