/** The `Decode` endpoint of the decoder service: reshape the request's flat
    data to its shape, decode it with the module's decoders, and pack the
    three results into a `Transcription`. The servicer has no fields and the
    endpoint changes nothing, so it is a function of the decoders and the
    request. */
module Server {
  import opened Wrappers
  import opened NdArrays
  import opened Helpers

  /** The `Logits` request message. */
  datatype Logits<T> = Logits(shape: seq<int>, data: seq<T>)

  /** The `Transcription` response message. */
  datatype Transcription = Transcription(greedyTrans: string, beamTrans: string, beamDecodedOffsets: seq<int>)

  /** What escapes `Decode`: nothing is caught. */
  datatype ServerError = ReshapeFailed(reshapeError: ReshapeError) | DecodeFailed(helperError: HelperError)

  function Decode<T>(d: Decoders<T>, request: Logits<T>): (r: Result<Transcription, ServerError>)
    ensures Reshape(request.shape, request.data).Failure? ==>
      r == Failure(ReshapeFailed(Reshape(request.shape, request.data).error))
    ensures Reshape(request.shape, request.data).Success? ==>
      var logits := Reshape(request.shape, request.data).value;
      match DecodeLogits(d, logits)
      case Failure(e) => r == Failure(DecodeFailed(e))
      case Success(out) =>
        r == Success(Transcription(out.greedyTrans, out.beamTrans, out.beamOffsets))
  {
    var logits :- MapError(Reshape(request.shape, request.data));
    match DecodeLogits(d, logits)
    case Failure(e) => Failure(DecodeFailed(e))
    case Success(Decoded(gt, bt, bdo)) => Success(Transcription(gt, bt, bdo))
  }

  function MapError<T>(r: Result<NdArray<T>, ReshapeError>): (mapped: Result<NdArray<T>, ServerError>)
  {
    match r
    case Success(a) => Success(a)
    case Failure(e) => Failure(ReshapeFailed(e))
  }

  /** A rejected shape is reported before any decoding: the outcome is the same
      whichever decoders are installed. */
  lemma ReshapeFailureSkipsDecoders<T>(d: Decoders<T>, other: Decoders<T>, request: Logits<T>)
    requires Reshape(request.shape, request.data).Failure?
    ensures Decode(d, request).Failure? && Decode(d, request).error.ReshapeFailed?
    ensures Decode(other, request) == Decode(d, request)
  {
  }

  /** A 2-D request whose data is not `t * v` long is rejected with the
      element count and the shape; no rank check is made, so the same holds
      of any shape without negative entries whose product differs from the
      data length. */
  lemma MismatchedRequestRejected<T>(d: Decoders<T>, request: Logits<T>)
    requires CountUnknown(request.shape) == 0 && Product(request.shape) != |request.data|
    ensures Decode(d, request) == Failure(ReshapeFailed(SizeMismatch(|request.data|, request.shape)))
  {
  }

  /** The response's fields are, in order, the greedy transcript, the beam
      transcript and the beam offsets that the decoders put first, and the
      call succeeds only when the shape fits and both decoders deliver. */
  lemma DecodeSuccess<T>(d: Decoders<T>, request: Logits<T>)
    ensures Decode(d, request).Success? <==>
      Reshape(request.shape, request.data).Success? &&
      DecodeLogits(d, Reshape(request.shape, request.data).value).Success?
    ensures Decode(d, request).Success? ==>
      var logits := Reshape(request.shape, request.data).value;
      && d.greedy(logits).Success? && d.beam(logits).Success?
      && Decode(d, request).value == Transcription(
           d.greedy(logits).value.transcripts[0][0],
           d.beam(logits).value.transcripts[0][0],
           d.beam(logits).value.offsets[0][0])
  {
    if Reshape(request.shape, request.data).Success? {
      DecodeLogitsSuccess(d, Reshape(request.shape, request.data).value);
    }
  }

  /** End to end: a `t` by `v` matrix flattened by the client and sent with
      shape `[t, v]` reaches the decoders as an array whose rows are exactly
      the matrix's rows. */
  lemma ClientRequestRoundTrip<T>(d: Decoders<T>, m: seq<seq<T>>, t: nat, v: nat)
    requires IsMatrix(m, t, v)
    ensures var request := Logits([t, v], Flatten(m));
      && Reshape(request.shape, request.data).Success?
      && Rows(Reshape(request.shape, request.data).value) == m
      && Decode(d, request) == match DecodeLogits(d, Reshape(request.shape, request.data).value)
           case Failure(e) => Failure(DecodeFailed(e))
           case Success(out) => Success(Transcription(out.greedyTrans, out.beamTrans, out.beamOffsets))
  {
    ReshapeFlattenRoundTrip(m, t, v);
  }

  /** The smallest valid request, one timestep over one class, reaches the
      decoders; one element short of `t * v` is a size mismatch. */
  lemma BoundaryRequests<T>(d: Decoders<T>, x: T, data: seq<T>, t: nat, v: nat)
    requires |data| + 1 == t * v
    ensures Reshape([1, 1], [x]).Success?
    ensures Decode(d, Logits([t, v], data)) == Failure(ReshapeFailed(SizeMismatch(|data|, [t, v])))
  {
    Reshape2DAccepts(1, 1, [x]);
    TwoDimensions(t, v);
  }
}
