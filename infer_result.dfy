/** The legacy `InferResult` wrapper around an inference response: name
    lookups of the output tensors and their conversion to arrays. The numpy
    conversions are external and supplied as an `OutputCodec`. */
module InferResults {
  import opened Wrappers
  import opened NdArrays
  import opened InferInputs

  /** An output tensor of the response. */
  datatype OutputTensor = OutputTensor(name: string, dataType: string, shape: seq<Int64>, bytesContents: seq<Bytes>)

  /** The parts of a `ModelInferResponse` the wrapper reads. */
  datatype InferResponse = InferResponse(outputs: seq<OutputTensor>, rawOutputContents: seq<Bytes>)

  /** The external conversions to array elements: `deserialize_bytes_tensor`,
      `np.frombuffer` for a Triton datatype (which may raise), and `np.array`
      over the `bytes_contents` list. */
  datatype OutputCodec<!E> = OutputCodec(
    deserializeBytes: Bytes -> seq<E>,
    fromBuffer: (Bytes, string) -> Result<seq<E>, string>,
    fromBytesList: seq<Bytes> -> seq<E>)

  datatype AsNumpyError = BufferRejected(message: string) | ReshapeRejected(reshapeError: ReshapeError)

  /** Position of the first output with the given name. */
  function FindOutput(outputs: seq<OutputTensor>, name: string): (r: Option<nat>)
    ensures r.None? <==> forall k :: 0 <= k < |outputs| ==> outputs[k].name != name
    ensures r.Some? ==> r.value < |outputs| && outputs[r.value].name == name
    ensures r.Some? ==> forall k :: 0 <= k < r.value ==> outputs[k].name != name
  {
    if outputs == [] then None
    else if outputs[0].name == name then Some(0)
    else match FindOutput(outputs[1..], name)
      case None => None
      case Some(k) => Some(k + 1)
  }

  /** The flat elements of the output at `index`: from the raw output content
      at the same position when there is one, else from its `bytes_contents`,
      else none. */
  function OutputElements<E>(out: OutputTensor, index: nat, raw: seq<Bytes>, codec: OutputCodec<E>): (r: Result<seq<E>, AsNumpyError>)
    ensures index < |raw| && out.dataType == "BYTES" ==> r == Success(codec.deserializeBytes(raw[index]))
    ensures index >= |raw| && out.bytesContents != [] ==> r == Success(codec.fromBytesList(out.bytesContents))
    ensures index >= |raw| && out.bytesContents == [] ==> r == Success([])
    ensures index < |raw| && out.dataType != "BYTES" ==>
      match codec.fromBuffer(raw[index], out.dataType)
      case Success(elems) => r == Success(elems)
      case Failure(message) => r == Failure(BufferRejected(message))
    ensures r.Failure? ==> index < |raw| && out.dataType != "BYTES" && codec.fromBuffer(raw[index], out.dataType).Failure?
  {
    if index < |raw| then
      if out.dataType == "BYTES" then Success(codec.deserializeBytes(raw[index]))
      else match codec.fromBuffer(raw[index], out.dataType)
        case Success(elems) => Success(elems)
        case Failure(message) => Failure(BufferRejected(message))
    else if |out.bytesContents| != 0 then Success(codec.fromBytesList(out.bytesContents))
    else Success([])
  }

  /** The array for the output at `index`, reshaped to its declared shape. */
  function OutputArray<E>(out: OutputTensor, index: nat, raw: seq<Bytes>, codec: OutputCodec<E>): (r: Result<NdArray<E>, AsNumpyError>)
    ensures r.Success? ==>
      && OutputElements(out, index, raw, codec).Success?
      && r.value.elems == OutputElements(out, index, raw, codec).value
      && r.value.Valid() && |r.value.dims| == |out.shape|
    ensures r.Success? ==>
      forall i :: 0 <= i < |out.shape| && out.shape[i] >= 0 ==> r.value.dims[i] == out.shape[i]
    ensures OutputElements(out, index, raw, codec).Success? ==>
      (r.Success? <==> Reshape(out.shape, OutputElements(out, index, raw, codec).value).Success?)
    ensures OutputElements(out, index, raw, codec).Failure? ==> r == Failure(OutputElements(out, index, raw, codec).error)
  {
    var elems :- OutputElements(out, index, raw, codec);
    match Reshape(out.shape, elems)
    case Success(a) => Success(a)
    case Failure(e) => Failure(ReshapeRejected(e))
  }

  class InferResult {
    const response: InferResponse

    constructor(response: InferResponse)
      ensures this.response == response
    {
      this.response := response;
    }

    /** `as_numpy`: the array of the first output with the given name, built
        from the raw content at that output's position; none when no output
        has the name. */
    method AsNumpy<E>(name: string, codec: OutputCodec<E>) returns (r: Result<Option<NdArray<E>>, AsNumpyError>)
      ensures FindOutput(response.outputs, name).None? ==> r == Success(None)
      ensures FindOutput(response.outputs, name).Some? ==>
        var k := FindOutput(response.outputs, name).value;
        match OutputArray(response.outputs[k], k, response.rawOutputContents, codec)
        case Success(a) => r == Success(Some(a))
        case Failure(e) => r == Failure(e)
    {
      var outputs := response.outputs;
      var index := 0;
      var i := 0;
      while i < |outputs|
        invariant 0 <= i <= |outputs|
        invariant index == i
        invariant forall k :: 0 <= k < i ==> outputs[k].name != name
      {
        var output := outputs[i];
        if output.name == name {
          assert FindOutput(outputs, name) == Some(i);
          var built := OutputArray(output, index, response.rawOutputContents, codec);
          match built
          case Success(a) => return Success(Some(a));
          case Failure(e) => return Failure(e);
        } else {
          index := index + 1;
        }
        i := i + 1;
      }
      return Success(None);
    }

    /** `get_output`: the first output with the given name, if any. */
    method GetOutput(name: string) returns (r: Option<OutputTensor>)
      ensures r.None? <==> forall k :: 0 <= k < |response.outputs| ==> response.outputs[k].name != name
      ensures r.Some? ==>
        FindOutput(response.outputs, name).Some? && r.value == response.outputs[FindOutput(response.outputs, name).value]
      ensures r.Some? ==> r.value.name == name
    {
      var outputs := response.outputs;
      var i := 0;
      while i < |outputs|
        invariant 0 <= i <= |outputs|
        invariant forall k :: 0 <= k < i ==> outputs[k].name != name
      {
        if outputs[i].name == name {
          assert FindOutput(outputs, name) == Some(i);
          return Some(outputs[i]);
        }
        i := i + 1;
      }
      return None;
    }

    /** `get_response`: the wrapped response, as given. */
    function GetResponse(): (r: InferResponse)
    {
      response
    }
  }
}
