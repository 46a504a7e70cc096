/** The legacy `InferInput` tensor descriptor: a name, a datatype, a shape, a
    dictionary of parameters and a raw-content slot, updated in place by its
    methods. The numpy operations it relies on are external and supplied as an
    `ArrayCodec`. */
module InferInputs {
  import opened Wrappers

  type Bytes = seq<bv8>

  /** A protobuf `int64`. */
  type Int64 = x: int | -0x8000_0000_0000_0000 <= x < 0x8000_0000_0000_0000

  /** A tensor parameter, as the `InferParameter` message holds it. */
  datatype Parameter = StringParam(s: string) | Int64Param(i: Int64)

  const SHARED_MEMORY_REGION: string := "shared_memory_region"
  const SHARED_MEMORY_BYTE_SIZE: string := "shared_memory_byte_size"
  const SHARED_MEMORY_OFFSET: string := "shared_memory_offset"
  const SHARED_MEMORY_KEYS: set<string> := {SHARED_MEMORY_REGION, SHARED_MEMORY_BYTE_SIZE, SHARED_MEMORY_OFFSET}

  /** What `set_data_from_numpy` is given: a numpy array, or some other value. */
  datatype TensorArg<A> = NumpyArray(ndarray: A) | NotAnArray

  /** The external numpy operations: the array's Triton datatype name, its
      shape, `serialize_byte_tensor` (a flat object array) and `tobytes`. */
  datatype ArrayCodec<!A> = ArrayCodec(
    tritonDtype: A -> string,
    shape: A -> seq<int>,
    serializeByteTensor: A -> seq<Bytes>,
    toBytes: A -> Bytes)

  datatype InferInputError =
    | NotANumpyArray
    | UnexpectedDatatype(gotType: string, expectedType: string)
    | UnexpectedShape(gotShape: seq<int>, expectedShape: seq<int>)
    | ShapeIndexOutOfRange     // IndexError: the array has fewer dimensions than declared
    | NotASingleItem           // `.item()` on a serialisation of more than one element

  /** How the dimension-by-dimension comparison of a declared shape with an
      array's shape ends. */
  datatype ShapeVerdict = ShapeMatches | ShapeDiffers | ShapeTooShort

  /** The comparison visits every declared dimension, so an array with fewer
      dimensions always runs out of indices; otherwise the shapes must be
      equal. */
  function ShapeVerdictOf(declared: seq<int>, actual: seq<int>): (v: ShapeVerdict)
  {
    if |actual| < |declared| then ShapeTooShort
    else if declared == actual then ShapeMatches
    else ShapeDiffers
  }

  /** The comparison loop of `set_data_from_numpy`. */
  method CheckShape(declared: seq<int>, actual: seq<int>) returns (v: ShapeVerdict)
    ensures v == ShapeVerdictOf(declared, actual)
    ensures v == ShapeMatches <==> declared == actual
    ensures v == ShapeTooShort <==> |actual| < |declared|
  {
    var valid := |declared| == |actual|;
    var i := 0;
    while i < |declared|
      invariant 0 <= i <= |declared| && i <= |actual|
      invariant valid <==> |declared| == |actual| && declared[..i] == actual[..i]
    {
      if i >= |actual| {
        return ShapeTooShort;
      }
      if declared[i] != actual[i] {
        valid := false;
      }
      assert declared[..i + 1] == declared[..i] + [declared[i]];
      assert actual[..i + 1] == actual[..i] + [actual[i]];
      i := i + 1;
    }
    assert declared[..i] == declared;
    if valid {
      assert actual[..i] == actual;
      v := ShapeMatches;
    } else {
      v := ShapeDiffers;
    }
  }

  /** The checks `set_data_from_numpy` makes before touching anything, in
      their order. */
  function Validate<A>(dataType: string, shape: seq<int>, input: TensorArg<A>, codec: ArrayCodec<A>): (r: Outcome<InferInputError>)
    ensures r.Pass? <==>
      input.NumpyArray? && codec.tritonDtype(input.ndarray) == dataType && codec.shape(input.ndarray) == shape
    ensures input.NotAnArray? ==> r == Fail(NotANumpyArray)
  {
    match input
    case NotAnArray => Fail(NotANumpyArray)
    case NumpyArray(a) =>
      var arrayType := codec.tritonDtype(a);
      if dataType != arrayType then Fail(UnexpectedDatatype(arrayType, dataType))
      else match ShapeVerdictOf(shape, codec.shape(a))
        case ShapeTooShort => Fail(ShapeIndexOutOfRange)
        case ShapeDiffers => Fail(UnexpectedShape(codec.shape(a), shape))
        case ShapeMatches => Pass
  }

  /** The raw content stored for an accepted array: for BYTES its single
      serialised item, or `b''` when the serialisation is empty; otherwise its
      `tobytes()`. */
  function RawContentFor<A>(dataType: string, a: A, codec: ArrayCodec<A>): (r: Result<Bytes, InferInputError>)
    ensures dataType != "BYTES" ==> r == Success(codec.toBytes(a))
    ensures dataType == "BYTES" && codec.serializeByteTensor(a) == [] ==> r == Success([])
    ensures dataType == "BYTES" && |codec.serializeByteTensor(a)| == 1 ==> r == Success(codec.serializeByteTensor(a)[0])
    ensures r.Failure? <==> dataType == "BYTES" && |codec.serializeByteTensor(a)| > 1
  {
    if dataType == "BYTES" then
      var serialized := codec.serializeByteTensor(a);
      if |serialized| == 0 then Success([])
      else if |serialized| == 1 then Success(serialized[0])
      else Failure(NotASingleItem)
    else
      Success(codec.toBytes(a))
  }

  /** The `InferInputTensor` message the descriptor wraps. */
  datatype InferInputTensor = InferInputTensor(
    name: string, dataType: string, shape: seq<Int64>, parameters: map<string, Parameter>)

  class InferInput {
    var name: string
    var dataType: string
    var shape: seq<Int64>
    var parameters: map<string, Parameter>
    var rawContent: Option<Bytes>

    constructor(name: string, shape: seq<Int64>, dataType: string)
      ensures this.name == name && this.shape == shape && this.dataType == dataType
      ensures parameters == map[] && rawContent == None
    {
      this.name := name;
      this.shape := shape;
      this.dataType := dataType;
      parameters := map[];
      rawContent := None;
    }

    function Name(): string
      reads this
    {
      name
    }

    function Datatype(): string
      reads this
    {
      dataType
    }

    function Shape(): seq<Int64>
      reads this
    {
      shape
    }

    /** Replaces the whole shape; nothing else changes. */
    method SetShape(newShape: seq<Int64>)
      modifies this
      ensures shape == newShape
      ensures name == old(name) && dataType == old(dataType)
      ensures parameters == old(parameters) && rawContent == old(rawContent)
    {
      shape := newShape;
    }

    /** Sets the raw content from a numpy array. A wrong kind of value, a
        datatype or shape that differs from the declared one fails before
        anything changes; an accepted array drops every shared-memory
        parameter and stores the array's bytes. */
    method SetDataFromNumpy<A>(input: TensorArg<A>, codec: ArrayCodec<A>) returns (r: Outcome<InferInputError>)
      modifies this
      ensures name == old(name) && dataType == old(dataType) && shape == old(shape)
      ensures Validate(old(dataType), old(shape), input, codec).Fail? ==>
        && r == Validate(old(dataType), old(shape), input, codec)
        && parameters == old(parameters) && rawContent == old(rawContent)
      ensures Validate(old(dataType), old(shape), input, codec).Pass? ==>
        && parameters == old(parameters) - SHARED_MEMORY_KEYS
        && (forall key :: key in SHARED_MEMORY_KEYS ==> key !in parameters)
        && match RawContentFor(old(dataType), input.ndarray, codec)
           case Success(content) => r == Pass && rawContent == Some(content)
           case Failure(e) => r == Fail(e) && rawContent == old(rawContent)
    {
      if input.NotAnArray? {
        return Fail(NotANumpyArray);
      }
      var a := input.ndarray;
      var arrayType := codec.tritonDtype(a);
      if dataType != arrayType {
        return Fail(UnexpectedDatatype(arrayType, dataType));
      }
      var verdict := CheckShape(shape, codec.shape(a));
      if verdict == ShapeTooShort {
        return Fail(ShapeIndexOutOfRange);
      }
      if verdict == ShapeDiffers {
        return Fail(UnexpectedShape(codec.shape(a), shape));
      }

      ghost var before := parameters;
      parameters := parameters - {SHARED_MEMORY_REGION};
      parameters := parameters - {SHARED_MEMORY_BYTE_SIZE};
      parameters := parameters - {SHARED_MEMORY_OFFSET};
      SharedMemoryPops(before);

      if dataType == "BYTES" {
        var serialized := codec.serializeByteTensor(a);
        if |serialized| > 0 {
          if |serialized| != 1 {
            return Fail(NotASingleItem);
          }
          rawContent := Some(serialized[0]);
        } else {
          rawContent := Some([]);
        }
      } else {
        rawContent := Some(codec.toBytes(a));
      }
      r := Pass;
    }

    /** Points the tensor's data at a shared-memory region: the raw content is
        cleared, the region and byte size are written, and the offset only when
        it is not zero (an earlier offset entry is otherwise kept). */
    method SetSharedMemory(regionName: string, byteSize: Int64, offset: Int64)
      modifies this
      ensures name == old(name) && dataType == old(dataType) && shape == old(shape)
      ensures rawContent == None
      ensures parameters ==
        var p := old(parameters)[SHARED_MEMORY_REGION := StringParam(regionName)]
                                [SHARED_MEMORY_BYTE_SIZE := Int64Param(byteSize)];
        if offset != 0 then p[SHARED_MEMORY_OFFSET := Int64Param(offset)] else p
    {
      rawContent := None;
      parameters := parameters[SHARED_MEMORY_REGION := StringParam(regionName)];
      parameters := parameters[SHARED_MEMORY_BYTE_SIZE := Int64Param(byteSize)];
      if offset != 0 {
        parameters := parameters[SHARED_MEMORY_OFFSET := Int64Param(offset)];
      }
    }

    function GetTensor(): InferInputTensor
      reads this
    {
      InferInputTensor(name, dataType, shape, parameters)
    }

    function GetContent(): Option<Bytes>
      reads this
    {
      rawContent
    }
  }

  /** The three `pop(key, None)` calls of `set_data_from_numpy`, one after
      the other, amount to removing the shared-memory keys at once: none of
      them is left, and every other parameter keeps its value. */
  lemma SharedMemoryPops(before: map<string, Parameter>)
    ensures before - {SHARED_MEMORY_REGION} - {SHARED_MEMORY_BYTE_SIZE} - {SHARED_MEMORY_OFFSET}
         == before - SHARED_MEMORY_KEYS
    ensures forall key :: key in SHARED_MEMORY_KEYS ==>
      key !in before - {SHARED_MEMORY_REGION} - {SHARED_MEMORY_BYTE_SIZE} - {SHARED_MEMORY_OFFSET}
    ensures forall key :: key in before && key !in SHARED_MEMORY_KEYS ==>
      && key in before - {SHARED_MEMORY_REGION} - {SHARED_MEMORY_BYTE_SIZE} - {SHARED_MEMORY_OFFSET}
      && (before - {SHARED_MEMORY_REGION} - {SHARED_MEMORY_BYTE_SIZE} - {SHARED_MEMORY_OFFSET})[key] == before[key]
  {
  }

  /** A caller's view: describe a tensor, attach it to shared memory, then set
      its data from an accepted array. */
  method UseSharedMemoryThenData<A>(a: A, codec: ArrayCodec<A>, region: string)
    requires codec.tritonDtype(a) == "FP32" && codec.shape(a) == [2, 3]
  {
    var input := new InferInput("logits", [2, 3], "FP32");
    input.SetSharedMemory(region, 24, 8);
    assert SHARED_MEMORY_OFFSET in input.parameters;
    var r := input.SetDataFromNumpy(NumpyArray(a), codec);
    assert r == Pass;
    assert SHARED_MEMORY_REGION !in input.parameters && SHARED_MEMORY_OFFSET !in input.parameters;
    assert input.rawContent == Some(codec.toBytes(a));
  }
}
