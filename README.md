# A verified model of the CTC decoder service's core

The service receives a `Logits` message (a shape and a flat list of values).
It reshapes the values to that shape and runs two external CTC decoders on the
result: a greedy one, then a beam-search one backed by a KenLM language model.
It answers with a `Transcription`: the greedy transcript, the beam transcript
and the beam transcript's character offsets. The client flattens a 2-D array
row-major to build the request. It configures its gRPC channel with a fixed
list of message-size and keepalive arguments. A legacy client file also
defines tensor-descriptor objects (`InferInput`, `InferResult`) and a client
constructor that selects channel arguments and a channel kind.

The model is written in Dafny, one module per concern:

- `Wrappers` (wrappers.dfy): `Option`, `Result` (usable with `:-`) and `Outcome`.
- `NdArrays` (ndarrays.dfy): numpy's `reshape` of flat data to a shape, the
  rows of a 2-D array, and the client's row-major `flatten`. Array elements
  are an opaque type parameter.
- `Helpers` (helpers.dfy): the decoder constants, the blank index taken from
  `"<pad>"`, and `decode_logits`. The two decoders are functions
  supplied by the caller. Each returns nested batch/candidate lists or raises.
- `Server` (server.dfy): the `Decode` endpoint. The servicer has no fields and
  mutates nothing, so `Decode` is a Dafny function of the installed decoders
  and the request. Two identical requests therefore get identical responses
  whenever the decoders are deterministic, which a Dafny function is.
- `ChannelOpt` (channel_opt.dfy): `INT32_MAX`, `MAX_GRPC_MESSAGE_SIZE`,
  `KeepAliveOptions` with its defaults, and the six-entry `channel_opt` list.
  `trash.py` repeats these definitions verbatim (trash.py:14-60), and the
  legacy modules reuse this one.
- `LegacyClient` (legacy_client.dfy): how the legacy client constructor picks
  its channel arguments and its channel kind.
- `InferInputs` (infer_input.dfy): the `InferInput` class. Its shape, its
  parameter map and its raw content are fields that its methods update in
  place.
- `InferResults` (infer_result.dfy): the `InferResult` class, with its
  loop-based searches by output name.

The code checks no rank. server.py:24-26 applies only numpy's reshape rules,
so a request of any rank is accepted when its element count fits. Those rules
are modelled as numpy 1.x applies them: any negative entry is an "unknown"
dimension, at most one may appear, and it is inferred by division. Without
one, the product of the entries must equal the element count.

## Model

| member | source | states |
|---|---|---|
| `NdArrays.Reshape` | server.py:24-26 | With no negative entry, the reshape succeeds exactly when the product of the dimensions equals the data length. Two unknown dimensions are refused. A single unknown one succeeds exactly when the known product is non-zero and divides the length. A success keeps the data unchanged in row-major order, keeps every given dimension, and its element count matches its dimensions. |
| `NdArrays.Rows` | server.py:26 | A valid 2-D array has `dims[0]` rows, each `dims[1]` long. |
| `NdArrays.Reshape2DAccepts` | server.py:24-26 | Shape `[t, v]` is accepted exactly when the data holds `t * v` elements, and the result then has dimensions `[t, v]`. |
| `NdArrays.Reshape2DEntry` | server.py:25-26 | After reshaping to `[t, v]`, row `i`, column `j` is `data[i * v + j]`. |
| `NdArrays.ReshapeFlattenRoundTrip` | client.py:29-34 | Reshaping the client's row-major flatten of a `t` by `v` matrix with shape `[t, v]` succeeds and gives back exactly the matrix. |
| `NdArrays.FlattenRowsRoundTrip` | client.py:33-34 | Flattening the rows of any valid 2-D array gives back its flat data (the converse round trip). |
| `Helpers.IndexOf` | server/helpers.py:27 | `list.index`: none exactly when the token is absent; otherwise the position holds the token and no earlier position does. |
| `Helpers.LoadDecoders` | server/helpers.py:11-31 | Loading fails, with the `list.index` error, exactly when `"<pad>"` is not in the vocabulary. Otherwise both decoders get the vocabulary and the same blank index, the first position of `"<pad>"`. The beam decoder gets the language-model path, width 10, cutoff_top_n 40, cutoff_prob 1.0 and 8 processes. Each decoder is the backend built from its configuration. |
| `Helpers.TopOfFirst` | server/helpers.py:40-49 | The `[0][0]` selection succeeds exactly when the batch and its first candidate list are non-empty, and yields element `[0][0]`. Otherwise it is an IndexError naming the selection. |
| `Helpers.DecodeLogitsSuccess` | server/helpers.py:33-52 | `decode_logits` succeeds exactly when both decoders return and each has a top candidate with offsets. It then returns, in order, greedy `[0][0]` text, beam `[0][0]` text and beam `[0][0]` offsets, unchanged. Greedy offsets are not returned. |
| `Helpers.DecoderErrorsPropagate` | server/helpers.py:37-45 | An error raised by the greedy decoder is the result. An error raised by the beam decoder is the result when greedy decoding succeeded. No placeholder output is produced. |
| `Helpers.EmptyResultsFail` | server/helpers.py:40-49 | An empty greedy offsets batch fails with IndexOutOfRange(GreedyOffsets). A beam result with offsets but an empty transcript batch fails with IndexOutOfRange(BeamTranscript). |
| `Helpers.GreedyFailureSkipsBeam` | server/helpers.py:39-45 | When the greedy step fails, the result is the same whatever beam decoder is installed, so the beam decoder is never consulted. |
| `Helpers.BeamFailureFailsAll` | server/helpers.py:45-52 | When the beam step fails after greedy decoding succeeded, the whole call fails, with the beam error or an IndexError at a beam selection. |
| `Helpers.DecodersIndependent` | server/helpers.py:39-49 | Replacing the beam decoder cannot change the greedy transcript. Replacing the greedy decoder cannot change the beam transcript or offsets. |
| `Helpers.GreedyOffsetsDropped` | server/helpers.py:40-41 | Two greedy decoders with the same transcripts and some top offsets give the same `decode_logits` result, so the greedy offsets' content is discarded. |
| `Server.Decode` | server.py:17-33 | A reshape failure is the response error, and decoding is not reached. A `decode_logits` error propagates uncaught. Otherwise the `Transcription` holds the three `decode_logits` results in order. |
| `Server.ReshapeFailureSkipsDecoders` | server.py:26-27 | A rejected reshape gives the same failure whichever decoders are installed. |
| `Server.MismatchedRequestRejected` | server.py:24-26 | Any shape without negative entries whose product differs from the data length fails with a size mismatch, at any rank. |
| `Server.DecodeSuccess` | server.py:27-33 | `Decode` succeeds exactly when the reshape and `decode_logits` succeed. The response is then greedy `[0][0]` text, beam `[0][0]` text and beam `[0][0]` offsets of the decoders' outputs on the reshaped array. |
| `Server.ClientRequestRoundTrip` | client.py:20-34 | A `t` by `v` matrix flattened by the client with shape `[t, v]` reshapes to an array whose rows are the matrix. The response is what `decode_logits` makes of that array. |
| `Server.BoundaryRequests` | server.py:24-26 | A `[1, 1]` request with one value reshapes successfully. Data one element short of `t * v` is a size mismatch. |
| `ChannelOpt.Int32MaxValue` | client/channel_opt.py:4-5 | With a 4-byte native `int`, `INT32_MAX` is 2^31 - 1 and `MAX_GRPC_MESSAGE_SIZE` equals it. |
| `ChannelOpt.DefaultKeepAliveOptions` | client/channel_opt.py:40-48 | The defaults: time 2^31 - 1 ms, timeout 20000 ms, pings without calls not permitted, at most 2 pings without data. |
| `ChannelOpt.ChannelArgsKeys` | client/channel_opt.py:52-62 | The argument list has exactly six keys, in the source's order. |
| `ChannelOpt.ChannelArgsLookup` | client/channel_opt.py:52-62 | Reading the list by key gives `MAX_GRPC_MESSAGE_SIZE` for both message lengths and, for the four keepalive keys, the fields of the record it was built from. |
| `ChannelOpt.DefaultChannelOptValues` | client/channel_opt.py:51-62 | The module-level `channel_opt` has six entries with values 2^31 - 1, 2^31 - 1, 2^31 - 1, 20000, false and 2. |
| `LegacyClient.ClientChannelArgs` | trash.py:408-428 | Explicit `channel_args`, even an empty list, are used verbatim. Otherwise the six-entry list is built from the given keepalive record, or from the default record when none is given. |
| `LegacyClient.NewClient` | trash.py:397-453 | Given credentials give a secure channel with them. Otherwise SSL gives a secure channel from the named certificate files. Otherwise the channel is insecure, exactly when neither is given. Every kind gets the selected arguments and the URL. |
| `LegacyClient.LegacyDefaultsMatchChannelOpt` | trash.py:413-428 | Without arguments or keepalive record, the legacy client's list is exactly the module-level `channel_opt`. |
| `LegacyClient.ExplicitArgsIgnoreKeepAlive` | trash.py:410-411 | With explicit arguments, the keepalive record has no effect. |
| `InferInputs.CheckShape` | trash.py:148-153 | The comparison loop reports a match exactly when the shapes are equal. It reports running out of the array's dimensions exactly when the array has fewer dimensions than declared. |
| `InferInputs.Validate` | trash.py:141-158 | The checks pass exactly when the value is a numpy array whose Triton datatype and shape equal the declared ones. A non-array fails first. |
| `InferInputs.RawContentFor` | trash.py:164-171 | A non-BYTES array stores its `tobytes()`. A BYTES array stores `b''` for an empty serialisation and the single item of a one-element one. It fails exactly for a longer serialisation. |
| `InferInputs.InferInput.constructor` | trash.py:78-84 | Name, shape and datatype are stored as given, with no parameters and no raw content. |
| `InferInputs.InferInput.SetShape` | trash.py:116-125 | The shape is replaced entirely. Name, datatype, parameters and raw content are unchanged. |
| `InferInputs.InferInput.SetDataFromNumpy` | trash.py:127-171 | A failed check returns its error and changes nothing. After the checks pass, the three shared-memory keys are popped one by one, so none remains and all other parameters are kept. The raw content becomes `RawContentFor`'s, or stays as it was when `.item()` fails. Name, datatype and shape never change. |
| `InferInputs.InferInput.SetSharedMemory` | trash.py:173-195 | Raw content becomes none, and the region and byte size are written. The offset is written only when non-zero; otherwise an earlier offset entry is kept. |
| `InferInputs.SharedMemoryPops` | trash.py:160-162 | The three pops, one after the other, equal removing the shared-memory keys at once. No such key remains, and every other parameter keeps its value. |
| `InferResults.FindOutput` | trash.py:301-302 | None exactly when no output has the name. Otherwise the position's output has the name and no earlier one does. |
| `InferResults.OutputElements` | trash.py:252-269 | The elements come from the raw output content at the output's own position when it exists. For BYTES they are deserialised. Otherwise they are exactly what `frombuffer` yields, or its error as `BufferRejected`. Without raw content they come from `bytes_contents` when it is non-empty, and otherwise there are none. Only `frombuffer` can fail. |
| `InferResults.OutputArray` | trash.py:248-271 | A success holds exactly those elements, reshaped to the output's declared shape. It has the same rank, and every non-negative declared dimension is kept. It succeeds exactly when the element source and the reshape do. An element error is passed on unchanged. |
| `InferResults.InferResult.constructor` | trash.py:227-228 | The response is stored as given. |
| `InferResults.InferResult.AsNumpy` | trash.py:230-274 | Gives none when no output has the name. Otherwise it gives the array, or the error, built for the first matching output, using the raw content at that output's position (the loop counter equals the position). |
| `InferResults.InferResult.GetOutput` | trash.py:276-309 | Gives none exactly when no output has the name. Otherwise it gives the first output with the name. |

## Left out

- The gRPC server lifecycle (`serve`, `grpc.aio`, asyncio) and the client's `run`. These are network I/O and concurrency.
- Channel creation and the reading of certificate files (trash.py:431-450). The model returns a description of the channel to open, naming the files.
- The greedy and beam decoders' internals and the KenLM model. They are functions supplied to `LoadDecoders`.
- `Helpers.LoadDecoders`: constructing the decoders is assumed not to raise. `BeamCTCDecoder` loads the language model file when it is built (server/helpers.py:21-28), and a missing or broken file is not modelled. So loading fails only when `"<pad>"` is absent.
- `InferResults.OutputElements`: `deserialize_bytes_tensor` and `np.array` over `bytes_contents` are assumed total. So only `frombuffer` can fail.
- The vocabulary `vocab_lm_word`: server/phonetic_dict is not part of this model, so the vocabulary is a parameter.
- Logit values are an opaque element type. The float constant `CUTOFF_PROB` is a `real` that is passed through.
- `np.array(request.data)` is taken as the identity on the elements.
- Logging (`logger.debug`, `logging`) is left out. So are JSON conversion (`MessageToJson`, rapidjson) and the `as_json=True` paths of `get_output` and `get_response`.
- The protobuf type checks made when building `Transcription` (for example, converting a tensor of offsets to a repeated int field).
- `.tolist()` on the greedy offsets is not modelled. The IndexError on that line comes from the `[0][0]` selection before it, and that error is modelled.
- `NdArrays.Reshape`: numpy overflow-checks the product of the known dimensions in its index type. The model multiplies exact integers, so a product that would overflow there is judged on its exact value.
- `NdArrays.Reshape`: the error messages' text is not modelled. The same goes for every `raise_error` message in trash.py; errors are kinds with their data.
- `ChannelOpt.Int32MaxValue`: `struct.Struct('i').size` is the constant 4. The model does not vary the platform.
- `LegacyClient.ClientChannelArgs`: `not keepalive_options` is modelled as "no record given". A falsy value of another type is treated like `None`.
- `InferInputs.InferInput.SetSharedMemory`: `ClearField("contents")` is not modelled, because nothing in the file ever sets `contents`.
- `InferInputs.InferInput.SetSharedMemory`: shape entries, byte size and offset have the protobuf `int64` type. The `ValueError` protobuf raises for an out-of-range value is not modelled.
- `np_to_triton_dtype`, `serialize_byte_tensor`, `tobytes`, `deserialize_bytes_tensor`, `frombuffer` and `triton_to_np_dtype` are named in trash.py but never defined there. They are supplied functions (`ArrayCodec`, `OutputCodec`).
- The accessors `name`, `datatype`, `shape`, `_get_tensor`, `_get_content` and `get_response` just return fields. They are functions without contracts.
- `InferenceServerClient.infer` builds a `LogitsList` request that the service does not define (trash.py:470). It is dead code and not modelled.
- The listen addresses (server.py:46, client.py:27) and the random sample data (client.py:29).
