/** The client's gRPC channel options: the message-size ceiling, the keepalive
    record with its defaults, and the six key/value channel arguments built
    from them. */
module ChannelOpt {
  import opened Wrappers

  /** `struct.Struct('i').size`: the byte width of the platform's C `int`,
      4 on every platform the service runs on. */
  const NATIVE_INT_SIZE: nat := 4

  function Pow2(n: nat): (p: nat)
  {
    if n == 0 then 1 else 2 * Pow2(n - 1)
  }

  /** Largest value of a signed integer `bytes` bytes wide. */
  function SignedMax(bytes: nat): (r: int)
    requires bytes >= 1
  {
    Pow2(bytes * 8 - 1) - 1
  }

  const INT32_MAX: int := SignedMax(NATIVE_INT_SIZE)
  const MAX_GRPC_MESSAGE_SIZE: int := INT32_MAX

  lemma {:induction false} Pow2Add(a: nat, b: nat)
    ensures Pow2(a + b) == Pow2(a) * Pow2(b)
  {
    if a > 0 {
      Pow2Add(a - 1, b);
    }
  }

  /** With a 4-byte `int` the ceiling is 2^31 - 1, the largest signed 32-bit
      value. */
  lemma Int32MaxValue()
    ensures INT32_MAX == 2147483647 && MAX_GRPC_MESSAGE_SIZE == INT32_MAX
  {
    Pow2Add(16, 15);
    Pow2Add(8, 8);
    Pow2Add(8, 7);
    Pow2Add(4, 4);
    Pow2Add(4, 3);
  }

  /** `KeepAliveOptions`: the keepalive time, the ping acknowledgement
      timeout (both in milliseconds), whether pings may be sent without calls
      in flight, and how many pings may go without data. */
  datatype KeepAliveOptions = KeepAliveOptions(
    keepaliveTimeMs: int,
    keepaliveTimeoutMs: int,
    keepalivePermitWithoutCalls: bool,
    http2MaxPingsWithoutData: int)

  /** `KeepAliveOptions()` with every argument left at its default. */
  function DefaultKeepAliveOptions(): (k: KeepAliveOptions)
    ensures k.keepaliveTimeMs == 2147483647 && k.keepaliveTimeoutMs == 20000
    ensures !k.keepalivePermitWithoutCalls && k.http2MaxPingsWithoutData == 2
  {
    Int32MaxValue();
    KeepAliveOptions(INT32_MAX, 20000, false, 2)
  }

  /** The value of a channel argument. */
  datatype ArgValue = IntValue(i: int) | BoolValue(b: bool) | StringValue(s: string)

  /** A `(key, value)` channel argument. */
  type ChannelArg = (string, ArgValue)

  const MAX_SEND_MESSAGE_LENGTH: string := "grpc.max_send_message_length"
  const MAX_RECEIVE_MESSAGE_LENGTH: string := "grpc.max_receive_message_length"
  const KEEPALIVE_TIME_MS: string := "grpc.keepalive_time_ms"
  const KEEPALIVE_TIMEOUT_MS: string := "grpc.keepalive_timeout_ms"
  const KEEPALIVE_PERMIT_WITHOUT_CALLS: string := "grpc.keepalive_permit_without_calls"
  const HTTP2_MAX_PINGS_WITHOUT_DATA: string := "grpc.http2.max_pings_without_data"

  /** The six channel arguments for a keepalive record: both message-length
      limits at the ceiling, then the four keepalive fields. */
  function ChannelArgs(k: KeepAliveOptions): (args: seq<ChannelArg>)
  {
    [ (MAX_SEND_MESSAGE_LENGTH, IntValue(MAX_GRPC_MESSAGE_SIZE)),
      (MAX_RECEIVE_MESSAGE_LENGTH, IntValue(MAX_GRPC_MESSAGE_SIZE)),
      (KEEPALIVE_TIME_MS, IntValue(k.keepaliveTimeMs)),
      (KEEPALIVE_TIMEOUT_MS, IntValue(k.keepaliveTimeoutMs)),
      (KEEPALIVE_PERMIT_WITHOUT_CALLS, BoolValue(k.keepalivePermitWithoutCalls)),
      (HTTP2_MAX_PINGS_WITHOUT_DATA, IntValue(k.http2MaxPingsWithoutData)) ]
  }

  /** The module-level `channel_opt`, built from the default record. */
  function DefaultChannelOpt(): (args: seq<ChannelArg>)
  {
    ChannelArgs(DefaultKeepAliveOptions())
  }

  /** The keys of a list of channel arguments, in order. */
  function Keys(args: seq<ChannelArg>): (ks: seq<string>)
    ensures |ks| == |args|
    ensures forall i :: 0 <= i < |args| ==> ks[i] == args[i].0
  {
    if args == [] then [] else [args[0].0] + Keys(args[1..])
  }

  /** The value of the first argument with the given key. */
  function Lookup(args: seq<ChannelArg>, key: string): (r: Option<ArgValue>)
    ensures r.None? <==> key !in Keys(args)
    ensures forall i :: 0 <= i < |args| && args[i].0 == key && (forall k :: 0 <= k < i ==> args[k].0 != key) ==>
      r == Some(args[i].1)
  {
    if args == [] then None
    else if args[0].0 == key then Some(args[0].1)
    else
      assert Keys(args) == [args[0].0] + Keys(args[1..]);
      assert forall i :: 1 <= i < |args| ==> args[1..][i - 1] == args[i];
      Lookup(args[1..], key)
  }

  /** The six keys, in order. */
  lemma ChannelArgsKeys(k: KeepAliveOptions)
    ensures Keys(ChannelArgs(k)) == [MAX_SEND_MESSAGE_LENGTH, MAX_RECEIVE_MESSAGE_LENGTH,
      KEEPALIVE_TIME_MS, KEEPALIVE_TIMEOUT_MS, KEEPALIVE_PERMIT_WITHOUT_CALLS, HTTP2_MAX_PINGS_WITHOUT_DATA]
  {
  }

  /** Reading the arguments back by key gives the ceiling for both message
      lengths and each keepalive field of the record they were built from. */
  lemma ChannelArgsLookup(k: KeepAliveOptions)
    ensures Lookup(ChannelArgs(k), MAX_SEND_MESSAGE_LENGTH) == Some(IntValue(MAX_GRPC_MESSAGE_SIZE))
    ensures Lookup(ChannelArgs(k), MAX_RECEIVE_MESSAGE_LENGTH) == Some(IntValue(MAX_GRPC_MESSAGE_SIZE))
    ensures Lookup(ChannelArgs(k), KEEPALIVE_TIME_MS) == Some(IntValue(k.keepaliveTimeMs))
    ensures Lookup(ChannelArgs(k), KEEPALIVE_TIMEOUT_MS) == Some(IntValue(k.keepaliveTimeoutMs))
    ensures Lookup(ChannelArgs(k), KEEPALIVE_PERMIT_WITHOUT_CALLS) == Some(BoolValue(k.keepalivePermitWithoutCalls))
    ensures Lookup(ChannelArgs(k), HTTP2_MAX_PINGS_WITHOUT_DATA) == Some(IntValue(k.http2MaxPingsWithoutData))
  {
    var args := ChannelArgs(k);
    // The six keys have six different lengths, so no two are equal.
    assert |args[0].0| == 28 && |args[1].0| == 31 && |args[2].0| == 22;
    assert |args[3].0| == 25 && |args[4].0| == 35 && |args[5].0| == 33;
    forall i | 0 <= i < 6
      ensures Lookup(args, args[i].0) == Some(args[i].1)
    {
      assert forall k :: 0 <= k < i ==> args[k].0 != args[i].0;
    }
  }

  /** The module-level `channel_opt`: six entries, message lengths of
      2^31 - 1, keepalive time 2^31 - 1, timeout 20000 ms, no pings without
      calls, at most two pings without data. */
  lemma DefaultChannelOptValues()
    ensures |DefaultChannelOpt()| == 6
    ensures Lookup(DefaultChannelOpt(), MAX_SEND_MESSAGE_LENGTH) == Some(IntValue(2147483647))
    ensures Lookup(DefaultChannelOpt(), MAX_RECEIVE_MESSAGE_LENGTH) == Some(IntValue(2147483647))
    ensures Lookup(DefaultChannelOpt(), KEEPALIVE_TIME_MS) == Some(IntValue(2147483647))
    ensures Lookup(DefaultChannelOpt(), KEEPALIVE_TIMEOUT_MS) == Some(IntValue(20000))
    ensures Lookup(DefaultChannelOpt(), KEEPALIVE_PERMIT_WITHOUT_CALLS) == Some(BoolValue(false))
    ensures Lookup(DefaultChannelOpt(), HTTP2_MAX_PINGS_WITHOUT_DATA) == Some(IntValue(2))
  {
    Int32MaxValue();
    ChannelArgsLookup(DefaultKeepAliveOptions());
  }
}
