/** The channel set-up of the legacy `InferenceServerClient` constructor: which
    channel arguments it uses and which kind of channel it opens. Opening the
    channel and reading certificate files are left to the transport; here the
    outcome is the description of the channel to open. */
module LegacyClient {
  import opened Wrappers
  import opened ChannelOpt

  /** Where a secure channel's credentials come from: the caller's credentials
      object, or SSL credentials built from the (optional) PEM files named. */
  datatype CredentialSource<C> =
    | Provided(creds: C)
    | SslFiles(rootCertificates: Option<string>, privateKey: Option<string>, certificateChain: Option<string>)

  /** The channel the constructor opens. */
  datatype Channel<C> =
    | SecureChannel(url: string, credentials: CredentialSource<C>, options: seq<ChannelArg>)
    | InsecureChannel(url: string, options: seq<ChannelArg>)

  /** The constructed client: its channel, the verbose flag and no stream. */
  datatype InferenceServerClient<C> = InferenceServerClient(channel: Channel<C>, verbose: bool, stream: Option<()>)

  /** The channel arguments: explicit `channel_args` (even an empty list) win
      and the keepalive record is ignored; otherwise the six default
      arguments, built from the given record or from the defaults. */
  function ClientChannelArgs(channelArgs: Option<seq<ChannelArg>>, keepalive: Option<KeepAliveOptions>): (args: seq<ChannelArg>)
    ensures channelArgs.Some? ==> args == channelArgs.value
    ensures channelArgs.None? && keepalive.Some? ==> args == ChannelArgs(keepalive.value)
    ensures channelArgs.None? && keepalive.None? ==> args == DefaultChannelOpt()
  {
    if channelArgs.Some? then channelArgs.value
    else
      var options := if keepalive.None? then DefaultKeepAliveOptions() else keepalive.value;
      ChannelArgs(options)
  }

  /** `InferenceServerClient.__init__`: credentials take priority over SSL,
      and SSL over a plain-text channel. */
  function NewClient<C>(
    url: string,
    verbose: bool,
    ssl: bool,
    rootCertificates: Option<string>,
    privateKey: Option<string>,
    certificateChain: Option<string>,
    creds: Option<C>,
    keepalive: Option<KeepAliveOptions>,
    channelArgs: Option<seq<ChannelArg>>): (client: InferenceServerClient<C>)
    ensures client.channel.options == ClientChannelArgs(channelArgs, keepalive)
    ensures client.channel.url == url && client.verbose == verbose && client.stream.None?
    ensures creds.Some? ==> client.channel.SecureChannel? && client.channel.credentials == Provided(creds.value)
    ensures creds.None? && ssl ==>
      client.channel.SecureChannel? && client.channel.credentials == SslFiles(rootCertificates, privateKey, certificateChain)
    ensures client.channel.InsecureChannel? <==> creds.None? && !ssl
  {
    var options := ClientChannelArgs(channelArgs, keepalive);
    var channel :=
      if creds.Some? then SecureChannel(url, Provided(creds.value), options)
      else if ssl then SecureChannel(url, SslFiles(rootCertificates, privateKey, certificateChain), options)
      else InsecureChannel(url, options);
    InferenceServerClient(channel, verbose, None)
  }

  /** Without explicit arguments or a keepalive record, the legacy client uses
      exactly the module-level `channel_opt`, including its 2^31 - 1 ceilings. */
  lemma LegacyDefaultsMatchChannelOpt()
    ensures ClientChannelArgs(None, None) == DefaultChannelOpt()
    ensures Lookup(ClientChannelArgs(None, None), MAX_SEND_MESSAGE_LENGTH) == Some(IntValue(2147483647))
    ensures Lookup(ClientChannelArgs(None, None), KEEPALIVE_TIMEOUT_MS) == Some(IntValue(20000))
  {
    DefaultChannelOptValues();
  }

  /** Explicit channel arguments make the keepalive record irrelevant. */
  lemma ExplicitArgsIgnoreKeepAlive(args: seq<ChannelArg>, k1: Option<KeepAliveOptions>, k2: Option<KeepAliveOptions>)
    ensures ClientChannelArgs(Some(args), k1) == ClientChannelArgs(Some(args), k2) == args
  {
  }
}
