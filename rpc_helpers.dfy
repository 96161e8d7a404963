/** `WithShellyRPC`: open an mgrpc channel to one device, run one callback on
    it, always disconnect, and report only a failure to open. */
module RpcHelpers {
  import opened Framework

  /** The fixed time bound of one channel, in seconds. */
  const RPC_TIMEOUT_SECONDS: nat := 5

  const CHANNEL_ERROR := "Failed to establish RPC channel"

  /** The mgrpc endpoint of a device. */
  function RpcAddress(ip: Value<string>): (addr: string)
    ensures |addr| == |ValueString(ip)| + 11
    ensures addr[..7] == "http://" && addr[|addr| - 4..] == "/rpc"
    ensures addr[7..|addr| - 4] == ValueString(ip)
  {
    "http://" + ValueString(ip) + "/rpc"
  }

  /** Different devices get different endpoints. */
  lemma RpcAddressInjective(a: Value<string>, b: Value<string>)
    requires RpcAddress(a) == RpcAddress(b)
    ensures ValueString(a) == ValueString(b)
  {
    assert ValueString(a) == RpcAddress(a)[7..|RpcAddress(a)| - 4];
  }

  /** What the transport does with one channel: whether `mgrpc.New` fails (and
      with which message) and whether `Disconnect` fails. */
  datatype Channel = Channel(openError: Option<string>, disconnectError: Option<string>)

  /** The steps of one channel's life, as the device and the callback see them. */
  datatype Event = Connect(addr: string, timeoutSeconds: nat) | Invoke | Disconnect

  /** What a callback did: the new value of the variables it captured, the
      diagnostics after it appended to them, and the error it returned. */
  datatype Effect<S> = Effect(captured: S, diags: Diagnostics, err: Option<string>)

  /** The event sequence of a channel to `addr` that did or did not open. */
  function SessionTrace(addr: string, connected: bool): (trace: seq<Event>)
  {
    [Connect(addr, RPC_TIMEOUT_SECONDS)] + (if connected then [Invoke, Disconnect] else [])
  }

  function Occurrences(trace: seq<Event>, e: Event): nat
  {
    if |trace| == 0 then 0 else (if trace[0] == e then 1 else 0) + Occurrences(trace[1..], e)
  }

  /** A channel always starts with one connection attempt at the fixed timeout;
      the callback runs exactly once if the channel connected and never otherwise;
      a disconnect happens exactly when it connected, once, and after the callback. */
  lemma SessionTraceShape(addr: string, connected: bool)
    ensures SessionTrace(addr, connected)[0] == Connect(addr, RPC_TIMEOUT_SECONDS)
    ensures Occurrences(SessionTrace(addr, connected), Invoke) == (if connected then 1 else 0)
    ensures Occurrences(SessionTrace(addr, connected), Disconnect) == (if connected then 1 else 0)
    ensures connected ==> SessionTrace(addr, connected)[1] == Invoke && SessionTrace(addr, connected)[2] == Disconnect
    ensures connected ==> |SessionTrace(addr, connected)| == 3
  {
    var t := SessionTrace(addr, connected);
    if connected {
      assert t[1..] == [Invoke, Disconnect];
      assert t[1..][1..] == [Disconnect];
      assert t[1..][1..][1..] == [];
      assert Occurrences(t[1..][1..], Invoke) == 0 && Occurrences(t[1..][1..], Disconnect) == 1;
      assert Occurrences(t[1..], Invoke) == 1 && Occurrences(t[1..], Disconnect) == 1;
    } else {
      assert t[1..] == [];
    }
  }

  /** `WithShellyRPC(ctx, ip, diags, logPrefix, rpcFunc)`. The callback is a
      function of the variables it captures and of the diagnostics it may append
      to; `captured` is their value before the call. */
  method WithShellyRPC<S>(ip: Value<string>, diags: Diagnostics, channel: Channel,
                          captured: S, rpcFunc: (S, Diagnostics) -> Effect<S>)
    returns (captured': S, diags': Diagnostics, trace: seq<Event>)
    ensures trace == SessionTrace(RpcAddress(ip), channel.openError.None?)
    ensures channel.openError.Some? ==>
      captured' == captured && diags' == AddError(diags, CHANNEL_ERROR, channel.openError.value)
    ensures channel.openError.None? ==>
      captured' == rpcFunc(captured, diags).captured && diags' == rpcFunc(captured, diags).diags
  {
    var rpcAddr := "http://" + ValueString(ip) + "/rpc";
    trace := [Connect(rpcAddr, RPC_TIMEOUT_SECONDS)];
    if channel.openError.Some? {
      diags' := AddError(diags, CHANNEL_ERROR, channel.openError.value);
      captured' := captured;
      return;
    }
    // The deferred Disconnect runs after the callback; its error is only logged.
    trace := trace + [Invoke];
    var effect := rpcFunc(captured, diags);
    captured', diags' := effect.captured, effect.diags;
    trace := trace + [Disconnect];
  }
}
