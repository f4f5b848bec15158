/** The OKX WebSocket client: the endpoint it picks, the login it signs,
    the handler registry that subscribe and unsubscribe maintain, the
    dispatch of inbound data frames to those handlers, the connection flag
    and the capped reconnect counter.  The socket itself is reduced to the
    log of frames the client sends; whether a connection attempt opens, the
    clock and whether a handler raises are inputs. */
module OkxWebSocket {
  import opened Wrappers
  import opened Builtins
  import OkxClient

  /* ---------------------------------------------------------------------
     Endpoint and login
     --------------------------------------------------------------------- */

  /** The endpoint: the demo-trading host (with its broker id) on a
      simulated account, the live host otherwise; the private path only for
      the 'private' channel type, the public one for anything else. */
  function WsUrl(isSimulated: bool, channelType: string): string
  {
    if isSimulated then
      if channelType == "private" then "wss://wspap.okx.com:8443/ws/v5/private?brokerId=9999"
      else "wss://wspap.okx.com:8443/ws/v5/public?brokerId=9999"
    else
      if channelType == "private" then "wss://ws.okx.com:8443/ws/v5/private"
      else "wss://ws.okx.com:8443/ws/v5/public"
  }

  /** Four different endpoints: two clients share one exactly when they
      agree on simulation and on whether the channel type is 'private'. */
  lemma WsUrlDistinct(sim1: bool, type1: string, sim2: bool, type2: string)
    ensures WsUrl(sim1, type1) == WsUrl(sim2, type2)
        <==> sim1 == sim2 && (type1 == "private") == (type2 == "private")
  {
  }

  /** The login request path of the OKX WebSocket API. */
  const VerifyPath := "/users/self/verify"

  /** The string the login signature covers. */
  function LoginPreHash(timestamp: string): (m: string)
    ensures |m| == |timestamp| + 21
    ensures m[..|timestamp|] == timestamp
  {
    timestamp + "GET" + VerifyPath
  }

  /** The login pre-hash is the REST pre-hash of a bodiless GET of the
      verify path, so both channels sign the same way. */
  lemma LoginPreHashIsRestPreHash(timestamp: string)
    ensures LoginPreHash(timestamp) == OkxClient.PreHash(timestamp, "GET", VerifyPath, "")
  {
    assert OkxClient.PreHash(timestamp, "GET", VerifyPath, "") == timestamp + "GET" + VerifyPath + "";
  }

  /* ---------------------------------------------------------------------
     Frames
     --------------------------------------------------------------------- */

  /** A registered callback, known by its identity. */
  type HandlerId = nat

  /** What the client writes to the socket. */
  datatype Outgoing =
    | SubscribeFrame(args: OkxClient.Fields)
    | UnsubscribeFrame(args: OkxClient.Fields)
    | LoginFrame(apiKey: string, passphrase: string, timestamp: string, sign: string)

  /** The 'arg' object of an inbound frame, or something that is not an
      object (reading it then raises, which the client swallows). */
  datatype Arg = ArgObject(channel: Option<string>, instId: Option<string>) | ArgOther

  /** An inbound frame once json.loads has run: unparseable, or an object
      that may carry 'event', 'arg' and 'data'. */
  datatype Inbound = Unparseable | Parsed(hasEvent: bool, arg: Option<Arg>, hasData: bool)

  /** The args of a subscribe or unsubscribe request: the channel, and the
      instrument only when one is given. */
  function ChannelArgs(channel: string, instId: Option<string>): (a: OkxClient.Fields)
    ensures 1 <= |a| <= 2
    ensures a[0] == ("channel", channel)
    ensures |a| == 2 <==> Present(instId)
    ensures |a| == 2 ==> a[1] == ("instId", instId.value)
  {
    [("channel", channel)] + if Present(instId) then [("instId", instId.value)] else []
  }

  /** The registry key of a subscription: "channel:instId", or the bare
      channel when no instrument is given. */
  function SubscriptionKey(channel: string, instId: Option<string>): string
  {
    if Present(instId) then channel + ":" + instId.value else channel
  }

  /** A Python f-string renders a missing channel as "None". */
  function ChannelText(channel: Option<string>): string
  {
    if channel.Some? then channel.value else "None"
  }

  /** The handlers registered under key, in registration order. */
  function Group(callbacks: map<string, seq<HandlerId>>, key: string): seq<HandlerId>
  {
    if key in callbacks then callbacks[key] else []
  }

  /** Registering h under key: appended after the handlers already there. */
  function Register(callbacks: map<string, seq<HandlerId>>, key: string, h: HandlerId): (c: map<string, seq<HandlerId>>)
    ensures c.Keys == callbacks.Keys + {key}
  {
    callbacks[key := Group(callbacks, key) + [h]]
  }

  /** The handlers a data frame reaches, in the order they run: those under
      "channel:instId" (instId defaulting to ""), then those under the bare
      channel (a missing channel is no key). */
  function Targets(callbacks: map<string, seq<HandlerId>>, channel: Option<string>, instId: Option<string>): seq<HandlerId>
  {
    Group(callbacks, ChannelText(channel) + ":" + instId.GetOr(""))
    + (if channel.Some? then Group(callbacks, channel.value) else [])
  }

  /** Running hs in order until one raises: the handlers invoked, the one
      that raised (if any) last. */
  function UntilFailure(hs: seq<HandlerId>, fails: HandlerId -> bool): seq<HandlerId>
  {
    if hs == [] then []
    else if fails(hs[0]) then [hs[0]]
    else [hs[0]] + UntilFailure(hs[1..], fails)
  }

  /** One step of `UntilFailure` from position i. */
  lemma UntilFailureAt(hs: seq<HandlerId>, i: int, fails: HandlerId -> bool)
    requires 0 <= i < |hs|
    ensures UntilFailure(hs[i..], fails)
            == [hs[i]] + if fails(hs[i]) then [] else UntilFailure(hs[i + 1..], fails)
  {
    assert hs[i..][0] == hs[i] && hs[i..][1..] == hs[i + 1..];
  }

  predicate AllPass(hs: seq<HandlerId>, fails: HandlerId -> bool)
  {
    forall i :: 0 <= i < |hs| ==> !fails(hs[i])
  }

  /** What ran is a prefix of hs and every handler but the last returned;
      it is all of hs when none raised, and otherwise ends at the first
      that raised. */
  lemma {:induction false} UntilFailureMeaning(hs: seq<HandlerId>, fails: HandlerId -> bool)
    ensures var r := UntilFailure(hs, fails);
      && r <= hs
      && (forall i :: 0 <= i < |r| - 1 ==> !fails(r[i]))
      && (AllPass(hs, fails) ==> r == hs)
      && (!AllPass(hs, fails) ==> r != [] && fails(r[|r| - 1]))
  {
    if hs != [] {
      UntilFailureMeaning(hs[1..], fails);
      if !fails(hs[0]) {
        assert AllPass(hs, fails) <==> AllPass(hs[1..], fails) by {
          assert forall i :: 1 <= i < |hs| ==> hs[i] == hs[1..][i - 1];
        }
        assert hs == [hs[0]] + hs[1..];
      }
    }
  }

  /** A raise in the first group ends the whole frame; otherwise the second
      group runs after all of the first. */
  lemma {:induction false} UntilFailureAppend(a: seq<HandlerId>, b: seq<HandlerId>, fails: HandlerId -> bool)
    ensures UntilFailure(a + b, fails)
         == if AllPass(a, fails) then a + UntilFailure(b, fails) else UntilFailure(a, fails)
  {
    if a == [] {
      assert a + b == b;
    } else {
      assert (a + b)[1..] == a[1..] + b;
      UntilFailureAppend(a[1..], b, fails);
      if !fails(a[0]) {
        assert AllPass(a, fails) <==> AllPass(a[1..], fails) by {
          assert forall i :: 1 <= i < |a| ==> a[i] == a[1..][i - 1];
        }
      }
    }
  }

  /** The handlers one inbound frame invokes.  Unparseable frames, event
      frames and frames without both 'arg' and 'data' invoke none. */
  function Dispatched(callbacks: map<string, seq<HandlerId>>, frame: Inbound, fails: HandlerId -> bool): seq<HandlerId>
  {
    match frame
    case Unparseable => []
    case Parsed(hasEvent, arg, hasData) =>
      if hasEvent || !hasData then []
      else match arg
        case Some(ArgObject(channel, instId)) => UntilFailure(Targets(callbacks, channel, instId), fails)
        case _ => []
  }

  /** A frame whose handlers all return runs every handler of the
      "channel:instId" key, in registration order, then every handler of
      the bare channel. */
  lemma DispatchRunsBothGroups(callbacks: map<string, seq<HandlerId>>, channel: string, instId: Option<string>,
                               fails: HandlerId -> bool)
    requires AllPass(Targets(callbacks, Some(channel), instId), fails)
    ensures Dispatched(callbacks, Parsed(false, Some(ArgObject(Some(channel), instId)), true), fails)
         == Group(callbacks, channel + ":" + instId.GetOr("")) + Group(callbacks, channel)
  {
    UntilFailureMeaning(Targets(callbacks, Some(channel), instId), fails);
  }

  /** When a handler raises, the frame's dispatch stops right after it:
      what ran is a prefix of the targets, every handler but the last
      returned, and the last raised unless all of them returned. */
  lemma DispatchStopsAtFailure(callbacks: map<string, seq<HandlerId>>, channel: Option<string>, instId: Option<string>,
                               fails: HandlerId -> bool)
    ensures var ran := Dispatched(callbacks, Parsed(false, Some(ArgObject(channel, instId)), true), fails);
      var targets := Targets(callbacks, channel, instId);
      && ran <= targets
      && (AllPass(targets, fails) ==> ran == targets)
      && (!AllPass(targets, fails) ==> ran != [] && fails(ran[|ran| - 1]))
      && (forall i :: 0 <= i < |ran| - 1 ==> !fails(ran[i]))
  {
    var targets := Targets(callbacks, channel, instId);
    assert Dispatched(callbacks, Parsed(false, Some(ArgObject(channel, instId)), true), fails)
        == UntilFailure(targets, fails);
    UntilFailureMeaning(targets, fails);
  }

  /** Subscribe reaches dispatch: a handler registered for (channel,
      instId) is among the targets of every data frame for that channel
      and instrument, whatever else is registered. */
  lemma SubscribedHandlerReached(callbacks: map<string, seq<HandlerId>>, channel: string, instId: Option<string>,
                                 h: HandlerId)
    ensures h in Targets(Register(callbacks, SubscriptionKey(channel, instId), h), Some(channel), instId)
  {
    var c := Register(callbacks, SubscriptionKey(channel, instId), h);
    var g := Group(c, SubscriptionKey(channel, instId));
    assert g[|g| - 1] == h;
    if Present(instId) {
      assert Targets(c, Some(channel), instId) == g + Group(c, channel);
    } else {
      assert Targets(c, Some(channel), instId) == Group(c, channel + ":" + instId.GetOr("")) + g;
    }
  }

  /** Registering touches one key: that key's list gains h at its end, and
      every other key keeps its list. */
  lemma RegisterTouchesOneKey(callbacks: map<string, seq<HandlerId>>, key: string, h: HandlerId, other: string)
    ensures Group(Register(callbacks, key, h), key) == Group(callbacks, key) + [h]
    ensures other != key ==> Group(Register(callbacks, key, h), other) == Group(callbacks, other)
  {
  }

  /* ---------------------------------------------------------------------
     The client
     --------------------------------------------------------------------- */

  const NotConnected := "WebSocket未连接"

  /** What `ws.send` raises on a socket that closed before `_on_close`
      cleared the connected flag. */
  const SocketClosed := "WebSocketConnectionClosedException"
  const ConnectTimeout := "WebSocket连接超时"

  class OkxWebSocket {
    const apiKey: Option<string>
    const secretKey: Option<string>
    const passphrase: Option<string>
    const isSimulated: bool
    const channelType: string
    const wsUrl: string
    const maxReconnect: int
    var callbacks: map<string, seq<HandlerId>>
    var isConnected: bool
    var reconnectCount: int
    /** Every frame written to the socket, oldest first. */
    var sent: seq<Outgoing>

    /** The reconnect counter stays within [0, maxReconnect]. */
    ghost predicate Valid()
      reads this
    {
      maxReconnect == 5 && 0 <= reconnectCount <= maxReconnect
    }

    constructor (apiKey: Option<string>, secretKey: Option<string>, passphrase: Option<string>,
                 isSimulated: bool, channelType: string)
      ensures Valid()
      ensures this.apiKey == apiKey && this.secretKey == secretKey && this.passphrase == passphrase
      ensures this.isSimulated == isSimulated && this.channelType == channelType
      ensures wsUrl == WsUrl(isSimulated, channelType)
      ensures callbacks == map[] && !isConnected && reconnectCount == 0 && sent == []
    {
      this.apiKey := apiKey;
      this.secretKey := secretKey;
      this.passphrase := passphrase;
      this.isSimulated := isSimulated;
      this.channelType := channelType;
      wsUrl := WsUrl(isSimulated, channelType);
      maxReconnect := 5;
      callbacks := map[];
      isConnected := false;
      reconnectCount := 0;
      sent := [];
    }

    predicate HasCredentials()
      reads this
    {
      Present(apiKey) && Present(secretKey) && Present(passphrase)
    }

    /** The socket opens: the client is connected, and logs in when it
        holds all three credentials.  The login is written only when the
        socket's `send` succeeds (`delivered`); otherwise `_login` raises
        out of the handler, after the flag was already set. */
    method OnOpen(timestamp: string, hmacSha256Base64: (string, string) -> string, delivered: bool)
      returns (raised: bool)
      modifies this
      ensures isConnected
      ensures raised <==> HasCredentials() && !delivered
      ensures sent == old(sent) + if HasCredentials() && delivered then
        [LoginFrame(apiKey.value, passphrase.value, timestamp,
                    hmacSha256Base64(secretKey.value, LoginPreHash(timestamp)))]
        else []
      ensures callbacks == old(callbacks) && reconnectCount == old(reconnectCount)
    {
      isConnected := true;
      raised := false;
      if Present(apiKey) && Present(secretKey) && Present(passphrase) {
        if delivered {
          sent := sent + [LoginFrame(apiKey.value, passphrase.value, timestamp,
                                     hmacSha256Base64(secretKey.value, LoginPreHash(timestamp)))];
        } else {
          raised := true;
        }
      }
    }

    /** The socket reported an error. */
    method OnError()
      modifies this
      ensures !isConnected
      ensures callbacks == old(callbacks) && reconnectCount == old(reconnectCount) && sent == old(sent)
    {
      isConnected := false;
    }

    /** The socket closed. */
    method OnClose()
      modifies this
      ensures !isConnected
      ensures callbacks == old(callbacks) && reconnectCount == old(reconnectCount) && sent == old(sent)
    {
      isConnected := false;
    }

    /** The caller closes the connection; the registry is kept. */
    method Disconnect()
      modifies this
      ensures !isConnected
      ensures callbacks == old(callbacks) && reconnectCount == old(reconnectCount) && sent == old(sent)
    {
      isConnected := false;
    }

    /** `connect`: a fresh socket, which either opens (running OnOpen) or
        not; the call fails when the client is still not connected after
        the wait.  No subscription is sent again: only a login can be. */
    method Connect(opens: bool, timestamp: string, hmacSha256Base64: (string, string) -> string,
                   delivered: bool)
      returns (r: Result<(), string>)
      modifies this
      ensures r.Ok? <==> opens || old(isConnected)
      ensures r.Err? ==> r.error == ConnectTimeout
      ensures isConnected == (opens || old(isConnected))
      ensures opens ==> sent == old(sent) + if HasCredentials() && delivered then
        [LoginFrame(apiKey.value, passphrase.value, timestamp,
                    hmacSha256Base64(secretKey.value, LoginPreHash(timestamp)))]
        else []
      ensures !opens ==> sent == old(sent)
      ensures callbacks == old(callbacks) && reconnectCount == old(reconnectCount)
    {
      if opens {
        var _ := OnOpen(timestamp, hmacSha256Base64, delivered);
      }
      if !isConnected {
        r := Err(ConnectTimeout);
      } else {
        r := Ok(());
      }
    }

    /** `_try_reconnect`: give up once the counter has reached the cap;
        otherwise count the attempt, back off 2^count seconds and connect,
        resetting the counter only when that succeeds. */
    method TryReconnect(opens: bool, timestamp: string, hmacSha256Base64: (string, string) -> string,
                        delivered: bool)
      returns (reconnected: bool, slept: nat)
      requires Valid()
      modifies this
      ensures Valid()
      ensures old(reconnectCount) >= maxReconnect ==>
        !reconnected && slept == 0 && reconnectCount == old(reconnectCount) && isConnected == old(isConnected)
        && sent == old(sent)
      ensures old(reconnectCount) < maxReconnect ==>
        slept == Pow2(old(reconnectCount) + 1)
        && (reconnected <==> opens || old(isConnected))
        && reconnectCount == (if reconnected then 0 else old(reconnectCount) + 1)
      ensures 0 <= slept <= 32
      ensures callbacks == old(callbacks)
    {
      if reconnectCount >= maxReconnect {
        return false, 0;
      }
      reconnectCount := reconnectCount + 1;
      slept := Pow2(reconnectCount);
      Pow2Monotone(reconnectCount, 5);
      var r := Connect(opens, timestamp, hmacSha256Base64, delivered);
      if r.Ok? {
        reconnectCount := 0;
        reconnected := true;
      } else {
        reconnected := false;
      }
    }

    /** `subscribe`: refused when not connected; otherwise the request is
        sent first, and only when `send` succeeds (`delivered`) is the
        callback, when given, registered after those already under its
        key.  A failed send raises before anything is registered. */
    method Subscribe(channel: string, instId: Option<string>, callback: Option<HandlerId>, delivered: bool)
      returns (r: Result<(), string>)
      modifies this
      ensures !old(isConnected) ==> r == Err(NotConnected) && callbacks == old(callbacks) && sent == old(sent)
      ensures old(isConnected) && !delivered ==>
        r == Err(SocketClosed) && callbacks == old(callbacks) && sent == old(sent)
      ensures old(isConnected) && delivered ==>
        r.Ok? && sent == old(sent) + [SubscribeFrame(ChannelArgs(channel, instId))]
      ensures old(isConnected) && delivered && callback.Some? ==>
        callbacks == Register(old(callbacks), SubscriptionKey(channel, instId), callback.value)
      ensures callback.None? ==> callbacks == old(callbacks)
      ensures isConnected == old(isConnected) && reconnectCount == old(reconnectCount)
    {
      if !isConnected {
        return Err(NotConnected);
      }
      if !delivered {
        return Err(SocketClosed);
      }
      sent := sent + [SubscribeFrame(ChannelArgs(channel, instId))];
      if callback.Some? {
        var key := SubscriptionKey(channel, instId);
        if key !in callbacks {
          callbacks := callbacks[key := []];
        }
        callbacks := callbacks[key := callbacks[key] + [callback.value]];
      }
      r := Ok(());
    }

    /** `unsubscribe`: nothing at all when not connected; otherwise the
        request is sent, and only when `send` succeeds is the whole handler
        list of the key dropped.  A failed send raises and keeps it. */
    method Unsubscribe(channel: string, instId: Option<string>, delivered: bool)
      returns (r: Result<(), string>)
      modifies this
      ensures !old(isConnected) ==> r.Ok? && callbacks == old(callbacks) && sent == old(sent)
      ensures old(isConnected) && !delivered ==>
        r == Err(SocketClosed) && callbacks == old(callbacks) && sent == old(sent)
      ensures old(isConnected) && delivered ==>
        r.Ok?
        && sent == old(sent) + [UnsubscribeFrame(ChannelArgs(channel, instId))]
        && callbacks == old(callbacks) - {SubscriptionKey(channel, instId)}
      ensures isConnected == old(isConnected) && reconnectCount == old(reconnectCount)
    {
      if !isConnected {
        return Ok(());
      }
      if !delivered {
        return Err(SocketClosed);
      }
      sent := sent + [UnsubscribeFrame(ChannelArgs(channel, instId))];
      var key := SubscriptionKey(channel, instId);
      if key in callbacks {
        callbacks := callbacks - {key};
      }
      r := Ok(());
    }

    /** One group of `_on_message`: the handlers in order until one raises. */
    method RunGroup(hs: seq<HandlerId>, fails: HandlerId -> bool) returns (ran: seq<HandlerId>, raised: bool)
      ensures ran == UntilFailure(hs, fails)
      ensures raised <==> !AllPass(hs, fails)
    {
      ran := [];
      var i := 0;
      while i < |hs|
        invariant 0 <= i <= |hs|
        invariant ran == hs[..i]
        invariant forall j :: 0 <= j < i ==> !fails(hs[j])
        invariant UntilFailure(hs, fails) == ran + UntilFailure(hs[i..], fails)
      {
        UntilFailureAt(hs, i, fails);
        ran := ran + [hs[i]];
        if fails(hs[i]) {
          return ran, true;
        }
        assert ran == hs[..i + 1];
        i := i + 1;
      }
      assert hs[i..] == [];
      raised := false;
    }

    /** `_on_message`: the handlers one inbound frame invokes, in order.
        The registry is only read. */
    method OnMessage(frame: Inbound, fails: HandlerId -> bool) returns (ran: seq<HandlerId>)
      ensures ran == Dispatched(callbacks, frame, fails)
    {
      ran := [];
      if frame.Unparseable? || frame.hasEvent || !frame.hasData || frame.arg.None? || frame.arg.value.ArgOther? {
        return;
      }
      var channel, instId := frame.arg.value.channel, frame.arg.value.instId;
      var key := ChannelText(channel) + ":" + instId.GetOr("");
      var first := Group(callbacks, key);
      var second := if channel.Some? then Group(callbacks, channel.value) else [];
      UntilFailureAppend(first, second, fails);
      assert Targets(callbacks, channel, instId) == first + second;
      assert Dispatched(callbacks, frame, fails) == UntilFailure(first + second, fails);
      var raised;
      ran, raised := RunGroup(first, fails);
      if raised {
        return;
      }
      UntilFailureMeaning(first, fails);
      var more;
      more, raised := RunGroup(second, fails);
      ran := ran + more;
    }
  }

  lemma {:induction false} Pow2Monotone(m: nat, n: nat)
    requires m <= n
    ensures Pow2(m) <= Pow2(n)
    decreases n
  {
    if m < n {
      Pow2Monotone(m, n - 1);
    }
  }
}
