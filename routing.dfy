/** The routing decisions of the configuration-phase client handler, as pure
    functions from the session state and the collaborators' answers to the
    new state and the effects, in order. The handler class in
    ClientConfigSession is proved to behave exactly as these functions say. */
module ConfigRouting {
  import opened Protocol

  /** An effect that puts a packet on a connection. */
  predicate IsWrite(e: Effect) {
    e.WriteServer? || e.WriteClient? || e.ForwardToServer?
  }

  /** Nothing is written to either side. */
  predicate WritesNothing(t: seq<Effect>) {
    forall e :: e in t ==> !IsWrite(e)
  }

  /** The step pauses auto-reading once per plugin-message event it leaves
      outstanding and resumes it once per outstanding event it completes. */
  predicate PauseBalanced(s: Session, r: Outcome) {
    multiset(r.effects)[SetAutoReading(false)] + |s.pending| ==
    multiset(r.effects)[SetAutoReading(true)] + |r.state.pending|
  }

  /** Appending a balanced step to a balanced trace keeps it balanced. */
  lemma AppendBalanced(t: seq<Effect>, s: Session, r: Outcome)
    requires multiset(t)[SetAutoReading(false)] == multiset(t)[SetAutoReading(true)] + |s.pending|
    requires PauseBalanced(s, r)
    ensures multiset(t + r.effects)[SetAutoReading(false)] ==
            multiset(t + r.effects)[SetAutoReading(true)] + |r.state.pending|
  {
    assert multiset(t + r.effects) == multiset(t) + multiset(r.effects);
  }

  /** `handleResourcePackResponse`: whether the response counts as consumed,
      so that it must not be forwarded. A handler error counts as consumed. */
  function HandleResourcePackResponse(result: PackHandlerResult): (consumed: bool)
    ensures result.PackError? ==> consumed
    ensures result.PackHandled? ==> consumed == result.handled
  {
    match result
    case PackError => true
    case PackHandled(handled) => handled
  }

  /** The cookie `forwardCookieReceive` writes: each of key and payload is the
      override when policy set one (non-nil), otherwise the original. */
  function ForwardedCookie(original: Cookie, verdict: CookieVerdict): (r: Cookie)
    ensures verdict.key.Some? ==> r.key == verdict.key.value
    ensures verdict.key.None? ==> r.key == original.key
    ensures verdict.payload.Some? ==> r.payload == verdict.payload
    ensures verdict.payload.None? ==> r.payload == original.payload
    ensures verdict.key.None? && verdict.payload.None? ==> r == original
  {
    var key := if verdict.key.None? then original.key else verdict.key.value;
    var payload := if verdict.payload.None? then original.payload else verdict.payload;
    Cookie(key, payload)
  }

  /** `connectionInFlightOrConnectedServer().ensureConnected()`: the backend a
      packet can be written to. The in-flight connection is preferred; when
      one exists but is not connected, nothing is reachable (the connected
      server is not tried). */
  function ReachableServer(env: Env): (r: Option<Target>)
    ensures r == Some(InFlight) <==> env.inFlight == Present(true)
    ensures r == Some(ConnectedServer) <==> env.inFlight.Absent? && env.connectedServer == Present(true)
    ensures r.Some? ==> r.value != FinishingServer
  {
    if env.inFlight.Present? then
      if env.inFlight.connected then Some(InFlight) else None
    else if env.connectedServer == Present(true) then Some(ConnectedServer)
    else None
  }

  /** `handlePluginMessage` up to the moment its event is handed off. */
  function PluginMessageStep(s: Session, env: Env, channel: string, data: Data): (r: Outcome)
    // dropped without a trace when nothing is in flight or for BungeeCord
    ensures env.inFlight.Absent? || (!env.isBrand && env.isBungeeCord) ==> r == Outcome(s, [])
    // brand: only brandChannel is recorded and one brand event fired; the brand
    // itself is not stored and the message is not forwarded
    ensures env.inFlight.Present? && env.isBrand ==>
      r.state == s.(brandChannel := channel) && r.effects == [FireClientBrand(env.brand)]
    // unregistered channel: the message itself, to the in-flight server, if connected
    ensures env.inFlight.Present? && !env.isBrand && !env.isBungeeCord && env.channelId.None? ==>
      r.state == s &&
      (r.effects != [] <==> env.inFlight.connected) &&
      (r.effects != [] ==> r.effects == [WriteServer(InFlight, PluginMessage(channel, data))])
    // registered channel: reads paused before the event fires, nothing written yet
    ensures env.inFlight.Present? && !env.isBrand && !env.isBungeeCord && env.channelId.Some? ==>
      r.state == s.(autoReading := false, pending := s.pending + [channel]) &&
      r.effects == [SetAutoReading(false), FirePluginMessage(InFlight, env.channelId.value, data)]
    // the only packet it can ever write is the message itself, verbatim
    ensures forall e :: e in r.effects && IsWrite(e) ==> e == WriteServer(InFlight, PluginMessage(channel, data))
    ensures r.state.brandChannel != s.brandChannel ==> env.isBrand
  {
    if env.inFlight.Absent? then Outcome(s, [])
    else if env.isBrand then
      Outcome(s.(brandChannel := channel), [FireClientBrand(env.brand)])
    else if env.isBungeeCord then Outcome(s, [])
    else
      match env.channelId
      case None =>
        Outcome(s, if env.inFlight.connected then [WriteServer(InFlight, PluginMessage(channel, data))] else [])
      case Some(id) =>
        Outcome(s.(autoReading := false, pending := s.pending + [channel]),
                [SetAutoReading(false), FirePluginMessage(InFlight, id, data)])
  }

  /** The callback of a plugin-message event, for the `index`-th outstanding
      one: it writes the event's data on the original channel when the event
      is allowed and the connection still active and connected, and in every
      case turns auto-reading back on, exactly once, as its last act. */
  function PluginCallbackStep(s: Session, index: nat, cb: CallbackEnv): (r: Outcome)
    requires index < |s.pending|
    ensures r.state == s.(autoReading := true, pending := s.pending[..index] + s.pending[index + 1..])
    ensures |r.effects| > 0 && r.effects[|r.effects| - 1] == SetAutoReading(true)
    // at most the one write, then the resume, and nothing else
    ensures |r.effects| == if cb.allowed && cb.active && cb.connected then 2 else 1
    ensures WriteServer(InFlight, PluginMessage(s.pending[index], cb.data)) in r.effects <==>
      cb.allowed && cb.active && cb.connected
    ensures forall e :: e in r.effects && IsWrite(e) ==> e == WriteServer(InFlight, PluginMessage(s.pending[index], cb.data))
  {
    var channel := s.pending[index];
    var written := if cb.allowed && cb.active && cb.connected
                   then [WriteServer(InFlight, PluginMessage(channel, cb.data))] else [];
    Outcome(s.(autoReading := true, pending := s.pending[..index] + s.pending[index + 1..]),
            written + [SetAutoReading(true)])
  }

  /** A plugin message pauses reading exactly when it leaves one more event
      outstanding. */
  lemma PluginMessageBalanced(s: Session, env: Env, channel: string, data: Data)
    ensures SetAutoReading(true) !in PluginMessageStep(s, env, channel, data).effects
    ensures PauseBalanced(s, PluginMessageStep(s, env, channel, data))
  {
  }

  /** A callback resumes reading exactly once, never pauses it, and leaves
      one event fewer outstanding. */
  lemma PluginCallbackResumesOnce(s: Session, index: nat, cb: CallbackEnv)
    requires index < |s.pending|
    ensures var r := PluginCallbackStep(s, index, cb);
      multiset(r.effects)[SetAutoReading(true)] == 1 &&
      multiset(r.effects)[SetAutoReading(false)] == 0 &&
      PauseBalanced(s, r)
  {
  }

  /** `handleCookieResponse`: the event is always fired first and awaited; a
      denial writes nothing; an allowed response goes, with the overrides
      applied, to the reachable backend if there is one. */
  function CookieStep(s: Session, env: Env, c: Cookie): (r: Outcome)
    ensures r.state == s
    ensures |r.effects| > 0 && r.effects[0] == FireCookieReceive(c.key, c.payload)
    // the event, then at most the one write, and nothing else
    ensures |r.effects| == if env.cookie.allowed && ReachableServer(env).Some? then 2 else 1
    ensures forall e :: e in r.effects ==> !e.SetAutoReading? && !e.WriteClient? && !e.FireClientBrand?
    ensures !env.cookie.allowed ==> WritesNothing(r.effects)
    ensures (exists e :: e in r.effects && IsWrite(e)) <==> env.cookie.allowed && ReachableServer(env).Some?
    ensures env.cookie.allowed && ReachableServer(env).Some? ==>
      r.effects[1..] == [WriteServer(ReachableServer(env).value, CookieResponse(ForwardedCookie(c, env.cookie)))]
    // no override: the forwarded response equals the one received
    ensures env.cookie.key.None? && env.cookie.payload.None? ==>
      forall e :: e in r.effects && IsWrite(e) ==> e.WriteServer? && e.packet == CookieResponse(c)
  {
    var fired := [FireCookieReceive(c.key, c.payload)];
    if !env.cookie.allowed then Outcome(s, fired)
    else
      match ReachableServer(env)
      case None => Outcome(s, fired)
      case Some(t) =>
        var write := WriteServer(t, CookieResponse(ForwardedCookie(c, env.cookie)));
        assert write in fired + [write] && IsWrite(write);
        Outcome(s, fired + [write])
  }

  /** The packets `HandlePacket` hands on without touching the session
      state: every packet but FinishedUpdate, plugin messages and cookie
      responses. */
  predicate Relayed(pc: PacketContext) {
    pc.Unknown? || !(pc.packet.FinishedUpdate? || pc.packet.PluginMessage? || pc.packet.CookieResponse?)
  }

  /** The effects of `HandlePacket` for a relayed packet: forwarded, relayed
      to a backend, or passed to the collaborator that owns it. */
  function RelayEffects(env: Env, pc: PacketContext): (r: seq<Effect>)
    requires Relayed(pc)
    ensures forall e :: e in r ==> !e.WriteClient? && !e.SetAutoReading? && !e.FireClientBrand?
    // an unknown packet and the default arm: forwarded to the server untouched
    ensures pc.Unknown? || pc.packet.OtherConfigPacket? ==> r == [ForwardToServer(pc)]
    // keep-alive: only handed to forwardKeepAlive
    ensures pc.Known? && pc.packet.KeepAlive? ==> r == [ForwardKeepAlive(pc.packet)]
    // client settings: only stored on the player, never forwarded
    ensures pc.Known? && pc.packet.ClientSettings? ==> r == [StoreClientSettings(pc.packet)]
  {
    match pc
    case Unknown(_) => [ForwardToServer(pc)]
    case Known(p, _) =>
      match p
      case KeepAlive(_) => [ForwardKeepAlive(p)]
      case ClientSettings(_) => [StoreClientSettings(p)]
      case ResourcePackResponse(_) =>
        [OfferResourcePackResponse(p)] +
        (if HandleResourcePackResponse(env.packHandler) then [] else [ForwardToServer(pc)])
      case PingIdentify(_) =>
        if env.inFlight == Present(true) then [WriteServer(InFlight, p)] else []
      case KnownPacks(_) =>
        (match ReachableServer(env) case Some(t) => [WriteServer(t, p)] case None => [])
      case OtherConfigPacket(_, _) => [ForwardToServer(pc)]
  }

  /** `HandlePacket`: one decoded packet from the client. */
  function HandlePacketStep(s: Session, env: Env, pc: PacketContext): (r: Outcome)
    // only plugin messages and FinishedUpdate touch the state
    ensures !(pc.Known? && (pc.packet.PluginMessage? || pc.packet.FinishedUpdate?)) ==> r.state == s
    // nothing is ever written to the client while handling its packets
    ensures forall e :: e in r.effects ==> !e.WriteClient?
    ensures r.state.clientBrand == s.clientBrand && r.state.writer == s.writer
  {
    if Relayed(pc) then Outcome(s, RelayEffects(env, pc))
    else if pc.packet.FinishedUpdate? then
      Outcome(s.(active := ClientPlayHandler, switchDone := true), [])
    else if pc.packet.PluginMessage? then
      PluginMessageStep(s, env, pc.packet.channel, pc.packet.data)
    else
      CookieStep(s, env, pc.packet.cookie)
  }

  /** A packet not known in this phase, and a known packet the type switch
      does not match, is forwarded to the server untouched and changes nothing. */
  lemma UnmatchedPacketForwarded(s: Session, env: Env, pc: PacketContext)
    requires pc.Unknown? || pc.packet.OtherConfigPacket?
    ensures HandlePacketStep(s, env, pc) == Outcome(s, [ForwardToServer(pc)])
  {
  }

  /** A cookie response from the client is handled by `CookieStep`. */
  lemma DeliverCookie(s: Session, env: Env, c: Cookie, raw: seq<byte>)
    ensures HandlePacketStep(s, env, Known(CookieResponse(c), raw)) == CookieStep(s, env, c)
  {
  }

  /** A keep-alive is only handed to the keep-alive forwarder, and client
      settings are only stored on the player: neither is written anywhere by
      this handler and neither changes the session. */
  lemma KeepAliveAndSettingsHandedOn(s: Session, env: Env, p: Packet, raw: seq<byte>)
    requires p.KeepAlive? || p.ClientSettings?
    ensures HandlePacketStep(s, env, Known(p, raw)) ==
            Outcome(s, [if p.KeepAlive? then ForwardKeepAlive(p) else StoreClientSettings(p)])
  {
  }

  /** The client's FinishedUpdate installs the Play handler and completes
      `configSwitchDone`, and writes nothing to either side. */
  lemma ClientFinishedUpdateSwitchesToPlay(s: Session, env: Env, raw: seq<byte>)
    ensures HandlePacketStep(s, env, Known(FinishedUpdate, raw)) ==
            Outcome(s.(active := ClientPlayHandler, switchDone := true), [])
  {
  }

  /** A resource-pack response is offered to the resource-pack handler and
      forwarded to the server exactly when the handler did not consume it. */
  lemma ResourcePackForwardedUnlessConsumed(s: Session, env: Env, response: seq<byte>, raw: seq<byte>)
    ensures var pc := Known(ResourcePackResponse(response), raw);
      var r := HandlePacketStep(s, env, pc);
      r.state == s && r.effects[0] == OfferResourcePackResponse(pc.packet) &&
      |r.effects| == (if HandleResourcePackResponse(env.packHandler) then 1 else 2) &&
      (ForwardToServer(pc) in r.effects <==> !HandleResourcePackResponse(env.packHandler)) &&
      (forall e :: e in r.effects && IsWrite(e) ==> e == ForwardToServer(pc))
  {
  }

  /** A ping-identify is written to the in-flight server only, and only
      when it is connected. */
  lemma PingIdentifyOnlyToInFlight(s: Session, env: Env, id: int, raw: seq<byte>)
    ensures var r := HandlePacketStep(s, env, Known(PingIdentify(id), raw));
      r.state == s && (r.effects != [] <==> env.inFlight == Present(true)) &&
      (r.effects != [] ==> r.effects == [WriteServer(InFlight, PingIdentify(id))])
  {
  }

  /** Known packs are relayed, uninterpreted, to the reachable backend. */
  lemma KnownPacksRelayed(s: Session, env: Env, packs: seq<string>, raw: seq<byte>)
    ensures var r := HandlePacketStep(s, env, Known(KnownPacks(packs), raw));
      r.state == s && (r.effects != [] <==> ReachableServer(env).Some?) &&
      (r.effects != [] ==> r.effects == [WriteServer(ReachableServer(env).value, KnownPacks(packs))])
  {
  }

  /** Handling a client packet keeps the pause/resume balance: only a
      plugin message on a registered channel pauses, and then it leaves one
      more event outstanding. */
  lemma HandlePacketBalanced(s: Session, env: Env, pc: PacketContext)
    ensures SetAutoReading(true) !in HandlePacketStep(s, env, pc).effects
    ensures PauseBalanced(s, HandlePacketStep(s, env, pc))
  {
    if Relayed(pc) {
      UntoggledBalanced(s, RelayEffects(env, pc));
    } else if pc.packet.CookieResponse? {
      UntoggledBalanced(s, CookieStep(s, env, pc.packet.cookie).effects);
    } else if pc.packet.PluginMessage? {
      PluginMessageBalanced(s, env, pc.packet.channel, pc.packet.data);
    }
  }

  /** Effects that never switch auto-reading keep the balance when they
      leave the outstanding events alone. */
  lemma UntoggledBalanced(s: Session, t: seq<Effect>)
    requires forall e :: e in t ==> !e.SetAutoReading?
    ensures PauseBalanced(s, Outcome(s, t))
  {
    assert SetAutoReading(false) !in t && SetAutoReading(true) !in t;
  }

  /** What `handleBackendFinishUpdate` returns besides its effects: whether
      it handed back `configSwitchDone` (true) or nil (false). */
  datatype FinishOutcome = FinishOutcome(out: Outcome, awaitable: bool)

  /** `handleBackendFinishUpdate`: the backend finished its configuration. */
  function BackendFinishStep(s: Session, serverConnected: bool, clientWriteOk: bool): (r: FinishOutcome)
    ensures !serverConnected ==> r == FinishOutcome(Outcome(s, []), false)
    ensures r.awaitable <==> serverConnected && clientWriteOk
    ensures r.out.state == if r.awaitable then s.(writer := Play) else s
    // FinishedUpdate is relayed to the client last whenever the server is connected
    ensures serverConnected ==> |r.out.effects| > 0 && r.out.effects[|r.out.effects| - 1] == WriteClient(FinishedUpdate)
    // a brand announcement is sent first exactly when the client brand is
    // empty and a brand channel was recorded, and it carries the empty string
    ensures |r.out.effects| == 2 <==> serverConnected && s.clientBrand == "" && s.brandChannel != ""
    ensures |r.out.effects| == 2 ==>
      r.out.effects[0] == WriteServer(FinishingServer, PluginMessage(s.brandChannel, EncodedString("")))
    ensures |r.out.effects| <= 2
  {
    if !serverConnected then FinishOutcome(Outcome(s, []), false)
    else
      var brand := s.clientBrand;
      var announce := if brand == "" && s.brandChannel != ""
                      then [WriteServer(FinishingServer, PluginMessage(s.brandChannel, EncodedString(brand)))]
                      else [];
      var relayed := announce + [WriteClient(FinishedUpdate)];
      if !clientWriteOk then FinishOutcome(Outcome(s, relayed), false)
      else FinishOutcome(Outcome(s.(writer := Play), relayed), true)
  }

  /** The backend-finished hook never switches reading. */
  lemma BackendFinishBalanced(s: Session, serverConnected: bool, clientWriteOk: bool)
    ensures var r := BackendFinishStep(s, serverConnected, clientWriteOk).out;
      SetAutoReading(false) !in r.effects && SetAutoReading(true) !in r.effects &&
      r.state.pending == s.pending
    ensures PauseBalanced(s, BackendFinishStep(s, serverConnected, clientWriteOk).out)
  {
  }
}
