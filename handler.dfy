/** The client-side configuration-phase session handler as an object: its own
    fields (`brandChannel`, `configSwitchDone`), the player fields it updates
    through the player, the plugin-message callbacks still outstanding, and the
    trace of effects it has caused. Every method is proved to do exactly what
    the matching function of ConfigRouting describes, and to keep the
    pause/resume balance of the auto-reading flag. */
module ClientConfigSession {
  import opened Protocol
  import opened ConfigRouting

  /** The part of the connected player this handler reads and updates. */
  class Player {
    var active: SessionHandler
    var writer: Phase
    var autoReading: bool
    var clientBrand: string

    /** A player in the configuration phase whose connection is reading. */
    constructor (clientBrand: string)
      ensures active == ClientConfigHandler && writer == Config && autoReading
      ensures this.clientBrand == clientBrand
    {
      active := ClientConfigHandler;
      writer := Config;
      autoReading := true;
      this.clientBrand := clientBrand;
    }
  }

  class ClientConfigSessionHandler {
    const player: Player
    var brandChannel: string
    var configSwitchDone: bool
    /** Channels of the plugin messages whose event callback has not run. */
    var pending: seq<string>
    /** Every effect caused so far, oldest first. */
    var trace: seq<Effect>

    /** The state as the step functions see it. */
    function State(): Session
      reads this, player
    {
      Session(brandChannel, configSwitchDone, player.active, player.writer,
              player.autoReading, player.clientBrand, pending)
    }

    /** Every pause of auto-reading in the trace is matched by one resume,
        or belongs to a callback that is still outstanding. */
    ghost predicate Valid()
      reads this
    {
      multiset(trace)[SetAutoReading(false)] == multiset(trace)[SetAutoReading(true)] + |pending|
    }

    /** `newClientConfigSessionHandler`. */
    constructor (player: Player)
      ensures Valid() && this.player == player
      ensures brandChannel == "" && !configSwitchDone && pending == [] && trace == []
    {
      this.player := player;
      brandChannel := "";
      configSwitchDone := false;
      pending := [];
      trace := [];
    }

    /** Records one effect. */
    method Emit(e: Effect)
      modifies this`trace
      ensures trace == old(trace) + [e]
    {
      trace := trace + [e];
    }

    /** `Disconnected`: tears the player down. */
    method Disconnected()
      requires Valid()
      modifies this`trace
      ensures trace == old(trace) + [Teardown]
      ensures Valid()
    {
      Emit(Teardown);
    }

    /** `HandlePacket`: routes one decoded packet from the client. */
    method HandlePacket(env: Env, pc: PacketContext)
      requires Valid()
      modifies this, player
      ensures State() == HandlePacketStep(old(State()), env, pc).state
      ensures trace == old(trace) + HandlePacketStep(old(State()), env, pc).effects
      ensures Valid()
    {
      if Relayed(pc) {
        RelayPacket(env, pc);
      } else if pc.packet.FinishedUpdate? {
        player.active := ClientPlayHandler;
        configSwitchDone := true;
      } else if pc.packet.PluginMessage? {
        HandlePluginMessage(env, pc.packet.channel, pc.packet.data);
      } else {
        HandleCookieResponse(env, pc.packet.cookie);
      }
      HandlePacketBalanced(old(State()), env, pc);
      AppendBalanced(old(trace), old(State()), HandlePacketStep(old(State()), env, pc));
    }

    /** The arms of `HandlePacket`'s type switch that hand the packet on. */
    method RelayPacket(env: Env, pc: PacketContext)
      requires Relayed(pc)
      modifies this`trace
      ensures trace == old(trace) + RelayEffects(env, pc)
    {
      if pc.Unknown? {
        Emit(ForwardToServer(pc));
        return;
      }
      var p := pc.packet;
      match p
      case KeepAlive(_) =>
        Emit(ForwardKeepAlive(p));
      case ClientSettings(_) =>
        Emit(StoreClientSettings(p));
      case ResourcePackResponse(_) =>
        Emit(OfferResourcePackResponse(p));
        if !HandleResourcePackResponse(env.packHandler) {
          Emit(ForwardToServer(pc));
        }
      case PingIdentify(_) =>
        if env.inFlight.Present? {
          if env.inFlight.connected {
            Emit(WriteServer(InFlight, p));
          }
        }
      case KnownPacks(_) =>
        HandleKnownPacks(env, p);
      case OtherConfigPacket(_, _) =>
        Emit(ForwardToServer(pc));
    }

    /** `handlePluginMessage`: for a registered channel it pauses reading,
        fires the event and leaves the rest to `PluginMessageCallback`. */
    method HandlePluginMessage(env: Env, channel: string, data: Data)
      requires Valid()
      modifies this, player
      ensures State() == PluginMessageStep(old(State()), env, channel, data).state
      ensures trace == old(trace) + PluginMessageStep(old(State()), env, channel, data).effects
      ensures Valid()
    {
      PluginMessageBalanced(State(), env, channel, data);
      AppendBalanced(trace, State(), PluginMessageStep(State(), env, channel, data));
      RoutePluginMessage(env, channel, data);
    }

    /** The body of `handlePluginMessage`: the drop cases, the brand message,
        the unregistered channel and the hand-off of a registered one. */
    method RoutePluginMessage(env: Env, channel: string, data: Data)
      modifies this, player
      ensures State() == PluginMessageStep(old(State()), env, channel, data).state
      ensures trace == old(trace) + PluginMessageStep(old(State()), env, channel, data).effects
    {
      if env.inFlight.Absent? {
        return;
      }
      if env.isBrand {
        brandChannel := channel;
        Emit(FireClientBrand(env.brand));
      } else if env.isBungeeCord {
        return;
      } else {
        match env.channelId
        case None =>
          if env.inFlight.connected {
            Emit(WriteServer(InFlight, PluginMessage(channel, data)));
          }
        case Some(id) =>
          player.autoReading := false;
          Emit(SetAutoReading(false));
          Emit(FirePluginMessage(InFlight, id, data));
          pending := pending + [channel];
      }
    }

    /** The callback passed to `FireParallel`, run later for the `index`-th
        outstanding plugin-message event. */
    method PluginMessageCallback(index: nat, cb: CallbackEnv)
      requires Valid() && index < |pending|
      modifies this, player
      ensures State() == PluginCallbackStep(old(State()), index, cb).state
      ensures trace == old(trace) + PluginCallbackStep(old(State()), index, cb).effects
      ensures Valid()
    {
      PluginCallbackResumesOnce(State(), index, cb);
      AppendBalanced(trace, State(), PluginCallbackStep(State(), index, cb));
      var channel := pending[index];
      if cb.allowed && cb.active {
        if cb.connected {
          Emit(WriteServer(InFlight, PluginMessage(channel, cb.data)));
        }
      }
      player.autoReading := true;
      Emit(SetAutoReading(true));
      pending := pending[..index] + pending[index + 1..];
    }

    /** `handleKnownPacks`: relays the packet to the reachable backend. */
    method HandleKnownPacks(env: Env, p: Packet)
      modifies this`trace
      ensures trace == old(trace) + (if ReachableServer(env).Some? then [WriteServer(ReachableServer(env).value, p)] else [])
    {
      var target := ReachableServer(env);
      if target.Some? {
        Emit(WriteServer(target.value, p));
      }
    }

    /** `handleCookieResponse`. */
    method HandleCookieResponse(env: Env, c: Cookie)
      requires Valid()
      modifies this`trace
      ensures trace == old(trace) + CookieStep(old(State()), env, c).effects
      ensures Valid()
    {
      Emit(FireCookieReceive(c.key, c.payload));
      if !env.cookie.allowed {
        return;
      }
      var target := ReachableServer(env);
      if target.None? {
        return;
      }
      ForwardCookieReceive(env.cookie, c, target.value);
    }

    /** `forwardCookieReceive`: writes the response with the overrides applied. */
    method ForwardCookieReceive(verdict: CookieVerdict, original: Cookie, target: Target)
      modifies this`trace
      ensures trace == old(trace) + [WriteServer(target, CookieResponse(ForwardedCookie(original, verdict)))]
    {
      Emit(WriteServer(target, CookieResponse(ForwardedCookie(original, verdict))));
    }

    /** `handleBackendFinishUpdate`: returns true when it hands back
        `configSwitchDone`, false for nil. */
    method HandleBackendFinishUpdate(serverConnected: bool, clientWriteOk: bool) returns (awaitable: bool)
      requires Valid()
      modifies this`trace, player
      ensures awaitable == BackendFinishStep(old(State()), serverConnected, clientWriteOk).awaitable
      ensures State() == BackendFinishStep(old(State()), serverConnected, clientWriteOk).out.state
      ensures trace == old(trace) + BackendFinishStep(old(State()), serverConnected, clientWriteOk).out.effects
      ensures Valid()
    {
      BackendFinishBalanced(State(), serverConnected, clientWriteOk);
      AppendBalanced(trace, State(), BackendFinishStep(State(), serverConnected, clientWriteOk).out);
      awaitable := FinishConfiguration(serverConnected, clientWriteOk);
    }

    /** The body of `handleBackendFinishUpdate`: the brand announcement, the
        relay of FinishedUpdate and the switch of the writer to Play. */
    method FinishConfiguration(serverConnected: bool, clientWriteOk: bool) returns (awaitable: bool)
      modifies this`trace, player
      ensures awaitable == BackendFinishStep(old(State()), serverConnected, clientWriteOk).awaitable
      ensures State() == BackendFinishStep(old(State()), serverConnected, clientWriteOk).out.state
      ensures trace == old(trace) + BackendFinishStep(old(State()), serverConnected, clientWriteOk).out.effects
    {
      if !serverConnected {
        return false;
      }
      var brand := player.clientBrand;
      if brand == "" && brandChannel != "" {
        Emit(WriteServer(FinishingServer, PluginMessage(brandChannel, EncodedString(brand))));
      }
      Emit(WriteClient(FinishedUpdate));
      if !clientWriteOk {
        return false;
      }
      player.writer := Play;
      return true;
    }
  }
}
