/** Values seen and produced by the client-side configuration-phase session
    handler of the proxy: packets decoded from the client, the answers of the
    collaborators it consults (backend links, the resource-pack handler, the
    channel registrar, the event manager), the session state it reads and
    updates, and the observable effects it causes. */
module Protocol {

  datatype Option<T> = None | Some(value: T)

  newtype byte = x: int | 0 <= x < 256

  /** A plugin-message payload: the bytes as received, or the protocol's
      encoding of a string as `util.WriteString` produces it (the byte layout
      of that encoding is kept symbolic). */
  datatype Data = Raw(bytes: seq<byte>) | EncodedString(text: string)

  /** A namespaced cookie key. */
  type Key = string

  /** The identifier the channel registrar returns for a registered channel. */
  type ChannelIdentifier = string

  /** A cookie response; a payload of `None` is Go's nil slice. */
  datatype Cookie = Cookie(key: Key, payload: Option<seq<byte>>)

  /** The packets the configuration-phase handler distinguishes. Bodies the
      handler never inspects are kept opaque. `OtherConfigPacket` stands for
      every other packet registered in the configuration phase. */
  datatype Packet =
    | KeepAlive(randomId: int)
    | ClientSettings(settings: seq<byte>)
    | ResourcePackResponse(response: seq<byte>)
    | FinishedUpdate
    | PluginMessage(channel: string, data: Data)
    | PingIdentify(id: int)
    | KnownPacks(packs: seq<string>)
    | CookieResponse(cookie: Cookie)
    | OtherConfigPacket(packetId: int, body: seq<byte>)

  /** A decoded unit: either a packet known in the current phase, or one the
      decoder did not recognise, carried as its raw payload. */
  datatype PacketContext =
    | Unknown(payload: seq<byte>)
    | Known(packet: Packet, payload: seq<byte>)

  datatype Phase = Handshake | Status | Login | Config | Play

  /** The session handler installed on the player's connection. */
  datatype SessionHandler = ClientConfigHandler | ClientPlayHandler

  /** A backend connection slot of the player: no connection, or a connection
      whose `ensureConnected` answers `connected`. */
  datatype Link = Absent | Present(connected: bool)

  /** The backend connection a write goes to: the connection in flight, the
      connected server, or the connection handed to the backend-finished hook. */
  datatype Target = InFlight | ConnectedServer | FinishingServer

  /** What the resource-pack handler answers: handled or not, or an error. */
  datatype PackHandlerResult = PackHandled(handled: bool) | PackError

  /** A `CookieReceiveEvent` after policy has seen it: its verdict and the
      key and payload overrides it set (`None` is nil: no override). */
  datatype CookieVerdict = CookieVerdict(allowed: bool, key: Option<Key>, payload: Option<seq<byte>>)

  /** The collaborators' answers while one packet is handled. */
  datatype Env = Env(
    inFlight: Link,                       // player.connectionInFlight()
    connectedServer: Link,                // the player's connected server
    packHandler: PackHandlerResult,       // resourcePackHandler.OnResourcePackResponse
    isBrand: bool,                        // plugin.McBrand
    brand: string,                        // plugin.ReadBrandMessage
    isBungeeCord: bool,                   // bungeecord.IsBungeeCordMessage
    channelId: Option<ChannelIdentifier>, // ChannelRegistrar().FromID
    cookie: CookieVerdict)                // the fired CookieReceiveEvent

  /** The answers seen when a plugin-message event's callback runs: the
      event's verdict and (possibly rewritten) data, and the state of the
      backend connection at that later moment. */
  datatype CallbackEnv = CallbackEnv(allowed: bool, data: Data, active: bool, connected: bool)

  /** An observable effect of the handler, in the order it happens. */
  datatype Effect =
    | WriteServer(target: Target, packet: Packet)  // a packet written to a backend
    | WriteClient(packet: Packet)                  // a packet written to the client
    | ForwardToServer(context: PacketContext)      // forwardToServer invoked
    | ForwardKeepAlive(keepAlive: Packet)          // forwardKeepAlive invoked
    | StoreClientSettings(settings: Packet)        // player.setClientSettings invoked
    | OfferResourcePackResponse(response: Packet)  // the resource-pack handler consulted
    | FireClientBrand(brand: string)               // PlayerClientBrandEvent fired
    | FirePluginMessage(source: Target, id: ChannelIdentifier, data: Data)
                                                   // PluginMessageEvent fired; its target is the player
    | FireCookieReceive(key: Key, payload: Option<seq<byte>>) // CookieReceiveEvent fired
    | SetAutoReading(enabled: bool)                // auto-reading switched
    | Teardown                                     // player.teardown invoked

  /** The state the handler reads and updates: its own `brandChannel`, the
      completion of `configSwitchDone`, the player's active handler, writer
      state, auto-reading flag and client brand, and the channels of the
      plugin messages whose event callbacks have not run yet. */
  datatype Session = Session(
    brandChannel: string,
    switchDone: bool,
    active: SessionHandler,
    writer: Phase,
    autoReading: bool,
    clientBrand: string,
    pending: seq<string>)

  /** The state after one step and the effects the step caused. */
  datatype Outcome = Outcome(state: Session, effects: seq<Effect>)
}
