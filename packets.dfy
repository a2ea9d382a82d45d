/** Values that pass between the relay, the protocol engine and the host
    application. Connections themselves are objects (module Proxy); here
    they appear only by their identities: an inbound connection by the
    numeric `id` the engine gives it, an outbound connection by the
    number the model gives each `createClient` call. */
module Packets {

  datatype Option<+T> = None | Some(value: T)

  /** The protocol states the engine assigns to a connection. */
  datatype State = Handshaking | Status | Login | Play

  /** The `meta` of a received packet: its name, and the state the
      receiving connection was in when the packet arrived. */
  datatype PacketMeta = PacketMeta(name: string, state: State)

  /** A decoded packet payload. The relay passes it on by reference and
      never looks inside it, except for `threshold`, the field that a
      `set_compression` packet carries. */
  datatype Data = Data(fields: seq<int>, threshold: int)

  /** What the outbound connection's `login` event carries and the relay
      reads. */
  datatype LoginData = LoginData(dimension: int, difficulty: int, gameMode: int, levelType: string)

  datatype AuthKind = Mojang | Microsoft

  /** What the host's login handler returns for an inbound connection. */
  datatype Credentials = Credentials(username: string, password: Option<string>, auth: Option<AuthKind>)

  /** Packets the relay itself writes to the inbound connection. */
  datatype ClientPacket =
    | LoginPacket(entityId: int, gameMode: int, dimension: int, difficulty: int,
                  maxPlayers: int, levelType: string, reducedDebugInfo: bool)
    | Respawn(dimension: int, difficulty: int, gamemode: int, levelType: string)
    | KickDisconnect(data: Data)

  /** The events the relay publishes to the host. */
  datatype Event =
    | Incoming(data: Data, meta: PacketMeta, client: int, server: nat)
    | Outgoing(data: Data, meta: PacketMeta, client: int, server: nat)
    | Start(client: int, server: nat)
    | End(username: Option<string>)

  /** One externally visible effect, in the order the relay performs it:
      a packet written to an inbound connection, an event emitted, an
      outbound connection opened with `createClient`, or one closed with
      `end()`. */
  datatype Action =
    | Write(client: int, packet: ClientPacket)
    | Emit(event: Event)
    | Connect(server: nat, login: Credentials)
    | Close(server: nat)
}
