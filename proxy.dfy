/** The relay's objects and its event handlers. The protocol engine owns
    the connections: it sets their protocol states, keeps the listening
    server's table of clients and sets the outbound connection's username;
    those fields are assigned by the environment, and the handlers here
    only read them. Each handler is one atomic method, and what it does is
    stated by the function of module Relay that describes it. */
module Proxy {
  import opened Packets
  import opened Relay

  /** The listening endpoint. `clients` is the engine's table of
      connected clients, by id; an entry may hold null. */
  class Server {
    var clients: map<int, Option<InboundConnection>>

    constructor ()
      ensures clients == map[]
    {
      clients := map[];
    }
  }

  /** The engine's connection to the game client. */
  class InboundConnection {
    const id: int
    var state: State
    var compressionThreshold: int

    constructor (id: int)
      ensures this.id == id && state == Handshaking && compressionThreshold == -1
    {
      this.id := id;
      state := Handshaking;
      compressionThreshold := -1;
    }
  }

  /** The engine's connection to the real server. */
  class OutboundConnection {
    const id: nat
    var state: State
    var username: Option<string>

    constructor (id: nat)
      ensures this.id == id && state == Handshaking && username == None
    {
      this.id := id;
      state := Handshaking;
      username := None;
    }
  }

  class ProxyHandler {
    const server: Server
    /** The registry: inbound id to the outbound connection opened for it. */
    var toServerClients: map<int, nat>
    /** Everything written, emitted, opened and closed, in order. */
    var log: seq<Action>
    /** The id the next `createClient` gives its connection. */
    var nextServer: nat

    constructor ()
      ensures fresh(server) && server.clients == map[]
      ensures toServerClients == map[] && log == [] && nextServer == 0
    {
      server := new Server();
      toServerClients := map[];
      log := [];
      nextServer := 0;
    }

    /** Whether the engine still lists the client as connected. The
        `reads server` clause is what matters here: the result depends on
        the server's table alone, so nothing the registry holds (and no
        registry update) can change it. */
    function ClientIsOnline(client: InboundConnection): (online: bool)
      reads server
      ensures online <==> client.id in server.clients && server.clients[client.id] != None
    {
      !(client.id !in server.clients || server.clients[client.id] == None)
    }

    method Emit(event: Event)
      modifies this`log
      ensures log == old(log) + [Action.Emit(event)]
    {
      log := log + [Action.Emit(event)];
    }

    method Write(client: InboundConnection, packet: ClientPacket)
      modifies this`log
      ensures log == old(log) + [Action.Write(client.id, packet)]
    {
      log := log + [Action.Write(client.id, packet)];
    }

    method CreateClient(login: Credentials) returns (toServer: OutboundConnection)
      modifies this`log, this`nextServer
      ensures fresh(toServer) && toServer.id == old(nextServer) && toServer.state == Handshaking
      ensures toServer.username == None
      ensures log == old(log) + [Connect(old(nextServer), login)]
      ensures nextServer == old(nextServer) + 1
    {
      toServer := new OutboundConnection(nextServer);
      log := log + [Connect(nextServer, login)];
      nextServer := nextServer + 1;
    }

    /** The inbound `login` handler: greet the client with a provisional
        world, open the outbound connection with the credentials the
        host's login handler gave, register it, and attach the session's
        handlers. */
    method OnLogin(toClient: InboundConnection, login: Credentials) returns (session: Session)
      modifies this`log, this`nextServer, this`toServerClients
      ensures fresh(session) && fresh(session.toServer)
      ensures session.handler == this && session.toClient == toClient && session.listening
      ensures session.toServer.id == old(nextServer) && session.toServer.state == Handshaking
      ensures log == old(log) + LoginEffects(toClient.id, old(nextServer), login)
      ensures toServerClients == Register(old(toServerClients), toClient.id, old(nextServer))
      ensures nextServer == old(nextServer) + 1
    {
      Write(toClient, ProvisionalLogin(toClient.id));
      var toServer := CreateClient(login);
      toServerClients := toServerClients[toClient.id := toServer.id];
      session := new Session(this, toClient, toServer);
    }

    /** Close the client's registered outbound connection, if any, and
        forget it. */
    method ClientEnd(client: InboundConnection)
      modifies this`log, this`toServerClients
      ensures log == old(log) + ClientEndEffects(old(toServerClients), client.id).actions
      ensures toServerClients == ClientEndEffects(old(toServerClients), client.id).registry
    {
      if client.id in toServerClients {
        log := log + [Close(toServerClients[client.id])];
      }
      toServerClients := toServerClients - {client.id};
    }
  }

  /** One inbound connection, the outbound connection opened for it, and
      the handlers attached to the two. `listening` is whether the
      one-shot `end` handler is still attached. */
  class Session {
    const handler: ProxyHandler
    const toClient: InboundConnection
    const toServer: OutboundConnection
    var listening: bool

    constructor (handler: ProxyHandler, toClient: InboundConnection, toServer: OutboundConnection)
      ensures this.handler == handler && this.toClient == toClient && this.toServer == toServer
      ensures listening
    {
      this.handler := handler;
      this.toClient := toClient;
      this.toServer := toServer;
      listening := true;
    }

    /** The outbound `login` handler: announce the session and force the
        client to reload its world. */
    method OnServerLogin(data: LoginData)
      modifies handler`log
      ensures handler.log == old(handler.log)
        + ServerLoginEffects(handler.ClientIsOnline(toClient), data, toClient.id, toServer.id)
    {
      if !handler.ClientIsOnline(toClient) {
        return;
      }
      handler.Emit(Start(toClient.id, toServer.id));
      var dimension := RespawnDimension(data.dimension);
      handler.Write(toClient, Respawn(dimension, data.difficulty, data.gameMode, data.levelType));
      handler.Write(toClient, Respawn(data.dimension, data.difficulty, data.gameMode, data.levelType));
    }

    /** The inbound `packet` handler. */
    method OnClientPacket(data: Data, meta: PacketMeta)
      modifies handler`log
      ensures handler.log == old(handler.log)
        + ClientPacketEffects(handler.ClientIsOnline(toClient), toServer.state, data, meta, toClient.id, toServer.id)
    {
      if !handler.ClientIsOnline(toClient) {
        return;
      }
      if toServer.state == Play && meta.state == Play {
        handler.Emit(Outgoing(data, meta, toClient.id, toServer.id));
      }
    }

    /** The outbound `packet` handler. */
    method OnServerPacket(data: Data, meta: PacketMeta)
      modifies handler`log, toClient`compressionThreshold
      ensures var r := ServerPacketEffects(handler.ClientIsOnline(toClient), toClient.state, data, meta,
                                           toClient.id, toServer.id);
        && handler.log == old(handler.log) + r.actions
        && toClient.compressionThreshold
           == (if r.threshold.Some? then r.threshold.value else old(toClient.compressionThreshold))
    {
      if !handler.ClientIsOnline(toClient) {
        return;
      }
      if meta.name == DISCONNECT {
        handler.Write(toClient, KickDisconnect(data));
      }
      if meta.state == Play && toClient.state == Play {
        if meta.name == SET_COMPRESSION {
          toClient.compressionThreshold := data.threshold;
          return;
        }
        handler.Emit(Incoming(data, meta, toClient.id, toServer.id));
      }
    }

    /** The inbound `end` handler, attached with `once`: it is detached
        before it runs, so only the first end signal has any effect. */
    method OnClientEnd()
      modifies this`listening, handler`log, handler`toServerClients
      ensures !listening
      ensures old(listening) ==>
        var r := EndEffects(toServer.username, old(handler.toServerClients), toClient.id);
        handler.log == old(handler.log) + r.actions && handler.toServerClients == r.registry
      ensures !old(listening) ==>
        handler.log == old(handler.log) && handler.toServerClients == old(handler.toServerClients)
    {
      if !listening {
        return;
      }
      listening := false;
      handler.Emit(End(toServer.username));
      handler.ClientEnd(toClient);
    }
  }
}
