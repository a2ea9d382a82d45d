/** What each of the relay's event handlers does, as a pure function of
    the state it reads. Every handler either does nothing or performs a
    fixed, ordered sequence of actions; the functions below give that
    sequence, and their contracts state what the handlers promise.
    The methods of module Proxy are specified by these functions. */
module Relay {
  import opened Packets

  const DISCONNECT: string := "disconnect"
  const SET_COMPRESSION: string := "set_compression"

  /** The gate on packets from the client: the client is still online,
      the outbound connection is in Play, and so was the inbound one when
      the packet arrived. */
  predicate OutgoingGate(online: bool, serverState: State, meta: PacketMeta)
    ensures OutgoingGate(online, serverState, meta) ==> online && meta.state == Play
  {
    online && serverState == Play && meta.state == Play
  }

  /** The gate on packets from the server: the client is still online,
      the outbound connection was in Play when the packet arrived, and
      the inbound connection is in Play. */
  predicate IncomingGate(online: bool, meta: PacketMeta, clientState: State)
    ensures IncomingGate(online, meta, clientState) ==> online && clientState == Play
  {
    online && meta.state == Play && clientState == Play
  }

  /** The placeholder world sent to a client before the real server has
      answered. */
  function ProvisionalLogin(clientId: int): (p: ClientPacket)
    ensures p.LoginPacket? && p.entityId == clientId
    ensures p.gameMode == 0 && p.dimension == 0 && p.difficulty == 1
    ensures p.maxPlayers == 20 && p.levelType == "default" && !p.reducedDebugInfo
  {
    LoginPacket(clientId, 0, 0, 1, 20, "default", false)
  }

  /** The dimension of the first of the two respawn packets: one the
      client cannot already be in, so that it reloads its world. */
  function RespawnDimension(dimension: int): (r: int)
    ensures r != dimension
    ensures r == -1 || r == 0
  {
    if dimension == 0 then -1 else 0
  }

  /** Adding an entry to the registry of outbound connections. */
  function Register(registry: map<int, nat>, clientId: int, server: nat): (r: map<int, nat>)
    ensures r.Keys == registry.Keys + {clientId}
    ensures clientId in r && r[clientId] == server
    ensures forall id :: id in registry && id != clientId ==> r[id] == registry[id]
  {
    registry[clientId := server]
  }

  /** The actions of the inbound `login` handler, for a client with the
      given id, the outbound connection it opens and the credentials the
      host's login handler returned. */
  function LoginEffects(clientId: int, server: nat, login: Credentials): (r: seq<Action>)
    ensures |r| == 2
    ensures r[0].Write? && r[0].client == clientId
    ensures r[0].packet.LoginPacket? && r[0].packet.entityId == clientId
    ensures r[0].packet.gameMode == 0 && r[0].packet.dimension == 0 && r[0].packet.difficulty == 1
    ensures r[0].packet.maxPlayers == 20 && r[0].packet.levelType == "default" && !r[0].packet.reducedDebugInfo
    ensures r[1] == Connect(server, login)
    ensures forall i :: 0 <= i < |r| ==> !r[i].Emit?
  {
    [Write(clientId, ProvisionalLogin(clientId)), Connect(server, login)]
  }

  /** The actions of the outbound `login` handler. */
  function ServerLoginEffects(online: bool, data: LoginData, client: int, server: nat): (r: seq<Action>)
    ensures !online ==> r == []
    ensures online ==> |r| == 3 && r[0] == Emit(Start(client, server))
    ensures online ==> forall i :: 1 <= i < |r| ==>
      && r[i].Write? && r[i].client == client && r[i].packet.Respawn?
      && r[i].packet.difficulty == data.difficulty
      && r[i].packet.gamemode == data.gameMode
      && r[i].packet.levelType == data.levelType
    ensures online ==> r[1].packet.dimension != data.dimension && r[2].packet.dimension == data.dimension
  {
    if !online then []
    else
      [ Emit(Start(client, server)),
        Write(client, Respawn(RespawnDimension(data.dimension), data.difficulty, data.gameMode, data.levelType)),
        Write(client, Respawn(data.dimension, data.difficulty, data.gameMode, data.levelType)) ]
  }

  /** The actions of the inbound `packet` handler. */
  function ClientPacketEffects(online: bool, serverState: State, data: Data, meta: PacketMeta,
                               client: int, server: nat): (r: seq<Action>)
    ensures r != [] <==> online && serverState == Play && meta.state == Play
    ensures forall i :: 0 <= i < |r| ==> i == 0 && r[i] == Emit(Outgoing(data, meta, client, server))
  {
    if OutgoingGate(online, serverState, meta) then [Emit(Outgoing(data, meta, client, server))] else []
  }

  /** What the outbound `packet` handler does: the actions it performs,
      and the compression threshold it sets on the inbound connection, if
      it sets one. */
  datatype Reaction = Reaction(actions: seq<Action>, threshold: Option<int>)

  /** The outbound `packet` handler, as written: a `disconnect` is
      written back as `kick_disconnect` whatever the states, and then
      also emitted as `incoming` when the Play gate holds. */
  function ServerPacketEffects(online: bool, clientState: State, data: Data, meta: PacketMeta,
                               client: int, server: nat): (r: Reaction)
    ensures !online ==> r == Reaction([], None)
    ensures Write(client, KickDisconnect(data)) in r.actions <==> online && meta.name == DISCONNECT
    ensures online && meta.name == DISCONNECT ==> r.actions[0] == Write(client, KickDisconnect(data))
    ensures r.threshold.Some? <==> online && meta.state == Play && clientState == Play && meta.name == SET_COMPRESSION
    ensures r.threshold.Some? ==> r.threshold.value == data.threshold && r.actions == []
    ensures Emit(Incoming(data, meta, client, server)) in r.actions
            <==> online && meta.state == Play && clientState == Play && meta.name != SET_COMPRESSION
    ensures forall i :: 0 <= i < |r.actions| ==>
      r.actions[i] == Write(client, KickDisconnect(data)) || r.actions[i] == Emit(Incoming(data, meta, client, server))
    ensures forall i, j :: 0 <= i < j < |r.actions| ==> r.actions[i].Write? && r.actions[j].Emit?
  {
    if !online then Reaction([], None)
    else
      var kick := if meta.name == DISCONNECT then [Write(client, KickDisconnect(data))] else [];
      if IncomingGate(online, meta, clientState) then
        if meta.name == SET_COMPRESSION then Reaction(kick, Some(data.threshold))
        else Reaction(kick + [Emit(Incoming(data, meta, client, server))], None)
      else Reaction(kick, None)
  }

  /** The effects of a teardown: the actions performed and the registry
      left behind. */
  datatype Teardown = Teardown(actions: seq<Action>, registry: map<int, nat>)

  /** `clientEnd`: close the registered outbound connection, if there is
      one, and drop the entry. */
  function ClientEndEffects(registry: map<int, nat>, clientId: int): (r: Teardown)
    ensures clientId !in r.registry
    ensures r.registry.Keys == registry.Keys - {clientId}
    ensures forall id :: id in r.registry ==> r.registry[id] == registry[id]
    ensures clientId in registry ==> r.actions == [Close(registry[clientId])]
    ensures clientId !in registry ==> r == Teardown([], registry)
  {
    Teardown(if clientId in registry then [Close(registry[clientId])] else [], registry - {clientId})
  }

  /** A second `clientEnd` for the same id does nothing. */
  lemma ClientEndIdempotent(registry: map<int, nat>, clientId: int)
    ensures var once := ClientEndEffects(registry, clientId);
            ClientEndEffects(once.registry, clientId) == Teardown([], once.registry)
  {
  }

  /** The inbound `end` handler: emit `end` with the outbound
      connection's username, then `clientEnd`. */
  function EndEffects(username: Option<string>, registry: map<int, nat>, clientId: int): (r: Teardown)
    ensures |r.actions| >= 1 && r.actions[0] == Emit(End(username))
    ensures forall i :: 1 <= i < |r.actions| ==> clientId in registry && r.actions[i] == Close(registry[clientId])
    ensures |r.actions| == 2 <==> clientId in registry
    ensures clientId !in r.registry
    ensures r.registry.Keys == registry.Keys - {clientId}
    ensures forall id :: id in r.registry ==> r.registry[id] == registry[id]
  {
    var t := ClientEndEffects(registry, clientId);
    Teardown([Emit(End(username))] + t.actions, t.registry)
  }
}
