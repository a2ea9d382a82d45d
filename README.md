# Relay model of minecraft-proxy-handler

This project models `ProxyHandler`, the per-session relay that sits between a game client and a
game server. The protocol engine (`minecraft-protocol`) accepts the client's inbound connection
and reports its `login`. The relay then does the following:

- It greets the client with a provisional world.
- It opens an outbound connection to the real server, using the credentials the host's login
  handler returns, and records it in the registry `toServerClients`.
- It attaches four handlers: outbound `login`, inbound `packet`, outbound `packet` and a one-shot
  inbound `end`.

Each handler reads a small amount of state:

- whether the engine still lists the client (`clientIsOnline`);
- the two connections' protocol states and the received packet's `meta`;
- the registry.

Each handler then either does nothing or performs a fixed, ordered sequence of actions:

- writing packets to the client;
- emitting `start`, `incoming`, `outgoing` or `end` to the host;
- setting the client's compression threshold;
- closing the outbound connection and dropping its registry entry.

The project has four modules:

- `Packets` (packets.dfy) holds the values: protocol states, packet metadata, payloads,
  credentials, the packets the relay writes, the host events, and `Action`, one entry of the
  ordered effect log.
- `Relay` (relay.dfy) holds one pure function per handler. Each gives the exact sequence of
  actions the handler performs, from the state it reads. Their contracts state what the handlers
  promise: the Play gates, the `disconnect` and `set_compression` interception, the two respawns,
  and idempotent teardown. The respawn-dimension choice and the registry updates are here too.
- `Proxy` (proxy.dfy) holds the objects. `ProxyHandler` has the registry, the ordered log of
  writes, emits, connects and closes, and the listening `Server` whose `clients` table the engine
  maintains. Each `Session` holds the inbound and outbound connection objects and whether its
  one-shot `end` handler is still attached. Each handler is a method that updates these objects
  in place. Its postcondition ties the new log, registry and threshold to the `Relay` function
  for that handler.
- `Traces` (traces.dfy) runs the same `Relay` functions over a whole run: any number of
  sessions, with engine events delivered in any order. It proves three properties. In every run,
  `end` is emitted exactly once for each ended session, however many end signals arrive, and
  every forwarded packet was received in Play. In every run in which the engine never reuses a
  client id, the registry holds exactly the live sessions, so its size equals their number.
  (When an id is reused, the first session's teardown removes the second session's entry,
  because `clientEnd` looks the connection up by id. A direct call of `clientEnd` by the host is
  not one of the trace's events.)

Engine-owned facts are fields that the environment assigns and the handlers only read. These
are the protocol states, the server's client table and the outbound username. In the trace
model they are carried by each event, as observed when it is delivered.

## Model

| member | source | states |
|---|---|---|
| `Proxy.ProxyHandler.constructor` | src/index.ts:27-39 | A new handler has an empty registry, an empty effect log and a fresh listening server with no clients |
| `Proxy.ProxyHandler.ClientIsOnline` | src/index.ts:110-112 | True iff the server's client table has a non-null entry for the client's id; it reads only the server's table, never the registry |
| `Proxy.ProxyHandler.CreateClient` | src/index.ts:53-57 | Opens a fresh outbound connection in the handshaking state with no username yet, and logs the connect with the credentials given |
| `Proxy.ProxyHandler.OnLogin` | src/index.ts:41-59 | Appends exactly the inbound-login actions (provisional login, then connect), registers the new outbound connection under the client's id, and returns a session whose `end` handler is attached |
| `Proxy.ProxyHandler.ClientEnd` | src/index.ts:105-108 | The log gains a close of the registered outbound connection only if the id was registered; the registry loses that id and nothing else |
| `Proxy.Session.OnServerLogin` | src/index.ts:61-77 | The log grows by exactly the outbound-login actions for the current online status; the registry and the connections are untouched |
| `Proxy.Session.OnClientPacket` | src/index.ts:79-84 | The log grows by exactly the inbound-packet actions for the online status and the outbound state |
| `Proxy.Session.OnServerPacket` | src/index.ts:86-98 | The log grows by exactly the outbound-packet actions; the client's compression threshold changes only when the reaction sets one, and then to that value |
| `Proxy.Session.OnClientEnd` | src/index.ts:99-102 | The first call emits `end` with the outbound username, then tears down as `clientEnd` and detaches the handler; every later call changes nothing |
| `Relay.OutgoingGate` | src/index.ts:80-81 | The inbound-packet gate: it only opens for an online client and a packet received in Play. `Relay.ClientPacketEffects` proves that `outgoing` is emitted iff this gate holds |
| `Relay.IncomingGate` | src/index.ts:87-91 | The outbound-packet gate: it only opens for an online client whose inbound connection is in Play. `Relay.ServerPacketEffects` proves that `incoming` is emitted, or the threshold set, iff this gate holds |
| `Relay.ProvisionalLogin` | src/index.ts:43-51 | The placeholder login packet carries the client's id as entityId, game mode 0, dimension 0, difficulty 1, 20 max players, level type "default" and reduced debug info off |
| `Relay.RespawnDimension` | src/index.ts:64 | The first respawn's dimension is -1 or 0 and always differs from the server's dimension |
| `Relay.Register` | src/index.ts:59 | The registry gains the client id, mapped to the new outbound connection; every other entry is kept unchanged |
| `Relay.LoginEffects` | src/index.ts:43-59 | Exactly one packet is written before the outbound connection is opened: a login with entityId equal to the client id, game mode 0, dimension 0, difficulty 1, 20 max players, level type "default" and reduced debug info off. The second and last action is the connect with the host's credentials. Nothing is emitted |
| `Relay.ServerLoginEffects` | src/index.ts:61-77 | Offline: nothing. Online: `start` first, then exactly two respawns to the client. Both copy difficulty, game mode and level type. The first has a dimension other than the server's; the second has the server's dimension |
| `Relay.ClientPacketEffects` | src/index.ts:79-84 | Emits `outgoing` with the same data and meta iff the client is online, the outbound state is Play and meta.state is Play; otherwise nothing |
| `Relay.ServerPacketEffects` | src/index.ts:86-98 | Offline: no action and no threshold change. A kick_disconnect carrying the same payload is written iff the client is online and the packet is `disconnect`, and then it comes first. The threshold is set, to data.threshold with no action at all, iff online, meta.state and the inbound state are Play and the packet is `set_compression`. `incoming` is emitted iff online, both are Play and the packet is not `set_compression`. Nothing else happens, and a write always precedes an emit |
| `Relay.ClientEndEffects` | src/index.ts:105-108 | Afterwards the id is absent and all other entries are unchanged. A close of the registered connection is performed iff the id was registered. An absent id leaves everything as it was |
| `Relay.ClientEndIdempotent` | src/index.ts:105-108 | A second `clientEnd` for the same id performs nothing and changes nothing |
| `Relay.EndEffects` | src/index.ts:99-102 | `end` with the outbound username comes first and is the only emit. It is followed by a close of the registered connection exactly when one is registered. The registry loses the id and nothing else |
| `Traces.EndEmittedOncePerSession` | src/index.ts:99-108 | In every run, the number of `end` events equals the number of sessions whose inbound connection has ended: one per session, however many end signals arrive |
| `Traces.RegistryTracksLiveSessions` | src/index.ts:59-107 | In every run where the engine never reuses a client id, the registry maps exactly the live sessions' ids to their own outbound connections, and its size is the number of live sessions |
| `Traces.ForwardedOnlyInPlay` | src/index.ts:79-98 | In every run, each `incoming` and `outgoing` event carries a packet received in the Play state |
| `Traces.LoginThenServerLogin` | src/index.ts:43-76 | Client and then server log in, in dimension 0. The client gets the provisional login, `start` is emitted, and the client respawns into dimension -1 and then 0. The registry holds the one session |
| `Traces.EndWhileNegotiating` | src/index.ts:43-108 | A client that ends twice before its server logs in produces one `end` with no username and one close of its outbound connection, and leaves the registry empty |

The model follows the code as written; note in particular:

- The inbound `packet` gate checks the outbound connection's state and the packet's own
  `meta.state`. It does not check the inbound connection's current state.
- On outbound login, `start` is emitted before the two respawn packets are written, not after.
- An outbound `disconnect` is always written back as `kick_disconnect` while the client is
  online, whatever the protocol states. When its `meta.state` and
  the inbound state are both Play, the code goes on to emit it as `incoming` too. In the protocol,
  `disconnect` is the name of that packet in the login state, so in practice the gate does not
  hold.
- The registry entry is made as soon as the inbound login is handled. Teardown of a session whose
  outbound connection never logged in therefore closes it and removes the entry
  (`Traces.EndWhileNegotiating`).

## Left out

- The protocol engine's own work is not modelled: sockets, framing, compression, encryption and
  authentication. Connections are objects holding only the fields the relay touches. The
  outbound connection's identity is a number the model assigns to each `createClient` call.
- The event-emitter machinery is not modelled. Each emit becomes an entry appended to one
  ordered log. Registering a listener appends nothing: each attached handler becomes a method of
  `Session`, and the one-shot `end` listener becomes its `listening` flag.
- The merging of the server and client option objects (src/index.ts:33-37, 53-57) is not
  modelled. The host's `loginHandler` is not modelled either: its result is the `login`
  parameter of `OnLogin`. The model has no behaviour that depends on the options.
- Timing and interleaving between engine events are not modelled. Each handler is one atomic
  method, called in any order. The engine's assignments to the protocol states, to
  `server.clients` and to the outbound username happen outside the handlers.
- Packet payloads are opaque. `Data.threshold` is the one field the relay reads; a
  `set_compression` payload is assumed to carry it as an integer.
- `Traces`: the trace model does not track compression thresholds. `Proxy.Session.OnServerPacket`
  and `Relay.ServerPacketEffects` state them for each packet.
