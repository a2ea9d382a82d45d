/** The relay over a whole run: any number of sessions, and the engine's
    signals delivered to them in any order. Each signal is handled by the
    Relay function that specifies its handler (the same functions the
    methods of module Proxy are proved against). What the engine owns
    (whether the client is still online, the protocol states, the
    outbound username) is part of each signal, as observed when it is
    delivered. The lemmas state what holds after every run. */
module Traces {
  import opened Packets
  import opened Relay

  /** A session as the relay sees it: the inbound id, its outbound
      connection, and whether its one-shot `end` handler is still
      attached. */
  datatype SessionView = SessionView(clientId: int, server: nat, listening: bool)

  datatype RelayView = RelayView(registry: map<int, nat>, sessions: seq<SessionView>,
                                 log: seq<Action>, nextServer: nat)

  /** An engine event; `session` is the index of the session whose
      handler receives it. */
  datatype Signal =
    | InboundLogin(clientId: int, login: Credentials)
    | OutboundLogin(session: nat, online: bool, loginData: LoginData)
    | InboundPacket(session: nat, online: bool, serverState: State, data: Data, meta: PacketMeta)
    | OutboundPacket(session: nat, online: bool, clientState: State, data: Data, meta: PacketMeta)
    | InboundEnd(session: nat, username: Option<string>)

  const Init: RelayView := RelayView(map[], [], [], 0)

  function Step(v: RelayView, s: Signal): RelayView {
    match s
    case InboundLogin(id, login) =>
      RelayView(Register(v.registry, id, v.nextServer),
                v.sessions + [SessionView(id, v.nextServer, true)],
                v.log + LoginEffects(id, v.nextServer, login),
                v.nextServer + 1)
    case OutboundLogin(k, online, data) =>
      if k < |v.sessions| then
        v.(log := v.log + ServerLoginEffects(online, data, v.sessions[k].clientId, v.sessions[k].server))
      else v
    case InboundPacket(k, online, serverState, data, meta) =>
      if k < |v.sessions| then
        v.(log := v.log + ClientPacketEffects(online, serverState, data, meta,
                                              v.sessions[k].clientId, v.sessions[k].server))
      else v
    case OutboundPacket(k, online, clientState, data, meta) =>
      if k < |v.sessions| then
        v.(log := v.log + ServerPacketEffects(online, clientState, data, meta,
                                              v.sessions[k].clientId, v.sessions[k].server).actions)
      else v
    case InboundEnd(k, username) =>
      if k < |v.sessions| && v.sessions[k].listening then
        var t := EndEffects(username, v.registry, v.sessions[k].clientId);
        v.(registry := t.registry,
           sessions := v.sessions[k := v.sessions[k].(listening := false)],
           log := v.log + t.actions)
      else v
  }

  /** The state after the signals of `t`, delivered in order from the
      start. */
  function Run(t: seq<Signal>): RelayView
    decreases |t|
  {
    if t == [] then Init else Step(Run(t[..|t| - 1]), t[|t| - 1])
  }

  // ---------------------------------------------------------------------
  // Counting

  predicate IsEnd(a: Action) {
    a.Emit? && a.event.End?
  }

  /** The number of `end` events in a log. */
  function CountEnds(log: seq<Action>): nat
    decreases |log|
  {
    if log == [] then 0
    else CountEnds(log[..|log| - 1]) + (if IsEnd(log[|log| - 1]) then 1 else 0)
  }

  lemma {:induction false} CountEndsAppend(a: seq<Action>, b: seq<Action>)
    ensures CountEnds(a + b) == CountEnds(a) + CountEnds(b)
    decreases |b|
  {
    if b == [] {
      assert a + b == a;
    } else {
      assert (a + b)[..|a + b| - 1] == a + b[..|b| - 1];
      CountEndsAppend(a, b[..|b| - 1]);
    }
  }

  lemma {:induction false} NoEndsCountZero(log: seq<Action>)
    requires NoEnds(log)
    ensures CountEnds(log) == 0
    decreases |log|
  {
    if log != [] {
      NoEndsCountZero(log[..|log| - 1]);
    }
  }

  /** The number of sessions whose `end` handler is still attached. */
  function CountListening(s: seq<SessionView>): nat
    decreases |s|
  {
    if s == [] then 0
    else CountListening(s[..|s| - 1]) + (if s[|s| - 1].listening then 1 else 0)
  }

  lemma {:induction false} CountListeningDetach(s: seq<SessionView>, k: nat)
    requires k < |s| && s[k].listening
    ensures CountListening(s[k := s[k].(listening := false)]) + 1 == CountListening(s)
    decreases |s|
  {
    var s' := s[k := s[k].(listening := false)];
    if k < |s| - 1 {
      assert s'[..|s'| - 1] == s[..|s| - 1][k := s[k].(listening := false)];
      CountListeningDetach(s[..|s| - 1], k);
    } else {
      assert s'[..|s'| - 1] == s[..|s| - 1];
    }
  }

  // ---------------------------------------------------------------------
  // The registry and the live sessions

  /** The registry the live sessions call for: each session whose `end`
      handler is still attached, mapped to its outbound connection. */
  function Live(s: seq<SessionView>): map<int, nat>
    decreases |s|
  {
    if s == [] then map[]
    else
      var m := Live(s[..|s| - 1]);
      if s[|s| - 1].listening then m[s[|s| - 1].clientId := s[|s| - 1].server] else m
  }

  ghost predicate DistinctIds(s: seq<SessionView>) {
    forall i, j :: 0 <= i < j < |s| ==> s[i].clientId != s[j].clientId
  }

  function Ids(s: seq<SessionView>): set<int> {
    set i | 0 <= i < |s| :: s[i].clientId
  }

  lemma {:induction false} LiveKeys(s: seq<SessionView>)
    ensures Live(s).Keys <= Ids(s)
    decreases |s|
  {
    if s != [] {
      var p := s[..|s| - 1];
      LiveKeys(p);
      forall id | id in Ids(p) ensures id in Ids(s) {
        var i :| 0 <= i < |p| && p[i].clientId == id;
        assert s[i].clientId == id;
      }
      assert s[|s| - 1].clientId in Ids(s);
    }
  }

  lemma LastIdFresh(s: seq<SessionView>)
    requires DistinctIds(s) && s != []
    ensures s[|s| - 1].clientId !in Ids(s[..|s| - 1])
  {
    var p := s[..|s| - 1];
    forall i | 0 <= i < |p| ensures p[i].clientId != s[|s| - 1].clientId {
      assert p[i] == s[i];
    }
  }

  lemma {:induction false} LiveDetach(s: seq<SessionView>, k: nat)
    requires DistinctIds(s)
    requires k < |s| && s[k].listening
    ensures Live(s[k := s[k].(listening := false)]) == Live(s) - {s[k].clientId}
    decreases |s|
  {
    var s' := s[k := s[k].(listening := false)];
    var p := s[..|s| - 1];
    var last := s[|s| - 1];
    if k < |s| - 1 {
      assert s'[..|s'| - 1] == p[k := p[k].(listening := false)];
      LiveDetach(p, k);
      assert last.clientId != s[k].clientId;
    } else {
      assert s'[..|s'| - 1] == p;
      LiveKeys(p);
      LastIdFresh(s);
      assert Live(p) == Live(p)[last.clientId := last.server] - {last.clientId};
    }
  }

  lemma {:induction false} LiveSize(s: seq<SessionView>)
    requires DistinctIds(s)
    ensures |Live(s)| == CountListening(s)
    decreases |s|
  {
    if s != [] {
      var p := s[..|s| - 1];
      var last := s[|s| - 1];
      LiveSize(p);
      if last.listening {
        LiveKeys(p);
        LastIdFresh(s);
        assert Live(s).Keys == Live(p).Keys + {last.clientId};
      }
    }
  }

  // ---------------------------------------------------------------------
  // Runs

  /** The inbound ids the engine has reported logins for. */
  function LoginIds(t: seq<Signal>): set<int>
    decreases |t|
  {
    if t == [] then {}
    else LoginIds(t[..|t| - 1]) + (if t[|t| - 1].InboundLogin? then {t[|t| - 1].clientId} else {})
  }

  /** The engine never reuses the id of a client it has already reported. */
  predicate FreshLogins(t: seq<Signal>)
    decreases |t|
  {
    t == [] ||
    (FreshLogins(t[..|t| - 1]) &&
     (t[|t| - 1].InboundLogin? ==> t[|t| - 1].clientId !in LoginIds(t[..|t| - 1])))
  }

  predicate NoEnds(actions: seq<Action>) {
    forall i :: 0 <= i < |actions| ==> !IsEnd(actions[i])
  }

  /** Ending a live session adds exactly one `end` event to the log and
      detaches its handler; a login adds a live session; every other
      signal adds no `end` event and detaches nothing. */
  lemma StepEnds(v: RelayView, s: Signal)
    ensures |Step(v, s).sessions| == |v.sessions| + (if s.InboundLogin? then 1 else 0)
    ensures CountEnds(Step(v, s).log) + CountListening(Step(v, s).sessions)
            == CountEnds(v.log) + CountListening(v.sessions) + (if s.InboundLogin? then 1 else 0)
  {
    match s
    case InboundLogin(id, login) =>
      var w := Step(v, s);
      AppendNoEnds(v.log, LoginEffects(id, v.nextServer, login));
      assert w.sessions[..|w.sessions| - 1] == v.sessions;
    case InboundEnd(k, username) =>
      if k < |v.sessions| && v.sessions[k].listening {
        var t := EndEffects(username, v.registry, v.sessions[k].clientId);
        var rest := t.actions[1..];
        assert t.actions == [t.actions[0]] + rest;
        AppendNoEnds(v.log + [t.actions[0]], rest);
        assert v.log + t.actions == v.log + [t.actions[0]] + rest;
        assert (v.log + [t.actions[0]])[..|v.log|] == v.log;
        CountListeningDetach(v.sessions, k);
      }
    case OutboundLogin(k, online, data) =>
      if k < |v.sessions| {
        AppendNoEnds(v.log, ServerLoginEffects(online, data, v.sessions[k].clientId, v.sessions[k].server));
      }
    case InboundPacket(k, online, serverState, data, meta) =>
      if k < |v.sessions| {
        AppendNoEnds(v.log, ClientPacketEffects(online, serverState, data, meta,
                                                v.sessions[k].clientId, v.sessions[k].server));
      }
    case OutboundPacket(k, online, clientState, data, meta) =>
      if k < |v.sessions| {
        AppendNoEnds(v.log, ServerPacketEffects(online, clientState, data, meta,
                                                v.sessions[k].clientId, v.sessions[k].server).actions);
      }
  }

  lemma AppendNoEnds(log: seq<Action>, added: seq<Action>)
    requires NoEnds(added)
    ensures CountEnds(log + added) == CountEnds(log)
  {
    CountEndsAppend(log, added);
    NoEndsCountZero(added);
  }

  /** Over any run, `end` has been emitted exactly once for every session
      whose inbound connection has ended, however many end signals each
      received, and never for a session still live. */
  lemma {:induction false} EndEmittedOncePerSession(t: seq<Signal>)
    ensures CountEnds(Run(t).log) + CountListening(Run(t).sessions) == |Run(t).sessions|
    decreases |t|
  {
    if t != [] {
      EndEmittedOncePerSession(t[..|t| - 1]);
      StepEnds(Run(t[..|t| - 1]), t[|t| - 1]);
    }
  }

  ghost predicate RegistryInv(v: RelayView, t: seq<Signal>) {
    && DistinctIds(v.sessions)
    && Ids(v.sessions) <= LoginIds(t)
    && v.registry == Live(v.sessions)
  }

  lemma {:induction false} RegistryInvRun(t: seq<Signal>)
    requires FreshLogins(t)
    ensures RegistryInv(Run(t), t)
    decreases |t|
  {
    if t != [] {
      var p := t[..|t| - 1];
      var s := t[|t| - 1];
      var v := Run(p);
      RegistryInvRun(p);
      var w := Step(v, s);
      match s
      case InboundLogin(id, login) =>
        assert id !in Ids(v.sessions);
        assert w.sessions[..|w.sessions| - 1] == v.sessions;
        forall i, j | 0 <= i < j < |w.sessions| ensures w.sessions[i].clientId != w.sessions[j].clientId {
          if j == |w.sessions| - 1 {
            assert w.sessions[i].clientId in Ids(v.sessions);
          }
        }
        forall x | x in Ids(w.sessions) ensures x in LoginIds(t) {
          var i :| 0 <= i < |w.sessions| && w.sessions[i].clientId == x;
          if i < |v.sessions| {
            assert v.sessions[i].clientId == x;
          }
        }
      case InboundEnd(k, username) =>
        if k < |v.sessions| && v.sessions[k].listening {
          LiveDetach(v.sessions, k);
          forall x | x in Ids(w.sessions) ensures x in Ids(v.sessions) {
            var i :| 0 <= i < |w.sessions| && w.sessions[i].clientId == x;
            assert v.sessions[i].clientId == x;
          }
        }
      case OutboundLogin(_, _, _) =>
      case InboundPacket(_, _, _, _, _) =>
      case OutboundPacket(_, _, _, _, _) =>
    }
  }

  /** Over any run in which the engine reports each client id once, the
      registry holds exactly the live sessions, each mapped to its own
      outbound connection, so its size is the number of live sessions. */
  lemma RegistryTracksLiveSessions(t: seq<Signal>)
    requires FreshLogins(t)
    ensures Run(t).registry == Live(Run(t).sessions)
    ensures |Run(t).registry| == CountListening(Run(t).sessions)
  {
    RegistryInvRun(t);
    LiveSize(Run(t).sessions);
  }

  // ---------------------------------------------------------------------
  // Forwarding only in Play

  /** Every `incoming` or `outgoing` event in the log carries a packet
      received in Play. */
  ghost predicate ForwardedInPlay(log: seq<Action>) {
    forall i :: 0 <= i < |log| && log[i].Emit? && (log[i].event.Incoming? || log[i].event.Outgoing?)
      ==> log[i].event.meta.state == Play
  }

  lemma {:induction false} ForwardedOnlyInPlay(t: seq<Signal>)
    ensures ForwardedInPlay(Run(t).log)
    decreases |t|
  {
    if t != [] {
      var v := Run(t[..|t| - 1]);
      ForwardedOnlyInPlay(t[..|t| - 1]);
      var w := Step(v, t[|t| - 1]);
      assert |w.log| >= |v.log| && w.log[..|v.log|] == v.log;
    }
  }

  // ---------------------------------------------------------------------
  // Two runs worked through

  /** Client 7 logs in, then its server, in dimension 0: the client gets
      the provisional world, `start` is emitted, and the client respawns
      into dimension -1 and then 0. */
  lemma LoginThenServerLogin()
    ensures var alice := Credentials("alice", None, None);
      var v := Run([InboundLogin(7, alice), OutboundLogin(0, true, LoginData(0, 1, 0, "default"))]);
      && v.log == [ Write(7, LoginPacket(7, 0, 0, 1, 20, "default", false)),
                    Connect(0, alice),
                    Emit(Start(7, 0)),
                    Write(7, Respawn(-1, 1, 0, "default")),
                    Write(7, Respawn(0, 1, 0, "default")) ]
      && v.registry == map[7 := 0]
  {
    var alice := Credentials("alice", None, None);
    var t := [InboundLogin(7, alice), OutboundLogin(0, true, LoginData(0, 1, 0, "default"))];
    assert t[..1][..0] == [];
    var v1 := Step(Init, t[0]);
    assert Run(t[..1]) == v1;
    assert v1.sessions == [SessionView(7, 0, true)];
    assert v1.log == [Write(7, ProvisionalLogin(7)), Connect(0, alice)];
    var v2 := Step(v1, t[1]);
    assert Run(t) == v2;
    assert RespawnDimension(0) == -1;
    assert v2.log == v1.log + ServerLoginEffects(true, LoginData(0, 1, 0, "default"), 7, 0);
  }

  /** Client 7 disconnects twice before its server has logged in: `end`
      is emitted once, with no username, the outbound connection is
      closed, and the registry is left empty. */
  lemma EndWhileNegotiating()
    ensures var alice := Credentials("alice", None, None);
      var v := Run([InboundLogin(7, alice), InboundEnd(0, None), InboundEnd(0, None)]);
      && v.log == [ Write(7, LoginPacket(7, 0, 0, 1, 20, "default", false)),
                    Connect(0, alice),
                    Emit(End(None)),
                    Close(0) ]
      && v.registry == map[]
  {
    var alice := Credentials("alice", None, None);
    var t := [InboundLogin(7, alice), InboundEnd(0, None), InboundEnd(0, None)];
    assert t[..2][..1] == t[..1];
    assert t[..1][..0] == [];
    var v1 := Step(Init, t[0]);
    assert Run(t[..1]) == v1;
    assert v1.sessions == [SessionView(7, 0, true)];
    assert v1.registry == map[7 := 0];
    var v2 := Step(v1, t[1]);
    assert Run(t[..2]) == v2;
    assert v2.sessions == [SessionView(7, 0, false)];
    assert v2.log == v1.log + [Emit(End(None)), Close(0)];
    assert v2.registry == map[];
    assert Run(t) == Step(v2, t[2]) == v2;
  }
}
