/** What can be reached: every state can come to rest, a newcomer can come to be heard by its whole group, and a
    server that shuts down can come to be forgotten by it. */
module Settling {
  import opened Protocol
  import opened Supervisor
  import opened Membership
  import opened Listeners
  import opened Sessions
  import opened Cascade

  /** A live connection without a departure to come, whose server is running and has had no failure. */
  ghost predicate Sound(s: System, id: ConnId) {
    && id in s.core.conns && id in s.core.wires && id in s.sessions
    && Departed(id) !in s.core.queue && !s.core.wires[id].failed
    && s.sessions[id].phase == Running && s.sessions[id].clean
  }

  /** Whoever is sound stays so, under the same registration, except one at most. */
  ghost predicate Spares(s: System, t: System, leaver: Option<ConnId>) {
    forall id :: Sound(s, id) && Some(id) != leaver ==> Sound(t, id) && t.core.conns[id] == s.core.conns[id]
  }

  ghost predicate Drained(s: System, id: ConnId) {
    id in s.sessions && id in s.core.wires && s.sessions[id].taken == |Frames(s.core.wires[id])|
  }

  /** At rest: no event is queued, and every running server has read its whole stream. */
  ghost predicate Settled(s: System) {
    s.core.queue == [] && forall id :: id in s.sessions && s.sessions[id].phase == Running ==> Drained(s, id)
  }

  lemma {:induction false} PlayAppend(s: System, a: seq<Move>, b: seq<Move>)
    requires Possible(s, a) && Possible(Play(s, a), b)
    ensures Possible(s, a + b) && Play(s, a + b) == Play(Play(s, a), b)
    decreases |a|
  {
    if a == [] {
      assert a + b == b;
    } else {
      assert (a + b)[0] == a[0] && (a + b)[1..] == a[1..] + b;
      PlayAppend(After(s, a[0]), a[1..], b);
    }
  }

  ghost predicate CanReach(s: System, t: System) {
    exists moves :: Possible(s, moves) && Play(s, moves) == t
  }

  lemma ReachOne(s: System, m: Move)
    requires CanMove(s, m)
    ensures CanReach(s, After(s, m))
  {
    assert [m][1..] == [] && Possible(After(s, m), []);
    assert Possible(s, [m]) && Play(s, [m]) == After(s, m);
  }

  lemma ReachSelf(s: System)
    ensures CanReach(s, s)
  {
    assert Possible(s, []) && Play(s, []) == s;
  }

  lemma ReachOn(s: System, t: System, u: System)
    requires CanReach(s, t) && CanReach(t, u)
    ensures CanReach(s, u)
  {
    var a :| Possible(s, a) && Play(s, a) == t;
    var b :| Possible(t, b) && Play(t, b) == u;
    PlayAppend(s, a, b);
  }

  lemma HappensOn(s: System, t: System)
    requires Happens(s) && CanReach(s, t)
    ensures Happens(t)
  {
    var a :| Possible(START, a) && Play(START, a) == s;
    var b :| Possible(s, b) && Play(s, b) == t;
    PlayAppend(START, a, b);
  }

  lemma Bounds(s: System, id: ConnId)
    requires Happens(s) && id in s.sessions
    ensures id in s.core.wires && s.sessions[id].taken <= |Frames(s.core.wires[id])| && Owned(s.sessions[id].table)
  {
    HappensSysInv(s);
    assert SessionOk(s, id);
  }

  // ---- Handling the queue ----

  lemma NoFailures(c: Core, d: Core, peerIds: seq<ConnId>, conns: map<ConnId, Register>)
    requires c.queue != [] && QueueIs(c, d, peerIds, conns, {})
    ensures d.queue == c.queue[1..]
  {
    var failed: seq<ConnId> :|
      && d.queue == c.queue[1..] + seq(|failed|, k requires 0 <= k < |failed| => Departed(failed[k]))
      && FailedInOrder(failed, peerIds, conns, {});
    if failed != [] {
      HasFirst(failed);
    }
  }

  lemma HasFirst<T>(xs: seq<T>)
    requires xs != []
    ensures exists x :: x in xs
  {
    assert xs[0] in xs;
  }

  ghost predicate Unharmed(c: Core, id: ConnId) {
    id in c.conns && id in c.wires && Departed(id) !in c.queue && !c.wires[id].failed
  }

  lemma AdmissionSpares(c: Core, d: Core, r: Register, env: Env, id: ConnId)
    requires Numbered(c) && Admitted(c, d, r, env) && env.fails == {} && c.queue != [] && d.queue == c.queue[1..]
    requires Unharmed(c, id)
    ensures Unharmed(d, id) && d.conns[id] == c.conns[id]
  {
  }

  lemma DepartureSpares(c: Core, d: Core, x: ConnId, env: Env, id: ConnId)
    requires Numbered(c) && x in c.conns && HasLeft(c, d, x, env) && env.fails == {}
    requires c.queue != [] && d.queue == c.queue[1..] && Unharmed(c, id) && id != x
    ensures Unharmed(d, id) && d.conns[id] == c.conns[id]
  {
  }

  /** Handling an event without a failed write takes it off the queue and harms nobody else. */
  lemma HandleSpares(c: Core, env: Env, d: Core, id: ConnId)
    requires Inv(c) && Enabled(c, Handle(env)) && env.fails == {} && d == HandleHead(c, env)
    ensures d.queue == c.queue[1..]
    ensures Unharmed(c, id) ==> Unharmed(d, id) && d.conns[id] == c.conns[id]
  {
    match c.queue[0]
    case Registered(r) => RegistrationSpares(c, env, r, d, id);
    case Departed(x) =>
      DepartureTakesEffectIff(c, env, x);
      assert c.queue[0] in c.queue;
      if x in c.conns {
        NoFailures(c, d, env.peerIds, c.conns - {x});
        if Unharmed(c, id) { DepartureSpares(c, d, x, env, id); }
      }
  }

  lemma RegistrationSpares(c: Core, env: Env, r: Register, d: Core, id: ConnId)
    requires Inv(c) && Enabled(c, Handle(env)) && env.fails == {} && d == HandleHead(c, env)
    requires c.queue[0] == Registered(r)
    ensures d.queue == c.queue[1..]
    ensures Unharmed(c, id) ==> Unharmed(d, id) && d.conns[id] == c.conns[id]
  {
    RegistrationTakesEffectIff(c, env, r);
    if Grantable(c, r, env) && env.ackOk {
      NoFailures(c, d, env.peerIds, c.conns);
      if Unharmed(c, id) { AdmissionSpares(c, d, r, env, id); }
    }
  }

  lemma SuperviseSpares(s: System, env: Env)
    requires Happens(s) && Enabled(s.core, Handle(env)) && env.fails == {}
    ensures var m := Supervise(Handle(env), {});
            CanMove(s, m) && After(s, m).core.queue == s.core.queue[1..] && Spares(s, After(s, m), None)
  {
    HappensSysInv(s);
    var m := Supervise(Handle(env), {});
    var t := After(s, m);
    HandleSpares(s.core, env, t.core, 0);
    forall id | Sound(s, id) ensures Sound(t, id) && t.core.conns[id] == s.core.conns[id] {
      HandleSpares(s.core, env, t.core, id);
      MovesAreLocal(s, m, id);
    }
  }

  lemma {:induction false} HandleQueue(s: System) returns (t: System)
    requires Happens(s)
    ensures CanReach(s, t) && t.core.queue == [] && Spares(s, t, None)
    ensures s.core.queue == [] ==> t == s
    decreases |s.core.queue|
  {
    if s.core.queue == [] {
      t := s;
      ReachSelf(s);
    } else {
      var env := SomeEnvFits(s.core, None, true, true, {});
      var m := Supervise(Handle(env), {});
      SuperviseSpares(s, env);
      ReachOne(s, m);
      HappensOn(s, After(s, m));
      t := HandleQueue(After(s, m));
      ReachOn(s, After(s, m), t);
    }
  }

  // ---- Reading ----

  /** Reading changes one session, and directories. */
  ghost predicate OnlyReads(s: System, t: System, id: ConnId) {
    && t.core == s.core.(dirs := t.core.dirs)
    && id in s.sessions && id in t.sessions && t.sessions == s.sessions[id := t.sessions[id]]
    && t.sessions[id].phase == s.sessions[id].phase && t.sessions[id].clean == s.sessions[id].clean
  }

  lemma {:induction false} ReadStream(s: System, id: ConnId) returns (t: System)
    requires Happens(s) && id in s.sessions && id in s.core.wires && s.sessions[id].phase == Running
    ensures CanReach(s, t) && OnlyReads(s, t, id) && Drained(t, id)
    decreases |Frames(s.core.wires[id])| - s.sessions[id].taken
  {
    Bounds(s, id);
    if s.sessions[id].taken == |Frames(s.core.wires[id])| {
      t := s;
      ReachSelf(s);
    } else {
      var u := ReadFrame(s, id);
      HappensOn(s, u);
      t := ReadStream(u, id);
      ReachOn(s, u, t);
    }
  }

  lemma ReadFrame(s: System, id: ConnId) returns (t: System)
    requires Happens(s) && id in s.sessions && s.sessions[id].phase == Running
    requires id in s.core.wires && s.sessions[id].taken < |Frames(s.core.wires[id])|
    ensures CanReach(s, t) && OnlyReads(s, t, id) && t.sessions[id].taken == s.sessions[id].taken + 1
  {
    t := After(s, Receive(id, map[]));
    ReachOne(s, Receive(id, map[]));
  }

  /** Reading changes sessions and directories only. */
  ghost predicate Reads(s: System, t: System) {
    && t.core == s.core.(dirs := t.core.dirs) && t.sessions.Keys == s.sessions.Keys
    && (forall id :: id in s.sessions ==>
          t.sessions[id].phase == s.sessions[id].phase && t.sessions[id].clean == s.sessions[id].clean)
    && (forall id :: Drained(s, id) ==> Drained(t, id))
  }

  lemma {:induction false} ReadStreams(s: System, ids: set<ConnId>) returns (t: System)
    requires Happens(s) && ids <= s.sessions.Keys
    ensures CanReach(s, t) && Reads(s, t)
    ensures forall id :: id in ids && s.sessions[id].phase == Running ==> Drained(t, id)
    decreases ids
  {
    if ids == {} {
      t := s;
      ReachSelf(s);
    } else {
      var id :| id in ids;
      var u := ReadOne(s, id);
      HappensOn(s, u);
      t := ReadStreams(u, ids - {id});
      ReachOn(s, u, t);
      ReadsOn(s, u, t);
      assert forall i :: i in ids && i != id ==> i in ids - {id};
    }
  }

  lemma ReadOne(s: System, id: ConnId) returns (t: System)
    requires Happens(s) && id in s.sessions
    ensures CanReach(s, t) && Reads(s, t)
    ensures s.sessions[id].phase == Running ==> Drained(t, id)
  {
    if s.sessions[id].phase == Running {
      Bounds(s, id);
      t := ReadStream(s, id);
    } else {
      t := s;
      ReachSelf(s);
    }
    OnlyReadsReads(s, t, id);
  }

  lemma OnlyReadsReads(s: System, t: System, id: ConnId)
    requires t == s || (OnlyReads(s, t, id) && Drained(t, id))
    ensures Reads(s, t)
  {
  }

  lemma ReadsOn(s: System, t: System, u: System)
    requires Reads(s, t) && Reads(t, u)
    ensures Reads(s, u)
  {
  }

  lemma ReadsSpares(s: System, t: System)
    requires Reads(s, t)
    ensures Spares(s, t, None)
  {
  }

  // ---- The theorems ----

  /** From every state the system can come to rest, with every sound connection still there. */
  lemma CanSettle(s: System) returns (t: System)
    requires Happens(s)
    ensures CanReach(s, t) && Settled(t) && Spares(s, t, None)
    ensures s.core.queue == [] ==> Reads(s, t)
  {
    var u := HandleQueue(s);
    HappensOn(s, u);
    t := ReadStreams(u, u.sessions.Keys);
    ReadsSpares(u, t);
    ReachOn(s, u, t);
  }

  lemma Arrives(s: System, r: Register) returns (t: System)
    requires Happens(s)
    ensures CanReach(s, t) && Spares(s, t, None)
    ensures t.core == s.core.(queue := s.core.queue + [Registered(r)]) && t.sessions.Keys == s.sessions.Keys
  {
    HappensSysInv(s);
    var m := Supervise(Arrive(r), {});
    t := After(s, m);
    ReachOne(s, m);
    forall id | Sound(s, id) ensures Sound(t, id) {
      MovesAreLocal(s, m, id);
    }
  }

  /** A registration for a free slug can be granted, and the newcomer is sound. */
  lemma CanJoin(s: System, r: Register) returns (t: System)
    requires Happens(s) && s.core.queue == [] && r.slug !in Members(s.core.groups, r.group)
    ensures CanReach(s, t) && Spares(s, t, None)
    ensures t.core.queue == [] && t.core.conns == s.core.conns[s.core.nextId := r] && Sound(t, s.core.nextId)
  {
    var u := Arrives(s, r);
    HappensOn(s, u);
    HappensSysInv(u);
    var env := SomeEnvFits(u.core, None, true, true, {});
    var m := Supervise(Handle(env), {});
    SuperviseSpares(u, env);
    RegistrationTakesEffectIff(u.core, env, r);
    SessionsStartEmpty(u, m, s.core.nextId);
    t := After(u, m);
    ReachOne(u, m);
    ReachOn(s, u, t);
  }

  lemma NextIsNew(s: System)
    requires Happens(s)
    ensures s.core.nextId !in s.core.conns
  {
    HappensSysInv(s);
  }

  /** From every state without queued events, a registration for a free slug can lead to a state at rest in which the
      newcomer and every sound member of its group listen for each other. */
  lemma NewcomerIsHeard(s: System, r: Register) returns (t: System)
    requires Happens(s) && s.core.queue == [] && r.slug !in Members(s.core.groups, r.group)
    ensures CanReach(s, t) && Settled(t) && Spares(s, t, None)
    ensures t.core.conns == s.core.conns[s.core.nextId := r] && Sound(t, s.core.nextId)
    ensures forall other :: Sound(s, other) && s.core.conns[other].group == r.group ==>
              && r.slug in t.sessions[other].table.entries
              && s.core.conns[other].slug in t.sessions[s.core.nextId].table.entries
  {
    NextIsNew(s);
    var id := s.core.nextId;
    var u := CanJoin(s, r);
    HappensOn(s, u);
    t := CanSettle(u);
    ReachOn(s, u, t);
    HappensOn(s, t);
    forall other | Sound(s, other) && s.core.conns[other].group == r.group
      ensures r.slug in t.sessions[other].table.entries
      ensures s.core.conns[other].slug in t.sessions[id].table.entries
    {
      assert Sound(u, other) && other != id;
      ListeningIsMutual(t, other, id);
    }
  }

  // ---- Breaking ----

  /** Nothing is spared: in every state any registration can arrive, over any left-over sockets; any server can be
      killed, a running one can lose its stream, or read its next frame with any faults, and a watcher can end with
      an error. */
  lemma AnythingCanBreak(s: System, id: ConnId, r: Register, stale: set<Path>, faults: Faults)
    requires Happens(s) && id in s.sessions
    ensures CanMove(s, Supervise(Arrive(r), stale)) && CanMove(s, Kill(id))
    ensures id in s.core.watching ==> CanMove(s, WatcherError(id)) && id in After(s, WatcherError(id)).errored
    ensures s.sessions[id].phase == Running ==>
              && CanMove(s, Lose(id)) && id in s.core.wires
              && (s.sessions[id].taken < |s.core.wires[id].sent + s.core.wires[id].late| ==>
                  CanMove(s, Receive(id, faults)))
  {
    Bounds(s, id);
  }

  /** A server that has lost its stream can clear its listeners, and its departure can be reported before it does or
      after. */
  lemma LossIsCleared(s: System, id: ConnId) returns (order: seq<Slug>)
    requires Happens(s) && id in s.sessions && s.sessions[id].phase == Lost
    ensures id in s.core.watching ==> CanMove(s, WatcherEof(id))
    ensures CanMove(s, LoseClear(id, order))
    ensures var t := After(s, LoseClear(id, order));
            && t.sessions[id].phase == Gone && t.sessions[id].table.entries == map[] && t.sessions[id].table.bound == {}
            && (id in t.core.watching ==> CanMove(t, WatcherEof(id)))
  {
    Bounds(s, id);
    order := SomeEnumeration(s.sessions[id].table.entries.Keys);
    ClearLeavesNothing(s.sessions[id].table, order);
  }

  // ---- Leaving ----

  /** The session has ended and its departure is queued, nothing else has changed. */
  ghost predicate HasShutDown(s: System, t: System, id: ConnId) {
    && t.core.queue == [Departed(id)] && t.core.conns == s.core.conns && t.core.wires == s.core.wires
    && id in t.sessions && t.sessions[id].table.entries == map[] && t.sessions[id].table.bound == {}
    && t.sessions == s.sessions[id := t.sessions[id]]
  }

  lemma Clears(s: System, id: ConnId) returns (t: System)
    requires Happens(s) && id in s.sessions && s.sessions[id].phase == Running
    ensures CanReach(s, t) && t.core == s.core
    ensures id in t.sessions && t.sessions[id].phase == Cleared && t.sessions == s.sessions[id := t.sessions[id]]
    ensures t.sessions[id].table.entries == map[] && t.sessions[id].table.bound == {}
  {
    Bounds(s, id);
    var order := SomeEnumeration(s.sessions[id].table.entries.Keys);
    ClearLeavesNothing(s.sessions[id].table, order);
    t := After(s, ShutdownClear(id, order));
    ReachOne(s, ShutdownClear(id, order));
  }

  lemma Closes(s: System, id: ConnId) returns (t: System)
    requires Happens(s) && id in s.sessions && s.sessions[id].phase == Cleared && id in s.core.watching
    ensures CanReach(s, t)
    ensures t.core == s.core.(queue := s.core.queue + [Departed(id)], watching := s.core.watching - {id})
    ensures t.sessions == s.sessions[id := s.sessions[id].(phase := Closed)]
  {
    var u := After(s, ShutdownClose(id));
    ReachOne(s, ShutdownClose(id));
    ReachOne(u, WatcherEof(id));
    t := After(u, WatcherEof(id));
    ReachOn(s, u, t);
  }

  lemma IsWatched(s: System, id: ConnId)
    requires Happens(s) && id in s.core.conns && Departed(id) !in s.core.queue
    ensures id in s.core.watching
  {
    HappensSysInv(s);
  }

  /** A running server can shut down: its listeners are cleared, then its stream is closed, then its watcher ends. */
  lemma CanShutDown(s: System, id: ConnId) returns (t: System)
    requires Happens(s) && s.core.queue == [] && Sound(s, id)
    ensures CanReach(s, t) && HasShutDown(s, t, id)
  {
    IsWatched(s, id);
    var u := Clears(s, id);
    HappensOn(s, u);
    t := Closes(u, id);
    ReachOn(s, u, t);
  }

  lemma CanLeave(s: System, id: ConnId) returns (t: System)
    requires Happens(s) && s.core.queue == [] && Sound(s, id)
    ensures CanReach(s, t) && Spares(s, t, Some(id))
    ensures t.core.queue == [] && t.core.conns == s.core.conns - {id}
    ensures id in t.sessions && t.sessions[id].table.bound == {}
  {
    var u := CanShutDown(s, id);
    ShutDownSpares(s, u, id);
    HappensOn(s, u);
    t := Departs(u, id);
    ReachOn(s, u, t);
  }

  lemma ShutDownSpares(s: System, t: System, id: ConnId)
    requires HasShutDown(s, t, id)
    ensures Spares(s, t, Some(id))
  {
  }

  lemma Departs(s: System, id: ConnId) returns (t: System)
    requires Happens(s) && s.core.queue == [Departed(id)] && id in s.core.conns && id in s.sessions
    requires s.sessions[id].table.bound == {}
    ensures CanReach(s, t) && Spares(s, t, None)
    ensures t.core.queue == [] && t.core.conns == s.core.conns - {id}
    ensures id in t.sessions && t.sessions[id].table.bound == {}
  {
    HappensSysInv(s);
    var env := SomeEnvFits(s.core, None, true, true, {});
    var m := Supervise(Handle(env), {});
    SuperviseSpares(s, env);
    DepartureTakesEffectIff(s.core, env, id);
    t := After(s, m);
    ReachOne(s, m);
  }

  lemma OneHolder(c: Core, a: ConnId, b: ConnId)
    requires Inv(c) && a in c.conns && b in c.conns && c.conns[a] == c.conns[b]
    ensures a == b
  {
    assert Lists(c.groups, c.conns[a].group, c.conns[a].slug, a);
    assert Lists(c.groups, c.conns[b].group, c.conns[b].slug, b);
  }

  /** Nobody else in the group has the leaver's slug. */
  lemma NoNamesake(s: System, t: System, id: ConnId, other: ConnId)
    requires Happens(s) && Happens(t) && id in s.core.conns && t.core.conns == s.core.conns - {id}
    requires Sound(t, other) && Drained(t, other) && t.core.conns[other].group == s.core.conns[id].group
    ensures s.core.conns[id].slug !in t.sessions[other].table.entries
  {
    HappensSysInv(s);
    var r := s.core.conns[id];
    DrainedServersListenToTheirGroup(t, other, r.slug);
    if x :| x in t.core.conns && x != other && t.core.conns[x] == Register(r.slug, r.group) {
      OneHolder(s.core, id, x);
    }
  }

  /** From every state without queued events, a sound server can shut down, and that can lead to a state at rest in
      which no sound member of its group listens for it any more. */
  lemma LeaverIsForgotten(s: System, id: ConnId) returns (t: System)
    requires Happens(s) && s.core.queue == [] && Sound(s, id)
    ensures CanReach(s, t) && Settled(t) && Spares(s, t, Some(id)) && t.core.conns == s.core.conns - {id}
    ensures forall other :: Sound(t, other) && t.core.conns[other].group == s.core.conns[id].group ==>
              s.core.conns[id].slug !in t.sessions[other].table.entries
  {
    var u := CanLeave(s, id);
    HappensOn(s, u);
    t := CanSettle(u);
    ReachOn(s, u, t);
    HappensOn(s, t);
    forall other | Sound(t, other) && t.core.conns[other].group == s.core.conns[id].group
      ensures s.core.conns[id].slug !in t.sessions[other].table.entries
    {
      NoNamesake(s, t, id, other);
    }
  }
}
