/** Whether the socket files are there: a listener's socket lies in its peer's directory, which
    the supervisor removes, sockets and all, when the peer departs. */
module Sockets {
  import opened Protocol
  import opened Supervisor
  import opened Membership
  import opened Listeners
  import opened History
  import opened Sessions
  import opened Directories

  /** A frame that will make the server drop its listener for the peer is still unread. */
  ghost predicate LeavePending(w: Wire, taken: nat, peer: Slug) {
    exists k :: taken <= k < |Frames(w)| && Frames(w)[k].message == Notify(PeerLeft(peer))
  }

  ghost predicate Covered(x: Session, w: Wire) {
    forall p :: p in x.table.entries ==> x.table.entries[p].path in x.table.bound || LeavePending(w, x.taken, p)
  }

  /** A listener of a running server whose stream is whole has its socket, unless it is to be dropped anyway. */
  ghost predicate SocketsOk(s: System) {
    forall id :: id in s.core.conns && id in s.core.wires && id in s.sessions
                 && !s.core.wires[id].failed && s.sessions[id].phase == Running ==>
      Covered(s.sessions[id], s.core.wires[id])
  }

  // ---- Reading a frame ----

  lemma {:induction false} PutAllBinds(t: Table, peers: seq<Slug>, faults: Faults, p: Slug)
    requires Owned(t) && p in PutAll(t, peers, faults).entries
    requires PutAll(t, peers, faults).entries[p].path !in PutAll(t, peers, faults).bound
    ensures p in t.entries && t.entries[p].path !in t.bound
    decreases |peers|
  {
    if peers != [] {
      var front, last := peers[..|peers| - 1], peers[|peers| - 1];
      PutAllGrows(t, front, faults);
      PutBinds(PutAll(t, front, faults), last, FaultOf(faults, last));
      PutOwned(PutAll(t, front, faults), last, FaultOf(faults, last));
      PutAllBinds(t, front, faults, p);
    }
  }

  /** A listener without its socket after a frame was one before, and is not the one the frame drops. */
  lemma FoldBinds(t: Table, m: SupervisorMessage, faults: Faults, p: Slug)
    requires Owned(t) && p in Fold(t, m, faults).entries
    requires Fold(t, m, faults).entries[p].path !in Fold(t, m, faults).bound
    ensures p in t.entries && t.entries[p].path !in t.bound && m != Notify(PeerLeft(p))
  {
    match m
    case Response(Ack(peers)) => PutAllBinds(t, peers, faults, p);
    case Response(Nack(_)) =>
    case Notify(PeerJoined(q)) =>
      PutBinds(t, q, FaultOf(faults, q));
      PutOwned(t, q, FaultOf(faults, q));
    case Notify(PeerLeft(q)) => DropOwned(t, q);
  }

  lemma ReadCovered(x: Session, w: Wire, faults: Faults)
    requires Owned(x.table) && Covered(x, w) && x.taken < |Frames(w)|
    ensures Covered(Read(x, w, faults), w)
  {
    var y := Read(x, w, faults);
    var m := Frames(w)[x.taken].message;
    forall p | p in y.table.entries && y.table.entries[p].path !in y.table.bound ensures LeavePending(w, y.taken, p) {
      FoldBinds(x.table, m, faults, p);
      var k :| x.taken <= k < |Frames(w)| && Frames(w)[k].message == Notify(PeerLeft(p));
      assert k != x.taken;
    }
  }

  // ---- Removing a directory ----

  /** A peer that the unread frames do not drop is still listened for once they are read. */
  lemma {:induction false} KeptUnlessLeft(keys: set<Slug>, frames: seq<Entry>, p: Slug)
    requires p in keys && forall k :: 0 <= k < |frames| ==> frames[k].message != Notify(PeerLeft(p))
    ensures p in Deliver(keys, frames)
  {
    if frames != [] {
      var n := |frames| - 1;
      assert forall k :: 0 <= k < n ==> frames[..n][k] == frames[k];
      KeptUnlessLeft(keys, frames[..n], p);
    }
  }

  lemma LeftIsPending(w: Wire, taken: nat, p: Slug)
    requires taken <= |Frames(w)|
    requires exists k :: 0 <= k < |Frames(w)[taken..]| && Frames(w)[taken..][k].message == Notify(PeerLeft(p))
    ensures LeavePending(w, taken, p)
  {
    var k :| 0 <= k < |Frames(w)[taken..]| && Frames(w)[taken..][k].message == Notify(PeerLeft(p));
    assert Frames(w)[taken + k] == Frames(w)[taken..][k];
  }

  /** What the unread frames drop from the keys, they drop by a leave. */
  lemma DroppedIsPending(x: Session, w: Wire, p: Slug)
    requires x.taken <= |Frames(w)| && p in x.table.entries && p !in Deliver(x.table.entries.Keys, Frames(w)[x.taken..])
    ensures LeavePending(w, x.taken, p)
  {
    var rest := Frames(w)[x.taken..];
    if forall k :: 0 <= k < |rest| ==> rest[k].message != Notify(PeerLeft(p)) {
      KeptUnlessLeft(x.table.entries.Keys, rest, p);
    } else {
      LeftIsPending(w, x.taken, p);
    }
  }

  /** A listener for a slug that nobody in the group holds any more is about to be dropped. */
  lemma StaleIsPending(s: System, id: ConnId, p: Slug)
    requires SysInv(s) && id in s.core.conns && id in s.core.wires && id in s.sessions
    requires !s.core.wires[id].failed && s.sessions[id].phase == Running
    requires p in s.sessions[id].table.entries && p !in Members(s.core.groups, s.core.conns[id].group)
    ensures LeavePending(s.core.wires[id], s.sessions[id].taken, p)
  {
    var x, w := s.sessions[id], s.core.wires[id];
    assert SessionOk(s, id) && StreamOk(s.core, id);
    TracksEventually(x, w);
    assert Frames(w) == w.sent;
    DroppedIsPending(x, w, p);
  }

  lemma RegistrationRemoves(c: Core, r: Register, env: Env, p: Slug)
    requires p in c.dirs && p !in Registration(c, r, env).dirs
    ensures p == r.slug && Registration(c, r, env).groups == c.groups && p !in Members(c.groups, r.group)
  {
  }

  lemma DepartureRemoves(c: Core, x: ConnId, env: Env, p: Slug, g: Group)
    requires p in c.dirs && p !in Departure(c, x, env).dirs
    ensures x in c.conns && p == c.conns[x].slug
    ensures p in Members(Departure(c, x, env).groups, g) ==> g != c.conns[x].group && p in Members(c.groups, g)
  {
  }

  lemma HomeOf(c: Core, home: map<Slug, Group>, s: Slug, g: Group, h: Group)
    requires Indexed(c) && AtHome(c, home) && s in home && home[s] == h && g != h
    ensures s !in Members(c.groups, g)
  {
    if s in Members(c.groups, g) { HomeMembers(c, home, s, g); }
  }

  /** With one group per slug, a removed directory is that of a slug that nobody holds. */
  lemma RemovedIsUnheld(c: Core, env: Env, home: map<Slug, Group>, p: Slug, g: Group)
    requires Inv(c) && AtHome(c, home) && c.queue != []
    requires p in c.dirs && p !in HandleHead(c, env).dirs
    ensures p !in Members(HandleHead(c, env).groups, g)
  {
    assert c.queue[0] in c.queue;
    match c.queue[0]
    case Registered(r) =>
      RegistrationRemoves(Pop(c), r, env, p);
      if g != r.group { HomeOf(c, home, p, g, r.group); }
    case Departed(x) =>
      DepartureRemoves(Pop(c), x, env, p, g);
      if g != c.conns[x].group { HomeOf(c, home, p, g, c.conns[x].group); }
  }

  /** What handling an event does to a session that goes on: longer stream, sockets lost with `gone`. */
  lemma HandledCovered(x: Session, v: Wire, w: Wire, gone: set<Slug>)
    requires Owned(x.table) && Covered(x, v) && Frames(v) <= Frames(w)
    requires forall p :: p in x.table.entries && p in gone ==> LeavePending(w, x.taken, p)
    ensures Covered(x.(table := Wipe(x.table, gone)), w)
  {
    forall p | p in x.table.entries && p !in gone && x.table.entries[p].path !in x.table.bound
      ensures LeavePending(w, x.taken, p)
    {
      var k :| x.taken <= k < |Frames(v)| && Frames(v)[k].message == Notify(PeerLeft(p));
      assert Frames(w)[k] == Frames(v)[k];
    }
  }

  // ---- Every move ----

  lemma SuperviseKeepsSockets(s: System, step: Step, stale: set<Path>, t: System, home: map<Slug, Group>)
    requires SysInv(s) && SocketsOk(s) && AtHome(s.core, home) && CanMove(s, Supervise(step, stale))
    requires t == After(s, Supervise(step, stale)) && SysInv(t)
    ensures SocketsOk(t)
  {
    StepEffect(s.core, step);
    forall id | id in t.core.conns && id in t.core.wires && id in t.sessions
                && !t.core.wires[id].failed && t.sessions[id].phase == Running
      ensures Covered(t.sessions[id], t.core.wires[id])
    {
      if id in s.sessions {
        SessionGoesOn(s, step, stale, t, home, id);
      }
    }
  }

  /** A removed directory belongs to no member any more. */
  lemma GoneIsUnheld(c: Core, step: Step, home: map<Slug, Group>, p: Slug, g: Group)
    requires Inv(c) && AtHome(c, home) && Enabled(c, step)
    requires p in c.dirs - Next(c, step).dirs
    ensures p !in Members(Next(c, step).groups, g)
  {
    match step
    case Handle(env) => RemovedIsUnheld(c, env, home, p, g);
    case _ =>
  }

  lemma SessionGoesOn(s: System, step: Step, stale: set<Path>, t: System, home: map<Slug, Group>, id: ConnId)
    requires SysInv(s) && SocketsOk(s) && AtHome(s.core, home) && CanMove(s, Supervise(step, stale))
    requires t == After(s, Supervise(step, stale)) && SysInv(t)
    requires id in s.sessions && id in t.core.conns && id in t.core.wires && id in t.sessions
    requires !t.core.wires[id].failed && t.sessions[id].phase == Running
    ensures Covered(t.sessions[id], t.core.wires[id])
  {
    var gone := s.core.dirs - t.core.dirs;
    StepEffect(s.core, step);
    OfferedGrows(s.core, t.core, id, News(s.core, step));
    assert SessionOk(s, id) && StreamOk(s.core, id) && StreamOk(t.core, id);
    forall p | p in s.sessions[id].table.entries && p in gone
      ensures LeavePending(t.core.wires[id], s.sessions[id].taken, p)
    {
      GoneIsUnheld(s.core, step, home, p, t.core.conns[id].group);
      StaleIsPending(t, id, p);
    }
    HandledCovered(s.sessions[id], s.core.wires[id], t.core.wires[id], gone);
  }

  lemma MoveKeepsSockets(s: System, m: Move, home: map<Slug, Group>)
    requires SysInv(s) && SocketsOk(s) && AtHome(s.core, home) && CanMove(s, m)
    ensures SocketsOk(After(s, m))
  {
    if m.Supervise? {
      MoveKeepsSysInv(s, m);
      SuperviseKeepsSockets(s, m.step, m.stale, After(s, m), home);
    } else {
      ServerKeepsSockets(s, m);
    }
  }

  lemma ReceiveKeepsSockets(s: System, id: ConnId, faults: Faults, t: System)
    requires SocketsOk(s) && id in s.sessions && id in s.core.wires && s.sessions[id].phase == Running
    requires s.sessions[id].taken < |Frames(s.core.wires[id])| && Owned(s.sessions[id].table)
    requires t.core.conns == s.core.conns && t.core.wires == s.core.wires
    requires t.sessions == s.sessions[id := Read(s.sessions[id], s.core.wires[id], faults)]
    ensures SocketsOk(t)
  {
    if id in s.core.conns && !s.core.wires[id].failed {
      ReadCovered(s.sessions[id], s.core.wires[id], faults);
    }
  }

  /** The other moves leave every running session as it is. */
  lemma StoppingKeepsSockets(s: System, t: System)
    requires SocketsOk(s) && t.core.conns == s.core.conns && t.core.wires == s.core.wires
    requires forall id :: id in t.sessions && t.sessions[id].phase == Running ==>
        id in s.sessions && t.sessions[id] == s.sessions[id]
    ensures SocketsOk(t)
  {
  }

  lemma OthersStop(s: System, m: Move)
    requires CanMove(s, m) && !m.Supervise? && !m.Receive?
    ensures var t := After(s, m);
            && t.core.conns == s.core.conns && t.core.wires == s.core.wires
            && forall id :: id in t.sessions && t.sessions[id].phase == Running ==>
                id in s.sessions && t.sessions[id] == s.sessions[id]
  {
  }

  lemma ServerKeepsSockets(s: System, m: Move)
    requires SysInv(s) && SocketsOk(s) && CanMove(s, m) && !m.Supervise?
    ensures SocketsOk(After(s, m))
  {
    if m.Receive? {
      assert SessionOk(s, m.id);
      ReceiveKeepsSockets(s, m.id, m.faults, After(s, m));
    } else {
      OthersStop(s, m);
      StoppingKeepsSockets(s, After(s, m));
    }
  }

  lemma {:induction false} PlayKeepsSockets(s: System, moves: seq<Move>, home: map<Slug, Group>)
    requires SysInv(s) && SocketsOk(s) && AtHome(s.core, home) && DirsPresent(s.core)
    requires Possible(s, moves) && forall m :: m in moves ==> MoveAtHome(m, home)
    ensures SocketsOk(Play(s, moves)) && DirsPresent(Play(s, moves).core)
    decreases |moves|
  {
    if moves != [] {
      assert forall m :: m in moves[1..] ==> m in moves;
      MoveKeepsSysInv(s, moves[0]);
      MoveKeepsDirs(s, moves[0], home);
      MoveKeepsSockets(s, moves[0], home);
      PlayKeepsSockets(After(s, moves[0]), moves[1..], home);
    }
  }

  /** A server that has read its whole stream can be reached by every other member of its group: it listens
      for it, and its socket is there, in a directory that is there, although directories come and go. */
  lemma PeersAreReachable(moves: seq<Move>, home: map<Slug, Group>, s: System, id: ConnId, other: ConnId)
    requires Possible(START, moves) && s == Play(START, moves) && forall m :: m in moves ==> MoveAtHome(m, home)
    requires id in s.core.conns && other in s.core.conns && id != other
    requires s.core.conns[id].group == s.core.conns[other].group
    requires id in s.core.wires && id in s.sessions
    requires !s.core.wires[id].failed && s.sessions[id].phase == Running && s.sessions[id].clean
    requires s.sessions[id].taken == |Frames(s.core.wires[id])|
    ensures var x, peer := s.sessions[id].table, s.core.conns[other].slug;
            && peer in s.core.dirs && peer in x.entries
            && x.entries[peer].path == Path(peer, s.core.conns[id].slug) && x.entries[peer].path in x.files
            && x.entries[peer].task in x.tasks
  {
    StartSysInv();
    PlayKeepsSockets(START, moves, home);
    PlayKeepsSysInv(START, moves);
    DrainedServersListenToTheirGroup(s, id, s.core.conns[other].slug);
    assert SessionOk(s, id) && Covered(s.sessions[id], s.core.wires[id]);
    assert StreamOk(s.core, id);
  }

  // ---- Sockets lie in directories that exist ----

  lemma {:induction false} PutAllBound(t: Table, peers: seq<Slug>, faults: Faults, p: Path)
    requires p in PutAll(t, peers, faults).bound
    ensures p in t.bound || (p.dir in peers && FaultOf(faults, p.dir) != Some(MkdirFails))
  {
    if peers != [] {
      var front, last := peers[..|peers| - 1], peers[|peers| - 1];
      assert peers == front + [last];
      if p in PutAll(t, front, faults).bound {
        PutAllBound(t, front, faults, p);
      }
    }
  }

  lemma FoldBound(t: Table, m: SupervisorMessage, faults: Faults, p: Path)
    requires p in Fold(t, m, faults).bound
    ensures p in t.bound || p.dir in MadeDirs(m, faults)
  {
    match m
    case Response(Ack(peers)) => PutAllBound(t, peers, faults, p);
    case _ =>
  }

  lemma {:induction false} DropAllBound(t: Table, order: seq<Slug>)
    ensures DropAll(t, order).bound <= t.bound
  {
    if order != [] {
      DropAllBound(t, order[..|order| - 1]);
    }
  }

  ghost predicate SocketsInDirs(s: System) {
    forall id, p :: id in s.sessions && p in s.sessions[id].table.bound ==> p.dir in s.core.dirs
  }

  lemma MoveKeepsInDirs(s: System, m: Move)
    requires SocketsInDirs(s) && CanMove(s, m)
    ensures SocketsInDirs(After(s, m))
  {
    match m
    case Receive(id, faults) =>
      forall p | p in After(s, m).sessions[id].table.bound ensures p.dir in After(s, m).core.dirs {
        FoldBound(s.sessions[id].table, Frames(s.core.wires[id])[s.sessions[id].taken].message, faults, p);
      }
    case ShutdownClear(id, order) => DropAllBound(s.sessions[id].table, order);
    case LoseClear(id, order) => DropAllBound(s.sessions[id].table, order);
    case _ =>
  }

  lemma {:induction false} PlayKeepsInDirs(s: System, moves: seq<Move>)
    requires SocketsInDirs(s) && Possible(s, moves)
    ensures SocketsInDirs(Play(s, moves))
    decreases |moves|
  {
    if moves != [] {
      MoveKeepsInDirs(s, moves[0]);
      PlayKeepsInDirs(After(s, moves[0]), moves[1..]);
    }
  }

  /** In every reachable state, even with slugs shared between groups, every bound socket lies in a directory that
      exists: servers make the directory first, and sockets go with the directory the supervisor removes. */
  lemma SocketsLieInDirectories(s: System, id: ConnId, p: Path)
    requires Happens(s) && id in s.sessions && p in s.sessions[id].table.bound
    ensures p.dir in s.core.dirs
  {
    var moves :| Possible(START, moves) && Play(START, moves) == s;
    PlayKeepsInDirs(START, moves);
  }
}
