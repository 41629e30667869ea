/** The supervisor together with the servers' sessions: each server reads its stream in
    order, one frame at a time, and folds it into its listener table. */
module Sessions {
  import opened Protocol
  import opened Supervisor
  import opened Membership
  import opened Listeners
  import opened History

  /** Shutdown: Running, Cleared (listeners cleared), Closed (stream dropped).
      Stream lost: Running, Lost (stream dropped), Gone (listeners cleared). */
  datatype Phase = Running | Cleared | Closed | Lost | Gone | Killed

  /** `taken` frames have been read; `clean` means that no add has failed so far. */
  datatype Session = Session(taken: nat, table: Table, clean: bool, phase: Phase)

  datatype System = System(core: Core, sessions: map<ConnId, Session>, errored: set<ConnId>)

  type Faults = map<Slug, Fault>

  datatype Move =
    | Supervise(step: Step, stale: set<Path>)
    | WatcherEof(id: ConnId)
    | WatcherError(id: ConnId)
    | Receive(id: ConnId, faults: Faults)
    | ShutdownClear(id: ConnId, order: seq<Slug>)
    | ShutdownClose(id: ConnId)
    | Lose(id: ConnId)
    | LoseClear(id: ConnId, order: seq<Slug>)
    | Kill(id: ConnId)

  const START := System(INIT, map[], {})

  // ---- Reading frames ----

  function Frames(w: Wire): seq<Entry> {
    w.sent + w.late
  }

  function FaultOf(faults: Faults, s: Slug): Option<Fault> {
    if s in faults then Some(faults[s]) else None
  }

  function PutAll(t: Table, peers: seq<Slug>, faults: Faults): Table {
    if peers == [] then t
    else Put(PutAll(t, peers[..|peers| - 1], faults), peers[|peers| - 1], FaultOf(faults, peers[|peers| - 1]))
  }

  /** What the server does with one frame. */
  function Fold(t: Table, m: SupervisorMessage, faults: Faults): Table {
    match m
    case Response(Ack(peers)) => PutAll(t, peers, faults)
    case Response(Nack(_)) => t
    case Notify(PeerJoined(s)) => Put(t, s, FaultOf(faults, s))
    case Notify(PeerLeft(s)) => Drop(t, s)
  }

  /** The slugs a frame makes the server add. */
  function Added(m: SupervisorMessage): set<Slug> {
    match m
    case Response(Ack(peers)) => Elements(peers)
    case Notify(PeerJoined(s)) => {s}
    case _ => {}
  }

  /** The peer directories a frame makes the server create. */
  function MadeDirs(m: SupervisorMessage, faults: Faults): set<Slug> {
    set s | s in Added(m) && FaultOf(faults, s) != Some(MkdirFails)
  }

  ghost predicate Ended(p: Phase) {
    p == Closed || p == Lost || p == Gone || p == Killed
  }

  // ---- Moves ----

  ghost predicate CanMove(s: System, m: Move) {
    match m
    case Supervise(step, _) => !step.WatchEnds? && Enabled(s.core, step)
    case WatcherEof(id) => id in s.core.watching && id in s.sessions && Ended(s.sessions[id].phase)
    case WatcherError(id) => id in s.core.watching
    case Receive(id, _) =>
      && id in s.sessions && id in s.core.wires
      && s.sessions[id].phase == Running
      && s.sessions[id].taken < |Frames(s.core.wires[id])|
    case ShutdownClear(id, order) =>
      && id in s.sessions && s.sessions[id].phase == Running
      && Enumerates(order, s.sessions[id].table.entries.Keys)
    case ShutdownClose(id) => id in s.sessions && s.sessions[id].phase == Cleared
    case Lose(id) => id in s.sessions && s.sessions[id].phase == Running
    case LoseClear(id, order) =>
      && id in s.sessions && s.sessions[id].phase == Lost
      && Enumerates(order, s.sessions[id].table.entries.Keys)
    case Kill(id) => id in s.sessions
  }

  /** A connection that has just got its id starts a session with an empty table; the servers lose the
      sockets they have in directories that have just been removed. */
  function Join(sessions: map<ConnId, Session>, c: Core, gone: set<Slug>, stale: set<Path>): map<ConnId, Session> {
    map id | id in c.wires ::
      if id in sessions then sessions[id].(table := Wipe(sessions[id].table, gone))
      else Session(0, Fresh(c.wires[id].owner.slug, stale), true, Running)
  }

  function Clear(x: Session, order: seq<Slug>, phase: Phase): Session {
    x.(table := DropAll(x.table, order), phase := phase)
  }

  function Read(x: Session, w: Wire, faults: Faults): Session
    requires x.taken < |Frames(w)|
  {
    var m := Frames(w)[x.taken].message;
    Session(x.taken + 1, Fold(x.table, m, faults), x.clean && Added(m) !! faults.Keys, x.phase)
  }

  function CoreAfter(s: System, m: Move): Core
    requires CanMove(s, m)
  {
    match m
    case Supervise(step, _) => Next(s.core, step)
    case WatcherEof(id) => Next(s.core, WatchEnds(id))
    case WatcherError(id) => Next(s.core, WatchEnds(id))
    case Receive(id, faults) =>
      s.core.(dirs := s.core.dirs + MadeDirs(Frames(s.core.wires[id])[s.sessions[id].taken].message, faults))
    case _ => s.core
  }

  function SessionsAfter(s: System, m: Move): map<ConnId, Session>
    requires CanMove(s, m)
  {
    match m
    case Supervise(step, stale) => Join(s.sessions, Next(s.core, step), s.core.dirs - Next(s.core, step).dirs, stale)
    case WatcherEof(_) => s.sessions
    case WatcherError(_) => s.sessions
    case Receive(id, faults) => s.sessions[id := Read(s.sessions[id], s.core.wires[id], faults)]
    case ShutdownClear(id, order) => s.sessions[id := Clear(s.sessions[id], order, Cleared)]
    case ShutdownClose(id) => s.sessions[id := s.sessions[id].(phase := Closed)]
    case Lose(id) => s.sessions[id := s.sessions[id].(phase := Lost)]
    case LoseClear(id, order) => s.sessions[id := Clear(s.sessions[id], order, Gone)]
    case Kill(id) => s.sessions[id := s.sessions[id].(phase := Killed)]
  }

  function After(s: System, m: Move): System
    requires CanMove(s, m)
  {
    System(CoreAfter(s, m), SessionsAfter(s, m), if m.WatcherError? then s.errored + {m.id} else s.errored)
  }

  ghost predicate Possible(s: System, moves: seq<Move>)
    decreases |moves|
  {
    moves == [] || (CanMove(s, moves[0]) && Possible(After(s, moves[0]), moves[1..]))
  }

  ghost function Play(s: System, moves: seq<Move>): System
    requires Possible(s, moves)
    decreases |moves|
  {
    if moves == [] then s else Play(After(s, moves[0]), moves[1..])
  }

  // ---- The listener keys follow the stream ----

  ghost predicate Grown(t: Table, u: Table, peers: set<Slug>, faults: Faults) {
    && Owned(u) && u.own == t.own
    && u.entries.Keys <= t.entries.Keys + peers
    && (peers !! faults.Keys ==> u.entries.Keys == t.entries.Keys + peers)
  }

  lemma PutGrows(t: Table, u: Table, peers: set<Slug>, p: Slug, faults: Faults)
    requires Grown(t, u, peers, faults)
    ensures Grown(t, Put(u, p, FaultOf(faults, p)), peers + {p}, faults)
  {
    PutOwned(u, p, FaultOf(faults, p));
  }

  lemma {:induction false} PutAllGrows(t: Table, peers: seq<Slug>, faults: Faults)
    requires Owned(t)
    ensures Grown(t, PutAll(t, peers, faults), Elements(peers), faults)
  {
    if peers != [] {
      var front, last := peers[..|peers| - 1], peers[|peers| - 1];
      PutAllGrows(t, front, faults);
      PutGrows(t, PutAll(t, front, faults), Elements(front), last, faults);
      ElementsLast(peers);
    }
  }

  lemma ElementsLast(peers: seq<Slug>)
    requires peers != []
    ensures Elements(peers) == Elements(peers[..|peers| - 1]) + {peers[|peers| - 1]}
  {
    ElementsSnoc(peers[..|peers| - 1], peers[|peers| - 1]);
    assert peers == peers[..|peers| - 1] + [peers[|peers| - 1]];
  }

  /** Which peers are listened for after an Ack: every add is tried, and each fault concerns its own peer only. */
  lemma {:induction false} PutAllCases(t: Table, peers: seq<Slug>, faults: Faults, s: Slug)
    requires Owned(t)
    ensures Owned(PutAll(t, peers, faults))
    ensures s in PutAll(t, peers, faults).entries <==>
            if s in peers then s !in faults || (faults[s] == MkdirFails && s in t.entries) else s in t.entries
  {
    if peers != [] {
      var front, last := peers[..|peers| - 1], peers[|peers| - 1];
      PutAllCases(t, front, faults, s);
      assert s in peers <==> s in front || s == last by {
        assert peers == front + [last];
      }
      PutCase(PutAll(t, front, faults), last, faults, s);
    }
  }

  lemma PutCase(t: Table, p: Slug, faults: Faults, s: Slug)
    requires Owned(t)
    ensures var u := Put(t, p, FaultOf(faults, p));
            && Owned(u)
            && (s in u.entries <==>
                if s == p then s !in faults || (faults[s] == MkdirFails && s in t.entries) else s in t.entries)
  {
    PutOwned(t, p, FaultOf(faults, p));
  }

  /** Which peers are listened for after any frame, whatever fails. */
  lemma FoldCases(t: Table, m: SupervisorMessage, faults: Faults, s: Slug)
    requires Owned(t)
    ensures s in Fold(t, m, faults).entries <==>
            if m == Notify(PeerLeft(s)) then false
            else if m == Notify(PeerJoined(s)) || (m.Response? && m.response.Ack? && s in m.response.peers) then
              s !in faults || (faults[s] == MkdirFails && s in t.entries)
            else s in t.entries
  {
    match m
    case Response(Ack(peers)) => PutAllCases(t, peers, faults, s);
    case Response(Nack(_)) =>
    case Notify(PeerJoined(p)) => PutOwned(t, p, FaultOf(faults, p));
    case Notify(PeerLeft(p)) => DropOwned(t, p);
  }

  /** Reading a frame: without faults the keys become `Apply`, with faults they stay below it. */
  lemma FoldKeys(t: Table, m: SupervisorMessage, faults: Faults)
    requires Owned(t)
    ensures Owned(Fold(t, m, faults)) && Fold(t, m, faults).own == t.own
    ensures Fold(t, m, faults).entries.Keys <= Apply(t.entries.Keys, m)
    ensures Added(m) !! faults.Keys ==> Fold(t, m, faults).entries.Keys == Apply(t.entries.Keys, m)
  {
    match m
    case Response(Ack(peers)) => PutAllGrows(t, peers, faults);
    case Response(Nack(_)) =>
    case Notify(PeerJoined(s)) => PutOwned(t, s, FaultOf(faults, s));
    case Notify(PeerLeft(s)) => DropOwned(t, s);
  }

  /** A session's table against its stream. */
  ghost predicate Tracks(x: Session, w: Wire) {
    && Owned(x.table)
    && x.taken <= |Frames(w)|
    && (x.phase == Running ==>
          && x.table.entries.Keys <= Deliver({}, Frames(w)[..x.taken])
          && (x.clean ==> x.table.entries.Keys == Deliver({}, Frames(w)[..x.taken])))
    && (x.phase == Cleared || x.phase == Closed || x.phase == Gone ==>
          x.table.entries == map[] && x.table.bound == {} && x.table.tasks == map[])
  }

  lemma ApplyMonotone(a: set<Slug>, b: set<Slug>, m: SupervisorMessage)
    requires a <= b
    ensures Apply(a, m) <= Apply(b, m)
  {
  }

  lemma {:induction false} DeliverMonotone(a: set<Slug>, b: set<Slug>, frames: seq<Entry>)
    requires a <= b
    ensures Deliver(a, frames) <= Deliver(b, frames)
  {
    if frames != [] {
      DeliverMonotone(a, b, frames[..|frames| - 1]);
    }
  }

  lemma ReadTracks(x: Session, w: Wire, faults: Faults)
    requires Tracks(x, w) && x.phase == Running && x.taken < |Frames(w)|
    ensures Tracks(Read(x, w, faults), w)
  {
    var all := Frames(w);
    var e := all[x.taken];
    FoldKeys(x.table, e.message, faults);
    assert all[..x.taken + 1] == all[..x.taken] + [e];
    DeliverSnoc({}, all[..x.taken], e);
    ApplyMonotone(x.table.entries.Keys, Deliver({}, all[..x.taken]), e.message);
  }

  lemma ClearTracks(x: Session, w: Wire, order: seq<Slug>, phase: Phase)
    requires Tracks(x, w) && Enumerates(order, x.table.entries.Keys) && phase != Running
    ensures Tracks(Clear(x, order, phase), w)
  {
    DropAllOwned(x.table, order);
    ClearLeavesNothing(x.table, order);
  }

  /** A longer stream: what has been read stays read. */
  lemma WriteTracks(x: Session, w: Wire, e: Entry, ok: bool)
    requires Tracks(x, w) && (!w.failed ==> w.late == [])
    ensures Tracks(x, Write(w, e, ok))
  {
    var v := Write(w, e, ok);
    assert Frames(w) <= Frames(v);
    assert Frames(v)[..x.taken] == Frames(w)[..x.taken];
  }

  lemma WipeTracks(x: Session, w: Wire, gone: set<Slug>)
    requires Tracks(x, w)
    ensures Tracks(x.(table := Wipe(x.table, gone)), w)
  {
    WipeOwned(x.table, gone);
  }

  // ---- The invariant of the whole system ----

  /** A departure is reported only for a failed write, a read error, or a stream its server has dropped. */
  ghost predicate Justified(s: System, id: ConnId)
    requires id in s.sessions && id in s.core.wires
  {
    Departed(id) in s.core.queue || id !in s.core.conns ==>
      s.core.wires[id].failed || id in s.errored || Ended(s.sessions[id].phase)
  }

  ghost predicate SessionOk(s: System, id: ConnId)
    requires id in s.sessions && id in s.core.wires
  {
    && Tracks(s.sessions[id], s.core.wires[id])
    && s.sessions[id].table.own == s.core.wires[id].owner.slug
    && Justified(s, id)
  }

  ghost predicate SysInv(s: System) {
    && Inv(s.core)
    && s.sessions.Keys == s.core.wires.Keys
    && (forall id :: id in s.sessions ==> SessionOk(s, id))
  }

  lemma WriteKeepsFailure(c: Core, step: Step, id: ConnId)
    requires Inv(c) && Enabled(c, step) && id in c.wires && id in Next(c, step).wires
    requires c.wires[id].failed
    ensures Next(c, step).wires[id].failed
  {
    StepEffect(c, step);
    OfferedGrows(c, Next(c, step), id, News(c, step));
  }

  lemma RegistrationReports(c: Core, r: Register, env: Env, id: ConnId)
    requires Numbered(c) && id in Registration(c, r, env).wires
    requires Departed(id) in Registration(c, r, env).queue || id !in Registration(c, r, env).conns
    ensures id in c.wires
    ensures Departed(id) in c.queue || id !in c.conns || Registration(c, r, env).wires[id].failed
  {
    FailuresContent(env.peerIds, c.conns, env.fails);
  }

  lemma DepartureReports(c: Core, x: ConnId, env: Env, id: ConnId)
    requires Numbered(c) && id in Departure(c, x, env).wires
    requires Departed(id) in Departure(c, x, env).queue || id !in Departure(c, x, env).conns
    ensures id in c.wires
    ensures id == x || Departed(id) in c.queue || id !in c.conns || Departure(c, x, env).wires[id].failed
  {
    FailuresContent(env.peerIds, c.conns - {x}, env.fails);
  }

  /** A departure the supervisor itself queues follows a failed write. */
  lemma SupervisorReportsFailures(c: Core, step: Step, id: ConnId)
    requires Inv(c) && Enabled(c, step) && !step.WatchEnds? && id in Next(c, step).wires
    requires Departed(id) in Next(c, step).queue || id !in Next(c, step).conns
    ensures id in c.wires
    ensures Departed(id) in c.queue || id !in c.conns || Next(c, step).wires[id].failed
  {
    match step
    case Arrive(_) =>
    case Handle(env) =>
      match c.queue[0]
      case Registered(r) => RegistrationReports(Pop(c), r, env, id);
      case Departed(x) => DepartureReports(Pop(c), x, env, id);
  }

  lemma NewIsUnreported(c: Core, step: Step, id: ConnId)
    requires Inv(c) && Enabled(c, step) && id !in c.wires && id in Next(c, step).wires
    ensures id in Next(c, step).conns && Departed(id) !in Next(c, step).queue
  {
    if Departed(id) in Next(c, step).queue || id !in Next(c, step).conns {
      SupervisorReportsFailures(c, step, id);
    }
  }

  lemma OfferedTracks(c: Core, d: Core, id: ConnId, e: Entry, x: Session)
    requires id in c.wires && id in d.wires && Offered(c, d, id, e) && StreamOk(c, id)
    requires Tracks(x, c.wires[id])
    ensures Tracks(x, d.wires[id])
  {
    if d.wires[id] != c.wires[id] {
      var ok :| d.wires[id] == Write(c.wires[id], e, ok);
      WriteTracks(x, c.wires[id], e, ok);
    }
  }

  /** A session that already was: its stream grows, it may lose sockets, and departures stay justified. */
  lemma OldSessionGoesOn(s: System, step: Step, t: System, id: ConnId)
    requires SysInv(s) && Enabled(s.core, step) && !step.WatchEnds?
    requires t.core == Next(s.core, step) && t.errored == s.errored
    requires id in s.sessions && id in t.core.wires && id in t.sessions
    requires t.sessions[id] == s.sessions[id].(table := Wipe(s.sessions[id].table, s.core.dirs - t.core.dirs))
    ensures SessionOk(t, id)
  {
    var c, d := s.core, t.core;
    StepEffect(c, step);
    assert SessionOk(s, id) && StreamOk(c, id);
    OfferedTracks(c, d, id, News(c, step), s.sessions[id]);
    WipeTracks(s.sessions[id], d.wires[id], c.dirs - d.dirs);
    OfferedGrows(c, d, id, News(c, step));
    if Departed(id) in d.queue || id !in d.conns {
      SupervisorReportsFailures(c, step, id);
      if c.wires[id].failed {
        WriteKeepsFailure(c, step, id);
      }
    }
  }

  lemma SuperviseKeepsSession(s: System, step: Step, stale: set<Path>, id: ConnId)
    requires SysInv(s) && CanMove(s, Supervise(step, stale))
    requires id in Next(s.core, step).wires
    ensures var t := After(s, Supervise(step, stale)); id in t.sessions && id in t.core.wires && SessionOk(t, id)
  {
    if id in s.sessions {
      OldSessionGoesOn(s, step, After(s, Supervise(step, stale)), id);
    } else {
      StepEffect(s.core, step);
      FreshOwned(Next(s.core, step).wires[id].owner.slug, stale);
      NewIsUnreported(s.core, step, id);
    }
  }

  lemma SuperviseKeepsSysInv(s: System, step: Step, stale: set<Path>)
    requires SysInv(s) && CanMove(s, Supervise(step, stale))
    ensures SysInv(After(s, Supervise(step, stale)))
  {
    StepKeepsInv(s.core, step);
    StepEffect(s.core, step);
    var t := After(s, Supervise(step, stale));
    forall id | id in t.sessions ensures SessionOk(t, id) {
      SuperviseKeepsSession(s, step, stale, id);
    }
  }

  lemma DirsKeepInv(c: Core, d: Core)
    requires Inv(c) && d == c.(dirs := d.dirs)
    ensures Inv(d)
  {
  }

  lemma OtherSession(s: System, t: System, i: ConnId)
    requires i in s.sessions && i in s.core.wires && SessionOk(s, i)
    requires i in t.sessions && i in t.core.wires
    requires t.core == s.core.(dirs := t.core.dirs) && t.errored == s.errored
    requires Tracks(t.sessions[i], s.core.wires[i])
    requires t.sessions[i].table.own == s.sessions[i].table.own
    requires Ended(s.sessions[i].phase) ==> Ended(t.sessions[i].phase)
    ensures SessionOk(t, i)
  {
  }

  /** A move of one server: only its own session and the set of directories change. */
  lemma SessionMoveKeepsSysInv(s: System, t: System, id: ConnId)
    requires SysInv(s) && id in s.sessions && id in s.core.wires
    requires t.core == s.core.(dirs := t.core.dirs) && t.errored == s.errored
    requires id in t.sessions && t.sessions == s.sessions[id := t.sessions[id]]
    requires Tracks(t.sessions[id], s.core.wires[id])
    requires t.sessions[id].table.own == s.sessions[id].table.own
    requires Ended(s.sessions[id].phase) ==> Ended(t.sessions[id].phase)
    ensures SysInv(t)
  {
    DirsKeepInv(s.core, t.core);
    forall i | i in t.sessions ensures SessionOk(t, i) {
      assert SessionOk(s, i);
      OtherSession(s, t, i);
    }
  }

  lemma WatcherKeepsSysInv(s: System, t: System, id: ConnId)
    requires SysInv(s) && id in s.core.watching && id in s.sessions
    requires t.core == Next(s.core, WatchEnds(id)) && t.sessions == s.sessions
    requires s.errored <= t.errored
    requires id in t.errored || Ended(s.sessions[id].phase)
    ensures SysInv(t)
  {
    StepKeepsInv(s.core, WatchEnds(id));
    forall i | i in t.sessions ensures SessionOk(t, i) {
      assert SessionOk(s, i);
    }
  }

  lemma ReceiveKeepsSysInv(s: System, id: ConnId, faults: Faults)
    requires SysInv(s) && CanMove(s, Receive(id, faults))
    ensures SysInv(After(s, Receive(id, faults)))
  {
    assert SessionOk(s, id);
    ReadTracks(s.sessions[id], s.core.wires[id], faults);
    FoldKeys(s.sessions[id].table, Frames(s.core.wires[id])[s.sessions[id].taken].message, faults);
    SessionMoveKeepsSysInv(s, After(s, Receive(id, faults)), id);
  }

  lemma ClearKeepsSysInv(s: System, t: System, id: ConnId, order: seq<Slug>, phase: Phase)
    requires SysInv(s) && id in s.sessions && phase != Running
    requires Enumerates(order, s.sessions[id].table.entries.Keys)
    requires t == s.(sessions := s.sessions[id := Clear(s.sessions[id], order, phase)])
    requires Ended(s.sessions[id].phase) ==> Ended(phase)
    ensures SysInv(t)
  {
    assert SessionOk(s, id);
    ClearTracks(s.sessions[id], s.core.wires[id], order, phase);
    DropAllOwned(s.sessions[id].table, order);
    SessionMoveKeepsSysInv(s, t, id);
  }

  lemma PhaseKeepsSysInv(s: System, t: System, id: ConnId, phase: Phase)
    requires SysInv(s) && id in s.sessions
    requires t == s.(sessions := s.sessions[id := s.sessions[id].(phase := phase)])
    requires phase == Lost || phase == Killed || (phase == Closed && s.sessions[id].phase == Cleared)
    ensures SysInv(t)
  {
    assert SessionOk(s, id);
    SessionMoveKeepsSysInv(s, t, id);
  }

  lemma WatcherMoveKeepsSysInv(s: System, m: Move)
    requires SysInv(s) && CanMove(s, m) && (m.WatcherEof? || m.WatcherError?)
    ensures SysInv(After(s, m))
  {
    assert m.id in s.core.conns;
    WatcherKeepsSysInv(s, After(s, m), m.id);
  }

  lemma EndingKeepsSysInv(s: System, m: Move)
    requires SysInv(s) && CanMove(s, m) && !m.Supervise? && !m.WatcherEof? && !m.WatcherError? && !m.Receive?
    ensures SysInv(After(s, m))
  {
    match m
    case ShutdownClear(id, order) => ClearKeepsSysInv(s, After(s, m), id, order, Cleared);
    case LoseClear(id, order) => ClearKeepsSysInv(s, After(s, m), id, order, Gone);
    case ShutdownClose(id) => PhaseKeepsSysInv(s, After(s, m), id, Closed);
    case Lose(id) => PhaseKeepsSysInv(s, After(s, m), id, Lost);
    case Kill(id) => PhaseKeepsSysInv(s, After(s, m), id, Killed);
  }

  lemma MoveKeepsSysInv(s: System, m: Move)
    requires SysInv(s) && CanMove(s, m)
    ensures SysInv(After(s, m))
  {
    match m
    case Supervise(step, stale) => SuperviseKeepsSysInv(s, step, stale);
    case WatcherEof(_) => WatcherMoveKeepsSysInv(s, m);
    case WatcherError(_) => WatcherMoveKeepsSysInv(s, m);
    case Receive(id, faults) => ReceiveKeepsSysInv(s, id, faults);
    case _ => EndingKeepsSysInv(s, m);
  }

  lemma {:induction false} PlayKeepsSysInv(s: System, moves: seq<Move>)
    requires SysInv(s) && Possible(s, moves)
    ensures SysInv(Play(s, moves))
    decreases |moves|
  {
    if moves != [] {
      MoveKeepsSysInv(s, moves[0]);
      PlayKeepsSysInv(After(s, moves[0]), moves[1..]);
    }
  }

  lemma StartSysInv()
    ensures SysInv(START)
  {
  }

  /** A move of one server leaves all others as they are; one of the supervisor takes from a server at most its
      sockets in directories that are gone. */
  lemma MovesAreLocal(s: System, m: Move, i: ConnId)
    requires CanMove(s, m) && i in s.sessions && s.sessions.Keys == s.core.wires.Keys
    ensures var t := After(s, m);
            && (!m.Supervise? && m.id != i ==> i in t.sessions && t.sessions[i] == s.sessions[i])
            && (m.Supervise? && i in t.core.wires ==>
                  && i in t.sessions
                  && t.sessions[i] == s.sessions[i].(table := t.sessions[i].table)
                  && t.sessions[i].table == s.sessions[i].table
                       .(files := t.sessions[i].table.files, bound := t.sessions[i].table.bound)
                  && (forall p :: p in t.sessions[i].table.files <==>
                        p in s.sessions[i].table.files && !(p.dir in s.core.dirs && p.dir !in t.core.dirs))
                  && (forall p :: p in t.sessions[i].table.bound <==>
                        p in s.sessions[i].table.bound && !(p.dir in s.core.dirs && p.dir !in t.core.dirs)))
            && (m.Receive? && m.id == i ==>
                t.sessions[i].taken == s.sessions[i].taken + 1 && t.sessions[i].phase == Running)
            && (m.ShutdownClear? && m.id == i ==>
                t.sessions[i] == s.sessions[i].(table := t.sessions[i].table, phase := Cleared))
            && (m.ShutdownClose? && m.id == i ==> t.sessions[i] == s.sessions[i].(phase := Closed))
            && (m.Lose? && m.id == i ==> t.sessions[i] == s.sessions[i].(phase := Lost))
            && (m.LoseClear? && m.id == i ==>
                t.sessions[i] == s.sessions[i].(table := t.sessions[i].table, phase := Gone))
            && (m.Kill? && m.id == i ==> t.sessions[i] == s.sessions[i].(phase := Killed))
  {
  }

  /** The frame names this peer for adding. */
  predicate Names(m: SupervisorMessage, p: Slug) {
    m == Notify(PeerJoined(p)) || (m.Response? && m.response.Ack? && p in m.response.peers)
  }

  /** Reading takes the frames in the order in which they were written. It makes the directories of the peers named for
      adding, those that can be made, and changes nothing else of what the supervisor sees; the session is clean as
      long as no named peer meets a fault. */
  lemma ReadingCases(s: System, id: ConnId, faults: Faults)
    requires CanMove(s, Receive(id, faults))
    ensures var t := After(s, Receive(id, faults));
            var w := s.core.wires[id];
            var m := (w.sent + w.late)[s.sessions[id].taken].message;
            && t.core == s.core.(dirs := t.core.dirs)
            && (forall p :: p in t.core.dirs <==>
                  p in s.core.dirs || (Names(m, p) && !(p in faults && faults[p] == MkdirFails)))
            && t.sessions[id].table == Fold(s.sessions[id].table, m, faults)
            && (t.sessions[id].clean <==> s.sessions[id].clean && forall p :: p in faults ==> !Names(m, p))
  {
    var w := s.core.wires[id];
    var m := (w.sent + w.late)[s.sessions[id].taken].message;
    assert forall p :: p in Added(m) <==> Names(m, p);
  }

  /** A connection that is new starts with nothing read and nobody listened for. */
  lemma SessionsStartEmpty(s: System, m: Move, i: ConnId)
    requires CanMove(s, m) && i !in s.sessions && i in After(s, m).sessions
    ensures var x := After(s, m).sessions[i];
            && m.Supervise? && x.taken == 0 && x.clean && x.phase == Running && x.table.files == m.stale
            && x.table.entries == map[] && x.table.bound == {} && x.table.tasks == map[]
            && i in After(s, m).core.wires && x.table.own == After(s, m).core.wires[i].owner.slug
  {
  }

  // ---- The theorems ----

  ghost predicate Happens(s: System) {
    exists moves :: Possible(START, moves) && Play(START, moves) == s
  }

  lemma HappensSysInv(s: System)
    requires Happens(s)
    ensures SysInv(s)
  {
    var moves :| Possible(START, moves) && Play(START, moves) == s;
    StartSysInv();
    PlayKeepsSysInv(START, moves);
  }

  /** The keys this server will have once it has read everything already written to it. */
  function Eventual(s: System, id: ConnId): set<Slug>
    requires id in s.sessions && id in s.core.wires && s.sessions[id].taken <= |Frames(s.core.wires[id])|
  {
    Deliver(s.sessions[id].table.entries.Keys, Frames(s.core.wires[id])[s.sessions[id].taken..])
  }

  lemma TracksEventually(x: Session, w: Wire)
    requires Tracks(x, w) && x.phase == Running
    ensures var eventual := Deliver(x.table.entries.Keys, Frames(w)[x.taken..]);
            && eventual <= Deliver({}, Frames(w))
            && (x.clean ==> eventual == Deliver({}, Frames(w)))
  {
    var all := Frames(w);
    assert all == all[..x.taken] + all[x.taken..];
    DeliverAppend({}, all[..x.taken], all[x.taken..]);
    DeliverMonotone(x.table.entries.Keys, Deliver({}, all[..x.taken]), all[x.taken..]);
  }

  /** View consistency: for a live connection without a failed write whose server is running,
      the undelivered frames turn the server's listener keys into exactly the slugs registered
      in its group minus its own; failed binds can only lose some of them. */
  lemma ViewsAgree(s: System, id: ConnId)
    requires Happens(s) && id in s.core.conns && id in s.sessions && id in s.core.wires
    requires !s.core.wires[id].failed && s.sessions[id].phase == Running
    ensures s.sessions[id].taken <= |Frames(s.core.wires[id])|
    ensures Eventual(s, id) <= Others(s.core, s.core.conns[id])
    ensures s.sessions[id].clean ==> Eventual(s, id) == Others(s.core, s.core.conns[id])
  {
    HappensSysInv(s);
    assert SessionOk(s, id) && StreamOk(s.core, id);
    TracksEventually(s.sessions[id], s.core.wires[id]);
    assert Frames(s.core.wires[id]) == s.core.wires[id].sent;
  }

  /** A server that has read its whole stream listens for a slug iff another member of its group holds it. */
  lemma DrainedServersListenToTheirGroup(s: System, id: ConnId, slug: Slug)
    requires Happens(s) && id in s.core.conns && id in s.sessions && id in s.core.wires
    requires !s.core.wires[id].failed && s.sessions[id].phase == Running && s.sessions[id].clean
    requires s.sessions[id].taken == |Frames(s.core.wires[id])|
    ensures slug in s.sessions[id].table.entries <==>
            exists other :: other in s.core.conns && other != id
                         && s.core.conns[other] == Register(slug, s.core.conns[id].group)
  {
    HappensSysInv(s);
    ViewsAgree(s, id);
    var c := s.core;
    var r := c.conns[id];
    assert Lists(c.groups, r.group, r.slug, id);
    if slug in Others(c, r) {
      var other := Members(c.groups, r.group)[slug];
      assert Lists(c.groups, r.group, slug, other);
    }
    if other :| other in c.conns && other != id && c.conns[other] == Register(slug, r.group) {
      assert Lists(c.groups, r.group, slug, other);
    }
  }

  /** When two servers have read their whole streams: if they are registered in one group they
      listen for each other; if not, one listens for the other's slug exactly when that slug is
      also held by a member of its own group. */
  lemma ListeningIsMutual(s: System, a: ConnId, b: ConnId)
    requires Happens(s) && a != b
    requires forall id :: id == a || id == b ==>
               && id in s.core.conns && id in s.sessions && id in s.core.wires
               && !s.core.wires[id].failed && s.sessions[id].phase == Running && s.sessions[id].clean
               && s.sessions[id].taken == |Frames(s.core.wires[id])|
    ensures var ra, rb := s.core.conns[a], s.core.conns[b];
            && (ra.group == rb.group ==>
                rb.slug in s.sessions[a].table.entries && ra.slug in s.sessions[b].table.entries)
            && (ra.group != rb.group ==>
                  (rb.slug in s.sessions[a].table.entries <==>
                     exists other :: other in s.core.conns && other != a &&
                         s.core.conns[other] == Register(rb.slug, ra.group)))
  {
    DrainedServersListenToTheirGroup(s, a, s.core.conns[b].slug);
    DrainedServersListenToTheirGroup(s, b, s.core.conns[a].slug);
  }

  /** A session ended by shutdown has unlinked every socket it bound before its departure is
      even queued, unless a write to it failed or reading from it did. */
  lemma ShutdownUnlinksBeforeDeparture(s: System, id: ConnId)
    requires Happens(s) && id in s.sessions && id in s.core.wires
    requires Departed(id) in s.core.queue || id !in s.core.conns
    requires !s.core.wires[id].failed && id !in s.errored
    requires s.sessions[id].phase != Lost && s.sessions[id].phase != Gone && s.sessions[id].phase != Killed
    ensures s.sessions[id].phase == Closed
    ensures s.sessions[id].table.bound == {} && s.sessions[id].table.tasks == map[]
  {
    HappensSysInv(s);
    assert SessionOk(s, id);
  }

  /** In every state every bound socket and every running accept task belongs to a current listener. */
  lemma SocketsBelongToListeners(s: System, id: ConnId, p: Path)
    requires Happens(s) && id in s.sessions && id in s.core.wires
    requires p in s.sessions[id].table.bound
    ensures p.name == s.core.wires[id].owner.slug
    ensures p.dir in s.sessions[id].table.entries && s.sessions[id].table.entries[p.dir].path == p
    ensures s.sessions[id].table.entries[p.dir].task in s.sessions[id].table.tasks
  {
    HappensSysInv(s);
    assert SessionOk(s, id);
  }
}
