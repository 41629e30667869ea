/** The slug directories. A directory is keyed by its slug alone while a slug is unique
    only within its group, so departures in one group can remove another group's directory. */
module Directories {
  import opened Protocol
  import opened Supervisor
  import opened Membership
  import opened Sessions

  ghost predicate DirsPresent(c: Core) {
    forall id: ConnId :: id in c.conns ==> c.conns[id].slug in c.dirs
  }

  /** The slug whose directory handling the head event removes, if it removes one. */
  function Removed(c: Core, env: Env): Option<Slug>
    requires c.queue != []
  {
    match c.queue[0]
    case Registered(r) =>
      if r.slug !in Members(c.groups, r.group) && env.mkdirError == None && !env.ackOk && env.rmdirOk
      then Some(r.slug) else None
    case Departed(id) =>
      if id in c.conns && env.rmdirOk then Some(c.conns[id].slug) else None
  }

  /** The group in which the handled event registers or unregisters its slug. */
  function HeadGroup(c: Core): Group
    requires c.queue != []
  {
    match c.queue[0]
    case Registered(r) => r.group
    case Departed(id) => if id in c.conns then c.conns[id].group else ""
  }

  /** Exactly when handling an event keeps every live connection's directory: unless it removes
      the directory of a slug that some other group has registered. */
  lemma DirectoriesKeptIff(c: Core, env: Env)
    requires Inv(c) && DirsPresent(c) && Enabled(c, Handle(env))
    ensures DirsPresent(HandleHead(c, env)) <==>
            !(Removed(c, env).Some? &&
              exists g :: g != HeadGroup(c) && Removed(c, env).value in Members(c.groups, g))
  {
    match c.queue[0]
    case Registered(r) => FailedAckDirs(c, r, env);
    case Departed(id) =>
      if id in c.conns {
        ExpulsionDirs(c, id, env);
      }
  }

  lemma FailedAckDirs(c: Core, r: Register, env: Env)
    requires Indexed(c) && DirsPresent(c) && c.queue != [] && c.queue[0] == Registered(r)
    ensures DirsPresent(HandleHead(c, env)) <==>
            !(Removed(c, env).Some? && exists g :: g != r.group && r.slug in Members(c.groups, g))
  {
    var d := HandleHead(c, env);
    if Removed(c, env).Some? {
      SharedSlug(c, r.slug, r.group);
      assert d.dirs == c.dirs - {r.slug} && d.conns == c.conns;
      assert forall id: ConnId :: id in c.conns && c.conns[id].slug == r.slug ==> c.conns[id].group != r.group by {
        forall id: ConnId | id in c.conns && c.conns[id].slug == r.slug ensures c.conns[id].group != r.group {
          assert Lists(c.groups, c.conns[id].group, c.conns[id].slug, id);
        }
      }
    }
  }

  lemma ExpulsionDirs(c: Core, x: ConnId, env: Env)
    requires Indexed(c) && DirsPresent(c) && c.queue != [] && c.queue[0] == Departed(x) && x in c.conns
    ensures DirsPresent(HandleHead(c, env)) <==>
            !(env.rmdirOk && exists g :: g != c.conns[x].group && c.conns[x].slug in Members(c.groups, g))
  {
    var d := HandleHead(c, env);
    var r := c.conns[x];
    SharedSlug(c, r.slug, r.group);
    assert d.conns == c.conns - {x} && d.dirs == if env.rmdirOk then c.dirs - {r.slug} else c.dirs;
    assert Lists(c.groups, r.group, r.slug, x);
    if id: ConnId :| id in c.conns && c.conns[id].slug == r.slug && c.conns[id].group != r.group {
      assert id in d.conns && (env.rmdirOk ==> d.conns[id].slug !in d.dirs);
    } else {
      forall id: ConnId | id in d.conns ensures d.conns[id].slug in d.dirs {
        assert Lists(c.groups, c.conns[id].group, c.conns[id].slug, id);
      }
    }
  }

  /** Another group lists the slug iff some live connection of another group holds it. */
  lemma SharedSlug(c: Core, s: Slug, g: Group)
    requires Indexed(c)
    ensures (exists h :: h != g && s in Members(c.groups, h)) <==>
            exists id: ConnId :: id in c.conns && c.conns[id].slug == s && c.conns[id].group != g
  {
    if h :| h != g && s in Members(c.groups, h) {
      assert Lists(c.groups, h, s, Members(c.groups, h)[s]);
    }
    if id: ConnId :| id in c.conns && c.conns[id].slug == s && c.conns[id].group != g {
      assert Lists(c.groups, c.conns[id].group, s, id);
    }
  }

  // ---- Whole runs in which a slug belongs to one group ----

  /** Every registration there is, and every one still queued, is in its slug's home group. */
  ghost predicate AtHome(c: Core, home: map<Slug, Group>) {
    && (forall id: ConnId :: id in c.conns ==> c.conns[id].slug in home && home[c.conns[id].slug] == c.conns[id].group)
    && (forall r :: Registered(r) in c.queue ==> r.slug in home && home[r.slug] == r.group)
  }

  ghost predicate MoveAtHome(m: Move, home: map<Slug, Group>) {
    m.Supervise? && m.step.Arrive? ==>
        m.step.register.slug in home && home[m.step.register.slug] == m.step.register.group
  }

  lemma RegistrationStaysHome(c: Core, r: Register, env: Env, home: map<Slug, Group>)
    requires AtHome(c, home) && r.slug in home && home[r.slug] == r.group
    ensures AtHome(Registration(c, r, env), home)
  {
    FailuresContent(env.peerIds, c.conns, env.fails);
  }

  lemma DepartureStaysHome(c: Core, id: ConnId, env: Env, home: map<Slug, Group>)
    requires AtHome(c, home)
    ensures AtHome(Departure(c, id, env), home)
  {
    FailuresContent(env.peerIds, c.conns - {id}, env.fails);
  }

  lemma HandleStaysHome(c: Core, env: Env, home: map<Slug, Group>)
    requires AtHome(c, home) && c.queue != []
    ensures AtHome(HandleHead(c, env), home)
  {
    assert c.queue[0] in c.queue;
    assert forall e :: e in c.queue[1..] ==> e in c.queue;
    match c.queue[0]
    case Registered(r) => RegistrationStaysHome(Pop(c), r, env, home);
    case Departed(id) => DepartureStaysHome(Pop(c), id, env, home);
  }

  lemma HomeMembers(c: Core, home: map<Slug, Group>, s: Slug, g: Group)
    requires Indexed(c) && AtHome(c, home) && s in Members(c.groups, g)
    ensures s in home && home[s] == g
  {
    assert Lists(c.groups, g, s, Members(c.groups, g)[s]);
  }

  lemma HandleKeepsDirs(c: Core, env: Env, home: map<Slug, Group>)
    requires Inv(c) && AtHome(c, home) && DirsPresent(c) && Enabled(c, Handle(env))
    ensures DirsPresent(HandleHead(c, env))
  {
    DirectoriesKeptIff(c, env);
    assert c.queue[0] in c.queue;
    if Removed(c, env).Some? {
      var s := Removed(c, env).value;
      forall g | s in Members(c.groups, g) ensures g == HeadGroup(c) {
        HomeMembers(c, home, s, g);
      }
    }
  }

  /** Server moves and watchers can only add directories. */
  lemma OnlyHandlersRemove(s: System, m: Move)
    requires CanMove(s, m) && !(m.Supervise? && m.step.Handle?)
    ensures CoreAfter(s, m).conns == s.core.conns
    ensures s.core.dirs <= CoreAfter(s, m).dirs
    ensures forall r :: Registered(r) in CoreAfter(s, m).queue ==>
              Registered(r) in s.core.queue || (m.Supervise? && m.step == Arrive(r))
  {
  }

  lemma MoveKeepsDirs(s: System, m: Move, home: map<Slug, Group>)
    requires SysInv(s) && CanMove(s, m) && MoveAtHome(m, home)
    requires AtHome(s.core, home) && DirsPresent(s.core)
    ensures AtHome(CoreAfter(s, m), home) && DirsPresent(CoreAfter(s, m))
  {
    if m.Supervise? && m.step.Handle? {
      HandleStaysHome(s.core, m.step.env, home);
      HandleKeepsDirs(s.core, m.step.env, home);
    } else {
      OnlyHandlersRemove(s, m);
    }
  }

  lemma {:induction false} PlayKeepsDirs(s: System, moves: seq<Move>, home: map<Slug, Group>)
    requires SysInv(s) && Possible(s, moves)
    requires forall m :: m in moves ==> MoveAtHome(m, home)
    requires AtHome(s.core, home) && DirsPresent(s.core)
    ensures DirsPresent(Play(s, moves).core)
    decreases |moves|
  {
    if moves != [] {
      assert forall m :: m in moves[1..] ==> m in moves;
      MoveKeepsSysInv(s, moves[0]);
      MoveKeepsDirs(s, moves[0], home);
      PlayKeepsDirs(After(s, moves[0]), moves[1..], home);
    }
  }

  /** If each slug is only ever registered in one group, then in every reachable state, whatever
      file-system calls and writes fail and whatever the servers do, every live connection's
      slug directory exists. */
  lemma LiveDirectoriesExist(moves: seq<Move>, home: map<Slug, Group>)
    requires Possible(START, moves)
    requires forall m :: m in moves ==> MoveAtHome(m, home)
    ensures DirsPresent(Play(START, moves).core)
  {
    StartSysInv();
    PlayKeepsDirs(START, moves, home);
  }

  // ---- Two groups sharing a slug ----

  function Calm(peers: seq<Slug>, peerIds: seq<ConnId>): Env {
    Env(None, true, true, peers, peerIds, {})
  }

  const SHARED_SLUG_RUN: seq<Step> := [
    Arrive(Register("x", "g")), Handle(Calm([], [])),
    Arrive(Register("x", "h")), Handle(Calm([], [])),
    WatchEnds(0), Handle(Calm([], []))]

  lemma RegisterAlone(c: Core, r: Register)
    requires c.queue == [] && r.group !in c.groups
    ensures Enabled(c, Arrive(r)) && Enabled(Next(c, Arrive(r)), Handle(Calm([], [])))
    ensures var d := Next(Next(c, Arrive(r)), Handle(Calm([], [])));
            && d.nextId == c.nextId + 1
            && d.groups == c.groups[r.group := map[r.slug := c.nextId]]
            && d.conns == c.conns[c.nextId := r]
            && d.queue == [] && d.watching == c.watching + {c.nextId} && d.dirs == c.dirs + {r.slug}
  {
  }

  lemma DepartAlone(c: Core, id: ConnId)
    requires c.queue == [] && id in c.watching && id in c.conns
    requires c.conns[id].group in c.groups && c.groups[c.conns[id].group] == map[c.conns[id].slug := id]
    ensures Enabled(c, WatchEnds(id)) && Enabled(Next(c, WatchEnds(id)), Handle(Calm([], [])))
    ensures var d := Next(Next(c, WatchEnds(id)), Handle(Calm([], [])));
            d.conns == c.conns - {id} && d.dirs == c.dirs - {c.conns[id].slug}
  {
  }

  /** One slug registered in two groups: when the server of group g leaves, the live server of
      group h loses its directory. */
  lemma SharedSlugLosesDirectory()
    ensures Valid(INIT, SHARED_SLUG_RUN)
    ensures var c := Exec(INIT, SHARED_SLUG_RUN);
            1 in c.conns && c.conns[1] == Register("x", "h") && "x" !in c.dirs
  {
    var s := SHARED_SLUG_RUN;
    RegisterAlone(INIT, Register("x", "g"));
    var c1 := Next(Next(INIT, s[0]), s[1]);
    RegisterAlone(c1, Register("x", "h"));
    var c3 := Next(Next(c1, s[2]), s[3]);
    DepartAlone(c3, 0);
    SixSteps(INIT, s, c1, c3, Next(Next(c3, s[4]), s[5]));
  }

  lemma SixSteps(c: Core, s: seq<Step>, c1: Core, c3: Core, c5: Core)
    requires |s| == 6
    requires Enabled(c, s[0]) && Enabled(Next(c, s[0]), s[1]) && c1 == Next(Next(c, s[0]), s[1])
    requires Enabled(c1, s[2]) && Enabled(Next(c1, s[2]), s[3]) && c3 == Next(Next(c1, s[2]), s[3])
    requires Enabled(c3, s[4]) && Enabled(Next(c3, s[4]), s[5]) && c5 == Next(Next(c3, s[4]), s[5])
    ensures Valid(c, s) && Exec(c, s) == c5
  {
    TwoSteps(c3, s[4..], c5);
    TwoSteps(c1, s[2..], c3);
    TwoSteps(c, s, c1);
    assert s[2..][2..] == s[4..];
  }

  lemma TwoSteps(c: Core, s: seq<Step>, d: Core)
    requires |s| >= 2
    requires Enabled(c, s[0]) && Enabled(Next(c, s[0]), s[1]) && d == Next(Next(c, s[0]), s[1])
    ensures Valid(d, s[2..]) ==> Valid(c, s) && Exec(c, s) == Exec(d, s[2..])
  {
  }
}
