/** The supervisor's membership machine: one handler call is one step.
    What the environment decides (the outcome of every write and file-system
    call, and the order in which a hash map is iterated) is an input. */
module Supervisor {
  import opened Protocol

  type ConnId = nat

  datatype Event = Registered(register: Register) | Departed(id: ConnId)

  /** A frame on a connection's stream. Only `message` travels; `about` remembers
      which connection the frame reports on, since slugs are reused. */
  datatype Entry = Entry(message: SupervisorMessage, about: ConnId)

  /** The stream of one connection: what was written up to the first failed
      write, and what was still written successfully after it. */
  datatype Wire = Wire(owner: Register, sent: seq<Entry>, failed: bool, late: seq<Entry>)

  datatype Core = Core(
    nextId: nat,
    groups: Index,
    conns: map<ConnId, Register>,
    queue: seq<Event>,
    watching: set<ConnId>,
    dirs: set<Slug>,
    wires: map<ConnId, Wire>)

  /** What the environment contributes to one handler call. */
  datatype Env = Env(
    mkdirError: Option<string>,
    ackOk: bool,
    rmdirOk: bool,
    peers: seq<Slug>,
    peerIds: seq<ConnId>,
    fails: set<ConnId>)

  datatype Step =
    | Arrive(register: Register)
    | Handle(env: Env)
    | WatchEnds(id: ConnId)

  const INIT := Core(0, map[], map[], [], {}, {}, map[])

  // ---- Lookups ----

  type Index = map<Group, map<Slug, ConnId>>

  function Members(groups: Index, g: Group): map<Slug, ConnId> {
    if g in groups then groups[g] else map[]
  }

  function Ids(groups: Index, g: Group): set<ConnId> {
    set s | s in Members(groups, g) :: Members(groups, g)[s]
  }

  // ---- Fan-out ----

  function Write(w: Wire, e: Entry, ok: bool): Wire {
    if !ok then w.(failed := true)
    else if w.failed then w.(late := w.late + [e])
    else w.(sent := w.sent + [e])
  }

  function FanOut(wires: map<ConnId, Wire>, to: set<ConnId>, e: Entry, fails: set<ConnId>): map<ConnId, Wire> {
    map id | id in wires :: if id in to then Write(wires[id], e, id !in fails) else wires[id]
  }

  /** The peers whose record is found, in iteration order. */
  function Found(peerIds: seq<ConnId>, conns: map<ConnId, Register>): set<ConnId> {
    set id | id in peerIds && id in conns
  }

  /** The Departed events queued for the peers whose write failed. */
  function Failures(peerIds: seq<ConnId>, conns: map<ConnId, Register>, fails: set<ConnId>): seq<Event> {
    if peerIds == [] then []
    else
      var n := |peerIds| - 1;
      Failures(peerIds[..n], conns, fails)
      + if peerIds[n] in conns && peerIds[n] in fails then [Departed(peerIds[n])] else []
  }

  lemma {:induction false} FailuresContent(peerIds: seq<ConnId>, conns: map<ConnId, Register>, fails: set<ConnId>)
    ensures |Failures(peerIds, conns, fails)| <= |peerIds|
    ensures forall e :: e in Failures(peerIds, conns, fails) ==> e.Departed?
    ensures forall id: ConnId :: Departed(id) in Failures(peerIds, conns, fails) <==>
        id in peerIds && id in conns && id in fails
  {
    if peerIds != [] {
      FailuresContent(peerIds[..|peerIds| - 1], conns, fails);
    }
  }

  // ---- Handlers ----

  function DuplicateReason(r: Register): string {
    "slug '" + r.slug + "' already registered in group '" + r.group + "'"
  }

  function Reply(c: Core, r: Register, env: Env): RegisterResponse {
    if r.slug in Members(c.groups, r.group) then Nack(DuplicateReason(r))
    else match env.mkdirError
      case Some(e) => Nack("failed to create slug directory: " + e)
      case None => Ack(env.peers)
  }

  /** The Ack has been written: the connection gets its id, its watcher and its index entries. */
  function Admit(c: Core, r: Register, env: Env): Core {
    var id := c.nextId;
    var joined := Entry(Notify(PeerJoined(r.slug)), id);
    Core(
      id + 1,
      c.groups[r.group := Members(c.groups, r.group)[r.slug := id]],
      c.conns[id := r],
      c.queue + Failures(env.peerIds, c.conns, env.fails),
      c.watching + {id},
      c.dirs + {r.slug},
      FanOut(c.wires, Found(env.peerIds, c.conns), joined, env.fails)
        [id := Wire(r, [Entry(Response(Ack(env.peers)), id)], false, [])])
  }

  function Registration(c: Core, r: Register, env: Env): Core {
    if r.slug in Members(c.groups, r.group) || env.mkdirError.Some? then c
    else if !env.ackOk then c.(dirs := if env.rmdirOk then c.dirs - {r.slug} else c.dirs + {r.slug})
    else Admit(c, r, env)
  }

  function Unindex(groups: Index, r: Register): map<Group, map<Slug, ConnId>> {
    if r.group !in groups then groups
    else
      var m := groups[r.group] - {r.slug};
      if m == map[] then groups - {r.group} else groups[r.group := m]
  }

  /** A live connection leaves: its record, watcher, index entry and directory go, and its peers are told. */
  function Expel(c: Core, id: ConnId, env: Env): Core
    requires id in c.conns
  {
    var r := c.conns[id];
    var conns := c.conns - {id};
    var left := Entry(Notify(PeerLeft(r.slug)), id);
    Core(
      c.nextId,
      Unindex(c.groups, r),
      conns,
      c.queue + Failures(env.peerIds, conns, env.fails),
      c.watching - {id},
      if env.rmdirOk then c.dirs - {r.slug} else c.dirs,
      FanOut(c.wires, Found(env.peerIds, conns), left, env.fails))
  }

  function Departure(c: Core, id: ConnId, env: Env): Core {
    if id in c.conns then Expel(c, id, env) else c
  }

  function Pop(c: Core): Core
    requires c.queue != []
  {
    c.(queue := c.queue[1..])
  }

  function HandleHead(c: Core, env: Env): Core
    requires c.queue != []
  {
    match c.queue[0]
    case Registered(r) => Registration(Pop(c), r, env)
    case Departed(id) => Departure(Pop(c), id, env)
  }

  /** The environment's iteration orders fit the index the handler iterates. */
  ghost predicate Fits(c: Core, env: Env)
    requires c.queue != []
  {
    match c.queue[0]
    case Registered(r) =>
      && Enumerates(env.peers, Members(c.groups, r.group).Keys)
      && Enumerates(env.peerIds, Ids(c.groups, r.group))
    case Departed(id) =>
      id in c.conns ==>
        Enumerates(env.peerIds, Ids(Unindex(c.groups, c.conns[id]), c.conns[id].group))
  }

  ghost predicate Enabled(c: Core, step: Step) {
    match step
    case Arrive(_) => true
    case Handle(env) => c.queue != [] && Fits(c, env)
    case WatchEnds(id) => id in c.watching
  }

  function Next(c: Core, step: Step): Core
    requires step.Handle? ==> c.queue != []
  {
    match step
    case Arrive(r) => c.(queue := c.queue + [Registered(r)])
    case Handle(env) => HandleHead(c, env)
    case WatchEnds(id) => c.(queue := c.queue + [Departed(id)], watching := c.watching - {id})
  }

  // ---- Runs ----

  ghost predicate Valid(c: Core, steps: seq<Step>)
    decreases |steps|
  {
    steps == [] || (Enabled(c, steps[0]) && Valid(Next(c, steps[0]), steps[1..]))
  }

  ghost function Exec(c: Core, steps: seq<Step>): Core
    requires Valid(c, steps)
    decreases |steps|
  {
    if steps == [] then c else Exec(Next(c, steps[0]), steps[1..])
  }
}
