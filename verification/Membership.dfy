/** What every reachable supervisor state satisfies. */
module Membership {
  import opened Protocol
  import opened Supervisor

  // ---- Folding a stream into a set of peers ----

  /** What a server's listener keys become when it reads one frame and every bind succeeds. */
  function Apply(keys: set<Slug>, m: SupervisorMessage): set<Slug> {
    match m
    case Response(Ack(peers)) => keys + Elements(peers)
    case Response(Nack(_)) => keys
    case Notify(PeerJoined(s)) => keys + {s}
    case Notify(PeerLeft(s)) => keys - {s}
  }

  function Deliver(keys: set<Slug>, frames: seq<Entry>): set<Slug> {
    if frames == [] then keys
    else Apply(Deliver(keys, frames[..|frames| - 1]), frames[|frames| - 1].message)
  }

  lemma DeliverSnoc(keys: set<Slug>, frames: seq<Entry>, e: Entry)
    ensures Deliver(keys, frames + [e]) == Apply(Deliver(keys, frames), e.message)
  {
  }

  lemma {:induction false} DeliverAppend(keys: set<Slug>, a: seq<Entry>, b: seq<Entry>)
    ensures Deliver(keys, a + b) == Deliver(Deliver(keys, a), b)
    decreases |b|
  {
    if b == [] {
      assert a + b == a;
    } else {
      var n := |b| - 1;
      DeliverAppend(keys, a, b[..n]);
      assert (a + b)[..|a + b| - 1] == a + b[..n];
    }
  }

  // ---- The two indexes ----

  ghost predicate Lists(groups: Index, g: Group, s: Slug, id: ConnId) {
    s in Members(groups, g) && Members(groups, g)[s] == id
  }

  /** The two maps are inverse to each other and no inner map is empty. */
  ghost predicate Inverse(groups: Index, conns: map<ConnId, Register>) {
    && (forall id: ConnId :: id in conns ==> Lists(groups, conns[id].group, conns[id].slug, id))
    && (forall g, s, id: ConnId :: Lists(groups, g, s, id) ==> id in conns && conns[id] == Register(s, g))
    && (forall g :: g in groups ==> groups[g] != map[])
  }

  ghost predicate Indexed(c: Core) {
    Inverse(c.groups, c.conns)
  }

  /** Ids are handed out in order, and every id ever given out keeps its stream. */
  ghost predicate Numbered(c: Core) {
    && (forall id: ConnId :: id in c.wires <==> id < c.nextId)
    && (forall id: ConnId :: id in c.conns ==> id in c.wires && c.wires[id].owner == c.conns[id])
    && c.watching <= c.conns.Keys
    && (forall id: ConnId :: Departed(id) in c.queue ==> id < c.nextId)
  }

  /** No registration leaks: something will always report a dead connection. */
  ghost predicate Watched(c: Core)
    requires Numbered(c)
  {
    forall id: ConnId :: id in c.conns ==>
      && (id in c.watching || Departed(id) in c.queue)
      && (c.wires[id].failed ==> Departed(id) in c.queue)
  }

  // ---- Streams ----

  ghost predicate FollowsAt(own: Slug, frames: seq<Entry>, k: nat)
    requires k < |frames|
  {
    match frames[k].message
    case Notify(PeerJoined(s)) => s != own && s !in Deliver({}, frames[..k])
    case Notify(PeerLeft(s)) => s != own && s in Deliver({}, frames[..k])
    case Response(_) => false
  }

  /** One duplicate-free Ack, then joins of absent peers and leaves of present ones, never of oneself. */
  ghost predicate WellFormed(own: Slug, frames: seq<Entry>) {
    && frames != []
    && frames[0].message.Response?
    && frames[0].message.response.Ack?
    && own !in frames[0].message.response.peers
    && (forall i, j :: 0 <= i < j < |frames[0].message.response.peers| ==>
          frames[0].message.response.peers[i] != frames[0].message.response.peers[j])
    && (forall k :: 1 <= k < |frames| ==> FollowsAt(own, frames, k))
  }

  lemma WellFormedSnoc(own: Slug, frames: seq<Entry>, e: Entry)
    requires WellFormed(own, frames)
    requires match e.message
             case Notify(PeerJoined(s)) => s != own && s !in Deliver({}, frames)
             case Notify(PeerLeft(s)) => s != own && s in Deliver({}, frames)
             case Response(_) => false
    ensures WellFormed(own, frames + [e])
  {
    var all := frames + [e];
    forall k | 1 <= k < |all| ensures FollowsAt(own, all, k) {
      if k < |frames| {
        assert FollowsAt(own, frames, k);
        assert all[..k] == frames[..k];
      } else {
        assert all[..k] == frames;
      }
    }
  }

  function Others(c: Core, r: Register): set<Slug> {
    Members(c.groups, r.group).Keys - {r.slug}
  }

  ghost predicate StreamOk(c: Core, id: ConnId)
    requires id in c.wires
  {
    var w := c.wires[id];
    && WellFormed(w.owner.slug, w.sent)
    && (!w.failed ==> w.late == [])
    && (id in c.conns && !w.failed ==> Deliver({}, w.sent) == Others(c, w.owner))
  }

  ghost predicate Streams(c: Core) {
    forall id: ConnId :: id in c.wires ==> StreamOk(c, id)
  }

  ghost predicate Inv(c: Core) {
    && Indexed(c)
    && Numbered(c)
    && Watched(c)
    && Streams(c)
  }

  // ---- Each invariant is kept by each handler ----

  /** The ids a group's index lists are exactly the live connections of the group. */
  lemma IdsAreLive(groups: Index, conns: map<ConnId, Register>, g: Group)
    requires Inverse(groups, conns)
    ensures forall id: ConnId :: id in Ids(groups, g) <==> id in conns && conns[id].group == g
  {
    forall id: ConnId | id in Ids(groups, g) ensures id in conns && conns[id].group == g {
      var s :| s in Members(groups, g) && Members(groups, g)[s] == id;
      assert Lists(groups, g, s, id);
    }
    forall id: ConnId | id in conns && conns[id].group == g ensures id in Ids(groups, g) {
      assert Lists(groups, g, conns[id].slug, id);
    }
  }

  lemma UnindexMembers(groups: Index, r: Register, g: Group)
    ensures Members(Unindex(groups, r), g) ==
            if g == r.group then Members(groups, g) - {r.slug} else Members(groups, g)
  {
  }

  lemma UnindexInverse(groups: Index, conns: map<ConnId, Register>, id: ConnId)
    requires Inverse(groups, conns) && id in conns
    ensures Inverse(Unindex(groups, conns[id]), conns - {id})
  {
    var r := conns[id];
    var groups', conns' := Unindex(groups, r), conns - {id};
    assert Lists(groups, r.group, r.slug, id);
    forall i: ConnId | i in conns' ensures Lists(groups', conns'[i].group, conns'[i].slug, i) {
      UnindexMembers(groups, r, conns[i].group);
      assert Lists(groups, conns[i].group, conns[i].slug, i);
    }
    forall g, s, i: ConnId | Lists(groups', g, s, i) ensures i in conns' && conns'[i] == Register(s, g) {
      UnindexMembers(groups, r, g);
      assert Lists(groups, g, s, i);
    }
  }

  lemma IndexInverse(groups: Index, conns: map<ConnId, Register>, id: ConnId, r: Register)
    requires Inverse(groups, conns) && id !in conns && r.slug !in Members(groups, r.group)
    ensures Inverse(groups[r.group := Members(groups, r.group)[r.slug := id]], conns[id := r])
  {
    var groups', conns' := groups[r.group := Members(groups, r.group)[r.slug := id]], conns[id := r];
    forall i: ConnId | i in conns' ensures Lists(groups', conns'[i].group, conns'[i].slug, i) {
      if i != id {
        assert Lists(groups, conns[i].group, conns[i].slug, i);
      }
    }
    forall g, s, i: ConnId | Lists(groups', g, s, i) ensures i in conns' && conns'[i] == Register(s, g) {
      assert Lists(groups, g, s, i) || (g == r.group && s == r.slug && i == id);
    }
  }

  lemma RegistrationIndexed(c: Core, r: Register, env: Env)
    requires Indexed(c) && Numbered(c)
    ensures Indexed(Registration(c, r, env))
  {
    if Registration(c, r, env).nextId != c.nextId {
      IndexInverse(c.groups, c.conns, c.nextId, r);
    }
  }

  lemma RegistrationNumbered(c: Core, r: Register, env: Env)
    requires Numbered(c)
    ensures Numbered(Registration(c, r, env))
  {
    FailuresContent(env.peerIds, c.conns, env.fails);
  }

  lemma DepartureNumbered(c: Core, id: ConnId, env: Env)
    requires Numbered(c)
    ensures Numbered(Departure(c, id, env))
  {
    FailuresContent(env.peerIds, c.conns - {id}, env.fails);
  }

  /** A handler that leaves the queue's survivors in place keeps everyone watched. */
  lemma RegistrationWatched(c: Core, r: Register, env: Env)
    requires Numbered(c) && Watched(c)
    ensures Numbered(Registration(c, r, env)) && Watched(Registration(c, r, env))
  {
    RegistrationNumbered(c, r, env);
    FailuresContent(env.peerIds, c.conns, env.fails);
  }

  /** Departed(id) has just been taken off the queue, so `id` itself may be unwatched. */
  lemma DepartureWatched(c: Core, id: ConnId, env: Env)
    requires Numbered(c) && Numbered(c.(queue := [Departed(id)] + c.queue))
    requires Watched(c.(queue := [Departed(id)] + c.queue))
    ensures Numbered(Departure(c, id, env)) && Watched(Departure(c, id, env))
  {
    DepartureNumbered(c, id, env);
    FailuresContent(env.peerIds, c.conns - {id}, env.fails);
    var d := Departure(c, id, env);
    forall i: ConnId | i in d.conns
      ensures (i in d.watching || Departed(i) in d.queue) && (d.wires[i].failed ==> Departed(i) in d.queue)
    {
      assert Departed(i) in [Departed(id)] + c.queue <==> i == id || Departed(i) in c.queue;
    }
  }

  /** A live stream that is offered a fitting notification stays well formed, whatever the write's outcome. */
  lemma WriteKeepsStream(c: Core, id: ConnId, e: Entry, ok: bool, d: Core)
    requires id in c.conns && id in c.wires && c.wires[id].owner == c.conns[id] && StreamOk(c, id)
    requires id in d.conns && id in d.wires && d.wires[id] == Write(c.wires[id], e, ok)
    requires e.message.Notify? && e.message.notification.slug != c.conns[id].slug
    requires e.message.notification.PeerLeft? <==> e.message.notification.slug in Others(c, c.conns[id])
    requires Others(d, c.conns[id]) == Apply(Others(c, c.conns[id]), e.message)
    ensures StreamOk(d, id)
  {
    var w := c.wires[id];
    DeliverSnoc({}, w.sent, e);
    if ok && !w.failed {
      WellFormedSnoc(w.owner.slug, w.sent, e);
    }
  }

  lemma RegistrationOthers(c: Core, r: Register, env: Env, o: Register)
    requires Registration(c, r, env).nextId != c.nextId
    requires o != r
    ensures Others(Registration(c, r, env), o) ==
            if o.group == r.group then Others(c, o) + {r.slug} else Others(c, o)
  {
  }

  lemma AckStream(c: Core, r: Register, env: Env)
    requires Registration(c, r, env).nextId != c.nextId
    requires Enumerates(env.peers, Members(c.groups, r.group).Keys)
    ensures StreamOk(Registration(c, r, env), c.nextId)
  {
  }

  /** What an admission does to one older stream: one PeerJoined if it is a live one of the group. */
  lemma AdmissionWrites(c: Core, r: Register, env: Env, id: ConnId)
    requires Indexed(c) && Numbered(c) && id in c.wires
    requires Enumerates(env.peerIds, Ids(c.groups, r.group)) && Registration(c, r, env).nextId != c.nextId
    ensures var d := Registration(c, r, env);
            && id in d.wires && (id in d.conns <==> id in c.conns)
            && d.wires[id] == if id in c.conns && c.conns[id].group == r.group
                              then Write(c.wires[id], Entry(Notify(PeerJoined(r.slug)), c.nextId), id !in env.fails)
                              else c.wires[id]
  {
    IdsAreLive(c.groups, c.conns, r.group);
  }

  lemma OlderStreamAt(c: Core, r: Register, env: Env, d: Core, id: ConnId)
    requires Indexed(c) && Numbered(c) && id in c.wires && StreamOk(c, id)
    requires Enumerates(env.peerIds, Ids(c.groups, r.group))
    requires d == Registration(c, r, env) && d.nextId != c.nextId
    ensures id in d.wires && StreamOk(d, id)
  {
    AdmissionWrites(c, r, env, id);
    if id in c.conns {
      var o := c.conns[id];
      assert Lists(c.groups, o.group, o.slug, id);
      RegistrationOthers(c, r, env, o);
      if o.group == r.group {
        WriteKeepsStream(c, id, Entry(Notify(PeerJoined(r.slug)), c.nextId), id !in env.fails, d);
      }
    }
  }

  lemma RegistrationStreamAt(c: Core, r: Register, env: Env, id: ConnId)
    requires Indexed(c) && Numbered(c) && Streams(c)
    requires Enumerates(env.peers, Members(c.groups, r.group).Keys)
    requires Enumerates(env.peerIds, Ids(c.groups, r.group))
    requires Registration(c, r, env).nextId != c.nextId
    requires id in Registration(c, r, env).wires
    ensures StreamOk(Registration(c, r, env), id)
  {
    if id == c.nextId {
      AckStream(c, r, env);
    } else {
      OlderStreamAt(c, r, env, Registration(c, r, env), id);
    }
  }

  lemma DepartureOthers(c: Core, id: ConnId, env: Env, o: Register)
    requires id in c.conns && o != c.conns[id]
    ensures Others(Departure(c, id, env), o) ==
            if o.group == c.conns[id].group then Others(c, o) - {c.conns[id].slug} else Others(c, o)
  {
  }

  lemma DepartureWrites(c: Core, id: ConnId, env: Env, i: ConnId)
    requires Numbered(c) && id in c.conns && i in c.wires
    requires Enumerates(env.peerIds, Ids(Departure(c, id, env).groups, c.conns[id].group))
    requires Indexed(Departure(c, id, env))
    ensures var d := Departure(c, id, env);
            && i in d.wires && (i in d.conns <==> i in c.conns && i != id)
            && d.wires[i] == if i in d.conns && c.conns[i].group == c.conns[id].group
                             then Write(c.wires[i], Entry(Notify(PeerLeft(c.conns[id].slug)), id), i !in env.fails)
                             else c.wires[i]
  {
    IdsAreLive(Departure(c, id, env).groups, Departure(c, id, env).conns, c.conns[id].group);
  }

  lemma DepartureStreamAt(c: Core, id: ConnId, env: Env, i: ConnId)
    requires Indexed(c) && Numbered(c) && Streams(c)
    requires id in c.conns
    requires Enumerates(env.peerIds, Ids(Departure(c, id, env).groups, c.conns[id].group))
    requires Indexed(Departure(c, id, env))
    requires i in c.wires
    ensures StreamOk(Departure(c, id, env), i)
  {
    var d := Departure(c, id, env);
    var r := c.conns[id];
    assert StreamOk(c, i);
    DepartureWrites(c, id, env, i);
    if i in d.conns {
      var o := c.conns[i];
      assert Lists(c.groups, o.group, o.slug, i) && Lists(c.groups, r.group, r.slug, id);
      DepartureOthers(c, id, env, o);
      if o.group == r.group {
        WriteKeepsStream(c, i, Entry(Notify(PeerLeft(r.slug)), id), i !in env.fails, d);
      }
    }
  }

  lemma SameStreams(c: Core, d: Core)
    requires Streams(c) && c.groups == d.groups && c.conns == d.conns && c.wires == d.wires
    ensures Streams(d)
  {
  }

  lemma RegistrationKeepsInv(c: Core, r: Register, env: Env)
    requires Inv(c)
    requires Enumerates(env.peers, Members(c.groups, r.group).Keys)
    requires Enumerates(env.peerIds, Ids(c.groups, r.group))
    ensures Inv(Registration(c, r, env))
  {
    RegistrationIndexed(c, r, env);
    RegistrationWatched(c, r, env);
    var d := Registration(c, r, env);
    if d.nextId == c.nextId {
      SameStreams(c, d);
    } else {
      forall id: ConnId | id in d.wires ensures StreamOk(d, id) {
        RegistrationStreamAt(c, r, env, id);
      }
    }
  }

  /** `c` is the state after Departed(id) has been taken off the queue. */
  lemma DepartureKeepsInv(c: Core, id: ConnId, env: Env)
    requires Indexed(c) && Numbered(c) && Streams(c)
    requires Numbered(c.(queue := [Departed(id)] + c.queue)) && Watched(c.(queue := [Departed(id)] + c.queue))
    requires id in c.conns ==> Enumerates(env.peerIds, Ids(Unindex(c.groups, c.conns[id]), c.conns[id].group))
    ensures Inv(Departure(c, id, env))
  {
    DepartureWatched(c, id, env);
    if id in c.conns {
      UnindexInverse(c.groups, c.conns, id);
      forall i: ConnId | i in c.wires ensures StreamOk(Departure(c, id, env), i) {
        DepartureStreamAt(c, id, env, i);
      }
    }
  }

  lemma HandleKeepsInv(c: Core, env: Env)
    requires Inv(c) && Enabled(c, Handle(env))
    ensures Inv(HandleHead(c, env))
  {
    var p := Pop(c);
    assert c.queue == [c.queue[0]] + p.queue;
    assert forall e :: e in c.queue <==> e == c.queue[0] || e in p.queue;
    SameStreams(c, p);
    match c.queue[0]
    case Registered(r) => RegistrationKeepsInv(p, r, env);
    case Departed(id) =>
      assert p.(queue := [Departed(id)] + p.queue) == c;
      DepartureKeepsInv(p, id, env);
  }

  lemma StepKeepsInv(c: Core, step: Step)
    requires Inv(c) && Enabled(c, step)
    ensures Inv(Next(c, step))
  {
    match step
    case Handle(env) => HandleKeepsInv(c, env);
    case _ =>
      SameStreams(c, Next(c, step));
  }

  lemma {:induction false} RunKeepsInv(c: Core, steps: seq<Step>)
    requires Inv(c) && Valid(c, steps)
    ensures Inv(Exec(c, steps))
    decreases |steps|
  {
    if steps != [] {
      StepKeepsInv(c, steps[0]);
      RunKeepsInv(Next(c, steps[0]), steps[1..]);
    }
  }

  // ---- Reachable states ----

  ghost predicate Reachable(c: Core) {
    exists steps :: Valid(INIT, steps) && Exec(INIT, steps) == c
  }

  lemma InitInv()
    ensures Inv(INIT)
  {
  }

  lemma ReachableInv(c: Core)
    requires Reachable(c)
    ensures Inv(c)
  {
    var steps :| Valid(INIT, steps) && Exec(INIT, steps) == c;
    InitInv();
    RunKeepsInv(INIT, steps);
  }

  /** The two indexes are mutual inverses, no group is empty, and no id is reused. */
  lemma IndexesAreInverse(c: Core)
    requires Reachable(c)
    ensures forall g, s, id: ConnId :: Lists(c.groups, g, s, id) <==> id in c.conns && c.conns[id] == Register(s, g)
    ensures forall g :: g in c.groups ==> exists s :: s in c.groups[g]
    ensures forall id: ConnId :: id in c.conns ==> id < c.nextId
  {
    ReachableInv(c);
    forall g, s, id: ConnId | id in c.conns && c.conns[id] == Register(s, g) ensures Lists(c.groups, g, s, id) {
      assert Lists(c.groups, c.conns[id].group, c.conns[id].slug, id);
    }
  }

  /** Every lookup of a fan-out finds its record, in registrations and departures alike,
      and the peers written to are exactly the other live connections of the group. */
  lemma FanOutFindsEveryPeer(c: Core, env: Env)
    requires Inv(c) && Enabled(c, Handle(env))
    ensures match c.queue[0]
            case Registered(r) =>
              Found(env.peerIds, c.conns) == (set id | id in env.peerIds) ==
              set id | id in c.conns && c.conns[id].group == r.group
            case Departed(x) =>
              x in c.conns ==>
                Found(env.peerIds, c.conns - {x}) == (set id | id in env.peerIds) ==
                set id | id in c.conns && id != x && c.conns[id].group == c.conns[x].group
  {
    match c.queue[0]
    case Registered(r) => IdsAreLive(c.groups, c.conns, r.group);
    case Departed(x) =>
      if x in c.conns {
        UnindexInverse(c.groups, c.conns, x);
        IdsAreLive(Unindex(c.groups, c.conns[x]), c.conns - {x}, c.conns[x].group);
      }
  }

  /** Whenever no departure is queued, every live connection is still watched, no write to it
      has failed, and its stream spells out exactly its current peers. */
  lemma QuietStatesAreComplete(c: Core)
    requires Reachable(c)
    requires forall id: ConnId :: Departed(id) !in c.queue
    ensures c.conns.Keys == c.watching
    ensures forall id: ConnId :: id in c.conns ==>
              && id in c.wires && !c.wires[id].failed && c.wires[id].late == []
              && Deliver({}, c.wires[id].sent) == Others(c, c.conns[id])
  {
    ReachableInv(c);
    forall id: ConnId | id in c.conns
      ensures id in c.watching && id in c.wires && !c.wires[id].failed && c.wires[id].late == []
      ensures Deliver({}, c.wires[id].sent) == Others(c, c.conns[id])
    {
      assert Departed(id) !in c.queue && StreamOk(c, id);
    }
  }

  // ---- Alternation, read off the frames alone ----

  predicate Mentions(e: Entry, s: Slug) {
    e.message.Notify? && e.message.notification.slug == s
  }

  lemma {:induction false} UnmentionedStays(frames: seq<Entry>, i: nat, j: nat, s: Slug)
    requires 1 <= i <= j <= |frames|
    requires forall k :: i <= k < j ==> frames[k].message.Notify? && !Mentions(frames[k], s)
    ensures s in Deliver({}, frames[..j]) <==> s in Deliver({}, frames[..i])
    decreases j
  {
    if i < j {
      UnmentionedStays(frames, i, j - 1, s);
      assert frames[..j][..j - 1] == frames[..j - 1];
    }
  }

  /** Joins and leaves of one slug strictly alternate, the first of them decided by the Ack,
      in every reachable stream up to its first failed write. */
  lemma NotificationsAlternate(c: Core, id: ConnId, s: Slug, i: nat, j: nat)
    requires Reachable(c) && id in c.wires
    requires i < j < |c.wires[id].sent|
    requires i == 0 || Mentions(c.wires[id].sent[i], s)
    requires Mentions(c.wires[id].sent[j], s)
    requires forall k :: i < k < j ==> !Mentions(c.wires[id].sent[k], s)
    ensures s != c.wires[id].owner.slug
    ensures c.wires[id].sent[0].message.Response? && c.wires[id].sent[0].message.response.Ack?
    ensures c.wires[id].sent[j].message.notification.PeerJoined? <==>
            if i == 0 then s !in c.wires[id].sent[0].message.response.peers
            else c.wires[id].sent[i].message.notification.PeerLeft?
  {
    ReachableInv(c);
    assert StreamOk(c, id);
    var frames := c.wires[id].sent;
    assert FollowsAt(c.wires[id].owner.slug, frames, j);
    forall k | i + 1 <= k < j ensures frames[k].message.Notify? {
      assert FollowsAt(c.wires[id].owner.slug, frames, k);
    }
    UnmentionedStays(frames, i + 1, j, s);
    assert frames[..i + 1] == frames[..i] + [frames[i]];
    DeliverSnoc({}, frames[..i], frames[i]);
    if i > 0 {
      assert FollowsAt(c.wires[id].owner.slug, frames, i);
    }
  }

  // ---- What handling an event does, in all cases ----

  /** The queue afterwards: what was behind the head, then a Departed for every failed write, in the order written. */
  ghost predicate QueueIs(c: Core, d: Core, peerIds: seq<ConnId>, conns: map<ConnId, Register>, fails: set<ConnId>)
    requires c.queue != []
  {
    exists failed: seq<ConnId> ::
      && d.queue == c.queue[1..] + seq(|failed|, k requires 0 <= k < |failed| => Departed(failed[k]))
      && FailedInOrder(failed, peerIds, conns, fails)
  }

  /** `failed` lists the peers found whose write failed, in the order of peerIds. */
  ghost predicate FailedInOrder(failed: seq<ConnId>, peerIds: seq<ConnId>, conns: map<ConnId, Register>,
      fails: set<ConnId>) {
    && (forall id: ConnId :: id in failed <==> id in peerIds && id in conns && id in fails)
    && (exists at: seq<nat> ::
          && |at| == |failed|
          && (forall k :: 0 <= k < |at| ==> at[k] < |peerIds| && peerIds[at[k]] == failed[k])
          && (forall j, k :: 0 <= j < k < |at| ==> at[j] < at[k]))
  }

  lemma {:induction false} FailuresInOrder(peerIds: seq<ConnId>, conns: map<ConnId, Register>, fails: set<ConnId>)
    returns (failed: seq<ConnId>, at: seq<nat>)
    ensures Failures(peerIds, conns, fails) == seq(|failed|, k requires 0 <= k < |failed| => Departed(failed[k]))
    ensures forall id: ConnId :: id in failed <==> id in peerIds && id in conns && id in fails
    ensures |at| == |failed| && (forall k :: 0 <= k < |at| ==> at[k] < |peerIds| && peerIds[at[k]] == failed[k])
    ensures forall j, k :: 0 <= j < k < |at| ==> at[j] < at[k]
  {
    if peerIds == [] {
      failed, at := [], [];
    } else {
      var n := |peerIds| - 1;
      failed, at := FailuresInOrder(peerIds[..n], conns, fails);
      assert forall id: ConnId :: id in peerIds <==> id in peerIds[..n] || id == peerIds[n];
      if peerIds[n] in conns && peerIds[n] in fails {
        failed, at := failed + [peerIds[n]], at + [n];
      }
    }
  }

  /** The stream has been offered the frame: it carries it unless the write failed, which it then remembers. */
  ghost predicate Takes(w: Wire, v: Wire, e: Entry, ok: bool) {
    && v.owner == w.owner
    && v.sent + v.late == w.sent + w.late + (if ok then [e] else [])
    && (v.failed <==> w.failed || !ok)
    && v.sent == w.sent + (if ok && !w.failed then [e] else [])
  }

  lemma WriteTakes(w: Wire, e: Entry, ok: bool)
    requires !w.failed ==> w.late == []
    ensures Takes(w, Write(w, e, ok), e, ok)
  {
  }

  /** The other live connections of the group are offered the frame, no other stream changes. */
  ghost predicate OthersTold(c: Core, d: Core, g: Group, e: Entry, fails: set<ConnId>) {
    forall id: ConnId :: id in c.wires ==>
      && id in d.wires
      && (if id in c.conns && id != e.about && c.conns[id].group == g
          then Takes(c.wires[id], d.wires[id], e, id !in fails) else d.wires[id] == c.wires[id])
  }

  /** The registration may be granted. */
  predicate Grantable(c: Core, r: Register, env: Env) {
    r.slug !in Members(c.groups, r.group) && env.mkdirError == None
  }

  /** What is replied: an Ack with the slugs of the others exactly if the slug is free in its group and its
      directory could be made, and otherwise a Nack that says why. */
  lemma ReplyCases(c: Core, env: Env, r: Register)
    requires c.queue != [] && c.queue[0] == Registered(r) && Enabled(c, Handle(env))
    ensures Reply(c, r, env).Ack? <==> Grantable(c, r, env)
    ensures Grantable(c, r, env) ==> Enumerates(Reply(c, r, env).peers, Members(c.groups, r.group).Keys)
    ensures r.slug in Members(c.groups, r.group) ==>
              Reply(c, r, env) == Nack("slug '" + r.slug + "' already registered in group '" + r.group + "'")
    ensures r.slug !in Members(c.groups, r.group) && env.mkdirError.Some? ==>
              Reply(c, r, env) == Nack("failed to create slug directory: " + env.mkdirError.value)
  {
  }

  ghost predicate Admitted(c: Core, d: Core, r: Register, env: Env) {
    var id := c.nextId;
    && d.nextId == id + 1 && d.conns == c.conns[id := r] && d.watching == c.watching + {id}
    && d.dirs == c.dirs + {r.slug}
    && (forall g :: Members(d.groups, g) == if g == r.group then Members(c.groups, g)[r.slug := id]
        else Members(c.groups, g))
    && d.groups.Keys == c.groups.Keys + {r.group}
    && d.wires.Keys == c.wires.Keys + {id}
    && d.wires[id] == Wire(r, [Entry(Response(Ack(env.peers)), id)], false, [])
    && OthersTold(c, d, r.group, Entry(Notify(PeerJoined(r.slug)), id), env.fails)
  }

  ghost predicate NobodyAdmitted(c: Core, d: Core)
    requires c.queue != []
  {
    && d.nextId == c.nextId && d.conns == c.conns && d.groups == c.groups && d.wires == c.wires
    && d.watching == c.watching && d.queue == c.queue[1..]
  }

  /** A registration takes effect exactly if its slug is free, its directory could be made and its Ack was written:
      then it gets the next id, its record, its place in the index, its watcher, its directory and a stream that
      starts with the Ack, and all others of its group are told. Otherwise nothing changes but the directory. */
  lemma RegistrationTakesEffectIff(c: Core, env: Env, r: Register)
    requires Inv(c) && Enabled(c, Handle(env)) && c.queue[0] == Registered(r)
    ensures var d := HandleHead(c, env);
            && (c.nextId in d.conns <==> Grantable(c, r, env) && env.ackOk)
            && (Grantable(c, r, env) && env.ackOk ==>
                Admitted(c, d, r, env) && QueueIs(c, d, env.peerIds, c.conns, env.fails))
            && (!(Grantable(c, r, env) && env.ackOk) ==> NobodyAdmitted(c, d))
            && (!Grantable(c, r, env) ==> d.dirs == c.dirs)
            && (Grantable(c, r, env) && !env.ackOk ==>
                d.dirs == if env.rmdirOk then c.dirs - {r.slug} else c.dirs + {r.slug})
  {
    if Grantable(c, r, env) && env.ackOk {
      AdmissionIsComplete(c, Pop(c), env, r);
      AdmissionQueues(c, env, r);
    }
  }

  lemma AdmissionQueues(c: Core, env: Env, r: Register)
    requires c.queue != [] && c.queue[0] == Registered(r) && Grantable(c, r, env) && env.ackOk
    ensures QueueIs(c, HandleHead(c, env), env.peerIds, c.conns, env.fails)
  {
    var failed, at := FailuresInOrder(env.peerIds, c.conns, env.fails);
    assert FailedInOrder(failed, env.peerIds, c.conns, env.fails);
  }

  lemma AdmissionIsTold(c: Core, env: Env, r: Register, d: Core)
    requires Indexed(c) && Numbered(c) && Streams(c) && d == Registration(c, r, env) && d.nextId != c.nextId
    requires Enumerates(env.peerIds, Ids(c.groups, r.group))
    ensures OthersTold(c, d, r.group, Entry(Notify(PeerJoined(r.slug)), c.nextId), env.fails)
  {
    var e := Entry(Notify(PeerJoined(r.slug)), c.nextId);
    forall id: ConnId | id in c.wires
      ensures id in d.wires
      ensures if id in c.conns && c.conns[id].group == r.group
              then Takes(c.wires[id], d.wires[id], e, id !in env.fails) else d.wires[id] == c.wires[id]
    {
      AdmissionWrites(c, r, env, id);
      assert StreamOk(c, id);
      WriteTakes(c.wires[id], e, id !in env.fails);
    }
  }

  lemma AdmissionRecords(c: Core, r: Register, env: Env)
    requires Numbered(c) && Grantable(c, r, env) && env.ackOk
    ensures var d := Registration(c, r, env);
            var id := c.nextId;
            && d.nextId == id + 1 && d.conns == c.conns[id := r] && d.watching == c.watching + {id}
            && d.dirs == c.dirs + {r.slug}
            && d.wires.Keys == c.wires.Keys + {id}
            && d.wires[id] == Wire(r, [Entry(Response(Ack(env.peers)), id)], false, [])
  {
  }

  lemma AdmissionIndexes(c: Core, r: Register, env: Env, g: Group)
    requires Grantable(c, r, env) && env.ackOk
    ensures var d := Registration(c, r, env);
            && Members(d.groups, g) ==
                (if g == r.group then Members(c.groups, g)[r.slug := c.nextId] else Members(c.groups, g))
            && d.groups.Keys == c.groups.Keys + {r.group}
  {
  }

  lemma AdmissionIsComplete(c: Core, p: Core, env: Env, r: Register)
    requires Indexed(c) && Numbered(c) && Streams(c) && c.queue != [] && p == Pop(c)
    requires Enumerates(env.peerIds, Ids(c.groups, r.group)) && Grantable(c, r, env) && env.ackOk
    ensures Admitted(c, Registration(p, r, env), r, env)
  {
    var d := Registration(p, r, env);
    SameStreams(c, p);
    AdmissionRecords(p, r, env);
    AdmissionIsTold(p, env, r, d);
    ToldAlike(p, c, d, r.group, Entry(Notify(PeerJoined(r.slug)), c.nextId), env.fails);
    forall g
      ensures Members(d.groups, g) == if g == r.group then Members(c.groups, g)[r.slug := c.nextId]
          else Members(c.groups, g)
    {
      AdmissionIndexes(p, r, env, g);
    }
    AdmissionIndexes(p, r, env, r.group);
  }

  lemma ToldAlike(p: Core, c: Core, d: Core, g: Group, e: Entry, fails: set<ConnId>)
    requires OthersTold(p, d, g, e, fails) && c.conns == p.conns && c.wires == p.wires
    ensures OthersTold(c, d, g, e, fails)
  {
  }

  ghost predicate HasLeft(c: Core, d: Core, x: ConnId, env: Env)
    requires x in c.conns
  {
    var r := c.conns[x];
    && d.nextId == c.nextId && d.conns == c.conns - {x} && d.watching == c.watching - {x}
    && d.dirs == (if env.rmdirOk then c.dirs - {r.slug} else c.dirs)
    && (forall g :: Members(d.groups, g) == if g == r.group then Members(c.groups, g) - {r.slug}
        else Members(c.groups, g))
    && (r.group in d.groups <==> exists s :: s in Members(c.groups, r.group) && s != r.slug)
    && d.wires.Keys == c.wires.Keys
    && OthersTold(c, d, r.group, Entry(Notify(PeerLeft(r.slug)), x), env.fails)
  }

  /** A departure takes effect exactly if the connection is still live: then its record, watcher, index entry and
      directory go, and all others of its group are told. Otherwise it is only taken off the queue. */
  lemma DepartureTakesEffectIff(c: Core, env: Env, x: ConnId)
    requires Inv(c) && Enabled(c, Handle(env)) && c.queue[0] == Departed(x)
    ensures var d := HandleHead(c, env);
            && (x in c.conns ==> HasLeft(c, d, x, env) && QueueIs(c, d, env.peerIds, c.conns - {x}, env.fails))
            && (x !in c.conns ==> d == c.(queue := c.queue[1..]))
  {
    if x in c.conns {
      LeavingIsComplete(c, Pop(c), env, x);
      var failed, at := FailuresInOrder(env.peerIds, c.conns - {x}, env.fails);
      assert FailedInOrder(failed, env.peerIds, c.conns - {x}, env.fails);
    }
  }

  lemma LeavingIsComplete(c: Core, p: Core, env: Env, x: ConnId)
    requires Indexed(c) && Numbered(c) && Streams(c) && c.queue != [] && p == Pop(c) && x in c.conns
    requires Enumerates(env.peerIds, Ids(Unindex(c.groups, c.conns[x]), c.conns[x].group))
    ensures HasLeft(c, Departure(p, x, env), x, env)
  {
    var r := c.conns[x];
    var d := Departure(p, x, env);
    UnindexInverse(c.groups, c.conns, x);
    forall id: ConnId | id in c.wires
      ensures id in d.wires
      ensures if id in c.conns && id != x && c.conns[id].group == r.group
              then Takes(c.wires[id], d.wires[id], Entry(Notify(PeerLeft(r.slug)), x), id !in env.fails)
              else d.wires[id] == c.wires[id]
    {
      DepartureWrites(p, x, env, id);
      assert StreamOk(c, id);
      WriteTakes(c.wires[id], Entry(Notify(PeerLeft(r.slug)), x), id !in env.fails);
    }
    LeavesIndex(c, d, x);
  }

  lemma LeavesIndex(c: Core, d: Core, x: ConnId)
    requires Indexed(c) && x in c.conns && d.groups == Unindex(c.groups, c.conns[x])
    ensures var r := c.conns[x];
            && (forall g :: Members(d.groups, g) == if g == r.group then Members(c.groups, g) - {r.slug}
                else Members(c.groups, g))
            && (r.group in d.groups <==> exists s :: s in Members(c.groups, r.group) && s != r.slug)
  {
    var r := c.conns[x];
    assert Lists(c.groups, r.group, r.slug, x);
    var m := Members(c.groups, r.group) - {r.slug};
    if s :| s in Members(c.groups, r.group) && s != r.slug {
      assert s in m;
    }
    if m != map[] {
      var s :| s in m;
      assert s in Members(c.groups, r.group) && s != r.slug;
    }
  }

  /** Arrivals and ended watchers only add their event behind all others. */
  lemma OtherStepsQueueUp(c: Core, step: Step)
    requires Enabled(c, step) && !step.Handle?
    ensures var d := Next(c, step);
            && d.queue == c.queue + [match step case Arrive(r) => Registered(r) case WatchEnds(id) => Departed(id)]
            && d.watching == (if step.WatchEnds? then c.watching - {step.id} else c.watching)
            && d == c.(queue := d.queue, watching := d.watching)
  {
  }
}
