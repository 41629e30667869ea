/** Groups do not interfere: the run of one group is the whole run with every other
    group's events deleted and the group's connections numbered in order of registration. */
module Isolation {
  import opened Protocol
  import opened Supervisor
  import opened Membership

  type Renaming = map<ConnId, ConnId>

  // ---- The projection of a run to one group ----

  function RenameAll(ids: seq<ConnId>, ren: Renaming): (out: seq<ConnId>)
    ensures |out| == |ids|
    ensures forall i :: 0 <= i < |ids| ==> out[i] == if ids[i] in ren then ren[ids[i]] else 0
  {
    seq(|ids|, i requires 0 <= i < |ids| => if ids[i] in ren then ren[ids[i]] else 0)
  }

  function RenameEnv(env: Env, ren: Renaming): Env {
    env.(peerIds := RenameAll(env.peerIds, ren), fails := set id | id in env.fails && id in ren :: ren[id])
  }

  /** Whether an event concerns group g; `ren` knows the ids ever given out in g. */
  predicate Concerns(e: Event, g: Group, ren: Renaming) {
    match e
    case Registered(r) => r.group == g
    case Departed(id) => id in ren
  }

  function RenameEvent(e: Event, ren: Renaming): Event {
    match e
    case Registered(_) => e
    case Departed(id) => if id in ren then Departed(ren[id]) else e
  }

  function Sift(queue: seq<Event>, g: Group, ren: Renaming): seq<Event> {
    if queue == [] then []
    else
      var n := |queue| - 1;
      Sift(queue[..n], g, ren) + if Concerns(queue[n], g, ren) then [RenameEvent(queue[n], ren)] else []
  }

  /** What is left of one step: itself, renamed, or nothing. */
  function ProjectStep(c: Core, step: Step, g: Group, ren: Renaming): seq<Step> {
    match step
    case Arrive(r) => if r.group == g then [step] else []
    case Handle(env) => if c.queue != [] && Concerns(c.queue[0], g, ren) then [Handle(RenameEnv(env, ren))] else []
    case WatchEnds(id) => if id in ren then [WatchEnds(ren[id])] else []
  }

  /** A new connection of group g gets the next number within the group. */
  function Renumber(c: Core, step: Step, g: Group, ren: Renaming): Renaming
    requires step.Handle? ==> c.queue != []
  {
    if step.Handle? && c.queue[0].Registered? && c.queue[0].register.group == g && Next(c, step).nextId != c.nextId
    then ren[c.nextId := |ren|]
    else ren
  }

  ghost function Project(c: Core, steps: seq<Step>, g: Group, ren: Renaming): seq<Step>
    requires Valid(c, steps)
    decreases |steps|
  {
    if steps == [] then []
    else ProjectStep(c, steps[0], g, ren)
         + Project(Next(c, steps[0]), steps[1..], g, Renumber(c, steps[0], g, ren))
  }

  ghost function Numbering(c: Core, steps: seq<Step>, g: Group, ren: Renaming): Renaming
    requires Valid(c, steps)
    decreases |steps|
  {
    if steps == [] then ren
    else Numbering(Next(c, steps[0]), steps[1..], g, Renumber(c, steps[0], g, ren))
  }

  // ---- When a state is the projection of another ----

  function Messages(frames: seq<Entry>): (out: seq<SupervisorMessage>)
    ensures |out| == |frames|
    ensures forall i :: 0 <= i < |frames| ==> out[i] == frames[i].message
  {
    seq(|frames|, i requires 0 <= i < |frames| => frames[i].message)
  }

  predicate SameWire(w: Wire, v: Wire) {
    && w.owner == v.owner
    && w.failed == v.failed
    && Messages(w.sent) == Messages(v.sent)
    && Messages(w.late) == Messages(v.late)
  }

  ghost predicate Renames(ren: Renaming) {
    && (forall i: ConnId, j: ConnId :: i in ren && j in ren && ren[i] == ren[j] ==> i == j)
    && (forall i: ConnId :: i in ren ==> ren[i] < |ren|)
  }

  ghost predicate SameIndex(m: map<Slug, ConnId>, n: map<Slug, ConnId>, ren: Renaming) {
    && m.Keys == n.Keys
    && (forall s :: s in m ==> m[s] in ren && ren[m[s]] == n[s])
  }

  /** Connection i of c and connection j of d look alike. */
  ghost predicate SameConn(c: Core, i: ConnId, d: Core, j: ConnId) {
    && i in c.wires && j in d.wires && SameWire(c.wires[i], d.wires[j])
    && (i in c.conns <==> j in d.conns)
    && (i in c.conns ==> c.conns[i] == d.conns[j])
    && (i in c.watching <==> j in d.watching)
  }

  ghost predicate AllSame(c: Core, d: Core, ren: Renaming) {
    forall id: ConnId :: id in ren ==> SameConn(c, id, d, ren[id])
  }

  /** `ren` knows exactly the ids ever given out in group g. */
  ghost predicate Knows(c: Core, g: Group, ren: Renaming) {
    forall id: ConnId :: id in ren <==> id in c.wires && c.wires[id].owner.group == g
  }

  /** d shows group g exactly as c does, with c's ids renamed, and nothing else. */
  ghost predicate Shows(c: Core, d: Core, g: Group, ren: Renaming) {
    && Renames(ren)
    && d.nextId == |ren|
    && Knows(c, g, ren)
    && SameIndex(Members(c.groups, g), Members(d.groups, g), ren)
    && d.groups.Keys == (if g in c.groups then {g} else {})
    && AllSame(c, d, ren)
    && d.queue == Sift(c.queue, g, ren)
  }

  // ---- Sifting a queue ----

  lemma {:induction false} SiftAppend(q: seq<Event>, r: seq<Event>, g: Group, ren: Renaming)
    ensures Sift(q + r, g, ren) == Sift(q, g, ren) + Sift(r, g, ren)
    decreases |r|
  {
    if r == [] {
      assert q + r == q;
    } else {
      var n := |r| - 1;
      SiftAppend(q, r[..n], g, ren);
      assert (q + r)[..|q + r| - 1] == q + r[..n];
    }
  }

  lemma SiftOne(e: Event, g: Group, ren: Renaming)
    ensures Sift([e], g, ren) == if Concerns(e, g, ren) then [RenameEvent(e, ren)] else []
  {
  }

  lemma SiftHead(q: seq<Event>, g: Group, ren: Renaming)
    requires q != []
    ensures Sift(q, g, ren) == (if Concerns(q[0], g, ren) then [RenameEvent(q[0], ren)] else []) + Sift(q[1..], g, ren)
  {
    assert q == [q[0]] + q[1..];
    SiftAppend([q[0]], q[1..], g, ren);
    SiftOne(q[0], g, ren);
  }

  /** Numbering a connection that no queued event mentions leaves the sifted queue as it is. */
  lemma {:induction false} SiftExtend(q: seq<Event>, g: Group, ren: Renaming, id: ConnId, n: ConnId)
    requires Departed(id) !in q && id !in ren
    ensures Sift(q, g, ren[id := n]) == Sift(q, g, ren)
    decreases |q|
  {
    if q != [] {
      SiftExtend(q[..|q| - 1], g, ren, id, n);
    }
  }

  lemma {:induction false} SiftNone(q: seq<Event>, g: Group, ren: Renaming)
    requires forall e :: e in q ==> !Concerns(e, g, ren)
    ensures Sift(q, g, ren) == []
    decreases |q|
  {
    if q != [] {
      SiftNone(q[..|q| - 1], g, ren);
    }
  }

  /** The failures of the renamed fan-out are the renamed failures. */
  lemma {:induction false} FailuresShow(ids: seq<ConnId>, conns: map<ConnId, Register>, fails: set<ConnId>,
      conns': map<ConnId, Register>, fails': set<ConnId>, g: Group, ren: Renaming)
    requires forall id :: id in ids ==>
        id in ren && (id in conns <==> ren[id] in conns') && (id in fails <==> ren[id] in fails')
    ensures Failures(RenameAll(ids, ren), conns', fails') == Sift(Failures(ids, conns, fails), g, ren)
    decreases |ids|
  {
    if ids != [] {
      var n := |ids| - 1;
      FailuresShow(ids[..n], conns, fails, conns', fails', g, ren);
      assert RenameAll(ids, ren)[..n] == RenameAll(ids[..n], ren);
      var tail := if ids[n] in conns && ids[n] in fails then [Departed(ids[n])] else [];
      SiftAppend(Failures(ids[..n], conns, fails), tail, g, ren);
      if tail != [] {
        SiftOne(tail[0], g, ren);
      }
    }
  }

  // ---- Steps of other groups are invisible ----

  /** The step leaves connection id as it was. */
  ghost predicate Leaves(c: Core, c': Core, id: ConnId) {
    && id in c.wires && id in c'.wires && c'.wires[id] == c.wires[id]
    && (id in c'.conns <==> id in c.conns) && (id in c.conns ==> c'.conns[id] == c.conns[id])
    && (id in c'.watching <==> id in c.watching)
  }

  lemma ExpelLeaves(c: Core, x: ConnId, env: Env, id: ConnId)
    requires x in c.conns && id in c.wires && id != x && id !in env.peerIds
    ensures Leaves(c, Expel(c, x, env), id)
  {
  }

  lemma Invisible(c: Core, c': Core, d: Core, g: Group, ren: Renaming)
    requires Shows(c, d, g, ren) && Knows(c', g, ren)
    requires Members(c'.groups, g) == Members(c.groups, g) && (g in c'.groups <==> g in c.groups)
    requires forall id: ConnId :: id in ren ==> Leaves(c, c', id)
    requires Sift(c'.queue, g, ren) == Sift(c.queue, g, ren)
    ensures Shows(c', d, g, ren)
  {
  }

  lemma FailuresInvisible(queue: seq<Event>, ids: seq<ConnId>, conns: map<ConnId, Register>, fails: set<ConnId>,
      g: Group, ren: Renaming)
    requires forall id: ConnId :: id in ids ==> id !in ren
    ensures Sift(queue + Failures(ids, conns, fails), g, ren) == Sift(queue, g, ren)
  {
    var failed := Failures(ids, conns, fails);
    FailuresContent(ids, conns, fails);
    forall e | e in failed ensures !Concerns(e, g, ren) {
      assert Departed(e.id) in failed;
    }
    SiftNone(failed, g, ren);
    SiftAppend(queue, failed, g, ren);
  }

  lemma AdmitKnows(c: Core, r: Register, env: Env, g: Group, ren: Renaming)
    requires Numbered(c) && Knows(c, g, ren)
    ensures Knows(Admit(c, r, env), g, if r.group == g then ren[c.nextId := |ren|] else ren)
  {
  }

  lemma ExpelKnows(c: Core, x: ConnId, env: Env, g: Group, ren: Renaming)
    requires x in c.conns && Knows(c, g, ren)
    ensures Knows(Expel(c, x, env), g, ren)
  {
  }

  /** The connections of another group are unknown to the renaming. */
  lemma OthersUnknown(c: Core, g: Group, ren: Renaming, h: Group, ids: seq<ConnId>)
    requires Indexed(c) && Numbered(c) && Knows(c, g, ren) && h != g
    requires Enumerates(ids, Ids(c.groups, h))
    ensures forall id: ConnId :: id in ids ==> id !in ren
  {
    IdsAreLive(c.groups, c.conns, h);
  }

  lemma AdmitLeavesAll(c: Core, r: Register, env: Env, ren: Renaming)
    requires Numbered(c) && forall id: ConnId :: id in ren ==> id in c.wires && id !in env.peerIds
    ensures forall id: ConnId :: id in ren ==> Leaves(c, Admit(c, r, env), id)
  {
  }

  /** An admission to another group leaves this group's index as it is and queues only departures. */
  lemma AdmitHides(c: Core, c': Core, r: Register, env: Env, g: Group)
    requires c' == Admit(c, r, env) && r.group != g
    ensures Members(c'.groups, g) == Members(c.groups, g) && (g in c'.groups <==> g in c.groups)
    ensures c'.queue == c.queue + Failures(env.peerIds, c.conns, env.fails)
  {
  }

  lemma OtherAdmissionInvisible(c: Core, d: Core, r: Register, env: Env, g: Group, ren: Renaming)
    requires Numbered(c) && Shows(c, d, g, ren) && r.group != g
    requires forall id: ConnId :: id in env.peerIds ==> id !in ren
    ensures Shows(Admit(c, r, env), d, g, ren)
  {
    FailuresInvisible(c.queue, env.peerIds, c.conns, env.fails, g, ren);
    AdmitKnows(c, r, env, g, ren);
    AdmitLeavesAll(c, r, env, ren);
    AdmitHides(c, Admit(c, r, env), r, env, g);
    Invisible(c, Admit(c, r, env), d, g, ren);
  }

  lemma OtherExpulsionInvisible(c: Core, d: Core, x: ConnId, env: Env, g: Group, ren: Renaming)
    requires Indexed(c) && Numbered(c) && Shows(c, d, g, ren) && x in c.conns && x !in ren
    requires Enumerates(env.peerIds, Ids(Unindex(c.groups, c.conns[x]), c.conns[x].group))
    ensures Shows(Expel(c, x, env), d, g, ren)
  {
    var r := c.conns[x];
    UnindexInverse(c.groups, c.conns, x);
    IdsAreLive(Unindex(c.groups, r), c.conns - {x}, r.group);
    UnindexMembers(c.groups, r, g);
    FailuresInvisible(c.queue, env.peerIds, c.conns - {x}, env.fails, g, ren);
    ExpelKnows(c, x, env, g, ren);
    forall id: ConnId | id in ren ensures Leaves(c, Expel(c, x, env), id) {
      ExpelLeaves(c, x, env, id);
    }
    Invisible(c, Expel(c, x, env), d, g, ren);
  }

  // ---- Steps of the group itself ----

  lemma EnumerationShows(ids: seq<ConnId>, m: map<Slug, ConnId>, n: map<Slug, ConnId>, ren: Renaming)
    requires Renames(ren) && SameIndex(m, n, ren)
    requires Enumerates(ids, set s | s in m :: m[s])
    ensures Enumerates(RenameAll(ids, ren), set s | s in n :: n[s])
  {
    var out := RenameAll(ids, ren);
    forall j | j in out ensures j in set s | s in n :: n[s] {
      var k :| 0 <= k < |out| && out[k] == j;
      assert ids[k] in ids;
      var s :| s in m && m[s] == ids[k];
      assert n[s] == j;
    }
    forall j | j in set s | s in n :: n[s] ensures j in out {
      var s :| s in n && n[s] == j;
      assert m[s] in (set t | t in m :: m[t]);
      assert m[s] in ids;
      var k :| 0 <= k < |ids| && ids[k] == m[s];
      assert out[k] == j;
    }
    forall i, k | 0 <= i < k < |out| ensures out[i] != out[k] {
      assert ids[i] in ids && ids[k] in ids;
    }
  }

  lemma RenamedMembership(ids: seq<ConnId>, ren: Renaming, id: ConnId)
    requires Renames(ren) && id in ren && forall i: ConnId :: i in ids ==> i in ren
    ensures id in ids <==> ren[id] in RenameAll(ids, ren)
  {
  }

  lemma RenamedFails(env: Env, ren: Renaming, id: ConnId)
    requires Renames(ren) && id in ren
    ensures id in env.fails <==> ren[id] in RenameEnv(env, ren).fails
  {
  }

  /** A fan-out to corresponding connections keeps their streams alike. */
  lemma FanOutSame(c: Core, d: Core, ren: Renaming, id: ConnId, to: set<ConnId>, to': set<ConnId>,
      e: Entry, f: Entry, fails: set<ConnId>, fails': set<ConnId>)
    requires id in ren && SameConn(c, id, d, ren[id]) && e.message == f.message
    requires id in to <==> ren[id] in to'
    requires id in fails <==> ren[id] in fails'
    ensures SameWire(FanOut(c.wires, to, e, fails)[id], FanOut(d.wires, to', f, fails')[ren[id]])
  {
  }

  lemma AdmitSameConn(c: Core, d: Core, r: Register, env: Env, ren: Renaming, id: ConnId)
    requires Renames(ren) && id in ren && SameConn(c, id, d, ren[id])
    requires id != c.nextId && ren[id] != d.nextId
    requires forall i: ConnId :: i in env.peerIds ==> i in ren
    ensures SameConn(Admit(c, r, env), id, Admit(d, r, RenameEnv(env, ren)), ren[id])
  {
    var env' := RenameEnv(env, ren);
    var message := Notify(PeerJoined(r.slug));
    RenamedMembership(env.peerIds, ren, id);
    RenamedFails(env, ren, id);
    FanOutSame(c, d, ren, id, Found(env.peerIds, c.conns), Found(env'.peerIds, d.conns),
               Entry(message, c.nextId), Entry(message, d.nextId), env.fails, env'.fails);
  }

  lemma NewcomersSame(c: Core, d: Core, r: Register, env: Env, ren: Renaming)
    ensures SameConn(Admit(c, r, env), c.nextId, Admit(d, r, RenameEnv(env, ren)), d.nextId)
  {
  }

  lemma ExpelSameConn(c: Core, d: Core, x: ConnId, env: Env, ren: Renaming, id: ConnId)
    requires Renames(ren) && id in ren && SameConn(c, id, d, ren[id])
    requires x in ren && SameConn(c, x, d, ren[x]) && x in c.conns
    requires forall i: ConnId :: i in env.peerIds ==> i in ren
    ensures SameConn(Expel(c, x, env), id, Expel(d, ren[x], RenameEnv(env, ren)), ren[id])
  {
    var env' := RenameEnv(env, ren);
    var message := Notify(PeerLeft(c.conns[x].slug));
    RenamedMembership(env.peerIds, ren, id);
    RenamedFails(env, ren, id);
    FanOutSame(c, d, ren, id, Found(env.peerIds, c.conns - {x}), Found(env'.peerIds, d.conns - {ren[x]}),
               Entry(message, x), Entry(message, ren[x]), env.fails, env'.fails);
  }

  lemma FailuresShowToo(c: Core, d: Core, ids: seq<ConnId>, conns: map<ConnId, Register>, conns': map<ConnId, Register>,
      env: Env, g: Group, ren: Renaming)
    requires Renames(ren) && d.queue == Sift(c.queue, g, ren)
    requires forall i: ConnId :: i in ids ==> i in ren && (i in conns <==> ren[i] in conns')
    ensures d.queue + Failures(RenameAll(ids, ren), conns', RenameEnv(env, ren).fails)
         == Sift(c.queue + Failures(ids, conns, env.fails), g, ren)
  {
    forall i | i in ids ensures i in env.fails <==> ren[i] in RenameEnv(env, ren).fails {
      RenamedFails(env, ren, i);
    }
    FailuresShow(ids, conns, env.fails, conns', RenameEnv(env, ren).fails, g, ren);
    SiftAppend(c.queue, Failures(ids, conns, env.fails), g, ren);
  }

  lemma RenamesExtend(ren: Renaming, id: ConnId)
    requires Renames(ren) && id !in ren
    ensures Renames(ren[id := |ren|]) && |ren[id := |ren|]| == |ren| + 1
  {
  }

  /** The members of group g are known to the renaming. */
  lemma MembersKnown(c: Core, g: Group, ren: Renaming, ids: seq<ConnId>)
    requires Indexed(c) && Numbered(c) && Knows(c, g, ren)
    requires Enumerates(ids, Ids(c.groups, g))
    ensures forall id: ConnId :: id in ids ==> id in ren
  {
    IdsAreLive(c.groups, c.conns, g);
  }

  lemma AdmitIndexSame(groups: Index, groups': Index, r: Register, ren: Renaming, id: ConnId, j: ConnId)
    requires SameIndex(Members(groups, r.group), Members(groups', r.group), ren) && id !in ren
    requires groups'.Keys == (if r.group in groups then {r.group} else {})
    ensures var gs := groups[r.group := Members(groups, r.group)[r.slug := id]];
            var gs' := groups'[r.group := Members(groups', r.group)[r.slug := j]];
            && SameIndex(Members(gs, r.group), Members(gs', r.group), ren[id := j])
            && gs'.Keys == {r.group}
  {
  }

  lemma ExpelIndexSame(groups: Index, groups': Index, r: Register, ren: Renaming)
    requires SameIndex(Members(groups, r.group), Members(groups', r.group), ren)
    requires groups'.Keys == (if r.group in groups then {r.group} else {})
    ensures SameIndex(Members(Unindex(groups, r), r.group), Members(Unindex(groups', r), r.group), ren)
    ensures Unindex(groups', r).Keys == (if r.group in Unindex(groups, r) then {r.group} else {})
  {
  }

  lemma AdmissionQueueShown(c: Core, c': Core, d: Core, d': Core, r: Register, env: Env, g: Group, ren: Renaming)
    requires Renames(ren) && d.queue == Sift(c.queue, g, ren) && c.nextId !in ren && AllSame(c, d, ren)
    requires forall id: ConnId :: id in env.peerIds ==> id in ren
    requires c' == Admit(c, r, env) && d' == Admit(d, r, RenameEnv(env, ren))
    requires Departed(c.nextId) !in c'.queue
    ensures d'.queue == Sift(c'.queue, g, ren[c.nextId := |ren|])
  {
    forall i: ConnId | i in env.peerIds ensures i in c.conns <==> ren[i] in d.conns {
      assert SameConn(c, i, d, ren[i]);
    }
    FailuresShowToo(c, d, env.peerIds, c.conns, d.conns, env, g, ren);
    SiftExtend(c'.queue, g, ren, c.nextId, |ren|);
  }

  lemma AdmissionConnsShown(c: Core, c': Core, d: Core, d': Core, r: Register, env: Env, ren: Renaming)
    requires Renames(ren) && c.nextId !in ren && d.nextId == |ren| && AllSame(c, d, ren)
    requires forall i: ConnId :: i in env.peerIds ==> i in ren
    requires c' == Admit(c, r, env) && d' == Admit(d, r, RenameEnv(env, ren))
    ensures AllSame(c', d', ren[c.nextId := |ren|])
  {
    var ren' := ren[c.nextId := |ren|];
    forall id: ConnId | id in ren' ensures SameConn(c', id, d', ren'[id]) {
      if id in ren {
        AdmitSameConn(c, d, r, env, ren, id);
      } else {
        NewcomersSame(c, d, r, env, ren);
      }
    }
  }

  lemma AdmissionIndexShown(c: Core, c': Core, d: Core, d': Core, r: Register, env: Env, ren: Renaming)
    requires Renames(ren) && c.nextId !in ren && d.nextId == |ren| && Numbered(c) && Knows(c, r.group, ren)
    requires c' == Admit(c, r, env) && d' == Admit(d, r, RenameEnv(env, ren))
    requires SameIndex(Members(c.groups, r.group), Members(d.groups, r.group), ren)
    requires d.groups.Keys == (if r.group in c.groups then {r.group} else {})
    ensures var ren' := ren[c.nextId := |ren|];
            && Renames(ren')
            && d'.nextId == |ren'|
            && Knows(c', r.group, ren')
            && SameIndex(Members(c'.groups, r.group), Members(d'.groups, r.group), ren')
            && d'.groups.Keys == (if r.group in c'.groups then {r.group} else {})
  {
    RenamesExtend(ren, c.nextId);
    AdmitKnows(c, r, env, r.group, ren);
    AdmitIndexSame(c.groups, d.groups, r, ren, c.nextId, |ren|);
  }

  lemma GroupAdmissionShown(c: Core, c': Core, d: Core, d': Core, r: Register, env: Env, g: Group, ren: Renaming)
    requires Numbered(c) && Shows(c, d, g, ren) && r.group == g && c.nextId !in ren
    requires forall id: ConnId :: id in env.peerIds ==> id in ren
    requires Departed(c.nextId) !in Admit(c, r, env).queue
    requires c' == Admit(c, r, env) && d' == Admit(d, r, RenameEnv(env, ren))
    ensures Shows(c', d', g, ren[c.nextId := |ren|])
  {
    AdmissionQueueShown(c, c', d, d', r, env, g, ren);
    AdmissionConnsShown(c, c', d, d', r, env, ren);
    AdmissionIndexShown(c, c', d, d', r, env, ren);
  }

  lemma GroupExpulsionShown(c: Core, d: Core, x: ConnId, env: Env, g: Group, ren: Renaming)
    requires Shows(c, d, g, ren) && x in c.conns && x in ren && c.conns[x].group == g
    requires forall id: ConnId :: id in env.peerIds ==> id in ren
    ensures ren[x] in d.conns
    ensures Shows(Expel(c, x, env), Expel(d, ren[x], RenameEnv(env, ren)), g, ren)
  {
    assert SameConn(c, x, d, ren[x]);
    var r := c.conns[x];
    var c', d' := Expel(c, x, env), Expel(d, ren[x], RenameEnv(env, ren));
    ExpelKnows(c, x, env, g, ren);
    ExpelIndexSame(c.groups, d.groups, r, ren);
    forall id: ConnId | id in ren ensures SameConn(c', id, d', ren[id]) {
      ExpelSameConn(c, d, x, env, ren, id);
    }
    forall i: ConnId | i in env.peerIds ensures i in c.conns - {x} <==> ren[i] in d.conns - {ren[x]} {
      assert SameConn(c, i, d, ren[i]);
    }
    FailuresShowToo(c, d, env.peerIds, c.conns - {x}, d.conns - {ren[x]}, env, g, ren);
  }

  // ---- One step, then whole runs ----

  /** The states before and after the head event has been taken off both queues. */
  lemma PoppedShown(c: Core, d: Core, g: Group, ren: Renaming)
    requires Shows(c, d, g, ren) && c.queue != []
    ensures Concerns(c.queue[0], g, ren) ==>
              d.queue != [] && d.queue[0] == RenameEvent(c.queue[0], ren) && Shows(Pop(c), Pop(d), g, ren)
    ensures !Concerns(c.queue[0], g, ren) ==> Shows(Pop(c), d, g, ren)
  {
    SiftHead(c.queue, g, ren);
    if Concerns(c.queue[0], g, ren) {
      QueuesShown(c, Pop(c), d, Pop(d), g, ren);
    } else {
      QueuesShown(c, Pop(c), d, d, g, ren);
    }
  }

  /** Only the queues differ. */
  lemma QueuesShown(c: Core, c': Core, d: Core, d': Core, g: Group, ren: Renaming)
    requires Shows(c, d, g, ren) && c' == c.(queue := c'.queue) && d' == d.(queue := d'.queue)
    requires d'.queue == Sift(c'.queue, g, ren)
    ensures Shows(c', d', g, ren)
  {
    forall id: ConnId | id in ren ensures SameConn(c', id, d', ren[id]) {
      assert SameConn(c, id, d, ren[id]);
    }
  }

  lemma RegistrationEnabled(c: Core, d: Core, env: Env, g: Group, ren: Renaming)
    requires Shows(c, d, g, ren) && Enabled(c, Handle(env))
    requires c.queue[0].Registered? && c.queue[0].register.group == g && d.queue != [] && d.queue[0] == c.queue[0]
    ensures Enabled(d, Handle(RenameEnv(env, ren)))
  {
    EnumerationShows(env.peerIds, Members(c.groups, g), Members(d.groups, g), ren);
  }

  lemma RegistrationShown(c: Core, d: Core, r: Register, env: Env, g: Group, ren: Renaming)
    requires Indexed(c) && Numbered(c) && Shows(c, d, g, ren) && r.group == g
    requires Enumerates(env.peerIds, Ids(c.groups, g))
    requires Departed(c.nextId) !in Admit(c, r, env).queue
    ensures Shows(Registration(c, r, env), Registration(d, r, RenameEnv(env, ren)), g,
                  if Registration(c, r, env).nextId != c.nextId then ren[c.nextId := |ren|] else ren)
  {
    if Registration(c, r, env).nextId != c.nextId {
      MembersKnown(c, g, ren, env.peerIds);
      GroupAdmissionShown(c, Registration(c, r, env), d, Registration(d, r, RenameEnv(env, ren)), r, env, g, ren);
    } else {
      DirsDoNotShow(c, Registration(c, r, env), d, Registration(d, r, RenameEnv(env, ren)), g, ren);
    }
  }

  lemma NoNewDeparture(c: Core, env: Env)
    requires Inv(c) && Enabled(c, Handle(env)) && c.queue[0].Registered?
    ensures Departed(c.nextId) !in Admit(Pop(c), c.queue[0].register, env).queue
  {
    FailuresContent(env.peerIds, c.conns, env.fails);
  }

  lemma DirsDoNotShow(c: Core, c': Core, d: Core, d': Core, g: Group, ren: Renaming)
    requires Shows(c, d, g, ren)
    requires c' == c.(dirs := c'.dirs) && d' == d.(dirs := d'.dirs)
    ensures Shows(c', d', g, ren)
  {
  }

  lemma DepartureShown(c: Core, d: Core, env: Env, g: Group, ren: Renaming)
    requires Inv(c) && Shows(c, d, g, ren) && Enabled(c, Handle(env))
    requires c.queue[0].Departed? && c.queue[0].id in ren
    ensures Enabled(d, Handle(RenameEnv(env, ren)))
    ensures Shows(HandleHead(c, env), HandleHead(d, RenameEnv(env, ren)), g, ren)
  {
    var x := c.queue[0].id;
    PoppedShown(c, d, g, ren);
    assert SameConn(c, x, d, ren[x]);
    if x in c.conns {
      var r := c.conns[x];
      ExpelIndexSame(c.groups, d.groups, r, ren);
      EnumerationShows(env.peerIds, Members(Unindex(c.groups, r), g), Members(Unindex(d.groups, r), g), ren);
      UnindexInverse(c.groups, c.conns, x);
      IdsAreLive(Unindex(c.groups, r), c.conns - {x}, g);
      GroupExpulsionShown(Pop(c), Pop(d), x, env, g, ren);
    }
  }

  lemma OtherRegistrationInvisible(c: Core, d: Core, r: Register, env: Env, g: Group, ren: Renaming)
    requires Indexed(c) && Numbered(c) && Shows(c, d, g, ren) && r.group != g
    requires Enumerates(env.peerIds, Ids(c.groups, r.group))
    ensures Shows(Registration(c, r, env), d, g, ren)
  {
    if Registration(c, r, env).nextId != c.nextId {
      OthersUnknown(c, g, ren, r.group, env.peerIds);
      OtherAdmissionInvisible(c, d, r, env, g, ren);
    } else {
      DirsDoNotShow(c, Registration(c, r, env), d, d, g, ren);
    }
  }

  lemma OtherEventInvisible(c: Core, d: Core, env: Env, g: Group, ren: Renaming)
    requires Inv(c) && Shows(c, d, g, ren) && Enabled(c, Handle(env))
    requires !Concerns(c.queue[0], g, ren)
    ensures Shows(HandleHead(c, env), d, g, ren)
  {
    PoppedShown(c, d, g, ren);
    match c.queue[0]
    case Registered(r) => OtherRegistrationInvisible(Pop(c), d, r, env, g, ren);
    case Departed(x) =>
      if x in c.conns {
        OtherExpulsionInvisible(Pop(c), d, x, env, g, ren);
      }
  }

  /** d' is where the projection of the step leads from d. */
  ghost predicate Mirrors(d: Core, one: seq<Step>, d': Core) {
    if one == [] then d' == d else |one| == 1 && Enabled(d, one[0]) && d' == Next(d, one[0])
  }

  lemma OwnRegistrationShown(c: Core, d: Core, env: Env, g: Group, ren: Renaming)
    requires Inv(c) && Shows(c, d, g, ren) && Enabled(c, Handle(env))
    requires c.queue[0].Registered? && c.queue[0].register.group == g
    ensures Enabled(d, Handle(RenameEnv(env, ren)))
    ensures Shows(HandleHead(c, env), HandleHead(d, RenameEnv(env, ren)), g, Renumber(c, Handle(env), g, ren))
  {
    PoppedShown(c, d, g, ren);
    RegistrationEnabled(c, d, env, g, ren);
    NoNewDeparture(c, env);
    RegistrationShown(Pop(c), Pop(d), c.queue[0].register, env, g, ren);
  }

  lemma HandleShown(c: Core, d: Core, env: Env, g: Group, ren: Renaming) returns (d': Core)
    requires Inv(c) && Shows(c, d, g, ren) && Enabled(c, Handle(env))
    ensures Mirrors(d, ProjectStep(c, Handle(env), g, ren), d')
    ensures Shows(HandleHead(c, env), d', g, Renumber(c, Handle(env), g, ren))
  {
    if !Concerns(c.queue[0], g, ren) {
      OtherEventInvisible(c, d, env, g, ren);
      d' := d;
    } else {
      if c.queue[0].Registered? {
        OwnRegistrationShown(c, d, env, g, ren);
      } else {
        DepartureShown(c, d, env, g, ren);
      }
      d' := HandleHead(d, RenameEnv(env, ren));
    }
  }

  /** Each step either has a counterpart that keeps the picture, or changes nothing in it. */
  lemma StepShown(c: Core, d: Core, step: Step, g: Group, ren: Renaming) returns (d': Core)
    requires Inv(c) && Shows(c, d, g, ren) && Enabled(c, step)
    ensures Mirrors(d, ProjectStep(c, step, g, ren), d')
    ensures Shows(Next(c, step), d', g, Renumber(c, step, g, ren))
  {
    match step
    case Handle(env) => d' := HandleShown(c, d, env, g, ren);
    case Arrive(r) =>
      PostShown(c, Next(c, step), d, Registered(r), g, ren);
      d' := if r.group == g then Next(d, step) else d;
    case WatchEnds(id) =>
      SiftAppend(c.queue, [Departed(id)], g, ren);
      SiftOne(Departed(id), g, ren);
      WatchShown(c, Next(c, step), d, id, g, ren);
      d' := if id in ren then Next(d, WatchEnds(ren[id])) else d;
  }

  lemma PostShown(c: Core, c': Core, d: Core, e: Event, g: Group, ren: Renaming)
    requires Shows(c, d, g, ren) && e.Registered? && c' == c.(queue := c.queue + [e])
    ensures Shows(c', if Concerns(e, g, ren) then d.(queue := d.queue + [e]) else d, g, ren)
  {
    var d' := if Concerns(e, g, ren) then d.(queue := d.queue + [e]) else d;
    SiftAppend(c.queue, [e], g, ren);
    SiftOne(e, g, ren);
    forall id: ConnId | id in ren ensures SameConn(c', id, d', ren[id]) {
      assert SameConn(c, id, d, ren[id]);
    }
  }

  lemma WatchShown(c: Core, c': Core, d: Core, i: ConnId, g: Group, ren: Renaming)
    requires Shows(c, d, g, ren) && i in c.watching && c' == Next(c, WatchEnds(i))
    requires Sift(c'.queue, g, ren) == d.queue + if i in ren then [Departed(ren[i])] else []
    ensures i in ren ==> Enabled(d, WatchEnds(ren[i])) && Shows(c', Next(d, WatchEnds(ren[i])), g, ren)
    ensures i !in ren ==> Shows(c', d, g, ren)
  {
    forall id: ConnId | id in ren
      ensures i !in ren ==> SameConn(c', id, d, ren[id])
      ensures i in ren ==> SameConn(c', id, Next(d, WatchEnds(ren[i])), ren[id])
    {
      assert SameConn(c, id, d, ren[id]);
    }
    if i in ren {
      assert SameConn(c, i, d, ren[i]);
    }
  }

  ghost predicate Follows(d: Core, proj: seq<Step>, c: Core, g: Group, ren: Renaming) {
    Valid(d, proj) && Shows(c, Exec(d, proj), g, ren)
  }

  lemma FollowsCons(d: Core, one: seq<Step>, d': Core, rest: seq<Step>, c: Core, g: Group, ren: Renaming)
    requires Mirrors(d, one, d') && Follows(d', rest, c, g, ren)
    ensures Follows(d, one + rest, c, g, ren)
  {
    if one == [] {
      assert one + rest == rest;
    } else {
      assert (one + rest)[1..] == rest;
    }
  }

  lemma {:induction false} RunShown(c: Core, d: Core, steps: seq<Step>, g: Group, ren: Renaming)
    requires Inv(c) && Shows(c, d, g, ren) && Valid(c, steps)
    ensures Follows(d, Project(c, steps, g, ren), Exec(c, steps), g, Numbering(c, steps, g, ren))
    decreases |steps|
  {
    if steps != [] {
      StepKeepsInv(c, steps[0]);
      var d' := StepShown(c, d, steps[0], g, ren);
      var c', ren' := Next(c, steps[0]), Renumber(c, steps[0], g, ren);
      RunShown(c', d', steps[1..], g, ren');
      FollowsCons(d, ProjectStep(c, steps[0], g, ren), d', Project(c', steps[1..], g, ren'), Exec(c', steps[1..]),
                  g, Numbering(c', steps[1..], g, ren'));
    }
  }

  /** Group non-interference: for every run and every group, deleting the other groups' events
      and renumbering leaves a run of the supervisor, and its index, connections, watchers,
      pending events and message streams are those of the group in the whole run. */
  lemma GroupsDoNotInterfere(steps: seq<Step>, g: Group)
    requires Valid(INIT, steps)
    ensures var proj := Project(INIT, steps, g, map[]);
            Valid(INIT, proj) && Shows(Exec(INIT, steps), Exec(INIT, proj), g, Numbering(INIT, steps, g, map[]))
  {
    InitInv();
    RunShown(INIT, INIT, steps, g, map[]);
  }
}
