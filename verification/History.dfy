/** What two connections of one group are told about each other, over whole runs. */
module History {
  import opened Protocol
  import opened Supervisor
  import opened Membership

  ghost predicate Tells(e: Entry, joined: bool, x: ConnId) {
    e.about == x && e.message.Notify? && (e.message.notification.PeerJoined? <==> joined)
  }

  /** How many frames report that connection x joined (or left). */
  ghost function Count(frames: seq<Entry>, joined: bool, x: ConnId): nat {
    if frames == [] then 0
    else
      var n := |frames| - 1;
      Count(frames[..n], joined, x) + if Tells(frames[n], joined, x) then 1 else 0
  }

  /** The frames counted are those that report it. */
  lemma {:induction false} CountIs(frames: seq<Entry>, joined: bool, x: ConnId) returns (at: set<nat>)
    ensures |at| == Count(frames, joined, x)
    ensures forall k: nat :: k in at <==>
              && k < |frames| && frames[k].about == x && frames[k].message.Notify?
              && frames[k].message.notification.PeerJoined? == joined
  {
    if frames == [] {
      at := {};
    } else {
      var n := |frames| - 1;
      at := CountIs(frames[..n], joined, x);
      if Tells(frames[n], joined, x) {
        at := at + {n};
      }
    }
  }

  lemma CountSnoc(frames: seq<Entry>, e: Entry, joined: bool, x: ConnId)
    ensures Count(frames + [e], joined, x) == Count(frames, joined, x) + if Tells(e, joined, x) then 1 else 0
  {
  }

  ghost predicate CountsOk(c: Core, id: ConnId)
    requires id in c.wires
  {
    var sent := c.wires[id].sent;
    && sent != []
    && sent[0].message.Response? && sent[0].message.response.Ack?
    && (forall x: ConnId :: Count(sent, true, x) <= if id < x < c.nextId then 1 else 0)
    && (forall x: ConnId :: Count(sent, false, x) <= if x < c.nextId && x !in c.conns then 1 else 0)
  }

  /** Two live connections of one group, a registered before b. */
  ghost predicate Together(c: Core, a: ConnId, b: ConnId) {
    && a in c.conns && b in c.conns && a < b
    && c.conns[a].group == c.conns[b].group
  }

  ghost predicate Introduced(c: Core, a: ConnId, b: ConnId)
    requires a in c.wires && b in c.wires && CountsOk(c, b)
  {
    && c.wires[a].owner.slug in c.wires[b].sent[0].message.response.peers
    && (!c.wires[a].failed ==> Count(c.wires[a].sent, true, b) == 1)
  }

  ghost predicate Histories(c: Core) {
    && (forall id: ConnId :: id in c.wires ==> CountsOk(c, id))
    && (forall a: ConnId, b: ConnId :: Together(c, a, b) && a in c.wires && b in c.wires ==> Introduced(c, a, b))
  }

  // ---- One step ----

  /** What a step does to a stream that already exists: nothing, or one frame offered by the handled event. */
  ghost predicate Offered(c: Core, d: Core, id: ConnId, e: Entry)
    requires id in c.wires && id in d.wires
  {
    d.wires[id] == c.wires[id] || exists ok :: d.wires[id] == Write(c.wires[id], e, ok)
  }

  lemma OfferedCount(c: Core, d: Core, id: ConnId, e: Entry, joined: bool, x: ConnId)
    requires id in c.wires && id in d.wires && Offered(c, d, id, e)
    ensures Count(c.wires[id].sent, joined, x) <= Count(d.wires[id].sent, joined, x)
            <= Count(c.wires[id].sent, joined, x) + if Tells(e, joined, x) then 1 else 0
  {
  }

  lemma OfferedGrows(c: Core, d: Core, id: ConnId, e: Entry)
    requires id in c.wires && id in d.wires && Offered(c, d, id, e)
    ensures c.wires[id].sent <= d.wires[id].sent
    ensures c.wires[id].failed ==> d.wires[id].failed
    ensures c.wires[id].owner == d.wires[id].owner
  {
  }

  /** The frame a step may write to existing streams. */
  ghost function News(c: Core, step: Step): Entry
    requires step.Handle? ==> c.queue != []
  {
    if !step.Handle? then Entry(Response(Ack([])), 0)
    else match c.queue[0]
      case Registered(r) => Entry(Notify(PeerJoined(r.slug)), c.nextId)
      case Departed(id) => if id in c.conns then Entry(Notify(PeerLeft(c.conns[id].slug)), id)
          else Entry(Response(Ack([])), 0)
  }

  /** What any step does to the live connections and the streams, e being the frame it may write. */
  ghost predicate Effect(c: Core, d: Core, e: Entry) {
    && c.nextId <= d.nextId
    && (forall id: ConnId :: id in c.wires ==> id in d.wires && Offered(c, d, id, e))
    && (forall id: ConnId :: id in c.wires && id !in c.conns ==> id !in d.conns && d.wires[id] == c.wires[id])
    && (forall id: ConnId :: id in c.wires && id in d.conns ==> id in c.conns && c.conns[id] == d.conns[id])
    && (forall id: ConnId :: id in d.wires && id !in c.wires ==>
          && id == c.nextId < d.nextId
          && |d.wires[id].sent| == 1
          && d.wires[id].sent[0].message.Response? && d.wires[id].sent[0].message.response.Ack?)
    && (forall x: ConnId :: Tells(e, true, x) ==> x == c.nextId && (d.nextId == c.nextId ==> d.wires == c.wires))
    && (forall x: ConnId :: Tells(e, false, x) ==> x in c.conns && x !in d.conns && x < d.nextId)
  }

  lemma AdmitOffers(c: Core, d: Core, r: Register, env: Env)
    requires Numbered(c) && d == Admit(c, r, env)
    ensures forall id: ConnId :: id in c.wires ==>
        id in d.wires && Offered(c, d, id, Entry(Notify(PeerJoined(r.slug)), c.nextId))
  {
  }

  lemma AdmitSpares(c: Core, d: Core, r: Register, env: Env)
    requires Numbered(c) && d == Admit(c, r, env)
    ensures d.nextId == c.nextId + 1 && d.conns == c.conns[c.nextId := r]
    ensures forall id: ConnId :: id in c.wires && id !in c.conns ==> id in d.wires && d.wires[id] == c.wires[id]
    ensures forall id: ConnId :: id in d.wires && id !in c.wires ==>
              id == c.nextId && d.wires[id].sent == [Entry(Response(Ack(env.peers)), id)]
  {
  }

  lemma AdmitEffect(c: Core, d: Core, r: Register, env: Env)
    requires Numbered(c) && d == Admit(c, r, env)
    ensures Effect(c, d, Entry(Notify(PeerJoined(r.slug)), c.nextId))
  {
    AdmitOffers(c, d, r, env);
    AdmitSpares(c, d, r, env);
    NewcomersEffect(c, d, r, Entry(Notify(PeerJoined(r.slug)), c.nextId), env.peers);
  }

  lemma NewcomersEffect(c: Core, d: Core, r: Register, e: Entry, peers: seq<Slug>)
    requires Numbered(c) && e == Entry(Notify(PeerJoined(r.slug)), c.nextId)
    requires d.nextId == c.nextId + 1 && d.conns == c.conns[c.nextId := r]
    requires forall id: ConnId :: id in c.wires ==> id in d.wires && Offered(c, d, id, e)
    requires forall id: ConnId :: id in c.wires && id !in c.conns ==> id in d.wires && d.wires[id] == c.wires[id]
    requires forall id: ConnId :: id in d.wires && id !in c.wires ==>
               id == c.nextId && d.wires[id].sent == [Entry(Response(Ack(peers)), id)]
    ensures Effect(c, d, e)
  {
  }

  lemma QuietEffect(c: Core, d: Core, e: Entry)
    requires d.nextId == c.nextId && d.wires == c.wires && d.conns == c.conns
    requires forall x: ConnId :: Tells(e, true, x) ==> x == c.nextId
    requires forall x: ConnId :: !Tells(e, false, x)
    ensures Effect(c, d, e)
  {
  }

  lemma RegistrationEffect(c: Core, r: Register, env: Env)
    requires Numbered(c)
    ensures Effect(c, Registration(c, r, env), Entry(Notify(PeerJoined(r.slug)), c.nextId))
  {
    var d := Registration(c, r, env);
    if d.nextId != c.nextId {
      AdmitEffect(c, d, r, env);
    } else {
      QuietEffect(c, d, Entry(Notify(PeerJoined(r.slug)), c.nextId));
    }
  }

  lemma DepartureEffect(c: Core, id: ConnId, env: Env)
    requires Numbered(c) && id in c.conns
    ensures Effect(c, Departure(c, id, env), Entry(Notify(PeerLeft(c.conns[id].slug)), id))
  {
  }

  lemma SameEffect(c: Core, p: Core, d: Core, e: Entry)
    requires Effect(p, d, e) && c.nextId == p.nextId && c.conns == p.conns && c.wires == p.wires
    ensures Effect(c, d, e)
  {
  }

  lemma HandleEffect(c: Core, p: Core, env: Env, d: Core)
    requires Numbered(c) && c.queue != [] && p == Pop(c) && d == HandleHead(c, env)
    ensures Effect(c, d, News(c, Handle(env)))
  {
    match c.queue[0]
    case Registered(r) =>
      RegistrationEffect(p, r, env);
      SameEffect(c, p, d, News(c, Handle(env)));
    case Departed(id) =>
      if id in c.conns {
        DepartureEffect(p, id, env);
        SameEffect(c, p, d, News(c, Handle(env)));
      }
  }

  lemma StepEffect(c: Core, step: Step)
    requires Numbered(c) && Enabled(c, step)
    ensures Effect(c, Next(c, step), News(c, step))
  {
    if step.Handle? {
      HandleEffect(c, Pop(c), step.env, Next(c, step));
    }
  }

  lemma EffectCounts(c: Core, d: Core, e: Entry, id: ConnId)
    requires Numbered(c) && Effect(c, d, e) && id in d.wires
    requires id in c.wires ==> id < c.nextId && CountsOk(c, id)
    ensures CountsOk(d, id)
  {
    var sent := d.wires[id].sent;
    forall x: ConnId
      ensures Count(sent, true, x) <= if id < x < d.nextId then 1 else 0
      ensures Count(sent, false, x) <= if x < d.nextId && x !in d.conns then 1 else 0
    {
      if id in c.wires {
        OfferedCount(c, d, id, e, true, x);
        OfferedCount(c, d, id, e, false, x);
      } else {
        assert sent == [] + [sent[0]];
        CountSnoc([], sent[0], true, x);
        CountSnoc([], sent[0], false, x);
      }
    }
    if id in c.wires {
      OfferedGrows(c, d, id, e);
    }
  }

  lemma EffectKeepsIntroduction(c: Core, d: Core, e: Entry, a: ConnId, b: ConnId)
    requires Numbered(c) && Effect(c, d, e) && a in c.wires && b in c.wires && a < b < c.nextId
    requires CountsOk(c, a) && CountsOk(c, b) && Introduced(c, a, b)
    ensures a in d.wires && b in d.wires
    ensures CountsOk(d, a) && CountsOk(d, b) && Introduced(d, a, b)
  {
    OfferedGrows(c, d, a, e);
    OfferedCount(c, d, a, e, true, b);
    OfferedGrows(c, d, b, e);
    EffectCounts(c, d, e, a);
    EffectCounts(c, d, e, b);
  }

  /** A registration writes its PeerJoined to every live stream of the group. */
  lemma RegistrationTells(c: Core, env: Env, a: ConnId)
    requires Inv(c) && Enabled(c, Handle(env)) && c.queue[0].Registered?
    requires a in c.conns && HandleHead(c, env).nextId != c.nextId
    requires c.conns[a].group == c.queue[0].register.group
    ensures a in HandleHead(c, env).wires && c.nextId in HandleHead(c, env).wires
    ensures HandleHead(c, env).wires[a] == Write(c.wires[a], News(c, Handle(env)), a !in env.fails)
    ensures HandleHead(c, env).wires[c.nextId].sent == [Entry(Response(Ack(env.peers)), c.nextId)]
    ensures c.wires[a].owner.slug in env.peers
  {
  }

  lemma NewcomerIntroduced(c: Core, d: Core, e: Entry, ok: bool, a: ConnId)
    requires a in c.wires && CountsOk(c, a) && Tells(e, true, c.nextId)
    requires a in d.wires && d.wires[a] == Write(c.wires[a], e, ok) && !d.wires[a].failed
    ensures Count(d.wires[a].sent, true, c.nextId) == 1
  {
  }

  lemma StepIntroduces(c: Core, step: Step, d: Core, e: Entry, a: ConnId, b: ConnId)
    requires Inv(c) && Histories(c) && Enabled(c, step) && d == Next(c, step) && e == News(c, step)
    requires Effect(c, d, e)
    requires Together(d, a, b) && a in d.wires && b in d.wires && CountsOk(d, b)
    ensures Introduced(d, a, b)
  {
    if b in c.wires {
      assert Together(c, a, b) && CountsOk(c, a) && CountsOk(c, b);
      EffectKeepsIntroduction(c, d, e, a, b);
    } else {
      NewIsHandled(c, step);
      RegistrationTells(c, step.env, a);
      assert CountsOk(c, a);
      if !d.wires[a].failed {
        NewcomerIntroduced(c, d, e, a !in step.env.fails, a);
      }
    }
  }

  lemma NewIsHandled(c: Core, step: Step)
    requires Enabled(c, step) && Next(c, step).nextId != c.nextId
    ensures step.Handle? && c.queue[0].Registered?
    ensures Next(c, step).conns == c.conns[c.nextId := c.queue[0].register]
  {
  }

  lemma StepKeepsHistories(c: Core, step: Step)
    requires Inv(c) && Histories(c) && Enabled(c, step)
    ensures Histories(Next(c, step))
  {
    var d := Next(c, step);
    StepEffect(c, step);
    forall id: ConnId | id in d.wires ensures CountsOk(d, id) {
      assert id in c.wires ==> CountsOk(c, id);
      EffectCounts(c, d, News(c, step), id);
    }
    forall a: ConnId, b: ConnId | Together(d, a, b) && a in d.wires && b in d.wires ensures Introduced(d, a, b) {
      StepIntroduces(c, step, d, News(c, step), a, b);
    }
  }

  lemma {:induction false} RunKeepsHistories(c: Core, steps: seq<Step>)
    requires Inv(c) && Histories(c) && Truthful(c) && Valid(c, steps)
    ensures Inv(Exec(c, steps)) && Histories(Exec(c, steps)) && Truthful(Exec(c, steps))
    decreases |steps|
  {
    if steps != [] {
      StepKeepsInv(c, steps[0]);
      StepKeepsHistories(c, steps[0]);
      StepKeepsTruth(c, steps[0]);
      RunKeepsHistories(Next(c, steps[0]), steps[1..]);
    }
  }

  // ---- From the moment two connections are live together ----

  /** `ab` frames have told a that b left, `ba` have told b that a left. */
  ghost predicate Farewells(aLives: bool, bLives: bool, aFailed: bool, bFailed: bool, ab: nat, ba: nat) {
    && (aLives ==> ba == 0)
    && (bLives ==> ab == 0)
    && (aLives && !bLives && !aFailed ==> ab == 1)
    && (bLives && !aLives && !bFailed ==> ba == 1)
    && ab + ba <= 1
    && (!aLives && !bLives && !aFailed && !bFailed ==> ab + ba == 1)
  }

  ghost predicate FarewellsOk(c: Core, a: ConnId, b: ConnId)
    requires a in c.wires && b in c.wires
  {
    Farewells(a in c.conns, b in c.conns, c.wires[a].failed, c.wires[b].failed,
              Count(c.wires[a].sent, false, b), Count(c.wires[b].sent, false, a))
  }

  ghost predicate Met(c: Core, a: ConnId, b: ConnId) {
    && a in c.wires && b in c.wires && a < b
    && c.wires[a].owner.group == c.wires[b].owner.group
    && CountsOk(c, a) && CountsOk(c, b)
    && Introduced(c, a, b)
    && Count(c.wires[b].sent, true, a) == 0
  }

  /** What is known at every later moment about two connections that were once live together. */
  ghost predicate Acquainted(c: Core, a: ConnId, b: ConnId) {
    Met(c, a, b) && FarewellsOk(c, a, b)
  }

  lemma TogetherAcquainted(c: Core, a: ConnId, b: ConnId)
    requires Inv(c) && Histories(c) && Together(c, a, b)
    ensures Acquainted(c, a, b)
  {
  }

  /** When x departs, a live unbroken stream of its group gains exactly one PeerLeft about x. */
  lemma DepartureTells(c: Core, env: Env, x: ConnId, y: ConnId)
    requires Inv(c) && Enabled(c, Handle(env)) && c.queue[0] == Departed(x)
    requires x in c.conns && y in c.conns && x != y && c.conns[x].group == c.conns[y].group
    ensures y in HandleHead(c, env).conns && x !in HandleHead(c, env).conns
    ensures HandleHead(c, env).wires[y] == Write(c.wires[y], News(c, Handle(env)), y !in env.fails)
  {
    UnindexInverse(c.groups, c.conns, x);
    IdsAreLive(Unindex(c.groups, c.conns[x]), c.conns - {x}, c.conns[x].group);
  }

  /** The departure of x, seen by y: one PeerLeft about x, and nothing about y. */
  lemma DepartureCounts(c: Core, d: Core, e: Entry, ok: bool, x: ConnId, y: ConnId)
    requires Effect(c, d, e) && x in c.wires && y in c.wires && x != y
    requires Tells(e, false, x) && y in d.conns
    requires y in d.wires && d.wires[y] == Write(c.wires[y], e, ok)
    requires Count(c.wires[y].sent, false, x) == 0
    ensures x in d.wires && y in d.wires
    ensures Count(d.wires[y].sent, false, x) <= 1
    ensures !d.wires[y].failed ==> Count(d.wires[y].sent, false, x) == 1
    ensures Count(d.wires[x].sent, false, y) == Count(c.wires[x].sent, false, y)
  {
  }

  /** A step that is not x's departure, and any step for a closed stream, says nothing about x leaving. */
  lemma Silence(c: Core, d: Core, e: Entry, id: ConnId, x: ConnId)
    requires Effect(c, d, e) && id in c.wires && x in c.wires
    requires !Tells(e, false, x) || id !in c.conns
    ensures id in d.wires
    ensures Count(d.wires[id].sent, false, x) == Count(c.wires[id].sent, false, x)
  {
  }

  /** One of the two leaves while the other lives: the other is told, once. */
  lemma LeaveIsTold(c: Core, step: Step, x: ConnId, y: ConnId)
    requires Inv(c) && Enabled(c, step) && x in c.wires && y in c.wires && x != y
    requires c.wires[x].owner.group == c.wires[y].owner.group && Count(c.wires[y].sent, false, x) == 0
    requires Tells(News(c, step), false, x) && y in c.conns
    ensures var d := Next(c, step);
            && x in d.wires && y in d.wires && y in d.conns && x !in d.conns
            && Count(d.wires[y].sent, false, x) <= 1 && (!d.wires[y].failed ==> Count(d.wires[y].sent, false, x) == 1)
            && Count(d.wires[x].sent, false, y) == Count(c.wires[x].sent, false, y)
  {
    StepEffect(c, step);
    DepartureTells(c, step.env, x, y);
    DepartureCounts(c, Next(c, step), News(c, step), y !in step.env.fails, x, y);
  }

  /** Neither is told of the other. */
  lemma NothingIsTold(c: Core, step: Step, a: ConnId, b: ConnId)
    requires Inv(c) && Enabled(c, step) && a in c.wires && b in c.wires && FarewellsOk(c, a, b)
    requires !(Tells(News(c, step), false, b) && a in c.conns) && !(Tells(News(c, step), false, a) && b in c.conns)
    ensures a in Next(c, step).wires && b in Next(c, step).wires && FarewellsOk(Next(c, step), a, b)
  {
    var d := Next(c, step);
    var e := News(c, step);
    StepEffect(c, step);
    OfferedGrows(c, d, a, e);
    OfferedGrows(c, d, b, e);
    Silence(c, d, e, a, b);
    Silence(c, d, e, b, a);
    if a in c.conns && !Tells(e, false, a) { OnlyToldDepart(c, step, a); }
    if b in c.conns && !Tells(e, false, b) { OnlyToldDepart(c, step, b); }
  }

  lemma StepKeepsFarewells(c: Core, step: Step, a: ConnId, b: ConnId)
    requires Inv(c) && Enabled(c, step) && Acquainted(c, a, b)
    ensures a in Next(c, step).wires && b in Next(c, step).wires && FarewellsOk(Next(c, step), a, b)
  {
    var e := News(c, step);
    if Tells(e, false, b) && a in c.conns {
      LeaveIsTold(c, step, b, a);
    } else if Tells(e, false, a) && b in c.conns {
      LeaveIsTold(c, step, a, b);
    } else {
      NothingIsTold(c, step, a, b);
    }
  }

  lemma StepKeepsAcquaintance(c: Core, step: Step, a: ConnId, b: ConnId)
    requires Inv(c) && Enabled(c, step) && Acquainted(c, a, b)
    ensures Acquainted(Next(c, step), a, b)
  {
    StepEffect(c, step);
    EffectKeepsMeeting(c, Next(c, step), News(c, step), a, b);
    StepKeepsFarewells(c, step, a, b);
  }

  lemma EffectKeepsMeeting(c: Core, d: Core, e: Entry, a: ConnId, b: ConnId)
    requires Inv(c) && Effect(c, d, e) && Met(c, a, b)
    ensures Met(d, a, b)
  {
    EffectKeepsIntroduction(c, d, e, a, b);
    OfferedGrows(c, d, a, e);
    OfferedGrows(c, d, b, e);
  }

  lemma OnlyToldDepart(c: Core, step: Step, x: ConnId)
    requires Enabled(c, step) && x in c.conns && !Tells(News(c, step), false, x)
    ensures x in Next(c, step).conns
  {
  }

  lemma {:induction false} RunKeepsAcquaintance(c: Core, steps: seq<Step>, a: ConnId, b: ConnId)
    requires Inv(c) && Valid(c, steps) && Acquainted(c, a, b)
    ensures Acquainted(Exec(c, steps), a, b)
    decreases |steps|
  {
    if steps != [] {
      StepKeepsInv(c, steps[0]);
      StepKeepsAcquaintance(c, steps[0], a, b);
      RunKeepsAcquaintance(Next(c, steps[0]), steps[1..], a, b);
    }
  }

  // ---- Frames are about whom they name ----

  ghost predicate True(c: Core, id: ConnId, e: Entry)
    requires id in c.wires
  {
    && e.about in c.wires
    && c.wires[e.about].owner.group == c.wires[id].owner.group
    && (e.message.Notify? ==> e.about != id && e.message.notification.slug == c.wires[e.about].owner.slug)
  }

  ghost predicate Truthful(c: Core) {
    forall id: ConnId, k: nat :: id in c.wires && k < |c.wires[id].sent| ==> True(c, id, c.wires[id].sent[k])
  }

  lemma EffectKeepsTruth(c: Core, d: Core, e: Entry, id: ConnId, k: nat)
    requires Numbered(c) && Effect(c, d, e) && Truthful(c) && Numbered(d)
    requires id in c.wires && id in d.wires && k < |d.wires[id].sent|
    requires d.wires[id].sent != c.wires[id].sent ==> True(d, id, e)
    ensures True(d, id, d.wires[id].sent[k])
  {
  }

  /** A step writes its frame only to other connections of the group the frame is about. */
  lemma StepWritesTruth(c: Core, step: Step, id: ConnId)
    requires Inv(c) && Enabled(c, step) && id in c.wires && id in Next(c, step).wires
    requires Next(c, step).wires[id] != c.wires[id]
    ensures True(Next(c, step), id, News(c, step))
  {
    FanOutFindsEveryPeer(c, step.env);
    match c.queue[0]
    case Registered(r) => AdmissionWritesTruth(Pop(c), r, step.env, id);
    case Departed(x) => ExpulsionWritesTruth(Pop(c), x, step.env, id);
  }

  lemma AdmissionWritesTruth(c: Core, r: Register, env: Env, id: ConnId)
    requires Numbered(c) && id in c.wires && id in Registration(c, r, env).wires
    requires Registration(c, r, env).wires[id] != c.wires[id]
    requires forall i: ConnId :: i in Found(env.peerIds, c.conns) ==> i in c.conns && c.conns[i].group == r.group
    ensures True(Registration(c, r, env), id, Entry(Notify(PeerJoined(r.slug)), c.nextId))
  {
  }

  lemma ExpulsionWritesTruth(c: Core, x: ConnId, env: Env, id: ConnId)
    requires Numbered(c) && id in c.wires && id in Departure(c, x, env).wires
    requires Departure(c, x, env).wires[id] != c.wires[id]
    requires x in c.conns ==> forall i: ConnId :: i in Found(env.peerIds, c.conns - {x}) ==>
               i in c.conns && i != x && c.conns[i].group == c.conns[x].group
    ensures x in c.conns
    ensures True(Departure(c, x, env), id, Entry(Notify(PeerLeft(c.conns[x].slug)), x))
  {
  }

  lemma OldStreamStaysTrue(c: Core, step: Step, d: Core, id: ConnId, k: nat)
    requires Inv(c) && Truthful(c) && Enabled(c, step) && d == Next(c, step) && Inv(d)
    requires id in c.wires && id in d.wires && k < |d.wires[id].sent|
    ensures True(d, id, d.wires[id].sent[k])
  {
    StepEffect(c, step);
    if d.wires[id] != c.wires[id] {
      StepWritesTruth(c, step, id);
    }
    EffectKeepsTruth(c, d, News(c, step), id, k);
  }

  lemma NewStreamIsTrue(c: Core, step: Step, d: Core, id: ConnId, k: nat)
    requires Inv(c) && Enabled(c, step) && d == Next(c, step)
    requires id !in c.wires && id in d.wires && k < |d.wires[id].sent|
    ensures True(d, id, d.wires[id].sent[k])
  {
    StepEffect(c, step);
    AckIsOwn(c, step);
  }

  lemma StepKeepsTruth(c: Core, step: Step)
    requires Inv(c) && Truthful(c) && Enabled(c, step)
    ensures Truthful(Next(c, step))
  {
    var d := Next(c, step);
    StepKeepsInv(c, step);
    forall id: ConnId, k: nat | id in d.wires && k < |d.wires[id].sent| ensures True(d, id, d.wires[id].sent[k]) {
      if id in c.wires {
        OldStreamStaysTrue(c, step, d, id, k);
      } else {
        NewStreamIsTrue(c, step, d, id, k);
      }
    }
  }

  lemma AckIsOwn(c: Core, step: Step)
    requires Enabled(c, step) && Next(c, step).nextId != c.nextId && c.nextId in Next(c, step).wires
    ensures |Next(c, step).wires[c.nextId].sent| == 1
    ensures Next(c, step).wires[c.nextId].sent[0].about == c.nextId
    ensures Next(c, step).wires[c.nextId].sent[0].message.Response?
  {
  }

  // ---- The theorems ----

  lemma FromInit(steps: seq<Step>)
    requires Valid(INIT, steps)
    ensures Inv(Exec(INIT, steps)) && Histories(Exec(INIT, steps)) && Truthful(Exec(INIT, steps))
  {
    InitInv();
    RunKeepsHistories(INIT, steps);
  }

  /** Two connections that were live together after `before` (a registered first), seen
      after any continuation in which no write to either has failed: b's Ack named a;
      a was told once that b joined and b never that a did; nobody is told of a departure
      while the departing one lives; the survivor is told of the other's departure once. */
  lemma PairHistory(before: seq<Step>, after: seq<Step>, a: ConnId, b: ConnId)
    requires Valid(INIT, before) && Together(Exec(INIT, before), a, b)
    requires Valid(Exec(INIT, before), after)
    ensures var c := Exec(Exec(INIT, before), after);
            && a in c.wires && b in c.wires
            && (!c.wires[a].failed && !c.wires[b].failed ==>
                  var sa, sb := c.wires[a].sent, c.wires[b].sent;
                  && sb != [] && sb[0].message == Response(Ack(AckPeers(sb)))
                  && c.wires[a].owner.slug in AckPeers(sb)
                  && Count(sa, true, b) == 1 && Count(sb, true, a) == 0
                  && Count(sa, false, b) + Count(sb, false, a) == (if a in c.conns && b in c.conns then 0 else 1)
                  && (a in c.conns ==> Count(sb, false, a) == 0)
                  && (b in c.conns ==> Count(sa, false, b) == 0))
  {
    var m := Exec(INIT, before);
    FromInit(before);
    TogetherAcquainted(m, a, b);
    RunKeepsAcquaintance(m, after, a, b);
  }

  function AckPeers(frames: seq<Entry>): seq<Slug> {
    if frames != [] && frames[0].message.Response? && frames[0].message.response.Ack?
    then frames[0].message.response.peers else []
  }

  ghost predicate Gone(c: Core, x: ConnId) {
    x < c.nextId && x !in c.conns
  }

  lemma EffectKeepsGone(c: Core, d: Core, e: Entry, id: ConnId, x: ConnId)
    requires Numbered(c) && Effect(c, d, e) && Gone(c, x) && id in c.wires
    ensures Gone(d, x) && id in d.wires
    ensures Count(d.wires[id].sent, false, x) == Count(c.wires[id].sent, false, x)
    ensures Count(d.wires[id].sent, true, x) == Count(c.wires[id].sent, true, x)
  {
  }

  /** Departures are by identity: an id that is gone never comes back, and no stream is ever
      told about it again, whatever re-registers under its slug. */
  lemma {:induction false} GoneForGood(c: Core, steps: seq<Step>, id: ConnId, x: ConnId)
    requires Inv(c) && Valid(c, steps) && Gone(c, x) && id in c.wires
    ensures Gone(Exec(c, steps), x) && id in Exec(c, steps).wires
    ensures Count(Exec(c, steps).wires[id].sent, false, x) == Count(c.wires[id].sent, false, x)
    ensures Count(Exec(c, steps).wires[id].sent, true, x) == Count(c.wires[id].sent, true, x)
    decreases |steps|
  {
    if steps != [] {
      StepKeepsInv(c, steps[0]);
      StepEffect(c, steps[0]);
      EffectKeepsGone(c, Next(c, steps[0]), News(c, steps[0]), id, x);
      GoneForGood(Next(c, steps[0]), steps[1..], id, x);
    }
  }

  /** Once a has outlived b, a's unbroken stream holds exactly one PeerLeft about b, for ever. */
  lemma SurvivorIsToldOnce(before: seq<Step>, between: seq<Step>, after: seq<Step>, a: ConnId, b: ConnId)
    requires Valid(INIT, before)
    requires Together(Exec(INIT, before), a, b) || Together(Exec(INIT, before), b, a)
    requires Valid(Exec(INIT, before), between)
    requires var m := Exec(Exec(INIT, before), between);
             a in m.conns && b !in m.conns && a in m.wires && !m.wires[a].failed
    requires Valid(Exec(Exec(INIT, before), between), after)
    ensures var c := Exec(Exec(Exec(INIT, before), between), after);
            a in c.wires && Count(c.wires[a].sent, false, b) == 1
  {
    var s := Exec(INIT, before);
    var m := Exec(s, between);
    FromInit(before);
    RunKeepsInv(s, between);
    if a < b {
      TogetherAcquainted(s, a, b);
      RunKeepsAcquaintance(s, between, a, b);
    } else {
      TogetherAcquainted(s, b, a);
      RunKeepsAcquaintance(s, between, b, a);
    }
    GoneForGood(m, after, a, b);
  }

  /** Late and duplicate departures never disturb a namesake: once x is gone, and whatever has happened since,
      handling another Departed(x) leaves a connection y that has taken over x's slug and group with its
      record, its place in the index, its watcher, its directory and its stream, and leaves all other
      streams alone too, although the index and the directories are keyed by slug. */
  lemma StaleDepartureSparesNamesake(before: seq<Step>, after: seq<Step>, env: Env, x: ConnId, y: ConnId)
    requires Valid(INIT, before) && Gone(Exec(INIT, before), x) && Valid(Exec(INIT, before), after)
    requires var c := Exec(Exec(INIT, before), after);
             c.queue != [] && c.queue[0] == Departed(x) && y in c.conns && x in c.wires &&
                 c.conns[y] == c.wires[x].owner
    ensures var c := Exec(Exec(INIT, before), after);
            var d := HandleHead(c, env);
            && y != x && y in d.conns && d.conns[y] == c.conns[y]
            && Lists(d.groups, c.conns[y].group, c.conns[y].slug, y)
            && (y in d.watching <==> y in c.watching) && (c.conns[y].slug in d.dirs <==> c.conns[y].slug in c.dirs)
            && d.wires == c.wires && Gone(d, x)
  {
    FromInit(before);
    GoneForGood(Exec(INIT, before), after, x, x);
    RunKeepsInv(Exec(INIT, before), after);
  }
}
