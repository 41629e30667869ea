/** Two repositories that ask each other: both directions of the exchange share both databases.
    Each direction, seen through the issues that concern it, is a run of module Exchange. */
module Mutual {
  import opened Protocol
  import opened Issues
  import opened Handlers
  import opened Client
  import opened Exchange
  import opened Delivery
  import opened Guarantees
  import opened Marks

  /** The commands and handlers of one direction. */
  datatype Lane = Lane(procs: map<nat, Process>, nextPid: nat, target: Target, source: Source,
      started: multiset<IssueId>)

  /** `guestsA` are the issues A's server has created for B, `there` is the direction in which A asks. */
  datatype Pair = Pair(
    slugA: Slug, slugB: Slug, a: Db, b: Db, guestsA: set<IssueId>, guestsB: set<IssueId>, there: Lane, back: Lane)

  function Flip(p: Pair): Pair {
    Pair(p.slugB, p.slugA, p.b, p.a, p.guestsB, p.guestsA, p.back, p.there)
  }

  function Own(db: Db, guests: set<IssueId>): Db {
    Db(map id | id in db.issues && id !in guests :: db.issues[id], db.nextId)
  }

  function Guests(db: Db, guests: set<IssueId>): Db {
    Db(map id | id in db.issues && id in guests :: db.issues[id], db.nextId)
  }

  /** One direction over the two whole databases: what its handlers and commands work on. */
  function Whole(p: Pair): World {
    World(p.slugA, p.slugB, p.a, p.b, p.there.procs, p.there.nextPid, p.there.target, p.there.source, p.there.started)
  }

  function Part(w: World, guestsA: set<IssueId>, guestsB: set<IssueId>): World {
    w.(a := Own(w.a, guestsA), b := Guests(w.b, guestsB))
  }

  /** The same, as far as it concerns this direction: A's own issues and B's guests. */
  function Seen(p: Pair): World {
    Part(Whole(p), p.guestsA, p.guestsB)
  }

  // ---- Steps ----

  /** Acts of people are taken at A; those at B are acts of the other direction. */
  predicate OneSided(act: Act) {
    match act
    case Remark(atA, _, _) => atA
    case CloseByHand(atA, _) => atA
    case Post(atA, _) => atA
    case SkipId(_) => false
    case _ => true
  }

  /** Premises on what people do: a guest is not submitted onward, a new issue has a new uuid and none of the
      labels crossbridge keeps track of, and comments neither imitate copied ones nor repeat a result. */
  ghost predicate Fair(p: Pair, act: Act) {
    match act
    case StartSubmit(issue, _) => issue !in p.guestsA
    case Remark(_, issue, c) =>
      if issue !in p.guestsA then !("[from " + p.slugB + "] " <= c.content)
      else c.kind == "result" && issue in p.a.issues ==>
          Prefixed(p.slugA, c.content) !in Results(p.slugA, p.a.issues[issue].comments)
    case Post(_, i) =>
      && i.comments == [] && i.uuid.Some?
      && (forall l :: l in i.labels ==>
          !(REF_PREFIX <= l) && !(SOURCE_PREFIX <= l) && l != STATUS_PENDING && l != STATUS_RESOLVED)
      && (forall id :: id in p.a.issues && id !in p.guestsA ==> p.a.issues[id].uuid != i.uuid)
      && (forall id :: id in p.b.issues && id !in p.guestsB ==> p.b.issues[id].uuid != i.uuid)
    case _ => true
  }

  ghost predicate CanGo(p: Pair, act: Act) {
    CanAct(Whole(p), act) && OneSided(act) && Fair(p, act)
  }

  /** A new issue as people write it. */
  predicate Plain(i: Issue) {
    i.uuid.Some? && i.labels == {} && i.comments == []
  }

  /** The premises in full: commands and handlers take any step they can, but that guests are not submitted onward;
      people close what they like, comment on guests with new results and on own issues with anything that does not
      look copied, and post issues that have a new uuid and no crossbridge label. */
  lemma OnlyThisIsAssumed(p: Pair, act: Act)
    ensures OneSided(act) && !act.StartSubmit? && !act.Remark? && !act.Post? ==>
              (CanGo(p, act) <==> CanAct(Whole(p), act))
    ensures act.StartSubmit? ==> (CanGo(p, act) <==> CanAct(Whole(p), act) && act.issue !in p.guestsA)
    ensures act.Remark? && act.atA && act.issue in p.a.issues ==>
              var (i, c) := (p.a.issues[act.issue], act.comment);
              && (act.issue !in p.guestsA ==> (CanGo(p, act) <==> !("[from " + p.slugB + "] " <= c.content)))
              && (act.issue in p.guestsA && c.kind != "result" ==> CanGo(p, act))
              && (act.issue in p.guestsA && c.kind == "result" ==>
                    (CanGo(p, act) <==>
                     forall x :: x in i.comments && x.kind == "result" ==> x.content != c.content))
    ensures act.Post? && act.atA && Plain(act.content) ==>
              (CanGo(p, act) <==>
               && (forall id :: id in p.a.issues && id !in p.guestsA ==> p.a.issues[id].uuid != act.content.uuid)
               && (forall id :: id in p.b.issues && id !in p.guestsB ==> p.b.issues[id].uuid != act.content.uuid))
  {
    if act.Remark? && act.issue in p.a.issues {
      ResultsIff(p.slugA, p.a.issues[act.issue].comments, act.comment.content);
    }
  }

  lemma {:induction false} ResultsIff(peer: Slug, comments: seq<Comment>, text: string)
    ensures Prefixed(peer, text) in Results(peer, comments) <==>
            exists c :: c in comments && c.kind == "result" && c.content == text
  {
    if comments != [] {
      var n := |comments| - 1;
      ResultsIff(peer, comments[..n], text);
      CopiesDiffer(peer, comments[n].content, text);
      assert comments == comments[..n] + [comments[n]];
    }
  }

  function NewGuests(act: Act, guestsB: set<IssueId>, next: IssueId): set<IssueId> {
    if act.TargetCreate? then guestsB + {next} else guestsB
  }

  function Go(p: Pair, act: Act): Pair
    requires CanAct(Whole(p), act)
  {
    var w := Step(Whole(p), act);
    p.(a := w.a, b := w.b, guestsB := NewGuests(act, p.guestsB, p.b.nextId),
       there := Lane(w.procs, w.nextPid, w.target, w.source, w.started))
  }

  // ---- What keeps the directions apart ----

  ghost predicate Named(a: Db, u: string) {
    exists id :: id in a.issues && a.issues[id].uuid == Some(u)
  }

  /** B's guests refer to issues that A has. */
  ghost predicate RefsNamed(w: World) {
    && (forall id, u :: id in w.b.issues && HasRef(w.b.issues[id], u) ==> Named(w.a, u))
    && (!w.target.TargetIdle? ==> Named(w.a, w.target.s.sourceUuid))
  }

  ghost predicate DirectionOk(w: World) {
    WorldOk(w) && RefsNamed(w)
  }

  ghost predicate Apart(a: Db, b: Db) {
    forall i, j :: i in a.issues && j in b.issues && a.issues[i].uuid.Some? ==> a.issues[i].uuid != b.issues[j].uuid
  }

  ghost predicate PairOk(p: Pair) {
    && DirectionOk(Seen(p)) && DirectionOk(Seen(Flip(p)))
    && p.guestsA <= p.a.issues.Keys && p.guestsB <= p.b.issues.Keys
    && DbOk(p.a) && DbOk(p.b)
    && Apart(Own(p.a, p.guestsA), Own(p.b, p.guestsB))
  }

  lemma NamedGrows(a: Db, a': Db, u: string)
    requires GrowA(a, a') && Named(a, u)
    ensures Named(a', u)
  {
    var id :| id in a.issues && a.issues[id].uuid == Some(u);
    assert GrowIssue(a.issues[id], a'.issues[id]);
  }

  /** The refs of B's guests and what B's server works on, before and after a step. */
  ghost predicate RefsFollow(w: World, w': World) {
    && (forall id, u :: id in w'.b.issues && HasRef(w'.b.issues[id], u) ==>
          (id in w.b.issues && HasRef(w.b.issues[id], u)) || (!w.target.TargetIdle? && u == w.target.s.sourceUuid))
    && (!w'.target.TargetIdle? ==>
          (!w.target.TargetIdle? && w'.target.s == w.target.s) || Named(w.a, w'.target.s.sourceUuid))
  }

  lemma RefsStayNamed(w: World, w': World)
    requires RefsNamed(w) && RefsFollow(w, w') && GrowA(w.a, w'.a)
    ensures RefsNamed(w')
  {
    forall id, u | id in w'.b.issues && HasRef(w'.b.issues[id], u) ensures Named(w'.a, u) {
      NamedGrows(w.a, w'.a, u);
    }
    if !w'.target.TargetIdle? { NamedGrows(w.a, w'.a, w'.target.s.sourceUuid); }
  }

  lemma LabelRefs(w: World, w': World)
    requires w.target.Created? && w.target.id in w.b.issues && SubmitOk(w, w.target.s) && TargetStateOk(w)
    requires w' == Step(w, TargetLabel)
    ensures RefsFollow(w, w')
  {
    var s := w.target.s;
    InboundLabelsAreInbound(s);
    forall u | HasRef(w'.b.issues[w.target.id], u) ensures u == s.sourceUuid {
      assert REF_PREFIX <= RefLabel(u);
      PlusInjective(REF_PREFIX, u, s.sourceUuid);
    }
  }

  lemma SubmissionIsNamed(w: World, pid: nat)
    requires ProcsOk(w) && pid in w.procs && w.procs[pid].Submitting?
    ensures Named(w.a, w.procs[pid].submit.sourceUuid)
  {
    assert ProcOk(w, w.procs[pid]);
  }

  lemma TargetRefs(w: World, act: Act)
    requires ProcsOk(w) && TargetStateOk(w) && CanAct(w, act) && ActorOf(act) == TargetServer
    ensures RefsFollow(w, Step(w, act))
  {
    match act
    case TargetOpenPass(pid, _) => SubmissionIsNamed(w, pid);
    case TargetLabel => LabelRefs(w, Step(w, act));
    case _ =>
  }

  lemma OtherRefs(w: World, act: Act)
    requires CanAct(w, act) && Unobtrusive(w, act) && ActorOf(act) != TargetServer
    ensures RefsFollow(w, Step(w, act))
  {
    if act.WriteNext? && w.procs[act.pid].Closing? {
      PlainLabel(STATUS_ANSWERED, w.b.issues[w.procs[act.pid].issue]);
    }
    if act.Post? {
      forall u ensures !HasRef(act.content, u) {
        assert REF_PREFIX <= RefLabel(u);
      }
    }
  }

  lemma ActKeepsDirection(w: World, act: Act)
    requires DirectionOk(w) && CanAct(w, act) && Unobtrusive(w, act)
    ensures DirectionOk(Step(w, act))
  {
    ActKeeps(w, act);
    ActGrowsA(w, act);
    if ActorOf(act) == TargetServer { TargetRefs(w, act); } else { OtherRefs(w, act); }
    RefsStayNamed(w, Step(w, act));
  }

  // ---- Lookups see the same issues ----

  /** No issue of the other direction holds the ref label. */
  ghost predicate Private(w: World, guestsA: set<IssueId>, guestsB: set<IssueId>, u: string) {
    && (forall id :: id in w.b.issues && id !in guestsB ==> !HasRef(w.b.issues[id], u))
    && (forall id :: id in w.a.issues && id in guestsA ==> !HasRef(w.a.issues[id], u))
  }

  lemma NotNamedTwice(a: Db, b: Db, u: string)
    requires Apart(a, b) && Named(a, u)
    ensures !Named(b, u)
  {
  }

  lemma NamedIsPrivate(p: Pair, u: string)
    requires PairOk(p) && Named(Own(p.a, p.guestsA), u)
    ensures Private(Whole(p), p.guestsA, p.guestsB, u)
  {
    var ownB := Own(p.b, p.guestsB);
    var other := Seen(Flip(p));
    NotNamedTwice(Own(p.a, p.guestsA), ownB, u);
    forall id | id in p.b.issues && id !in p.guestsB ensures !HasRef(p.b.issues[id], u) {
      assert id in ownB.issues && ownB.issues[id] == p.b.issues[id] && SourceIssueOk(other, ownB.issues[id]);
      if HasRef(p.b.issues[id], u) {
        RefIsOwn(other, ownB.issues[id], u);
      }
    }
    forall id | id in p.a.issues && id in p.guestsA ensures !HasRef(p.a.issues[id], u) {
      assert id in other.b.issues && other.b.issues[id] == p.a.issues[id];
    }
  }

  lemma SamePass(w: World, guestsA: set<IssueId>, guestsB: set<IssueId>, status: Status, u: string,
      hit: Option<IssueId>)
    requires Private(w, guestsA, guestsB, u)
    ensures Pass(w.b, status, u, hit) <==> Pass(Guests(w.b, guestsB), status, u, hit)
    ensures Pass(w.a, status, u, hit) <==> Pass(Own(w.a, guestsA), status, u, hit)
  {
    assert Listed(w.b, status, RefLabel(u)) == Listed(Guests(w.b, guestsB), status, RefLabel(u));
    assert Listed(w.a, status, RefLabel(u)) == Listed(Own(w.a, guestsA), status, RefLabel(u));
  }

  // ---- Changes fall into one part ----

  lemma ChangeOwn(db: Db, guests: set<IssueId>, id: IssueId, i: Issue)
    requires id in db.issues && id !in guests
    ensures Own(Change(db, id, i), guests) == Change(Own(db, guests), id, i)
    ensures Guests(Change(db, id, i), guests) == Guests(db, guests)
  {
  }

  lemma ChangeGuest(db: Db, guests: set<IssueId>, id: IssueId, i: Issue)
    requires id in db.issues && id in guests
    ensures Guests(Change(db, id, i), guests) == Change(Guests(db, guests), id, i)
    ensures Own(Change(db, id, i), guests) == Own(db, guests)
  {
  }

  lemma InsertOwn(db: Db, guests: set<IssueId>, i: Issue)
    requires DbOk(db) && guests <= db.issues.Keys
    ensures Own(Insert(db, i), guests) == Insert(Own(db, guests), i)
    ensures Guests(Insert(db, i), guests) == Guests(db, guests).(nextId := db.nextId + 1)
  {
  }

  lemma InsertGuest(db: Db, guests: set<IssueId>, i: Issue)
    requires DbOk(db) && guests <= db.issues.Keys
    ensures Guests(Insert(db, i), guests + {db.nextId}) == Insert(Guests(db, guests), i)
    ensures Own(Insert(db, i), guests + {db.nextId}) == Own(db, guests).(nextId := db.nextId + 1)
  {
  }

  // ---- A step of one direction, seen from both ----

  /** The step looks the same through the part, and the rest of the databases stays as it is. */
  ghost predicate StaysInPart(w: World, w': World, gA: set<IssueId>, gB: set<IssueId>, act: Act) {
    && CanAct(Part(w, gA, gB), act)
    && Part(w', gA, gB) == Step(Part(w, gA, gB), act)
    && Guests(w'.a, gA) == Guests(w.a, gA) && Own(w'.b, gB) == Own(w.b, gB)
    && gA <= w'.a.issues.Keys && gB <= w'.b.issues.Keys
  }

  lemma MarkingStays(w: World, gA: set<IssueId>, gB: set<IssueId>, pid: nat)
    requires ProcsOk(Part(w, gA, gB)) && CanAct(w, WriteNext(pid)) && w.procs[pid].Marking?
    requires gA <= w.a.issues.Keys && gB <= w.b.issues.Keys
    ensures StaysInPart(w, Step(w, WriteNext(pid)), gA, gB, WriteNext(pid))
  {
    var v := Part(w, gA, gB);
    var p := w.procs[pid];
    assert ProcOk(v, v.procs[pid]);
    ChangeOwn(w.a, gA, p.issue, AddLabel(w.a.issues[p.issue], SubmitLabels(p.uuid)[p.written]));
  }

  lemma ClosingStays(w: World, gA: set<IssueId>, gB: set<IssueId>, pid: nat)
    requires ProcsOk(Part(w, gA, gB)) && CanAct(w, WriteNext(pid)) && w.procs[pid].Closing?
    requires gA <= w.a.issues.Keys && gB <= w.b.issues.Keys
    ensures StaysInPart(w, Step(w, WriteNext(pid)), gA, gB, WriteNext(pid))
  {
    var v := Part(w, gA, gB);
    var p := w.procs[pid];
    assert ProcOk(v, v.procs[pid]);
    ChangeGuest(w.b, gB, p.issue, AddLabel(w.b.issues[p.issue], STATUS_ANSWERED));
    ChangeGuest(w.b, gB, p.issue, w.b.issues[p.issue].(status := Closed));
  }

  /** Only an inbound issue names a source, so it is one of B's guests. */
  lemma AnswerableIsGuest(p: Pair, issue: IssueId, labels: seq<string>)
    requires PairOk(p) && CanAct(Whole(p), StartAnswer(issue, labels))
    ensures issue in p.guestsB
  {
    if issue !in p.guestsB {
      var other := Seen(Flip(p));
      assert SourceIssueOk(other, other.a.issues[issue]);
      FindPrefixedNone(labels, SOURCE_PREFIX);
    }
  }

  lemma ClientStays(w: World, gA: set<IssueId>, gB: set<IssueId>, act: Act)
    requires ProcsOk(Part(w, gA, gB)) && CanAct(w, act) && ActorOf(act) == Actor.Client
    requires gA <= w.a.issues.Keys && gB <= w.b.issues.Keys
    requires act.StartSubmit? ==> act.issue !in gA
    requires act.StartAnswer? ==> act.issue in gB
    ensures StaysInPart(w, Step(w, act), gA, gB, act)
  {
    match act
    case StartSubmit(_, _) => StartSubmitStays(w, gA, gB, act);
    case StartAnswer(_, _) => StartAnswerStays(w, gA, gB, act);
    case WriteNext(pid) =>
      if w.procs[pid].Marking? {
        MarkingStays(w, gA, gB, pid);
      } else {
        ClosingStays(w, gA, gB, pid);
      }
    case CutOff(_) =>
    case Refuse(_) =>
  }

  lemma StartSubmitStays(w: World, gA: set<IssueId>, gB: set<IssueId>, act: Act)
    requires act.StartSubmit? && CanAct(w, act) && act.issue !in gA
    requires gA <= w.a.issues.Keys && gB <= w.b.issues.Keys
    ensures StaysInPart(w, Step(w, act), gA, gB, act)
  {
  }

  lemma StartAnswerStays(w: World, gA: set<IssueId>, gB: set<IssueId>, act: Act)
    requires act.StartAnswer? && CanAct(w, act) && act.issue in gB
    requires gA <= w.a.issues.Keys && gB <= w.b.issues.Keys
    ensures StaysInPart(w, Step(w, act), gA, gB, act)
  {
  }

  /** The uuids that a server's lookup is about are private to the direction. */
  ghost predicate LooksPrivate(w: World, gA: set<IssueId>, gB: set<IssueId>, act: Act)
    requires CanAct(w, act)
  {
    match act
    case TargetOpenPass(pid, _) => Private(w, gA, gB, w.procs[pid].submit.sourceUuid)
    case TargetClosedPass(_) => Private(w, gA, gB, w.target.s.sourceUuid)
    case SourceOpenPass(pid, _) => Private(w, gA, gB, w.procs[pid].answer.sourceUuid)
    case SourceClosedPass(_) => Private(w, gA, gB, w.source.x.sourceUuid)
    case _ => true
  }

  lemma LooksArePrivate(p: Pair, act: Act)
    requires PairOk(p) && CanAct(Whole(p), act)
    ensures LooksPrivate(Whole(p), p.guestsA, p.guestsB, act)
  {
    var v := Seen(p);
    match act
    case TargetOpenPass(pid, _) =>
      SubmissionIsNamed(v, pid);
      NamedIsPrivate(p, v.procs[pid].submit.sourceUuid);
    case TargetClosedPass(_) => NamedIsPrivate(p, v.target.s.sourceUuid);
    case SourceOpenPass(pid, _) =>
      assert ProcOk(v, v.procs[pid]);
      HeldIsNamed(v, v.procs[pid].answer.sourceUuid);
      NamedIsPrivate(p, v.procs[pid].answer.sourceUuid);
    case SourceClosedPass(_) =>
      HeldIsNamed(v, v.source.x.sourceUuid);
      NamedIsPrivate(p, v.source.x.sourceUuid);
    case _ =>
  }

  lemma HeldIsNamed(w: World, u: string)
    requires RefsNamed(w) && Held(w.b, u)
    ensures Named(w.a, u)
  {
    var id :| id in w.b.issues && HasRef(w.b.issues[id], u);
  }

  lemma TargetStays(w: World, gA: set<IssueId>, gB: set<IssueId>, act: Act)
    requires TargetStateOk(Part(w, gA, gB)) && CanAct(w, act) && LooksPrivate(w, gA, gB, act)
    requires ActorOf(act) == TargetServer && !act.TargetCreate?
    requires gA <= w.a.issues.Keys && gB <= w.b.issues.Keys
    ensures StaysInPart(w, Step(w, act), gA, gB, act)
  {
    match act
    case TargetOpenPass(pid, hit) => SamePass(w, gA, gB, Open, w.procs[pid].submit.sourceUuid, hit);
    case TargetClosedPass(hit) => SamePass(w, gA, gB, Closed, w.target.s.sourceUuid, hit);
    case TargetLabel => LabelStays(w, gA, gB);
    case TargetFail =>
  }

  lemma LabelStays(w: World, gA: set<IssueId>, gB: set<IssueId>)
    requires TargetStateOk(Part(w, gA, gB)) && CanAct(w, TargetLabel)
    requires gA <= w.a.issues.Keys && gB <= w.b.issues.Keys
    ensures StaysInPart(w, Step(w, TargetLabel), gA, gB, TargetLabel)
  {
    var id, s := w.target.id, w.target.s;
    var i := w.b.issues[id];
    ChangeGuest(w.b, gB, id, i.(labels := i.labels + InboundLabels(s)));
  }

  lemma SourceLookStays(w: World, gA: set<IssueId>, gB: set<IssueId>, act: Act)
    requires CanAct(w, act) && LooksPrivate(w, gA, gB, act) && (act.SourceOpenPass? || act.SourceClosedPass?)
    requires gA <= w.a.issues.Keys && gB <= w.b.issues.Keys
    ensures StaysInPart(w, Step(w, act), gA, gB, act)
  {
    match act
    case SourceOpenPass(pid, hit) => SamePass(w, gA, gB, Open, w.procs[pid].answer.sourceUuid, hit);
    case SourceClosedPass(hit) => SamePass(w, gA, gB, Closed, w.source.x.sourceUuid, hit);
  }

  lemma SourceStaysInPart(w: World, gA: set<IssueId>, gB: set<IssueId>, act: Act)
    requires SourceStateOk(Part(w, gA, gB)) && CanAct(w, act)
    requires ActorOf(act) == SourceServer && !act.SourceOpenPass? && !act.SourceClosedPass?
    requires gA <= w.a.issues.Keys && gB <= w.b.issues.Keys
    ensures StaysInPart(w, Step(w, act), gA, gB, act)
  {
    match act
    case SourceLoad =>
    case SourceWrite => ChangeOwn(w.a, gA, w.source.id, Applied(w.a.issues[w.source.id], w.source.copy));
    case SourceClose => ChangeOwn(w.a, gA, w.source.id, w.a.issues[w.source.id].(status := Closed));
    case SourceFail =>
  }

  lemma PeopleStay(w: World, gA: set<IssueId>, gB: set<IssueId>, act: Act)
    requires CanAct(w, act) && OneSided(act) && (act.Remark? || act.CloseByHand?) && act.issue !in gA
    requires gA <= w.a.issues.Keys && gB <= w.b.issues.Keys
    ensures StaysInPart(w, Step(w, act), gA, gB, act)
  {
    var i := w.a.issues[act.issue];
    match act
    case Remark(_, id, c) => ChangeOwn(w.a, gA, id, i.(comments := i.comments + [c]));
    case CloseByHand(_, id) => ChangeOwn(w.a, gA, id, i.(status := Closed));
  }

  // ---- Both directions step together ----

  predicate OnGuest(p: Pair, act: Act) {
    (act.Remark? || act.CloseByHand?) && act.issue in p.guestsA
  }

  predicate Ordinary(p: Pair, act: Act) {
    !act.TargetCreate? && !act.Post? && !OnGuest(p, act)
  }

  lemma OrdinaryStays(p: Pair, act: Act)
    requires PairOk(p) && CanGo(p, act) && Ordinary(p, act)
    ensures StaysInPart(Whole(p), Step(Whole(p), act), p.guestsA, p.guestsB, act)
  {
    var w := Whole(p);
    assert WorldOk(Seen(p));
    match ActorOf(act)
    case Client =>
      if act.StartAnswer? { AnswerableIsGuest(p, act.issue, act.labels); }
      ClientStays(w, p.guestsA, p.guestsB, act);
    case TargetServer =>
      LooksArePrivate(p, act);
      TargetStays(w, p.guestsA, p.guestsB, act);
    case SourceServer =>
      if act.SourceOpenPass? || act.SourceClosedPass? {
        LooksArePrivate(p, act);
        SourceLookStays(w, p.guestsA, p.guestsB, act);
      } else {
        SourceStaysInPart(w, p.guestsA, p.guestsB, act);
      }
    case People => PeopleStay(w, p.guestsA, p.guestsB, act);
  }

  /** The acts lead from one state to another in one direction. */
  ghost predicate Leads(v: World, acts: seq<Act>, v': World) {
    Runs(v, acts) && RunOf(v, acts) == v'
  }

  lemma LeadsOne(v: World, act: Act, v': World)
    requires CanAct(v, act) && Unobtrusive(v, act) && Step(v, act) == v'
    ensures Leads(v, [act], v')
  {
    assert [act][1..] == [];
  }

  lemma LeadsOnly(v: World, act: Act, v': World)
    requires Leads(v, [act], v')
    ensures CanAct(v, act) && v' == Step(v, act)
  {
    assert [act][1..] == [];
    assert RunOf(v, [act]) == RunOf(Step(v, act), [act][1..]);
  }

  /** What a step of A's direction is in that direction, and in the other one. */
  function Mine(p: Pair, act: Act): seq<Act> {
    if OnGuest(p, act) then [] else [act]
  }

  function Theirs(p: Pair, act: Act): seq<Act> {
    match act
    case TargetCreate(_) => [SkipId(true)]
    case Post(_, _) => [SkipId(false)]
    case Remark(_, id, c) => if OnGuest(p, act) then [Remark(false, id, c)] else []
    case CloseByHand(_, id) => if OnGuest(p, act) then [CloseByHand(false, id)] else []
    case _ => []
  }

  lemma FairIsUnobtrusive(p: Pair, act: Act)
    requires CanGo(p, act) && !OnGuest(p, act)
    ensures Unobtrusive(Seen(p), act)
  {
  }

  lemma OrdinaryLeads(p: Pair, act: Act)
    requires PairOk(p) && CanGo(p, act) && Ordinary(p, act)
    ensures Leads(Seen(p), Mine(p, act), Seen(Go(p, act)))
    ensures Leads(Seen(Flip(p)), Theirs(p, act), Seen(Flip(Go(p, act))))
  {
    OrdinaryStays(p, act);
    FairIsUnobtrusive(p, act);
    LeadsOne(Seen(p), act, Seen(Go(p, act)));
  }

  lemma CreateLeadsMine(p: Pair, act: Act)
    requires PairOk(p) && CanGo(p, act) && act.TargetCreate?
    ensures Leads(Seen(p), [act], Seen(Go(p, act)))
  {
    InsertGuest(p.b, p.guestsB, NewIssue(p.there.target.s, act.uuid));
    LeadsOne(Seen(p), act, Seen(Go(p, act)));
  }

  /** A guest has been created at B: seen from B, which asks in the other direction, only an id has been used. */
  lemma CreatedSeenBack(p: Pair, q: Pair, i: Issue)
    requires DbOk(p.b) && p.guestsB <= p.b.issues.Keys
    requires q == p.(b := Insert(p.b, i), guestsB := p.guestsB + {p.b.nextId}, there := q.there)
    ensures Leads(Seen(Flip(p)), [SkipId(true)], Seen(Flip(q)))
  {
    InsertGuest(p.b, p.guestsB, i);
    LeadsOne(Seen(Flip(p)), SkipId(true), Seen(Flip(q)));
  }

  lemma CreateLeadsTheirs(p: Pair, act: Act)
    requires PairOk(p) && CanGo(p, act) && act.TargetCreate?
    ensures Leads(Seen(Flip(p)), [SkipId(true)], Seen(Flip(Go(p, act))))
  {
    CreatedSeenBack(p, Go(p, act), NewIssue(p.there.target.s, act.uuid));
  }

  lemma PostLeads(p: Pair, act: Act)
    requires PairOk(p) && CanGo(p, act) && act.Post?
    ensures Leads(Seen(p), Mine(p, act), Seen(Go(p, act)))
    ensures Leads(Seen(Flip(p)), Theirs(p, act), Seen(Flip(Go(p, act))))
  {
    InsertOwn(p.a, p.guestsA, act.content);
    FairIsUnobtrusive(p, act);
    LeadsOne(Seen(p), act, Seen(Go(p, act)));
    LeadsOne(Seen(Flip(p)), SkipId(false), Seen(Flip(Go(p, act))));
  }

  lemma GuestLeads(p: Pair, act: Act)
    requires PairOk(p) && CanGo(p, act) && OnGuest(p, act)
    ensures Leads(Seen(p), Mine(p, act), Seen(Go(p, act)))
    ensures Leads(Seen(Flip(p)), Theirs(p, act), Seen(Flip(Go(p, act))))
  {
    var i := p.a.issues[act.issue];
    match act
    case Remark(_, id, c) =>
      ChangeGuest(p.a, p.guestsA, id, i.(comments := i.comments + [c]));
      LeadsOne(Seen(Flip(p)), Remark(false, id, c), Seen(Flip(Go(p, act))));
    case CloseByHand(_, id) =>
      ChangeGuest(p.a, p.guestsA, id, i.(status := Closed));
      LeadsOne(Seen(Flip(p)), CloseByHand(false, id), Seen(Flip(Go(p, act))));
  }

  /** Every step of one direction is a step or nothing in that direction, and at most a step of somebody else in the
      other. */
  lemma GoLeads(p: Pair, act: Act)
    requires PairOk(p) && CanGo(p, act)
    ensures Leads(Seen(p), Mine(p, act), Seen(Go(p, act)))
    ensures Leads(Seen(Flip(p)), Theirs(p, act), Seen(Flip(Go(p, act))))
  {
    if act.TargetCreate? {
      CreateLeadsMine(p, act);
      CreateLeadsTheirs(p, act);
    } else if act.Post? {
      PostLeads(p, act);
    } else if OnGuest(p, act) {
      GuestLeads(p, act);
    } else {
      OrdinaryLeads(p, act);
    }
  }

  // ---- What both directions keep ----

  lemma {:induction false} RunKeepsDirection(w: World, acts: seq<Act>)
    requires DirectionOk(w) && Runs(w, acts)
    ensures DirectionOk(RunOf(w, acts))
    decreases |acts|
  {
    if acts != [] {
      ActKeepsDirection(w, acts[0]);
      RunKeepsDirection(Step(w, acts[0]), acts[1..]);
    }
  }

  lemma UuidsStep(v: World, act: Act, id: IssueId)
    requires CanAct(v, act) && id in Step(v, act).a.issues
    ensures (id in v.a.issues && Step(v, act).a.issues[id].uuid == v.a.issues[id].uuid)
            || (act.Post? && act.atA && Step(v, act).a.issues[id].uuid == act.content.uuid)
  {
  }

  lemma LeadsUuids(v: World, acts: seq<Act>, v': World, act: Act, id: IssueId)
    requires Leads(v, acts, v') && (acts == [] || acts == [act]) && id in v'.a.issues
    ensures (id in v.a.issues && v'.a.issues[id].uuid == v.a.issues[id].uuid)
            || (act.Post? && v'.a.issues[id].uuid == act.content.uuid)
  {
    if acts == [act] {
      LeadsOnly(v, act, v');
      UuidsStep(v, act, id);
    }
  }

  lemma OwnUuids(p: Pair, act: Act, id: IssueId)
    requires PairOk(p) && CanGo(p, act) && id in Seen(Go(p, act)).a.issues
    ensures (id in Seen(p).a.issues && Seen(Go(p, act)).a.issues[id].uuid == Seen(p).a.issues[id].uuid)
            || (act.Post? && Seen(Go(p, act)).a.issues[id].uuid == act.content.uuid)
  {
    GoLeads(p, act);
    LeadsUuids(Seen(p), Mine(p, act), Seen(Go(p, act)), act, id);
  }

  lemma LeadsAside(v: World, acts: seq<Act>, v': World)
    requires Leads(v, acts, v') && |acts| <= 1
    requires forall act :: act in acts ==> act.SkipId? || ((act.Remark? || act.CloseByHand?) && !act.atA)
    ensures v'.a.issues == v.a.issues
  {
    if acts != [] {
      assert acts[0] in acts && acts == [acts[0]];
      LeadsOnly(v, acts[0], v');
    }
  }

  lemma TheirsStay(p: Pair, act: Act)
    requires PairOk(p) && CanGo(p, act)
    ensures Seen(Flip(Go(p, act))).a.issues == Seen(Flip(p)).a.issues
  {
    GoLeads(p, act);
    LeadsAside(Seen(Flip(p)), Theirs(p, act), Seen(Flip(Go(p, act))));
  }

  lemma GoKeepsApart(p: Pair, act: Act, q: Pair)
    requires PairOk(p) && CanGo(p, act) && q == Go(p, act)
    ensures Apart(Own(q.a, q.guestsA), Own(q.b, q.guestsB))
  {
    TheirsStay(p, act);
    var ownA, ownB := Own(p.a, p.guestsA), Own(p.b, p.guestsB);
    assert Own(q.b, q.guestsB).issues == ownB.issues;
    forall i, j | i in Own(q.a, q.guestsA).issues && j in ownB.issues && Own(q.a, q.guestsA).issues[i].uuid.Some?
      ensures Own(q.a, q.guestsA).issues[i].uuid != ownB.issues[j].uuid
    {
      OwnUuids(p, act, i);
      if i in ownA.issues && Own(q.a, q.guestsA).issues[i].uuid == ownA.issues[i].uuid {
        assert ownA.issues[i].uuid != ownB.issues[j].uuid;
      }
    }
  }

  lemma GuestsExist(p: Pair, act: Act, q: Pair)
    requires PairOk(p) && CanGo(p, act) && q == Go(p, act)
    ensures q.guestsA <= q.a.issues.Keys && q.guestsB <= q.b.issues.Keys
  {
    if Ordinary(p, act) { OrdinaryStays(p, act); }
  }

  lemma DbsOk(q: Pair)
    requires DirectionOk(Seen(q)) && DirectionOk(Seen(Flip(q)))
    ensures DbOk(q.a) && DbOk(q.b)
  {
    var v, u := Seen(q), Seen(Flip(q));
    assert DbOk(v.a) && DbOk(v.b) && DbOk(u.a) && DbOk(u.b);
    forall id | id in q.a.issues ensures id < q.a.nextId {
      assert id in v.a.issues || id in u.b.issues;
    }
    forall id | id in q.b.issues ensures id < q.b.nextId {
      assert id in v.b.issues || id in u.a.issues;
    }
  }

  lemma GoKeepsPair(p: Pair, act: Act)
    requires PairOk(p) && CanGo(p, act)
    ensures PairOk(Go(p, act))
  {
    var q := Go(p, act);
    GoLeads(p, act);
    RunKeepsDirection(Seen(p), Mine(p, act));
    RunKeepsDirection(Seen(Flip(p)), Theirs(p, act));
    GoKeepsApart(p, act, q);
    GuestsExist(p, act, q);
    DbsOk(q);
  }

  lemma FlipOk(p: Pair)
    requires PairOk(p)
    ensures PairOk(Flip(p))
  {
    assert Flip(Flip(p)) == p;
  }

  // ---- Runs ----

  datatype Turn = There(act: Act) | Back(act: Act)

  ghost predicate CanTake(p: Pair, m: Turn) {
    match m
    case There(act) => CanGo(p, act)
    case Back(act) => CanGo(Flip(p), act)
  }

  function Take(p: Pair, m: Turn): Pair
    requires CanTake(p, m)
  {
    match m
    case There(act) => Go(p, act)
    case Back(act) => Flip(Go(Flip(p), act))
  }

  ghost predicate CanTakeAll(p: Pair, turns: seq<Turn>)
    decreases |turns|
  {
    turns == [] || (CanTake(p, turns[0]) && CanTakeAll(Take(p, turns[0]), turns[1..]))
  }

  ghost function TakeAll(p: Pair, turns: seq<Turn>): Pair
    requires CanTakeAll(p, turns)
    decreases |turns|
  {
    if turns == [] then p else TakeAll(Take(p, turns[0]), turns[1..])
  }

  lemma LeadsJoin(v: World, acts: seq<Act>, m: World, more: seq<Act>, v': World)
    requires Leads(v, acts, m) && Leads(m, more, v')
    ensures Leads(v, acts + more, v')
  {
    RunsJoin(v, acts, more);
  }

  lemma TurnLeads(p: Pair, m: Turn) returns (there: seq<Act>, back: seq<Act>)
    requires PairOk(p) && CanTake(p, m)
    ensures PairOk(Take(p, m))
    ensures Leads(Seen(p), there, Seen(Take(p, m))) && Leads(Seen(Flip(p)), back, Seen(Flip(Take(p, m))))
  {
    match m
    case There(act) =>
      GoKeepsPair(p, act);
      GoLeads(p, act);
      there, back := Mine(p, act), Theirs(p, act);
    case Back(act) =>
      FlipOk(p);
      GoKeepsPair(Flip(p), act);
      GoLeads(Flip(p), act);
      FlipOk(Go(Flip(p), act));
      assert Flip(Flip(p)) == p;
      there, back := Theirs(Flip(p), act), Mine(Flip(p), act);
  }

  /** Each direction of a run of both is a run of its own: what the other direction does to the databases is
      invisible in it, or some other person's doing. */
  lemma {:induction false} DirectionsAreRuns(p: Pair, turns: seq<Turn>) returns (there: seq<Act>, back: seq<Act>)
    requires PairOk(p) && CanTakeAll(p, turns)
    ensures PairOk(TakeAll(p, turns))
    ensures Leads(Seen(p), there, Seen(TakeAll(p, turns))) && Leads(Seen(Flip(p)), back, Seen(Flip(TakeAll(p, turns))))
    decreases |turns|
  {
    if turns == [] {
      there, back := [], [];
    } else {
      var q := Take(p, turns[0]);
      var t, b := TurnLeads(p, turns[0]);
      var ts, bs := DirectionsAreRuns(q, turns[1..]);
      LeadsJoin(Seen(p), t, Seen(q), ts, Seen(TakeAll(p, turns)));
      LeadsJoin(Seen(Flip(p)), b, Seen(Flip(q)), bs, Seen(Flip(TakeAll(p, turns))));
      there, back := t + ts, b + bs;
    }
  }

  // ---- What holds for both repositories ----

  /** Nothing has been submitted in either direction, and no two issues have the same uuid. */
  ghost predicate MutualBeginning(p: Pair) {
    && p.guestsA == {} && p.guestsB == {}
    && Beginning(Seen(p)) && Beginning(Seen(Flip(p)))
    && Apart(Own(p.a, {}), Own(p.b, {}))
  }

  lemma MutualBeginningOk(p: Pair)
    requires MutualBeginning(p)
    ensures PairOk(p)
  {
    BeginningOk(Seen(p));
    BeginningOk(Seen(Flip(p)));
    DbsOk(p);
  }

  ghost predicate Came(p: Pair, q: Pair) {
    MutualBeginning(p) && exists turns :: CanTakeAll(p, turns) && TakeAll(p, turns) == q
  }

  lemma CameOk(p: Pair, q: Pair)
    requires Came(p, q)
    ensures PairOk(q) && Reached(Seen(p), Seen(q)) && Reached(Seen(Flip(p)), Seen(Flip(q)))
  {
    var turns :| CanTakeAll(p, turns) && TakeAll(p, turns) == q;
    MutualBeginningOk(p);
    var _, _ := DirectionsAreRuns(p, turns);
  }

  lemma OneHolderAtB(p: Pair, u: string, id: IssueId, other: IssueId)
    requires PairOk(p) && id in Holders(p.b, RefLabel(u)) && other in Holders(p.b, RefLabel(u))
    ensures id == other
  {
    var v, back := Seen(p), Seen(Flip(p));
    assert HasRef(p.b.issues[id], u) && HasRef(p.b.issues[other], u);
    GuestOrOwn(p, u, id);
    GuestOrOwn(p, u, other);
    if id in p.guestsB || other in p.guestsB {
      NotNamedTwice(v.a, back.a, u);
      assert v.b.issues[id] == p.b.issues[id] && v.b.issues[other] == p.b.issues[other];
    } else {
      assert back.a.issues[id].uuid == back.a.issues[other].uuid;
    }
  }

  lemma GuestOrOwn(p: Pair, u: string, id: IssueId)
    requires PairOk(p) && id in p.b.issues && HasRef(p.b.issues[id], u)
    ensures id in p.guestsB ==> Named(Seen(p).a, u)
    ensures id !in p.guestsB ==> Seen(Flip(p)).a.issues[id].uuid == Some(u) && Named(Seen(Flip(p)).a, u)
  {
    if id in p.guestsB {
      assert id in Seen(p).b.issues && Seen(p).b.issues[id] == p.b.issues[id];
    } else {
      var back := Seen(Flip(p));
      assert id in back.a.issues && back.a.issues[id] == p.b.issues[id] && SourceIssueOk(back, back.a.issues[id]);
      RefIsOwn(back, back.a.issues[id], u);
    }
  }

  /** In either database each ref label has at most one holder, whether the issue was asked or asks: so every
      lookup, of submits and of answers, has at most one issue to find. */
  lemma OneHolderInEachDatabase(p: Pair, q: Pair, u: string)
    requires Came(p, q)
    ensures AtMostOneHolder(q.a, RefLabel(u)) && AtMostOneHolder(q.b, RefLabel(u))
  {
    CameOk(p, q);
    FlipOk(q);
    forall id, other | id in Holders(q.b, RefLabel(u)) && other in Holders(q.b, RefLabel(u)) ensures id == other {
      OneHolderAtB(q, u, id, other);
    }
    forall id, other | id in Holders(q.a, RefLabel(u)) && other in Holders(q.a, RefLabel(u)) ensures id == other {
      OneHolderAtB(Flip(q), u, id, other);
    }
  }

  /** An answer is started in q, other things happen, and in r A's server completes it. */
  ghost predicate AnswerRun(q: Pair, issue: IssueId, labels: seq<string>, s: Pair, turns: seq<Turn>, r: Pair,
      done: Pair) {
    && CanGo(q, StartAnswer(issue, labels)) && s == Go(q, StartAnswer(issue, labels))
    && CanTakeAll(s, turns) && r == TakeAll(s, turns)
    && CanGo(r, SourceClose) && done == Go(r, SourceClose) && r.there.source.pid == q.there.nextPid
  }

  lemma StartSeen(q: Pair, issue: IssueId, labels: seq<string>, s: Pair)
    requires PairOk(q) && CanGo(q, StartAnswer(issue, labels)) && s == Go(q, StartAnswer(issue, labels))
    ensures PairOk(s) && Leads(Seen(q), [StartAnswer(issue, labels)], Seen(s)) && issue in q.guestsB
  {
    GoKeepsPair(q, StartAnswer(issue, labels));
    OrdinaryLeads(q, StartAnswer(issue, labels));
    AnswerableIsGuest(q, issue, labels);
  }

  lemma CloseSeen(r: Pair, done: Pair)
    requires PairOk(r) && CanGo(r, SourceClose) && done == Go(r, SourceClose)
    ensures Leads(Seen(r), [SourceClose], Seen(done))
  {
    OrdinaryLeads(r, SourceClose);
  }

  lemma AnswerRunSeen(q: Pair, issue: IssueId, labels: seq<string>, s: Pair, turns: seq<Turn>, r: Pair, done: Pair)
    returns (there: seq<Act>)
    requires PairOk(q) && AnswerRun(q, issue, labels, s, turns, r, done)
    ensures Leads(Seen(q), [StartAnswer(issue, labels)], Seen(s)) && Leads(Seen(s), there, Seen(r))
    ensures Leads(Seen(r), [SourceClose], Seen(done)) && issue in q.guestsB
  {
    StartSeen(q, issue, labels, s);
    var back;
    there, back := DirectionsAreRuns(s, turns);
    CloseSeen(r, done);
  }

  /** The issue holds the peer's results and is the one that the peer's issue refers to. */
  ghost predicate AnsweredBy(i: Issue, peer: Slug, j: Issue) {
    && i.uuid.Some? && HasRef(j, i.uuid.value) && HasRef(i, i.uuid.value)
    && i.status == Closed && STATUS_RESOLVED in i.labels && HoldsResults(i, peer, j.comments)
  }

  lemma LeadsRoundTrip(w: World, v: World, issue: IssueId, labels: seq<string>, s: World, acts: seq<Act>, m: World,
      done: World)
    requires Reached(w, v) && Leads(v, [StartAnswer(issue, labels)], s) && Leads(s, acts, m)
    requires Leads(m, [SourceClose], done)
    requires m.source.SourceIdle? || m.source.pid == v.nextPid
    ensures !m.source.SourceIdle? && m.source.id in done.a.issues && issue in v.b.issues
    ensures AnsweredBy(done.a.issues[m.source.id], v.slugB, v.b.issues[issue])
  {
    LeadsOnly(v, StartAnswer(issue, labels), s);
    LeadsOnly(m, SourceClose, done);
    AnswerRoundTrip(w, v, issue, labels, acts, m);
  }

  /** The round trip between repositories that ask each other: an answer completed by A's server settles the issue
      of A that B's issue refers to, whatever both directions did before and do meanwhile. */
  lemma MutualRoundTrip(p: Pair, q: Pair, issue: IssueId, labels: seq<string>, s: Pair, turns: seq<Turn>, r: Pair,
      done: Pair)
    requires Came(p, q) && AnswerRun(q, issue, labels, s, turns, r, done)
    ensures issue in q.b.issues && !r.there.source.SourceIdle? && r.there.source.id in done.a.issues
    ensures AnsweredBy(done.a.issues[r.there.source.id], q.slugB, q.b.issues[issue])
  {
    CameOk(p, q);
    var there := AnswerRunSeen(q, issue, labels, s, turns, r, done);
    LeadsRoundTrip(Seen(p), Seen(q), issue, labels, Seen(s), there, Seen(r), Seen(done));
    assert done.a.issues[r.there.source.id] == Seen(done).a.issues[r.there.source.id];
    assert Seen(q).b.issues[issue] == q.b.issues[issue];
  }

  /** An issue that is one's own and was submitted at most once never carries both pending and resolved. */
  lemma MutualNeverPendingAndResolved(p: Pair, turns: seq<Turn>, id: IssueId)
    requires MutualBeginning(p) && CanTakeAll(p, turns)
    requires var q := TakeAll(p, turns); id in q.a.issues && id !in q.guestsA && q.there.started[id] <= 1
    ensures !({STATUS_PENDING, STATUS_RESOLVED} <= TakeAll(p, turns).a.issues[id].labels)
  {
    MutualBeginningOk(p);
    var there, _ := DirectionsAreRuns(p, turns);
    NeverPendingAndResolved(Seen(p), there, id);
  }

  /** Everything holds in the other direction too: a run turned round is a run of the pair turned round. */
  lemma {:induction false} FlippedRun(p: Pair, turns: seq<Turn>) returns (turned: seq<Turn>)
    requires CanTakeAll(p, turns)
    ensures CanTakeAll(Flip(p), turned) && TakeAll(Flip(p), turned) == Flip(TakeAll(p, turns))
    decreases |turns|
  {
    if turns == [] {
      turned := [];
    } else {
      var m := match turns[0] case There(act) => Back(act) case Back(act) => There(act);
      var q := Take(p, turns[0]);
      assert Flip(Flip(p)) == p;
      assert CanTake(Flip(p), m) && Take(Flip(p), m) == Flip(q);
      var rest := FlippedRun(q, turns[1..]);
      turned := [m] + rest;
      assert turned[1..] == rest;
    }
  }
}
