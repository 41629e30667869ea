/** The question and answer exchange between a source repository A and a target
    repository B, one database access at a time: any number of submit and answer
    commands, cut off anywhere and retried, interleaved with both servers' handlers. */
module Exchange {
  import opened Protocol
  import opened Issues
  import opened Handlers
  import opened Client

  /** A client command in progress. One that was cut off before its reply is no longer
      `waiting`, but its request may still be served. `written` local writes are done. */
  datatype Process =
    | Submitting(issue: IssueId, submit: SubmitIssue, waiting: bool)
    | Marking(issue: IssueId, uuid: string, written: nat)
    | Answering(issue: IssueId, answer: SubmitAnswer, waiting: bool)
    | Closing(issue: IssueId, answer: SubmitAnswer, remote: IssueId, written: nat)

  /** B's server, which handles one submit at a time. */
  datatype Target =
    | TargetIdle
    | NotOpen(pid: nat, s: SubmitIssue)
    | NotFound(pid: nat, s: SubmitIssue)
    | Created(pid: nat, s: SubmitIssue, id: IssueId)

  /** A's server, which handles one answer at a time. */
  datatype Source =
    | SourceIdle
    | NoOpen(pid: nat, x: SubmitAnswer)
    | Found(pid: nat, x: SubmitAnswer, id: IssueId)
    | Loaded(pid: nat, x: SubmitAnswer, id: IssueId, copy: seq<string>)
    | Written(pid: nat, x: SubmitAnswer, id: IssueId)

  datatype World = World(
    slugA: Slug, slugB: Slug, a: Db, b: Db,
    procs: map<nat, Process>, nextPid: nat, target: Target, source: Source,
    started: multiset<IssueId>)

  /** Refuse: the handler fails before it has found anything out. SkipId: an id is used for an issue that is
      no part of this exchange, such as one of the exchange in the opposite direction. */
  datatype Act =
    | StartSubmit(issue: IssueId, labels: seq<string>)
    | StartAnswer(issue: IssueId, labels: seq<string>)
    | WriteNext(pid: nat)
    | CutOff(pid: nat)
    | Refuse(pid: nat)
    | TargetOpenPass(pid: nat, hit: Option<IssueId>)
    | TargetClosedPass(hit: Option<IssueId>)
    | TargetCreate(uuid: string)
    | TargetLabel
    | TargetFail
    | SourceOpenPass(pid: nat, hit: Option<IssueId>)
    | SourceClosedPass(hit: Option<IssueId>)
    | SourceLoad
    | SourceWrite
    | SourceClose
    | SourceFail
    | Remark(atA: bool, issue: IssueId, comment: Comment)
    | CloseByHand(atA: bool, issue: IssueId)
    | Post(atA: bool, content: Issue)
    | SkipId(atA: bool)

  /** Who takes the step: a client, B's server, A's server, or somebody else. */
  datatype Actor = Client | TargetServer | SourceServer | People

  function ActorOf(act: Act): Actor {
    match act
    case StartSubmit(_, _) => Client
    case StartAnswer(_, _) => Client
    case WriteNext(_) => Client
    case CutOff(_) => Client
    case Refuse(_) => Client
    case TargetOpenPass(_, _) => TargetServer
    case TargetClosedPass(_) => TargetServer
    case TargetCreate(_) => TargetServer
    case TargetLabel => TargetServer
    case TargetFail => TargetServer
    case SourceOpenPass(_, _) => SourceServer
    case SourceClosedPass(_) => SourceServer
    case SourceLoad => SourceServer
    case SourceWrite => SourceServer
    case SourceClose => SourceServer
    case SourceFail => SourceServer
    case Remark(_, _, _) => People
    case CloseByHand(_, _) => People
    case Post(_, _) => People
    case SkipId(_) => People
  }

  // ---- What can happen ----

  /** One pass of the lookup: some listed issue, or none if there is none. */
  ghost predicate Pass(db: Db, status: Status, uuid: string, hit: Option<IssueId>) {
    match hit
    case Some(id) => id in Listed(db, status, RefLabel(uuid))
    case None => Listed(db, status, RefLabel(uuid)) == {}
  }

  /** Premises on what people do: a comment does not imitate a copied answer, B's result comments on
      one issue differ, and new issues carry none of the labels crossbridge keeps track of. */
  ghost predicate Unobtrusive(w: World, act: Act) {
    match act
    case Remark(atA, issue, c) =>
      if atA then !("[from " + w.slugB + "] " <= c.content)
      else c.kind == "result" && issue in w.b.issues ==>
             Prefixed(w.slugB, c.content) !in Results(w.slugB, w.b.issues[issue].comments)
    case Post(atA, i) =>
      && i.comments == []
      && (forall l :: l in i.labels ==>
          !(REF_PREFIX <= l) && !(SOURCE_PREFIX <= l) && l != STATUS_PENDING && l != STATUS_RESOLVED)
      && (atA ==> i.uuid.Some? && forall id :: id in w.a.issues ==> w.a.issues[id].uuid != i.uuid)
    case _ => true
  }

  ghost predicate CanAct(w: World, act: Act) {
    match act
    case StartSubmit(issue, labels) =>
      && issue in w.a.issues && Enumerates(labels, w.a.issues[issue].labels)
      && SubmitRequest(w.a, issue, w.slugA, labels, true).Ok?
    case StartAnswer(issue, labels) =>
      && issue in w.b.issues && Enumerates(labels, w.b.issues[issue].labels)
      && AnswerRequest(w.b, issue, labels).Ok? && AnswerRequest(w.b, issue, labels).value.0 == w.slugA
    case WriteNext(pid) =>
      && pid in w.procs
      && (w.procs[pid].Marking? ==> w.procs[pid].issue in w.a.issues && w.procs[pid].written < 3)
      && (w.procs[pid].Closing? ==> w.procs[pid].issue in w.b.issues && w.procs[pid].written < 2)
      && (w.procs[pid].Marking? || w.procs[pid].Closing?)
    case CutOff(pid) => pid in w.procs
    case Refuse(pid) => pid in w.procs && (w.procs[pid].Submitting? || w.procs[pid].Answering?)
    case TargetOpenPass(pid, hit) =>
      && w.target.TargetIdle? && pid in w.procs && w.procs[pid].Submitting?
      && Pass(w.b, Open, w.procs[pid].submit.sourceUuid, hit)
    case TargetClosedPass(hit) => w.target.NotOpen? && Pass(w.b, Closed, w.target.s.sourceUuid, hit)
    case TargetCreate(_) => w.target.NotFound?
    case TargetLabel => w.target.Created? && w.target.id in w.b.issues
    case TargetFail => !w.target.TargetIdle?
    case SourceOpenPass(pid, hit) =>
      && w.source.SourceIdle? && pid in w.procs && w.procs[pid].Answering?
      && Pass(w.a, Open, w.procs[pid].answer.sourceUuid, hit)
    case SourceClosedPass(hit) => w.source.NoOpen? && Pass(w.a, Closed, w.source.x.sourceUuid, hit)
    case SourceLoad => w.source.Found? && w.source.id in w.a.issues
    case SourceWrite => w.source.Loaded? && w.source.id in w.a.issues
    case SourceClose => w.source.Written? && w.source.id in w.a.issues
    case SourceFail => !w.source.SourceIdle?
    case Remark(atA, issue, _) => issue in (if atA then w.a else w.b).issues
    case CloseByHand(atA, issue) => issue in (if atA then w.a else w.b).issues
    case Post(_, _) => true
    case SkipId(_) => true
  }

  // ---- What it does ----

  /** The reply reaches the client if it still waits; an error ends the command. */
  function Reply(procs: map<nat, Process>, pid: nat, r: Option<IssueId>): map<nat, Process> {
    if pid !in procs then procs
    else match procs[pid]
      case Submitting(issue, s, true) =>
        if r.Some? then procs[pid := Marking(issue, s.sourceUuid, 0)] else procs - {pid}
      case Answering(issue, x, true) => if r.Some? then procs[pid := Closing(issue, x, r.value, 0)] else procs - {pid}
      case Submitting(_, _, false) => procs - {pid}
      case Answering(_, _, false) => procs - {pid}
      case _ => procs
  }

  function Begin(w: World, p: Process): World {
    w.(procs := w.procs[w.nextPid := p], nextPid := w.nextPid + 1)
  }

  function ChangeA(w: World, id: IssueId, i: Issue): World { w.(a := Change(w.a, id, i)) }

  function ChangeB(w: World, id: IssueId, i: Issue): World { w.(b := Change(w.b, id, i)) }

  function Step(w: World, act: Act): World
    requires CanAct(w, act)
  {
    match act
    case StartSubmit(issue, labels) =>
      Begin(w, Submitting(issue, SubmitRequest(w.a, issue, w.slugA, labels, true).value, true))
        .(started := w.started + multiset{issue})
    case StartAnswer(issue, labels) => Begin(w, Answering(issue, AnswerRequest(w.b, issue, labels).value.1, true))
    case WriteNext(pid) => Advance(w, pid)
    case CutOff(pid) =>
      (match w.procs[pid]
       case Submitting(issue, s, _) => w.(procs := w.procs[pid := Submitting(issue, s, false)])
       case Answering(issue, x, _) => w.(procs := w.procs[pid := Answering(issue, x, false)])
       case _ => w.(procs := w.procs - {pid}))
    case Refuse(pid) => w.(procs := Reply(w.procs, pid, None))
    case TargetOpenPass(pid, hit) =>
      if hit.Some? then w.(procs := Reply(w.procs, pid, hit)) else w.(target := NotOpen(pid, w.procs[pid].submit))
    case TargetClosedPass(hit) =>
      if hit.Some? then w.(procs := Reply(w.procs, w.target.pid, hit), target := TargetIdle)
      else w.(target := NotFound(w.target.pid, w.target.s))
    case TargetCreate(uuid) =>
      w.(b := Insert(w.b, NewIssue(w.target.s, uuid)), target := Created(w.target.pid, w.target.s, w.b.nextId))
    case TargetLabel =>
      w.(b := Labelled(w.b, w.target.id, w.target.s), target := TargetIdle,
         procs := Reply(w.procs, w.target.pid, Some(w.target.id)))
    case TargetFail => w.(target := TargetIdle, procs := Reply(w.procs, w.target.pid, None))
    case SourceOpenPass(pid, hit) =>
      var x := w.procs[pid].answer;
      w.(source := if hit.Some? then Found(pid, x, hit.value) else NoOpen(pid, x))
    case SourceClosedPass(hit) =>
      if hit.Some? then w.(source := Found(w.source.pid, w.source.x, hit.value))
      else w.(source := SourceIdle, procs := Reply(w.procs, w.source.pid, None))
    case SourceLoad =>
      var s := w.source;
      w.(source := Loaded(s.pid, s.x, s.id, ToCopy(w.a.issues[s.id], w.slugB, s.x)))
    case SourceWrite =>
      var s := w.source;
      ChangeA(w, s.id, Applied(w.a.issues[s.id], s.copy)).(source := Written(s.pid, s.x, s.id))
    case SourceClose =>
      var s := w.source;
      ChangeA(w, s.id, w.a.issues[s.id].(status := Closed))
        .(source := SourceIdle, procs := Reply(w.procs, s.pid, Some(s.id)))
    case SourceFail => w.(source := SourceIdle, procs := Reply(w.procs, w.source.pid, None))
    case Remark(atA, issue, c) =>
      if atA then ChangeA(w, issue, w.a.issues[issue].(comments := w.a.issues[issue].comments + [c]))
      else ChangeB(w, issue, w.b.issues[issue].(comments := w.b.issues[issue].comments + [c]))
    case CloseByHand(atA, issue) =>
      if atA then ChangeA(w, issue, w.a.issues[issue].(status := Closed))
      else ChangeB(w, issue, w.b.issues[issue].(status := Closed))
    case Post(atA, i) => if atA then w.(a := Insert(w.a, i)) else w.(b := Insert(w.b, i))
    case SkipId(atA) =>
      if atA then w.(a := w.a.(nextId := w.a.nextId + 1)) else w.(b := w.b.(nextId := w.b.nextId + 1))
  }

  /** A command's next local write; after its last one it is done. */
  function Advance(w: World, pid: nat): World
    requires CanAct(w, WriteNext(pid))
  {
    match w.procs[pid]
    case Marking(issue, uuid, n) =>
      ChangeA(w, issue, AddLabel(w.a.issues[issue], SubmitLabels(uuid)[n]))
        .(procs := if n == 2 then w.procs - {pid} else w.procs[pid := Marking(issue, uuid, n + 1)])
    case Closing(issue, x, remote, n) =>
      if n == 0 then
        ChangeB(w, issue, AddLabel(w.b.issues[issue], STATUS_ANSWERED))
          .(procs := w.procs[pid := Closing(issue, x, remote, 1)])
      else
        ChangeB(w, issue, w.b.issues[issue].(status := Closed)).(procs := w.procs - {pid})
    case _ => w
  }

  ghost predicate Runs(w: World, acts: seq<Act>)
    decreases |acts|
  {
    acts == [] || (CanAct(w, acts[0]) && Unobtrusive(w, acts[0]) && Runs(Step(w, acts[0]), acts[1..]))
  }

  ghost function RunOf(w: World, acts: seq<Act>): World
    requires Runs(w, acts)
    decreases |acts|
  {
    if acts == [] then w else RunOf(Step(w, acts[0]), acts[1..])
  }
}
