/** What every run of the exchange keeps, and what its participants can rely on. */
module Delivery {
  import opened Protocol
  import opened Issues
  import opened Handlers
  import opened Client
  import opened Exchange

  // ---- The two databases ----

  ghost predicate HasRef(i: Issue, u: string) {
    RefLabel(u) in i.labels
  }

  ghost predicate Distinct(peer: Slug, comments: seq<Comment>) {
    forall x :: multiset(Results(peer, comments))[x] <= 1
  }

  /** An issue of B that refers to a submission is a proper inbound issue of A. */
  ghost predicate TargetIssueOk(w: World, i: Issue) {
    && (forall u :: HasRef(i, u) ==> Inbound(i.labels, w.slugA, u))
    && Distinct(w.slugB, i.comments)
  }

  /** An issue of A refers to no submission but its own, and holds each copied content at most once. */
  ghost predicate SourceIssueOk(w: World, i: Issue) {
    && (forall l :: l in i.labels && REF_PREFIX <= l ==> i.uuid.Some? && l == RefLabel(i.uuid.value))
    && (forall l :: l in i.labels ==> !(SOURCE_PREFIX <= l))
    && (forall c :: Occurrences(i.comments, Prefixed(w.slugB, c)) <= 1)
  }

  ghost predicate Held(db: Db, u: string) {
    exists id :: id in db.issues && HasRef(db.issues[id], u)
  }

  ghost predicate TargetOk(w: World) {
    && DbOk(w.b)
    && (forall id :: id in w.b.issues ==> TargetIssueOk(w, w.b.issues[id]))
    && (forall id, other, u ::
          (id in w.b.issues && other in w.b.issues && HasRef(w.b.issues[id], u) && HasRef(w.b.issues[other], u)) ==>
              id == other)
  }

  ghost predicate SourceOk(w: World) {
    && DbOk(w.a)
    && (forall id :: id in w.a.issues ==> SourceIssueOk(w, w.a.issues[id]))
    && (forall id, other ::
          (id in w.a.issues && other in w.a.issues && w.a.issues[id].uuid.Some? &&
              w.a.issues[id].uuid == w.a.issues[other].uuid)
          ==> id == other)
  }

  /** Nothing refers to a submission that B does not hold. */
  ghost predicate NoDangling(w: World) {
    forall id, u :: id in w.a.issues && HasRef(w.a.issues[id], u) ==> Held(w.b, u)
  }

  // ---- Commands and handlers in progress ----

  ghost predicate SubmitOk(w: World, s: SubmitIssue) {
    OwnLabelsOnly(s) && s.sourceSlug == w.slugA
  }

  ghost predicate AnswerOk(w: World, x: SubmitAnswer) {
    Distinct(w.slugB, x.comments) && Held(w.b, x.sourceUuid)
  }

  /** Everything the answer carries is in the issue, which is resolved. */
  ghost predicate Arrived(w: World, i: Issue, x: SubmitAnswer) {
    && HasRef(i, x.sourceUuid)
    && STATUS_RESOLVED in i.labels
    && Elements(Results(w.slugB, x.comments)) <= Contents(i)
  }

  ghost predicate ProcOk(w: World, p: Process) {
    match p
    case Submitting(issue, s, _) =>
      && SubmitOk(w, s) && issue in w.a.issues && w.a.issues[issue].uuid == Some(s.sourceUuid)
    case Marking(issue, uuid, n) =>
      && issue in w.a.issues && w.a.issues[issue].uuid == Some(uuid) && n < 3 && Held(w.b, uuid)
    case Answering(issue, x, _) => AnswerOk(w, x) && issue in w.b.issues && INBOUND in w.b.issues[issue].labels
    case Closing(issue, x, remote, n) =>
      && n < 2 && issue in w.b.issues && INBOUND in w.b.issues[issue].labels
      && remote in w.a.issues && w.a.issues[remote].status == Closed && Arrived(w, w.a.issues[remote], x)
  }

  ghost predicate TargetStateOk(w: World) {
    match w.target
    case TargetIdle => true
    case NotOpen(_, s) =>
      SubmitOk(w, s) && forall id :: id in w.b.issues && HasRef(w.b.issues[id], s.sourceUuid) ==>
          w.b.issues[id].status == Closed
    case NotFound(_, s) => SubmitOk(w, s) && !Held(w.b, s.sourceUuid)
    case Created(_, s, id) =>
      SubmitOk(w, s) && !Held(w.b, s.sourceUuid) && id in w.b.issues && w.b.issues[id].labels == {}
  }

  ghost predicate SourceStateOk(w: World) {
    match w.source
    case SourceIdle => true
    case NoOpen(_, x) => AnswerOk(w, x)
    case Found(_, x, id) => AnswerOk(w, x) && id in w.a.issues && HasRef(w.a.issues[id], x.sourceUuid)
    case Loaded(_, x, id, copy) =>
      && AnswerOk(w, x) && id in w.a.issues && HasRef(w.a.issues[id], x.sourceUuid)
      && CopyOk(w, w.a.issues[id], x, copy)
    case Written(_, x, id) => AnswerOk(w, x) && id in w.a.issues && Arrived(w, w.a.issues[id], x)
  }

  /** What was decided to be copied is still missing, differs pairwise, and completes the answer. */
  ghost predicate CopyOk(w: World, i: Issue, x: SubmitAnswer, copy: seq<string>) {
    && (forall c :: c in copy ==> c in Results(w.slugB, x.comments) && c !in Contents(i))
    && (forall c :: multiset(copy)[c] <= 1)
    && Elements(Results(w.slugB, x.comments)) <= Contents(i) + Elements(copy)
  }

  /** A busy server works for the command that sent its request, if that is still in progress. */
  ghost predicate Engaged(w: World) {
    && (!w.target.TargetIdle? ==>
          w.target.pid < w.nextPid &&
          (w.target.pid in w.procs ==> w.procs[w.target.pid].Submitting? && w.procs[w.target.pid].submit == w.target.s))
    && (!w.source.SourceIdle? ==>
          w.source.pid < w.nextPid &&
          (w.source.pid in w.procs ==> w.procs[w.source.pid].Answering? && w.procs[w.source.pid].answer == w.source.x))
  }

  ghost predicate WorldOk(w: World) {
    && TargetOk(w) && SourceOk(w) && NoDangling(w) && Engaged(w)
    && ProcsOk(w) && TargetStateOk(w) && SourceStateOk(w)
  }

  ghost predicate ProcsOk(w: World) {
    forall pid :: pid in w.procs ==> pid < w.nextPid && ProcOk(w, w.procs[pid])
  }

  // ---- Changes that disturb nothing ----

  /** B's issues stay, keep their ref and inbound labels, and closed issues stay closed. */
  ghost predicate GrowB(b: Db, b': Db) {
    forall id :: id in b.issues ==>
      && id in b'.issues
      && (forall u :: HasRef(b.issues[id], u) ==> HasRef(b'.issues[id], u))
      && (INBOUND in b.issues[id].labels ==> INBOUND in b'.issues[id].labels)
      && (b.issues[id].status == Closed ==> b'.issues[id].status == Closed)
  }

  /** Moreover no unlabelled issue gets a label and no new ref label appears. */
  ghost predicate QuietB(b: Db, b': Db) {
    && GrowB(b, b')
    && (forall id :: id in b.issues && b.issues[id].labels == {} ==> b'.issues[id].labels == {})
    && (forall id, u :: id in b'.issues && HasRef(b'.issues[id], u) ==> id in b.issues && HasRef(b.issues[id], u))
  }

  /** A's issue keeps uuid, ref labels, resolution, closedness and contents. */
  ghost predicate GrowIssue(i: Issue, j: Issue) {
    && j.uuid == i.uuid
    && (forall u :: HasRef(i, u) ==> HasRef(j, u))
    && (STATUS_RESOLVED in i.labels ==> STATUS_RESOLVED in j.labels)
    && (i.status == Closed ==> j.status == Closed)
    && Contents(i) <= Contents(j)
  }

  ghost predicate GrowA(a: Db, a': Db) {
    forall id :: id in a.issues ==> id in a'.issues && GrowIssue(a.issues[id], a'.issues[id])
  }

  /** Moreover only contents that do not look copied are added. */
  ghost predicate QuietA(w: World, a': Db) {
    && GrowA(w.a, a')
    && (forall id, c :: id in w.a.issues && Prefixed(w.slugB, c) in Contents(a'.issues[id]) ==>
          Prefixed(w.slugB, c) in Contents(w.a.issues[id]))
  }

  lemma {:induction false} ResultsArePrefixed(peer: Slug, comments: seq<Comment>, x: string)
    requires x in Results(peer, comments)
    ensures exists c :: x == Prefixed(peer, c)
  {
    var n := |comments| - 1;
    if x in Results(peer, comments[..n]) {
      ResultsArePrefixed(peer, comments[..n], x);
    } else {
      assert x == Prefixed(peer, comments[n].content);
    }
  }

  lemma HeldGrows(b: Db, b': Db, u: string)
    requires GrowB(b, b') && Held(b, u)
    ensures Held(b', u)
  {
  }

  lemma ProcStays(w: World, w': World, p: Process)
    requires ProcOk(w, p) && GrowB(w.b, w'.b) && GrowA(w.a, w'.a)
    requires w'.slugA == w.slugA && w'.slugB == w.slugB
    ensures ProcOk(w', p)
  {
  }

  lemma TargetStays(w: World, w': World)
    requires TargetStateOk(w) && QuietB(w.b, w'.b) && w'.target == w.target && w'.slugA == w.slugA
    ensures TargetStateOk(w')
  {
  }

  lemma SourceStays(w: World, w': World)
    requires SourceStateOk(w) && GrowB(w.b, w'.b) && QuietA(w, w'.a) && w'.source == w.source && w'.slugB == w.slugB
    ensures SourceStateOk(w')
  {
    if !w.source.SourceIdle? {
      HeldGrows(w.b, w'.b, w.source.x.sourceUuid);
      if !w.source.NoOpen? {
        assert GrowIssue(w.a.issues[w.source.id], w'.a.issues[w.source.id]);
      }
    }
    if w.source.Loaded? {
      forall c | c in w.source.copy ensures c !in Contents(w'.a.issues[w.source.id]) {
        ResultsArePrefixed(w.slugB, w.source.x.comments, c);
      }
    }
  }

  /** Every command is as before or fits the new state. */
  ghost predicate ProcsCarry(w: World, w': World) {
    forall pid :: pid in w'.procs ==>
      pid < w'.nextPid && ((pid in w.procs && w'.procs[pid] == w.procs[pid]) || ProcOk(w', w'.procs[pid]))
  }

  lemma ProcsStay(w: World, w': World)
    requires ProcsOk(w) && ProcsCarry(w, w') && GrowB(w.b, w'.b) && GrowA(w.a, w'.a)
    requires w'.slugA == w.slugA && w'.slugB == w.slugB
    ensures ProcsOk(w')
  {
  }

  /** What has to be shown of a step: the databases, and whatever it changes of commands and servers. */
  lemma Frame(w: World, w': World)
    requires WorldOk(w) && w'.slugA == w.slugA && w'.slugB == w.slugB
    requires GrowB(w.b, w'.b) && GrowA(w.a, w'.a)
    requires TargetOk(w') && SourceOk(w') && NoDangling(w') && Engaged(w') && ProcsCarry(w, w')
    requires (w'.target == w.target && QuietB(w.b, w'.b)) || TargetStateOk(w')
    requires (w'.source == w.source && QuietA(w, w'.a)) || SourceStateOk(w')
    ensures WorldOk(w')
  {
    ProcsStay(w, w');
    if w'.target == w.target && QuietB(w.b, w'.b) { TargetStays(w, w'); }
    if w'.source == w.source && QuietA(w, w'.a) { SourceStays(w, w'); }
  }

  // ---- Changing one issue ----

  lemma ChangeSource(w: World, w': World, id: IssueId, j: Issue)
    requires SourceOk(w) && id in w.a.issues && w'.a == Change(w.a, id, j) && w'.slugB == w.slugB
    requires SourceIssueOk(w, j) && j.uuid == w.a.issues[id].uuid
    ensures SourceOk(w')
  {
  }

  lemma ChangeTarget(w: World, w': World, id: IssueId, j: Issue)
    requires TargetOk(w) && id in w.b.issues && w'.b == Change(w.b, id, j) && w'.slugA == w.slugA && w'.slugB == w.slugB
    requires TargetIssueOk(w, j)
    requires forall u :: HasRef(j, u) ==> HasRef(w.b.issues[id], u)
    ensures TargetOk(w')
  {
  }

  lemma InsertSource(w: World, w': World, j: Issue)
    requires SourceOk(w) && w'.a == Insert(w.a, j) && w'.slugB == w.slugB && SourceIssueOk(w, j)
    requires forall id :: id in w.a.issues ==> w.a.issues[id].uuid != j.uuid
    ensures SourceOk(w')
  {
  }

  lemma InsertTarget(w: World, w': World, j: Issue)
    requires TargetOk(w) && w'.b == Insert(w.b, j) && w'.slugA == w.slugA && w'.slugB == w.slugB
    requires TargetIssueOk(w, j) && forall u :: !HasRef(j, u)
    ensures TargetOk(w')
  {
  }

  lemma GrowsByChange(db: Db, id: IssueId, j: Issue)
    requires id in db.issues && GrowIssue(db.issues[id], j)
    ensures GrowA(db, Change(db, id, j))
  {
  }

  lemma NothingDangles(w: World, w': World)
    requires NoDangling(w) && GrowB(w.b, w'.b)
    requires forall i, u :: i in w'.a.issues && HasRef(w'.a.issues[i], u) ==>
               (i in w.a.issues && HasRef(w.a.issues[i], u)) || Held(w.b, u)
    ensures NoDangling(w')
  {
    forall i, u | i in w'.a.issues && HasRef(w'.a.issues[i], u) ensures Held(w'.b, u) {
      HeldGrows(w.b, w'.b, u);
    }
  }

  // ---- Starting commands ----

  lemma {:induction false} FoundIsThere(labels: seq<string>, prefix: string)
    requires FindPrefixed(labels, prefix).Some?
    ensures prefix + FindPrefixed(labels, prefix).value in labels
  {
    if prefix <= labels[0] {
      PrefixedIsPlus(labels[0], prefix);
    } else {
      FoundIsThere(labels[1..], prefix);
    }
  }

  lemma StartSubmitKeeps(w: World, issue: IssueId, labels: seq<string>)
    requires WorldOk(w) && CanAct(w, StartSubmit(issue, labels))
    ensures WorldOk(Step(w, StartSubmit(issue, labels)))
  {
    assert SourceIssueOk(w, w.a.issues[issue]);
    var s := SubmitRequest(w.a, issue, w.slugA, labels, true).value;
    FrameStart(w, Step(w, StartSubmit(issue, labels)), Submitting(issue, s, true));
  }

  lemma StartAnswerOk(w: World, issue: IssueId, labels: seq<string>, x: SubmitAnswer)
    requires TargetOk(w) && CanAct(w, StartAnswer(issue, labels)) && x == AnswerRequest(w.b, issue, labels).value.1
    ensures AnswerOk(w, x) && INBOUND in w.b.issues[issue].labels
  {
    assert TargetIssueOk(w, w.b.issues[issue]);
    FoundIsThere(labels, REF_PREFIX);
    assert HasRef(w.b.issues[issue], x.sourceUuid);
    ResultsOfResults(w.slugB, w.b.issues[issue].comments);
  }

  /** A new command leaves everything else alone. */
  lemma FrameStart(w: World, w': World, p: Process)
    requires WorldOk(w) && ProcOk(w, p)
    requires w' == w.(procs := w.procs[w.nextPid := p], nextPid := w.nextPid + 1, started := w'.started)
    ensures WorldOk(w')
  {
    SameTarget(w, w');
    SameSource(w, w');
    assert ProcOk(w', p);
    Frame(w, w');
  }

  lemma StartAnswerKeeps(w: World, issue: IssueId, labels: seq<string>)
    requires WorldOk(w) && CanAct(w, StartAnswer(issue, labels))
    ensures WorldOk(Step(w, StartAnswer(issue, labels)))
  {
    var x := AnswerRequest(w.b, issue, labels).value.1;
    StartAnswerOk(w, issue, labels, x);
    FrameStart(w, Step(w, StartAnswer(issue, labels)), Answering(issue, x, true));
  }

  /** Only one command changes. */
  lemma FrameProc(w: World, w': World, pid: nat)
    requires WorldOk(w) && w' == w.(procs := w'.procs) && pid in w.procs
    requires w'.procs == w.procs - {pid} ||
        (pid in w'.procs && w'.procs == w.procs[pid := w'.procs[pid]] && ProcOk(w', w'.procs[pid]))
    requires Engaged(w')
    ensures WorldOk(w')
  {
    Frame(w, w');
  }

  lemma CutOffEngaged(w: World, w': World, pid: nat)
    requires Engaged(w) && CanAct(w, CutOff(pid)) && w' == Step(w, CutOff(pid))
    ensures Engaged(w')
  {
  }

  lemma CutOffKeeps(w: World, pid: nat)
    requires WorldOk(w) && CanAct(w, CutOff(pid))
    ensures WorldOk(Step(w, CutOff(pid)))
  {
    var w' := Step(w, CutOff(pid));
    CutOffEngaged(w, w', pid);
    assert ProcOk(w, w.procs[pid]);
    FrameProc(w, w', pid);
  }

  lemma RefuseKeeps(w: World, pid: nat)
    requires WorldOk(w) && CanAct(w, Refuse(pid))
    ensures WorldOk(Step(w, Refuse(pid)))
  {
    FrameProc(w, Step(w, Refuse(pid)), pid);
  }

  // ---- Local writes ----

  lemma PlainLabel(l: string, i: Issue)
    requires l == OUTBOUND || l == STATUS_PENDING || l == STATUS_RESOLVED || l == STATUS_ANSWERED
    ensures !(REF_PREFIX <= l) && !(SOURCE_PREFIX <= l)
    ensures forall u :: HasRef(AddLabel(i, l), u) <==> HasRef(i, u)
  {
    assert REF_PREFIX[3] == 'r' && SOURCE_PREFIX[4] == 'o';
    assert OUTBOUND[3] == 'o' && OUTBOUND[4] == 'u';
    assert STATUS_PENDING[3] == 's' && STATUS_PENDING[4] == 't' && STATUS_RESOLVED[3] == 's' &&
        STATUS_RESOLVED[4] == 't';
    assert STATUS_ANSWERED[3] == 's' && STATUS_ANSWERED[4] == 't';
    forall u ensures RefLabel(u) != l {
      assert RefLabel(u)[3] == 'r';
    }
  }

  lemma SubmitLabelFits(w: World, i: Issue, uuid: string, n: nat)
    requires SourceIssueOk(w, i) && i.uuid == Some(uuid) && n < 3
    ensures SourceIssueOk(w, AddLabel(i, SubmitLabels(uuid)[n]))
    ensures forall u :: HasRef(AddLabel(i, SubmitLabels(uuid)[n]), u) ==> HasRef(i, u) || u == uuid
  {
    var l := SubmitLabels(uuid)[n];
    if n < 2 {
      PlainLabel(l, i);
    } else {
      assert l[3] == 'r' && SOURCE_PREFIX[3] == 's';
      forall u | RefLabel(u) == l ensures u == uuid {
        PlusInjective(REF_PREFIX, u, uuid);
      }
    }
  }

  lemma MarkDb(w: World, w': World, p: Process)
    requires SourceOk(w) && NoDangling(w) && p.Marking? && ProcOk(w, p)
    requires w'.a == Change(w.a, p.issue, AddLabel(w.a.issues[p.issue], SubmitLabels(p.uuid)[p.written]))
    requires w'.b == w.b && w'.slugA == w.slugA && w'.slugB == w.slugB
    ensures SourceOk(w') && NoDangling(w') && QuietA(w, w'.a) && ProcOk(w', p)
  {
    var i := w.a.issues[p.issue];
    var j := w'.a.issues[p.issue];
    SubmitLabelFits(w, i, p.uuid, p.written);
    ChangeSource(w, w', p.issue, j);
    GrowsByChange(w.a, p.issue, j);
    NothingDangles(w, w');
  }

  lemma AdvanceEngaged(w: World, pid: nat)
    requires Engaged(w) && CanAct(w, WriteNext(pid))
    ensures Engaged(Advance(w, pid))
  {
  }

  lemma SameTarget(w: World, w': World)
    requires TargetOk(w) && w'.b == w.b && w'.slugA == w.slugA && w'.slugB == w.slugB
    ensures TargetOk(w')
  {
  }

  lemma SameSource(w: World, w': World)
    requires SourceOk(w) && w'.a == w.a && w'.slugB == w.slugB
    ensures SourceOk(w')
  {
  }

  lemma AdvanceCarries(w: World, pid: nat, p: Process)
    requires ProcsOk(w) && CanAct(w, WriteNext(pid)) && p == w.procs[pid] && ProcOk(Advance(w, pid), p)
    ensures ProcsCarry(w, Advance(w, pid))
  {
  }

  lemma MarkKeeps(w: World, pid: nat)
    requires WorldOk(w) && CanAct(w, WriteNext(pid)) && w.procs[pid].Marking?
    ensures WorldOk(Advance(w, pid))
  {
    var w' := Advance(w, pid);
    MarkDb(w, w', w.procs[pid]);
    SameTarget(w, w');
    AdvanceEngaged(w, pid);
    AdvanceCarries(w, pid, w.procs[pid]);
    Frame(w, w');
  }

  lemma CloseUpDb(w: World, w': World, p: Process)
    requires TargetOk(w) && NoDangling(w) && p.Closing? && ProcOk(w, p)
    requires w'.b == Change(w.b, p.issue, if p.written == 0 then AddLabel(w.b.issues[p.issue], STATUS_ANSWERED)
                                          else w.b.issues[p.issue].(status := Closed))
    requires w'.a == w.a && w'.slugA == w.slugA && w'.slugB == w.slugB
    ensures TargetOk(w') && NoDangling(w') && QuietB(w.b, w'.b) && ProcOk(w', p)
  {
    var i := w.b.issues[p.issue];
    var j := w'.b.issues[p.issue];
    assert TargetIssueOk(w, i);
    PlainLabel(STATUS_ANSWERED, i);
    forall u | HasRef(j, u) ensures Inbound(j.labels, w.slugA, u) {
      assert HasRef(i, u);
    }
    ChangeTarget(w, w', p.issue, j);
    NothingDangles(w, w');
    ProcStays(w, w', p);
  }

  lemma CloseUpKeeps(w: World, pid: nat)
    requires WorldOk(w) && CanAct(w, WriteNext(pid)) && w.procs[pid].Closing?
    ensures WorldOk(Advance(w, pid))
  {
    var w' := Advance(w, pid);
    CloseUpDb(w, w', w.procs[pid]);
    SameSource(w, w');
    AdvanceEngaged(w, pid);
    AdvanceCarries(w, pid, w.procs[pid]);
    Frame(w, w');
  }

  // ---- B's server ----

  lemma ReplyCarries(w: World, w': World, pid: nat, hit: Option<IssueId>)
    requires ProcsOk(w) && GrowA(w.a, w'.a) && GrowB(w.b, w'.b) && w'.slugA == w.slugA && w'.slugB == w.slugB
    requires w'.procs == Reply(w.procs, pid, hit) && w'.nextPid == w.nextPid
    requires pid in w.procs && pid in w'.procs && w'.procs[pid] != w.procs[pid] ==> ProcOk(w', w'.procs[pid])
    ensures ProcsCarry(w, w')
  {
  }

  lemma TargetReplyCarries(w: World, w': World, pid: nat, s: SubmitIssue, hit: Option<IssueId>)
    requires ProcsOk(w) && w'.slugA == w.slugA && w'.slugB == w.slugB && w'.a == w.a && GrowB(w.b, w'.b)
    requires pid in w.procs ==> w.procs[pid].Submitting? && w.procs[pid].submit == s
    requires hit.Some? ==> Held(w'.b, s.sourceUuid)
    requires w'.procs == Reply(w.procs, pid, hit) && w'.nextPid == w.nextPid
    ensures ProcsCarry(w, w')
  {
    if pid in w.procs {
      assert ProcOk(w, w.procs[pid]);
    }
    ReplyCarries(w, w', pid, hit);
  }

  lemma TargetReplyEngaged(w: World, w': World, pid: nat, hit: Option<IssueId>)
    requires Engaged(w) && (pid in w.procs ==> w.procs[pid].Submitting?)
    requires w'.procs == Reply(w.procs, pid, hit) && w'.nextPid == w.nextPid
    requires w'.source == w.source && w'.target == TargetIdle
    ensures Engaged(w')
  {
  }

  /** The reply of B's server to a submit, successful if B holds the submission. */
  lemma TargetReply(w: World, w': World, pid: nat, s: SubmitIssue, hit: Option<IssueId>)
    requires WorldOk(w) && w'.slugA == w.slugA && w'.slugB == w.slugB
    requires w'.a == w.a && GrowB(w.b, w'.b) && TargetOk(w')
    requires pid in w.procs ==> w.procs[pid].Submitting? && w.procs[pid].submit == s
    requires hit.Some? ==> Held(w'.b, s.sourceUuid)
    requires w'.procs == Reply(w.procs, pid, hit) && w'.nextPid == w.nextPid
    requires w'.source == w.source && w'.target == TargetIdle
    ensures WorldOk(w')
  {
    NothingDangles(w, w');
    SameSource(w, w');
    TargetReplyCarries(w, w', pid, s, hit);
    TargetReplyEngaged(w, w', pid, hit);
    Frame(w, w');
  }

  lemma HitIsHeld(db: Db, status: Status, u: string, hit: Option<IssueId>)
    requires Pass(db, status, u, hit) && hit.Some?
    ensures hit.value in db.issues && HasRef(db.issues[hit.value], u) && Held(db, u)
  {
  }

  lemma OpenPassHits(w: World, w': World, pid: nat, s: SubmitIssue, hit: Option<IssueId>)
    requires WorldOk(w) && w.target.TargetIdle? && pid in w.procs
    requires w.procs[pid].Submitting? && w.procs[pid].submit == s
    requires hit.Some? && Pass(w.b, Open, s.sourceUuid, hit) && w' == w.(procs := Reply(w.procs, pid, hit))
    ensures WorldOk(w')
  {
    HitIsHeld(w.b, Open, s.sourceUuid, hit);
    SameTarget(w, w');
    TargetReply(w, w', pid, s, hit);
  }

  lemma OpenPassMisses(w: World, w': World, pid: nat, s: SubmitIssue)
    requires WorldOk(w) && pid in w.procs && w.procs[pid].Submitting? && w.procs[pid].submit == s
    requires Pass(w.b, Open, s.sourceUuid, None) && w' == w.(target := NotOpen(pid, s))
    ensures WorldOk(w')
  {
    assert ProcOk(w, w.procs[pid]);
    forall id | id in w.b.issues && HasRef(w.b.issues[id], s.sourceUuid) ensures w.b.issues[id].status == Closed {
      assert id !in Listed(w.b, Open, RefLabel(s.sourceUuid));
    }
    SameTarget(w, w');
    SameSource(w, w');
    Frame(w, w');
  }

  lemma TargetOpenPassKeeps(w: World, pid: nat, hit: Option<IssueId>)
    requires WorldOk(w) && CanAct(w, TargetOpenPass(pid, hit))
    ensures WorldOk(Step(w, TargetOpenPass(pid, hit)))
  {
    if hit.Some? {
      OpenPassHits(w, Step(w, TargetOpenPass(pid, hit)), pid, w.procs[pid].submit, hit);
    } else {
      OpenPassMisses(w, Step(w, TargetOpenPass(pid, hit)), pid, w.procs[pid].submit);
    }
  }

  lemma TargetClosedPassKeeps(w: World, hit: Option<IssueId>)
    requires WorldOk(w) && CanAct(w, TargetClosedPass(hit))
    ensures WorldOk(Step(w, TargetClosedPass(hit)))
  {
    var s := w.target.s;
    var w' := Step(w, TargetClosedPass(hit));
    if hit.Some? {
      HitIsHeld(w.b, Closed, s.sourceUuid, hit);
      TargetReply(w, w', w.target.pid, s, hit);
    } else {
      forall id | id in w.b.issues ensures !HasRef(w.b.issues[id], s.sourceUuid) {
        assert id !in Listed(w.b, Closed, RefLabel(s.sourceUuid));
      }
      Frame(w, w');
    }
  }

  lemma TargetCreateKeeps(w: World, uuid: string)
    requires WorldOk(w) && CanAct(w, TargetCreate(uuid))
    ensures WorldOk(Step(w, TargetCreate(uuid)))
  {
    var w' := Step(w, TargetCreate(uuid));
    var j := NewIssue(w.target.s, uuid);
    assert Results(w.slugB, j.comments) == [];
    InsertTarget(w, w', j);
    assert QuietB(w.b, w'.b);
    NothingDangles(w, w');
    Frame(w, w');
  }

  lemma TargetLabelKeeps(w: World)
    requires WorldOk(w) && CanAct(w, TargetLabel)
    ensures WorldOk(Step(w, TargetLabel))
  {
    var w' := Step(w, TargetLabel);
    var s, id := w.target.s, w.target.id;
    var j := w'.b.issues[id];
    assert j.labels == InboundLabels(s);
    InboundLabelsAreInbound(s);
    forall u | HasRef(j, u) ensures u == s.sourceUuid {
      assert REF_PREFIX <= RefLabel(u);
      PlusInjective(REF_PREFIX, u, s.sourceUuid);
    }
    assert HasRef(j, s.sourceUuid);
    assert TargetIssueOk(w, w.b.issues[id]);
    LabelledTarget(w, w', id, s.sourceUuid, j);
    assert w.b.issues[id].labels == {};
    assert GrowB(w.b, w'.b);
    TargetReply(w, w', w.target.pid, s, Some(id));
  }

  /** An unlabelled issue becomes the only holder of a submission nobody holds. */
  lemma LabelledTarget(w: World, w': World, id: IssueId, uuid: string, j: Issue)
    requires TargetOk(w) && id in w.b.issues && w'.b == Change(w.b, id, j) && w'.slugA == w.slugA && w'.slugB == w.slugB
    requires !Held(w.b, uuid) && TargetIssueOk(w, j) && forall u :: HasRef(j, u) ==> u == uuid
    ensures TargetOk(w')
  {
  }

  lemma TargetFailKeeps(w: World)
    requires WorldOk(w) && CanAct(w, TargetFail)
    ensures WorldOk(Step(w, TargetFail))
  {
    TargetReply(w, Step(w, TargetFail), w.target.pid, w.target.s, None);
  }

  // ---- A's server ----

  lemma SourceReplyCarries(w: World, w': World, pid: nat, hit: Option<IssueId>)
    requires ProcsOk(w) && w'.slugA == w.slugA && w'.slugB == w.slugB && w'.b == w.b && GrowA(w.a, w'.a)
    requires pid in w.procs ==> w.procs[pid].Answering?
    requires w'.procs == Reply(w.procs, pid, hit) && w'.nextPid == w.nextPid
    requires hit.Some? && pid in w.procs ==>
               hit.value in w'.a.issues && w'.a.issues[hit.value].status == Closed &&
                   Arrived(w', w'.a.issues[hit.value], w.procs[pid].answer)
    ensures ProcsCarry(w, w')
  {
    if pid in w.procs {
      assert ProcOk(w, w.procs[pid]);
    }
    ReplyCarries(w, w', pid, hit);
  }

  lemma SourceReplyEngaged(w: World, w': World, pid: nat, hit: Option<IssueId>)
    requires Engaged(w) && (pid in w.procs ==> w.procs[pid].Answering?)
    requires w'.procs == Reply(w.procs, pid, hit) && w'.nextPid == w.nextPid
    requires w'.target == w.target && w'.source == SourceIdle
    ensures Engaged(w')
  {
  }

  /** A step of A's server that leaves B alone. */
  lemma SourceReply(w: World, w': World, pid: nat, hit: Option<IssueId>)
    requires WorldOk(w) && w'.slugA == w.slugA && w'.slugB == w.slugB
    requires w'.b == w.b && GrowA(w.a, w'.a) && SourceOk(w') && NoDangling(w')
    requires pid in w.procs ==> w.procs[pid].Answering?
    requires w'.procs == Reply(w.procs, pid, hit) && w'.nextPid == w.nextPid
    requires w'.target == w.target && w'.source == SourceIdle
    requires hit.Some? && pid in w.procs ==>
               hit.value in w'.a.issues && w'.a.issues[hit.value].status == Closed &&
                   Arrived(w', w'.a.issues[hit.value], w.procs[pid].answer)
    ensures WorldOk(w')
  {
    SameTarget(w, w');
    SourceReplyCarries(w, w', pid, hit);
    SourceReplyEngaged(w, w', pid, hit);
    Frame(w, w');
  }

  /** A's server moves on without replying. */
  lemma SourceMoves(w: World, w': World)
    requires WorldOk(w) && w' == w.(a := w'.a, source := w'.source)
    requires GrowA(w.a, w'.a) && SourceOk(w') && NoDangling(w') && SourceStateOk(w')
    requires Engaged(w')
    ensures WorldOk(w')
  {
  }

  lemma LookUpKeeps(w: World, w': World, pid: nat, x: SubmitAnswer, hit: Option<IssueId>)
    requires WorldOk(w) && pid in w.procs && w.procs[pid].Answering? && w.procs[pid].answer == x
    requires Pass(w.a, Open, x.sourceUuid, hit)
    requires w' == w.(source := if hit.Some? then Found(pid, x, hit.value) else NoOpen(pid, x))
    ensures WorldOk(w')
  {
    assert ProcOk(w, w.procs[pid]);
    if hit.Some? {
      HitIsHeld(w.a, Open, x.sourceUuid, hit);
    }
    SameSource(w, w');
    SourceMoves(w, w');
  }

  lemma SourceOpenPassKeeps(w: World, pid: nat, hit: Option<IssueId>)
    requires WorldOk(w) && CanAct(w, SourceOpenPass(pid, hit))
    ensures WorldOk(Step(w, SourceOpenPass(pid, hit)))
  {
    LookUpKeeps(w, Step(w, SourceOpenPass(pid, hit)), pid, w.procs[pid].answer, hit);
  }

  lemma SourceClosedPassKeeps(w: World, hit: Option<IssueId>)
    requires WorldOk(w) && CanAct(w, SourceClosedPass(hit))
    ensures WorldOk(Step(w, SourceClosedPass(hit)))
  {
    var w' := Step(w, SourceClosedPass(hit));
    SameSource(w, w');
    if hit.Some? {
      HitIsHeld(w.a, Closed, w.source.x.sourceUuid, hit);
      SourceMoves(w, w');
    } else {
      SourceReply(w, w', w.source.pid, None);
    }
  }

  /** What is missing now, each content once, completes the answer. */
  lemma MissingCompletes(w: World, i: Issue, x: SubmitAnswer)
    requires Distinct(w.slugB, x.comments)
    ensures CopyOk(w, i, x, ToCopy(i, w.slugB, x))
  {
    var rs, copy := Results(w.slugB, x.comments), ToCopy(i, w.slugB, x);
    MissingElements(rs, Contents(i));
    forall c ensures multiset(copy)[c] <= 1 && (c in copy ==> c in rs && c !in Contents(i)) {
      MissingCount(rs, Contents(i), c);
      assert c in copy <==> c in Elements(copy);
    }
  }

  lemma SourceLoadKeeps(w: World)
    requires WorldOk(w) && CanAct(w, SourceLoad)
    ensures WorldOk(Step(w, SourceLoad))
  {
    var w' := Step(w, SourceLoad);
    MissingCompletes(w, w.a.issues[w.source.id], w.source.x);
    SameSource(w, w');
    SourceMoves(w, w');
  }

  lemma AppliedContents(i: Issue, copy: seq<string>)
    ensures Contents(Applied(i, copy)) == Contents(i) + Elements(copy)
  {
  }

  lemma AppliedRefs(i: Issue, copy: seq<string>)
    ensures forall u :: HasRef(Applied(i, copy), u) <==> HasRef(i, u)
    ensures forall l :: l in Applied(i, copy).labels && (REF_PREFIX <= l || SOURCE_PREFIX <= l) ==> l in i.labels
  {
    PlainLabel(STATUS_PENDING, i);
    PlainLabel(STATUS_RESOLVED, i);
    forall u ensures RefLabel(u) != STATUS_PENDING && RefLabel(u) != STATUS_RESOLVED {
      PendingIsNoRef(u);
    }
  }

  /** The transaction keeps every copied content single and completes the answer. */
  lemma AppliedFits(w: World, i: Issue, x: SubmitAnswer, copy: seq<string>)
    requires SourceIssueOk(w, i) && CopyOk(w, i, x, copy) && HasRef(i, x.sourceUuid)
    ensures SourceIssueOk(w, Applied(i, copy)) && GrowIssue(i, Applied(i, copy)) && Arrived(w, Applied(i, copy), x)
  {
    AppliedContents(i, copy);
    AppliedRefs(i, copy);
    forall c ensures Occurrences(Applied(i, copy).comments, Prefixed(w.slugB, c)) <= 1 {
      var p := Prefixed(w.slugB, c);
      OccurrencesAppend(i.comments, copy, p);
      InContents(i, p);
      assert p in copy <==> multiset(copy)[p] > 0;
    }
  }

  lemma WriteDb(w: World, w': World)
    requires SourceOk(w) && NoDangling(w) && w.source.Loaded? && SourceStateOk(w)
    requires w'.a == Change(w.a, w.source.id, Applied(w.a.issues[w.source.id], w.source.copy))
    requires w'.b == w.b && w'.slugB == w.slugB
    ensures SourceOk(w') && NoDangling(w') && GrowA(w.a, w'.a) && Arrived(w', w'.a.issues[w.source.id], w.source.x)
  {
    var id := w.source.id;
    var i := w.a.issues[id];
    AppliedFits(w, i, w.source.x, w.source.copy);
    AppliedRefs(i, w.source.copy);
    ChangeSource(w, w', id, w'.a.issues[id]);
    GrowsByChange(w.a, id, w'.a.issues[id]);
    NothingDangles(w, w');
  }

  lemma SourceWriteKeeps(w: World)
    requires WorldOk(w) && CanAct(w, SourceWrite)
    ensures WorldOk(Step(w, SourceWrite))
  {
    var w' := Step(w, SourceWrite);
    WriteDb(w, w');
    SourceMoves(w, w');
  }

  lemma CloseDb(w: World, w': World, id: IssueId)
    requires SourceOk(w) && NoDangling(w) && id in w.a.issues
    requires w'.a == Change(w.a, id, w.a.issues[id].(status := Closed)) && w'.b == w.b && w'.slugB == w.slugB
    ensures SourceOk(w') && NoDangling(w') && QuietA(w, w'.a)
  {
    assert SourceIssueOk(w, w.a.issues[id]);
    ChangeSource(w, w', id, w'.a.issues[id]);
    GrowsByChange(w.a, id, w'.a.issues[id]);
    NothingDangles(w, w');
  }

  lemma SourceCloseKeeps(w: World)
    requires WorldOk(w) && CanAct(w, SourceClose)
    ensures WorldOk(Step(w, SourceClose))
  {
    var w' := Step(w, SourceClose);
    CloseDb(w, w', w.source.id);
    SourceReply(w, w', w.source.pid, Some(w.source.id));
  }

  lemma SourceFailKeeps(w: World)
    requires WorldOk(w) && CanAct(w, SourceFail)
    ensures WorldOk(Step(w, SourceFail))
  {
    SameSource(w, Step(w, SourceFail));
    SourceReply(w, Step(w, SourceFail), w.source.pid, None);
  }

  // ---- What people do ----

  lemma FrameDbs(w: World, w': World)
    requires WorldOk(w) && w' == w.(a := w'.a, b := w'.b)
    requires TargetOk(w') && SourceOk(w') && NoDangling(w') && QuietA(w, w'.a) && QuietB(w.b, w'.b)
    ensures WorldOk(w')
  {
    Frame(w, w');
  }

  lemma RemarkAFits(w: World, i: Issue, c: Comment)
    requires SourceIssueOk(w, i) && !("[from " + w.slugB + "] " <= c.content)
    ensures SourceIssueOk(w, i.(comments := i.comments + [c]))
    ensures forall d :: Prefixed(w.slugB, d) in Contents(i.(comments := i.comments + [c])) ==>
        Prefixed(w.slugB, d) in Contents(i)
    ensures Contents(i) <= Contents(i.(comments := i.comments + [c]))
  {
  }

  lemma RemarkBFits(w: World, i: Issue, c: Comment)
    requires TargetIssueOk(w, i)
    requires (c.kind == "result" ==> Prefixed(w.slugB, c.content) !in Results(w.slugB, i.comments))
    ensures TargetIssueOk(w, i.(comments := i.comments + [c]))
  {
  }

  lemma RemarkAKeeps(w: World, w': World, id: IssueId, c: Comment)
    requires WorldOk(w) && id in w.a.issues && !("[from " + w.slugB + "] " <= c.content)
    requires w' == ChangeA(w, id, w.a.issues[id].(comments := w.a.issues[id].comments + [c]))
    ensures WorldOk(w')
  {
    RemarkAFits(w, w.a.issues[id], c);
    ChangeSource(w, w', id, w'.a.issues[id]);
    GrowsByChange(w.a, id, w'.a.issues[id]);
    SameTarget(w, w');
    NothingDangles(w, w');
    FrameDbs(w, w');
  }

  lemma RemarkBKeeps(w: World, w': World, id: IssueId, c: Comment)
    requires WorldOk(w) && id in w.b.issues
    requires c.kind == "result" ==> Prefixed(w.slugB, c.content) !in Results(w.slugB, w.b.issues[id].comments)
    requires w' == ChangeB(w, id, w.b.issues[id].(comments := w.b.issues[id].comments + [c]))
    ensures WorldOk(w')
  {
    RemarkBFits(w, w.b.issues[id], c);
    ChangeTarget(w, w', id, w'.b.issues[id]);
    SameSource(w, w');
    NothingDangles(w, w');
    FrameDbs(w, w');
  }

  lemma RemarkKeeps(w: World, atA: bool, id: IssueId, c: Comment)
    requires WorldOk(w) && CanAct(w, Remark(atA, id, c)) && Unobtrusive(w, Remark(atA, id, c))
    ensures WorldOk(Step(w, Remark(atA, id, c)))
  {
    if atA {
      RemarkAKeeps(w, Step(w, Remark(atA, id, c)), id, c);
    } else {
      RemarkBKeeps(w, Step(w, Remark(atA, id, c)), id, c);
    }
  }

  lemma CloseByHandKeeps(w: World, atA: bool, id: IssueId)
    requires WorldOk(w) && CanAct(w, CloseByHand(atA, id))
    ensures WorldOk(Step(w, CloseByHand(atA, id)))
  {
    var w' := Step(w, CloseByHand(atA, id));
    if atA {
      CloseDb(w, w', id);
      SameTarget(w, w');
    } else {
      assert TargetIssueOk(w, w.b.issues[id]);
      ChangeTarget(w, w', id, w'.b.issues[id]);
      SameSource(w, w');
      NothingDangles(w, w');
    }
    FrameDbs(w, w');
  }

  lemma PostKeeps(w: World, atA: bool, i: Issue)
    requires WorldOk(w) && Unobtrusive(w, Post(atA, i))
    ensures WorldOk(Step(w, Post(atA, i)))
  {
    var w' := Step(w, Post(atA, i));
    forall u ensures !HasRef(i, u) {
      assert REF_PREFIX <= RefLabel(u);
    }
    assert Results(w.slugB, i.comments) == [];
    if atA {
      InsertSource(w, w', i);
      SameTarget(w, w');
    } else {
      InsertTarget(w, w', i);
      SameSource(w, w');
    }
    NothingDangles(w, w');
    FrameDbs(w, w');
  }

  lemma SkipIdKeeps(w: World, atA: bool)
    requires WorldOk(w)
    ensures WorldOk(Step(w, SkipId(atA)))
  {
    NothingDangles(w, Step(w, SkipId(atA)));
    FrameDbs(w, Step(w, SkipId(atA)));
  }

  // ---- Every run ----

  lemma ClientKeeps(w: World, act: Act)
    requires WorldOk(w) && CanAct(w, act)
    requires ActorOf(act) == Actor.Client
    ensures WorldOk(Step(w, act))
  {
    match act
    case StartSubmit(issue, labels) => StartSubmitKeeps(w, issue, labels);
    case StartAnswer(issue, labels) => StartAnswerKeeps(w, issue, labels);
    case WriteNext(pid) => if w.procs[pid].Marking? { MarkKeeps(w, pid); } else { CloseUpKeeps(w, pid); }
    case CutOff(pid) => CutOffKeeps(w, pid);
    case Refuse(pid) => RefuseKeeps(w, pid);
  }

  lemma TargetKeeps(w: World, act: Act)
    requires WorldOk(w) && CanAct(w, act)
    requires ActorOf(act) == TargetServer
    ensures WorldOk(Step(w, act))
  {
    match act
    case TargetOpenPass(pid, hit) => TargetOpenPassKeeps(w, pid, hit);
    case TargetClosedPass(hit) => TargetClosedPassKeeps(w, hit);
    case TargetCreate(uuid) => TargetCreateKeeps(w, uuid);
    case TargetLabel => TargetLabelKeeps(w);
    case TargetFail => TargetFailKeeps(w);
  }

  lemma PeopleKeep(w: World, act: Act)
    requires WorldOk(w) && CanAct(w, act) && Unobtrusive(w, act)
    requires ActorOf(act) == People
    ensures WorldOk(Step(w, act))
  {
    match act
    case Remark(atA, issue, c) => RemarkKeeps(w, atA, issue, c);
    case CloseByHand(atA, issue) => CloseByHandKeeps(w, atA, issue);
    case Post(atA, i) => PostKeeps(w, atA, i);
    case SkipId(atA) => SkipIdKeeps(w, atA);
  }

  lemma SourceKeeps(w: World, act: Act)
    requires WorldOk(w) && CanAct(w, act)
    requires ActorOf(act) == SourceServer
    ensures WorldOk(Step(w, act))
  {
    match act
    case SourceOpenPass(pid, hit) => SourceOpenPassKeeps(w, pid, hit);
    case SourceClosedPass(hit) => SourceClosedPassKeeps(w, hit);
    case SourceLoad => SourceLoadKeeps(w);
    case SourceWrite => SourceWriteKeeps(w);
    case SourceClose => SourceCloseKeeps(w);
    case SourceFail => SourceFailKeeps(w);
  }

  lemma ActKeeps(w: World, act: Act)
    requires WorldOk(w) && CanAct(w, act) && Unobtrusive(w, act)
    ensures WorldOk(Step(w, act))
  {
    match ActorOf(act)
    case Client => ClientKeeps(w, act);
    case TargetServer => TargetKeeps(w, act);
    case SourceServer => SourceKeeps(w, act);
    case People => PeopleKeep(w, act);
  }

  lemma {:induction false} RunKeeps(w: World, acts: seq<Act>)
    requires WorldOk(w) && Runs(w, acts)
    ensures WorldOk(RunOf(w, acts))
    decreases |acts|
  {
    if acts != [] {
      ActKeeps(w, acts[0]);
      RunKeeps(Step(w, acts[0]), acts[1..]);
    }
  }
}
