/** When an issue can carry both status labels. */
module Marks {
  import opened Protocol
  import opened Issues
  import opened Handlers
  import opened Client
  import opened Exchange
  import opened Delivery
  import opened Guarantees

  // ---- Pending and resolved ----

  ghost predicate SubmitsFor(p: Process, id: IssueId) {
    (p.Submitting? || p.Marking?) && p.issue == id
  }

  /** The command has not written the ref label, nor pending unless that was its last write. */
  ghost predicate Unmarked(i: Issue, p: Process) {
    && (forall u :: !HasRef(i, u))
    && STATUS_RESOLVED !in i.labels
    && (STATUS_PENDING in i.labels ==> p.Marking? && p.written == 2)
  }

  ghost predicate NotBoth(i: Issue) {
    !(STATUS_PENDING in i.labels && STATUS_RESOLVED in i.labels)
  }

  /** An issue for which at most one submit was ever started. */
  ghost predicate Tidy(w: World, id: IssueId)
    requires id in w.a.issues
  {
    var i := w.a.issues[id];
    && (forall p, q :: p in w.procs && q in w.procs && SubmitsFor(w.procs[p], id) && SubmitsFor(w.procs[q], id) ==>
        p == q)
    && (forall p :: p in w.procs && SubmitsFor(w.procs[p], id) ==> Unmarked(i, w.procs[p]))
    && (w.started[id] == 0 ==> STATUS_PENDING !in i.labels && STATUS_RESOLVED !in i.labels && forall u :: !HasRef(i, u))
    && NotBoth(i)
  }

  ghost predicate SingleOk(w: World) {
    && (forall id :: w.started[id] > 0 ==> id in w.a.issues)
    && (forall p :: p in w.procs && (w.procs[p].Submitting? || w.procs[p].Marking?) ==> w.started[w.procs[p].issue] > 0)
    && (forall id :: id in w.a.issues && w.started[id] <= 1 ==> Tidy(w, id))
  }

  ghost predicate SameMarks(i: Issue, j: Issue) {
    && (forall u :: HasRef(j, u) <==> HasRef(i, u))
    && (STATUS_PENDING in j.labels <==> STATUS_PENDING in i.labels)
    && (STATUS_RESOLVED in j.labels <==> STATUS_RESOLVED in i.labels)
  }

  ghost predicate NoMarks(i: Issue) {
    STATUS_PENDING !in i.labels && STATUS_RESOLVED !in i.labels && forall u :: !HasRef(i, u)
  }

  /** The submit commands for the issue are as before, or have just been accepted, or are gone. */
  ghost predicate SubmitsFollow(w: World, w': World, id: IssueId) {
    forall p :: p in w'.procs && SubmitsFor(w'.procs[p], id) ==>
      && p in w.procs && SubmitsFor(w.procs[p], id)
      && (w.procs[p].Marking? && w.procs[p].written == 2 ==> w'.procs[p] == w.procs[p])
  }

  lemma FollowsTidy(w: World, w': World, id: IssueId)
    requires id in w.a.issues && Tidy(w, id) && id in w'.a.issues && w'.started[id] == w.started[id]
    requires SubmitsFollow(w, w', id) && SameMarks(w.a.issues[id], w'.a.issues[id])
    ensures Tidy(w', id)
  {
  }

  /** All issues but `x` have been left alone. */
  ghost predicate OnlyAt(w: World, w': World, x: Option<IssueId>) {
    && (forall id :: x != Some(id) ==> w'.started[id] == w.started[id] && SubmitsFollow(w, w', id))
    && (forall id :: id in w.a.issues ==> id in w'.a.issues)
    && (forall id :: id in w.a.issues && x != Some(id) ==> SameMarks(w.a.issues[id], w'.a.issues[id]))
    && (forall id :: id in w'.a.issues && id !in w.a.issues ==> NoMarks(w'.a.issues[id]))
  }

  lemma FrameSingle(w: World, w': World, x: Option<IssueId>)
    requires SingleOk(w) && OnlyAt(w, w', x)
    requires x.Some? ==>
        x.value in w'.a.issues && w'.started[x.value] > 0 && (w'.started[x.value] == 1 ==> Tidy(w', x.value))
    ensures SingleOk(w')
  {
    forall p | p in w'.procs && (w'.procs[p].Submitting? || w'.procs[p].Marking?)
        ensures w'.started[w'.procs[p].issue] > 0 {
      var id := w'.procs[p].issue;
      assert SubmitsFor(w'.procs[p], id);
      if x != Some(id) { assert SubmitsFollow(w, w', id); }
    }
    forall id | id in w'.a.issues && w'.started[id] <= 1 ensures Tidy(w', id) {
      if x != Some(id) {
        if id in w.a.issues {
          FollowsTidy(w, w', id);
        } else {
          assert w.started[id] == 0 && NoMarks(w'.a.issues[id]) && SubmitsFollow(w, w', id);
        }
      }
    }
  }

  ghost predicate StartedBy(w: World, w': World, pid: nat, id: IssueId, s: SubmitIssue) {
    && pid !in w.procs && id in w.a.issues && w'.a == w.a
    && w'.procs == w.procs[pid := Submitting(id, s, true)] && w'.started == w.started + multiset{id}
  }

  lemma StartKeepsSingle(w: World, w': World, pid: nat, id: IssueId, s: SubmitIssue)
    requires SingleOk(w) && StartedBy(w, w', pid, id, s)
    ensures SingleOk(w')
  {
    if w.started[id] == 0 {
      assert Tidy(w, id);
      assert forall p :: p in w'.procs && SubmitsFor(w'.procs[p], id) ==> p == pid;
    }
    FrameSingle(w, w', Some(id));
  }

  lemma StartActKeepsSingle(w: World, act: Act)
    requires SingleOk(w) && ProcsOk(w) && CanAct(w, act) && act.StartSubmit?
    ensures SingleOk(Step(w, act))
  {
    StartKeepsSingle(w, Step(w, act), w.nextPid, act.issue,
        SubmitRequest(w.a, act.issue, w.slugA, act.labels, true).value);
  }

  /** The command's next label has been written into its issue. */
  ghost predicate MarkedBy(w: World, w': World, pid: nat, id: IssueId, uuid: string, n: nat) {
    && pid in w.procs && w.procs[pid] == Marking(id, uuid, n) && n < 3 && id in w.a.issues
    && w'.a == Change(w.a, id, AddLabel(w.a.issues[id], SubmitLabels(uuid)[n]))
    && w'.procs == (if n == 2 then w.procs - {pid} else w.procs[pid := Marking(id, uuid, n + 1)])
    && w'.started == w.started
  }

  lemma LabelsDiffer(uuid: string)
    ensures RefLabel(uuid) != STATUS_RESOLVED && RefLabel(uuid) != STATUS_PENDING
    ensures STATUS_PENDING != STATUS_RESOLVED && OUTBOUND != STATUS_RESOLVED && OUTBOUND != STATUS_PENDING
  {
    assert STATUS_PENDING[10] != STATUS_RESOLVED[10] && OUTBOUND[3] == 'o';
    assert STATUS_RESOLVED[3] == 's' && STATUS_PENDING[3] == 's' && RefLabel(uuid)[3] == 'r';
  }

  lemma MarkedTidy(w: World, w': World, pid: nat, id: IssueId, uuid: string, n: nat)
    requires MarkedBy(w, w', pid, id, uuid, n) && Tidy(w, id) && w.started[id] == 1
    ensures Tidy(w', id)
  {
    var i := w.a.issues[id];
    assert SubmitsFor(w.procs[pid], id) && Unmarked(i, w.procs[pid]);
    LabelsDiffer(uuid);
    PlainLabel(OUTBOUND, i);
    PlainLabel(STATUS_PENDING, i);
    assert forall p :: p in w'.procs && SubmitsFor(w'.procs[p], id) ==> p == pid;
  }

  lemma MarkedOnlyAt(w: World, w': World, pid: nat, id: IssueId, uuid: string, n: nat)
    requires MarkedBy(w, w', pid, id, uuid, n)
    ensures OnlyAt(w, w', Some(id))
  {
  }

  lemma MarkKeepsSingle(w: World, w': World, pid: nat, id: IssueId, uuid: string, n: nat)
    requires SingleOk(w) && MarkedBy(w, w', pid, id, uuid, n)
    ensures SingleOk(w')
  {
    MarkedOnlyAt(w, w', pid, id, uuid, n);
    assert w.started[w.procs[pid].issue] > 0;
    if w.started[id] == 1 { MarkedTidy(w, w', pid, id, uuid, n); }
    FrameSingle(w, w', Some(id));
  }

  lemma MarkActKeepsSingle(w: World, act: Act)
    requires SingleOk(w) && CanAct(w, act) && act.WriteNext? && w.procs[act.pid].Marking?
    ensures SingleOk(Step(w, act))
  {
    var p := w.procs[act.pid];
    MarkKeepsSingle(w, Step(w, act), act.pid, p.issue, p.uuid, p.written);
  }

  lemma WriteKeepsSingle(w: World, w': World, id: IssueId, u: string, copy: seq<string>)
    requires SingleOk(w) && id in w.a.issues && HasRef(w.a.issues[id], u)
    requires w'.procs == w.procs && w'.started == w.started && w'.a == Change(w.a, id, Applied(w.a.issues[id], copy))
    ensures SingleOk(w')
  {
  }

  lemma WriteActKeepsSingle(w: World, act: Act)
    requires SingleOk(w) && SourceStateOk(w) && CanAct(w, act) && act.SourceWrite?
    ensures SingleOk(Step(w, act))
  {
    WriteKeepsSingle(w, Step(w, act), w.source.id, w.source.x.sourceUuid, w.source.copy);
  }

  /** A's issues keep their marks, new ones have none, and submit commands follow. */
  ghost predicate MarksStay(w: World, w': World) {
    && w'.started == w.started
    && (forall id :: id in w.a.issues ==> id in w'.a.issues && SameMarks(w.a.issues[id], w'.a.issues[id]))
    && (forall id :: id in w'.a.issues && id !in w.a.issues ==> NoMarks(w'.a.issues[id]))
    && (forall p :: p in w'.procs && (w'.procs[p].Submitting? || w'.procs[p].Marking?) ==>
          && p in w.procs
          && (w'.procs[p] == w.procs[p]
              || (w.procs[p].Submitting? && w'.procs[p].issue == w.procs[p].issue &&
                  (w'.procs[p].Marking? ==> w'.procs[p].written == 0))))
  }

  lemma MarksStaySingle(w: World, w': World)
    requires SingleOk(w) && MarksStay(w, w')
    ensures SingleOk(w')
  {
    forall id ensures SubmitsFollow(w, w', id) {
    }
    FrameSingle(w, w', None);
  }

  ghost predicate MovesMarks(w: World, act: Act)
    requires CanAct(w, act)
  {
    act.StartSubmit? || act.SourceWrite? || (act.WriteNext? && w.procs[act.pid].Marking?)
  }

  lemma OthersKeepMarks(w: World, act: Act)
    requires DbOk(w.a) && CanAct(w, act) && Unobtrusive(w, act) && !MovesMarks(w, act)
    ensures MarksStay(w, Step(w, act))
  {
    if WritesA(w, act) {
      WritersKeepMarks(w, act);
    } else {
      OthersLeaveA(w, act);
      OthersLeaveSubmits(w, act);
    }
  }

  lemma WritersKeepMarks(w: World, act: Act)
    requires DbOk(w.a) && CanAct(w, act) && Unobtrusive(w, act) && !MovesMarks(w, act) && WritesA(w, act)
    ensures MarksStay(w, Step(w, act))
  {
  }

  lemma OthersLeaveSubmits(w: World, act: Act)
    requires CanAct(w, act) && !MovesMarks(w, act) && !WritesA(w, act) && Step(w, act).a == w.a
    ensures MarksStay(w, Step(w, act))
  {
  }

  lemma ActKeepsSingle(w: World, act: Act)
    requires ProcsOk(w) && SourceStateOk(w) && DbOk(w.a) && SingleOk(w) && CanAct(w, act) && Unobtrusive(w, act)
    ensures SingleOk(Step(w, act))
  {
    if !MovesMarks(w, act) {
      OthersKeepMarks(w, act);
      MarksStaySingle(w, Step(w, act));
    } else if act.StartSubmit? {
      StartActKeepsSingle(w, act);
    } else if act.SourceWrite? {
      WriteActKeepsSingle(w, act);
    } else {
      MarkActKeepsSingle(w, act);
    }
  }

  lemma {:induction false} RunKeepsSingle(w: World, acts: seq<Act>)
    requires WorldOk(w) && SingleOk(w) && Runs(w, acts)
    ensures SingleOk(RunOf(w, acts))
    decreases |acts|
  {
    if acts != [] {
      ActKeeps(w, acts[0]);
      ActKeepsSingle(w, acts[0]);
      RunKeepsSingle(Step(w, acts[0]), acts[1..]);
    }
  }

  /** Because the ref label is written last: in every interleaving of one submit of an issue with any
      number of answers, the issue never carries both pending and resolved. */
  lemma NeverPendingAndResolved(w: World, acts: seq<Act>, id: IssueId)
    requires Beginning(w) && Runs(w, acts) && id in RunOf(w, acts).a.issues && RunOf(w, acts).started[id] <= 1
    ensures !({STATUS_PENDING, STATUS_RESOLVED} <= RunOf(w, acts).a.issues[id].labels)
  {
    BeginningOk(w);
    BeginningSingle(w);
    RunKeepsSingle(w, acts);
    assert Tidy(RunOf(w, acts), id);
  }

  lemma BeginningSingle(w: World)
    requires Beginning(w)
    ensures SingleOk(w)
  {
  }

  /** With repeated submits it can: exactly the second label write of a submit whose issue has been
      resolved meanwhile makes an issue carry both. */
  lemma ClashIff(w: World, act: Act, id: IssueId)
    requires DbOk(w.a) && CanAct(w, act) && Unobtrusive(w, act) && id in w.a.issues && NotBoth(w.a.issues[id])
    ensures id in Step(w, act).a.issues
    ensures NotBoth(Step(w, act).a.issues[id]) <==>
            !(act.WriteNext? && w.procs[act.pid].Marking? && w.procs[act.pid].written == 1
              && w.procs[act.pid].issue == id && STATUS_RESOLVED in w.a.issues[id].labels)
  {
    if act.StartSubmit? {
    } else if MovesMarks(w, act) {
      if act.WriteNext? {
        LabelsDiffer(w.procs[act.pid].uuid);
      } else {
        LabelsDiffer("");
      }
    } else {
      OthersKeepMarks(w, act);
    }
  }
}
