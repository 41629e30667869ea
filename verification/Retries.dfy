/** Answers that come too early, and answers that are retried. */
module Retries {
  import opened Protocol
  import opened Issues
  import opened Handlers
  import opened Client
  import opened Exchange
  import opened Delivery
  import opened Uninterrupted
  import opened Guarantees

  // ---- Lookups in two passes ----

  /** Nothing but A's server depends on what A's server is doing. */
  lemma SourceIrrelevant(w: World, x: Source, act: Act)
    requires CanAct(w, act) && ActorOf(act) != SourceServer
    ensures CanAct(w.(source := x), act) && (Unobtrusive(w, act) ==> Unobtrusive(w.(source := x), act))
    ensures Step(w.(source := x), act) == Step(w, act).(source := x)
  {
  }

  ghost predicate SpareSource(acts: seq<Act>) {
    forall act :: act in acts ==> ActorOf(act) != SourceServer
  }

  lemma {:induction false} RunSpares(w: World, x: Source, acts: seq<Act>)
    requires Runs(w, acts) && SpareSource(acts)
    ensures Runs(w.(source := x), acts) && RunOf(w.(source := x), acts) == RunOf(w, acts).(source := x)
    ensures RunOf(w, acts).source == w.source
    decreases |acts|
  {
    if acts != [] {
      assert acts[0] in acts && forall act :: act in acts[1..] ==> act in acts;
      SourceIrrelevant(w, x, acts[0]);
      SourceIrrelevant(w, w.source, acts[0]);
      assert w.(source := w.source) == w;
      RunSpares(Step(w, acts[0]), x, acts[1..]);
    }
  }

  lemma HeldStays(s: World, acts: seq<Act>, u: string)
    requires WorldOk(s) && Runs(s, acts) && Held(s.a, u)
    ensures Held(RunOf(s, acts).a, u)
  {
    RunGrowsA(s, acts);
    var id :| id in s.a.issues && HasRef(s.a.issues[id], u);
    assert GrowIssue(s.a.issues[id], RunOf(s, acts).a.issues[id]);
  }

  /** The state after an answer's open pass, before anything else happens. */
  ghost predicate FirstPass(v: World, pid: nat, hit: Option<IssueId>, s: World) {
    CanAct(v, SourceOpenPass(pid, hit)) && s == Step(v, SourceOpenPass(pid, hit))
  }

  lemma FirstPassHits(w: World, v: World, pid: nat, hit: Option<IssueId>, s: World, acts: seq<Act>, u: string)
    requires Reached(w, v) && FirstPass(v, pid, hit, s) && u == v.procs[pid].answer.sourceUuid
    requires Runs(s, acts) && !Held(RunOf(s, acts).a, u)
    ensures hit == None && s == v.(source := NoOpen(pid, v.procs[pid].answer))
  {
    ReachedOk(w, v);
    ActKeeps(v, SourceOpenPass(pid, hit));
    if hit.Some? {
      assert HasRef(v.a.issues[hit.value], u) && s.a == v.a;
      HeldStays(s, acts, u);
    }
  }

  /** An answer that comes too early changes nothing: if the ref label has not been written by the time of the
      closed pass, neither pass finds an issue, and the whole delivery, with whatever others do between its
      passes, ends where the others alone would have led, except that the command is told it failed. */
  lemma EarlyAnswerChangesNothing(w: World, v: World, pid: nat, hit: Option<IssueId>, s: World, acts: seq<Act>,
      again: Option<IssueId>)
    requires Reached(w, v) && FirstPass(v, pid, hit, s) && Runs(s, acts) && SpareSource(acts)
    requires CanAct(RunOf(s, acts), SourceClosedPass(again)) && !Held(RunOf(s, acts).a, v.procs[pid].answer.sourceUuid)
    ensures hit == None && again == None && Runs(v, acts)
    ensures var alone := RunOf(v, acts);
            Step(RunOf(s, acts), SourceClosedPass(again)) == alone.(procs := Reply(alone.procs, pid, None))
  {
    FirstPassHits(w, v, pid, hit, s, acts, v.procs[pid].answer.sourceUuid);
    MissedAnswerLeaves(v, pid, v.procs[pid].answer, s, acts, again);
  }

  lemma MissedAnswerLeaves(v: World, pid: nat, x: SubmitAnswer, s: World, acts: seq<Act>, again: Option<IssueId>)
    requires v.source == SourceIdle && s == v.(source := NoOpen(pid, x)) && Runs(s, acts) && SpareSource(acts)
    requires CanAct(RunOf(s, acts), SourceClosedPass(again)) && !Held(RunOf(s, acts).a, x.sourceUuid)
    ensures again == None && Runs(v, acts)
    ensures var alone := RunOf(v, acts);
            Step(RunOf(s, acts), SourceClosedPass(again)) == alone.(procs := Reply(alone.procs, pid, None))
  {
    RunSpares(s, SourceIdle, acts);
    assert s.(source := SourceIdle) == v;
    ClosedPassMisses(RunOf(s, acts), SourceIdle, again, pid, x);
  }

  lemma ClosedPassMisses(m: World, idle: Source, again: Option<IssueId>, pid: nat, x: SubmitAnswer)
    requires CanAct(m, SourceClosedPass(again)) && m.source == NoOpen(pid, x)
    requires idle == SourceIdle && !Held(m.a, x.sourceUuid)
    ensures again == None
    ensures var alone := m.(source := idle);
            Step(m, SourceClosedPass(again)) == alone.(procs := Reply(alone.procs, pid, None))
  {
    if again.Some? {
      assert HasRef(m.a.issues[again.value], x.sourceUuid);
    }
  }

  // ---- Retries succeed ----

  lemma RunsCons(w: World, act: Act, more: seq<Act>)
    requires CanAct(w, act) && Unobtrusive(w, act) && Runs(Step(w, act), more)
    ensures Runs(w, [act] + more)
  {
    assert ([act] + more)[1..] == more;
  }

  /** From a found issue on, nothing can stand in the way but a failing database call. */
  lemma FoundRuns(w: World, env: AnswerEnv)
    requires w.source.Found? && w.source.id in w.a.issues && env.commentsOk && env.writeOk && env.loadOk
    ensures Runs(w, FoundSteps(env, true))
  {
    var w1 := Step(w, SourceLoad);
    var w2 := Step(w1, SourceWrite);
    assert FoundSteps(env, true) == [SourceLoad] + ([SourceWrite] + ([SourceClose] + []));
    RunsCons(w2, SourceClose, []);
    RunsCons(w1, SourceWrite, [SourceClose] + []);
    RunsCons(w, SourceLoad, [SourceWrite] + ([SourceClose] + []));
  }

  const EVERY_CALL_OK := AnswerEnv(true, None, true, true, true, true)

  lemma RetryRuns(v: World, pid: nat) returns (open: bool, id: IssueId)
    requires v.source.SourceIdle? && pid in v.procs && v.procs[pid].Answering?
    requires Held(v.a, v.procs[pid].answer.sourceUuid)
    ensures id in v.a.issues && HasRef(v.a.issues[id], v.procs[pid].answer.sourceUuid)
    ensures Runs(v, AnswerSteps(pid, open, EVERY_CALL_OK.(found := Some(id)), true))
  {
    var x := v.procs[pid].answer;
    var l := RefLabel(x.sourceUuid);
    if Listed(v.a, Open, l) != {} {
      open := true;
      id :| id in Listed(v.a, Open, l);
      var env := EVERY_CALL_OK.(found := Some(id));
      FoundRuns(Step(v, SourceOpenPass(pid, Some(id))), env);
      RunsCons(v, SourceOpenPass(pid, Some(id)), FoundSteps(env, true));
    } else {
      open := false;
      id :| id in v.a.issues && HasRef(v.a.issues[id], x.sourceUuid);
      assert id in Listed(v.a, Closed, l) by {
        assert id !in Listed(v.a, Open, l);
      }
      var env := EVERY_CALL_OK.(found := Some(id));
      var w1 := Step(v, SourceOpenPass(pid, None));
      FoundRuns(Step(w1, SourceClosedPass(Some(id))), env);
      RunsCons(w1, SourceClosedPass(Some(id)), FoundSteps(env, true));
      RunsCons(v, SourceOpenPass(pid, None), [SourceClosedPass(Some(id))] + FoundSteps(env, true));
      assert AnswerSteps(pid, open, env, true) ==
          [SourceOpenPass(pid, None)] + ([SourceClosedPass(Some(id))] + FoundSteps(env, true));
    }
  }

  /** A retry succeeds: in any state in which A's issue carries the ref label and A's server is free, a waiting
      answer can be carried through; then the issue that holds the label is closed and resolved, and the
      command goes on to its own writes. */
  lemma RetrySucceeds(v: World, pid: nat) returns (open: bool, id: IssueId)
    requires v.source.SourceIdle? && pid in v.procs && v.procs[pid].Answering? && v.procs[pid].waiting
    requires Held(v.a, v.procs[pid].answer.sourceUuid)
    ensures id in v.a.issues && HasRef(v.a.issues[id], v.procs[pid].answer.sourceUuid)
    ensures Runs(v, AnswerSteps(pid, open, EVERY_CALL_OK.(found := Some(id)), true))
    ensures var m := RunOf(v, AnswerSteps(pid, open, EVERY_CALL_OK.(found := Some(id)), true));
            && id in m.a.issues && m.a.issues[id].status == Closed
            && STATUS_RESOLVED in m.a.issues[id].labels && STATUS_PENDING !in m.a.issues[id].labels
            && Contents(m.a.issues[id]) ==
                Contents(v.a.issues[id]) + Elements(Results(v.slugB, v.procs[pid].answer.comments))
            && pid in m.procs && m.procs[pid] == Closing(v.procs[pid].issue, v.procs[pid].answer, id, 0) && m.b == v.b
  {
    open, id := RetryRuns(v, pid);
    var env := EVERY_CALL_OK.(found := Some(id));
    AnswerIsUninterrupted(v, pid, open, env, true);
    AnswerEffect(v.a, v.slugB, v.procs[pid].answer, env);
    AnswerContents(v.a.issues[id], v.slugB, v.procs[pid].answer);
  }

  /** The client's own two writes can always follow. */
  lemma ClosingRuns(w: World, pid: nat)
    requires pid in w.procs && w.procs[pid].Closing? && w.procs[pid].written == 0 && w.procs[pid].issue in w.b.issues
    ensures Runs(w, WriteSteps(pid, 2))
    ensures var issue := w.procs[pid].issue;
            RunOf(w, WriteSteps(pid, 2)).b == Change(w.b, issue, AfterAnswerWrites(w.b.issues[issue], 2))
            && RunOf(w, WriteSteps(pid, 2)).a == w.a
  {
    var w1 := Step(w, WriteNext(pid));
    assert WriteSteps(pid, 2) == [WriteNext(pid)] + ([WriteNext(pid)] + []);
    RunsCons(w1, WriteNext(pid), []);
    RunsCons(w, WriteNext(pid), [WriteNext(pid)] + []);
    RunCons(w, WriteNext(pid), [WriteNext(pid)] + []);
    RunCons(w1, WriteNext(pid), []);
  }

  ghost predicate BothDone(v: World, m: World, issue: IssueId, id: IssueId, x: SubmitAnswer) {
    && id in v.a.issues && HasRef(v.a.issues[id], x.sourceUuid)
    && id in m.a.issues && m.a.issues[id].status == Closed && STATUS_RESOLVED in m.a.issues[id].labels
    && Elements(Results(v.slugB, x.comments)) <= Contents(m.a.issues[id])
    && issue in m.b.issues && m.b.issues[issue].status == Closed && STATUS_ANSWERED in m.b.issues[issue].labels
  }

  lemma WaitingCanComplete(s: World, pid: nat) returns (acts: seq<Act>, id: IssueId)
    requires s.source.SourceIdle? && pid in s.procs && s.procs[pid].Answering? && s.procs[pid].waiting
    requires s.procs[pid].issue in s.b.issues && Held(s.a, s.procs[pid].answer.sourceUuid)
    ensures Runs(s, acts) && BothDone(s, RunOf(s, acts), s.procs[pid].issue, id, s.procs[pid].answer)
  {
    var open: bool;
    open, id := RetrySucceeds(s, pid);
    var steps := AnswerSteps(pid, open, EVERY_CALL_OK.(found := Some(id)), true);
    ClosingRuns(RunOf(s, steps), pid);
    RunsJoin(s, steps, WriteSteps(pid, 2));
    acts := steps + WriteSteps(pid, 2);
  }

  /** Whenever A's issue carries the ref label and A's server is free, answering B's issue can be carried
      through from start to end: A's issue is resolved and closed, B's issue is answered and closed. */
  lemma AnswerCanComplete(v: World, issue: IssueId, labels: seq<string>) returns (acts: seq<Act>, id: IssueId)
    requires v.source.SourceIdle? && issue in v.b.issues && Enumerates(labels, v.b.issues[issue].labels)
    requires var r := AnswerRequest(v.b, issue, labels); r.Ok? && r.value.0 == v.slugA
    requires Held(v.a, AnswerRequest(v.b, issue, labels).value.1.sourceUuid)
    ensures Runs(v, acts) && BothDone(v, RunOf(v, acts), issue, id, AnswerRequest(v.b, issue, labels).value.1)
  {
    var s := Step(v, StartAnswer(issue, labels));
    var rest: seq<Act>;
    rest, id := WaitingCanComplete(s, v.nextPid);
    RunsCons(v, StartAnswer(issue, labels), rest);
    acts := [StartAnswer(issue, labels)] + rest;
    RunCons(v, StartAnswer(issue, labels), rest);
  }

  lemma MissedOpenPass(w: World, v: World, pid: nat, s: World)
    requires Reached(w, v) && CanAct(v, SourceOpenPass(pid, None)) && s == Step(v, SourceOpenPass(pid, None))
    ensures WorldOk(s) && s.a == v.a && Pass(v.a, Open, v.procs[pid].answer.sourceUuid, None)
  {
    ReachedOk(w, v);
    ActKeeps(v, SourceOpenPass(pid, None));
  }

  /** Once the label is there the answer is never lost between the two passes: whatever happens
      after the open pass has missed it, the closed pass cannot come back empty. */
  lemma LaterAnswerIsFound(w: World, v: World, pid: nat, s: World, acts: seq<Act>)
    requires Reached(w, v) && CanAct(v, SourceOpenPass(pid, None)) && Held(v.a, v.procs[pid].answer.sourceUuid)
    requires s == Step(v, SourceOpenPass(pid, None)) && Runs(s, acts)
    ensures !Pass(RunOf(s, acts).a, Closed, v.procs[pid].answer.sourceUuid, None)
  {
    MissedOpenPass(w, v, pid, s);
    MissedIsListedLater(s, acts, RunOf(s, acts), v.procs[pid].answer.sourceUuid);
  }

  lemma MissedIsListedLater(s: World, acts: seq<Act>, m: World, u: string)
    requires WorldOk(s) && Runs(s, acts) && m == RunOf(s, acts)
    requires Held(s.a, u) && Pass(s.a, Open, u, None)
    ensures Listed(m.a, Closed, RefLabel(u)) != {}
  {
    RunGrowsA(s, acts);
    ClosedHolderIsListed(s.a, m.a, u);
  }

  lemma ClosedHolderIsListed(a: Db, a': Db, u: string)
    requires Held(a, u) && Pass(a, Open, u, None) && GrowA(a, a')
    ensures Listed(a', Closed, RefLabel(u)) != {}
  {
    var id :| id in a.issues && HasRef(a.issues[id], u);
    assert id !in Listed(a, Open, RefLabel(u));
    assert GrowIssue(a.issues[id], a'.issues[id]);
    assert id in Listed(a', Closed, RefLabel(u));
  }
}
