/** That questions can be asked and answered at all: from every reached state in which the servers are free
    there is a run that carries a command through to its end. */
module Completion {
  import opened Protocol
  import opened Issues
  import opened Handlers
  import opened Client
  import opened Exchange
  import opened Uninterrupted
  import opened Delivery
  import opened Guarantees
  import opened Retries
  import opened Cascade

  /** What a reply does to the command that waits for it, and to no other: a successful one lets a submit go on
      to its label writes and an answer to its own; an error, or nobody waiting any more, ends the command. */
  lemma ReplyCases(procs: map<nat, Process>, pid: nat, r: Option<IssueId>)
    ensures var after := Reply(procs, pid, r);
            && (forall p :: p in procs && p != pid ==> p in after && after[p] == procs[p])
            && after.Keys <= procs.Keys
            && (pid in procs && (procs[pid].Submitting? || procs[pid].Answering?) ==>
                  && (pid in after <==> procs[pid].waiting && r.Some?)
                  && (pid in after && procs[pid].Submitting? ==>
                        after[pid] == Marking(procs[pid].issue, procs[pid].submit.sourceUuid, 0))
                  && (pid in after && procs[pid].Answering? ==>
                        after[pid] == Closing(procs[pid].issue, procs[pid].answer, r.value, 0)))
            && (pid in procs && (procs[pid].Marking? || procs[pid].Closing?) ==> after == procs)
  {
  }

  // ---- A submit ----

  const EVERY_WRITE_OK := SubmitEnv(true, None, true, "", true)

  /** B's server can serve the submit, by the issue it finds or by a new one with the given uuid. */
  lemma SubmitRuns(v: World, pid: nat, uuid: string) returns (open: bool, env: SubmitEnv)
    requires v.target.TargetIdle? && pid in v.procs && v.procs[pid].Submitting?
    ensures env.lookupOk && env.createOk && env.labelsOk && env.uuid == uuid
    ensures Finds(v.b, RefLabel(v.procs[pid].submit.sourceUuid), env.found)
    ensures Runs(v, SubmitSteps(pid, open, env))
  {
    var l := RefLabel(v.procs[pid].submit.sourceUuid);
    env := EVERY_WRITE_OK.(uuid := uuid);
    if Listed(v.b, Open, l) != {} {
      open := true;
      var id :| id in Listed(v.b, Open, l);
      env := env.(found := Some(id));
      RunsCons(v, TargetOpenPass(pid, Some(id)), []);
      assert SubmitSteps(pid, open, env) == [TargetOpenPass(pid, Some(id))] + [];
    } else if Listed(v.b, Closed, l) != {} {
      open := false;
      var id :| id in Listed(v.b, Closed, l);
      env := env.(found := Some(id));
      ClosedHitRuns(v, pid, id);
    } else {
      open := false;
      assert Holders(v.b, l) == Listed(v.b, Open, l) + Listed(v.b, Closed, l);
      MissRuns(v, pid, env);
    }
    PassesFindIff(v.b, v.procs[pid].submit.sourceUuid, env.found);
  }

  lemma ClosedHitRuns(v: World, pid: nat, id: IssueId)
    requires v.target.TargetIdle? && pid in v.procs && v.procs[pid].Submitting?
    requires Pass(v.b, Open, v.procs[pid].submit.sourceUuid, None)
    requires Pass(v.b, Closed, v.procs[pid].submit.sourceUuid, Some(id))
    ensures Runs(v, [TargetOpenPass(pid, None), TargetClosedPass(Some(id))])
  {
    var w1 := Step(v, TargetOpenPass(pid, None));
    RunsCons(w1, TargetClosedPass(Some(id)), []);
    RunsCons(v, TargetOpenPass(pid, None), [TargetClosedPass(Some(id))] + []);
    assert [TargetOpenPass(pid, None), TargetClosedPass(Some(id))]
        == [TargetOpenPass(pid, None)] + ([TargetClosedPass(Some(id))] + []);
  }

  lemma MissRuns(v: World, pid: nat, env: SubmitEnv)
    requires v.target.TargetIdle? && pid in v.procs && v.procs[pid].Submitting?
    requires Pass(v.b, Open, v.procs[pid].submit.sourceUuid, None)
    requires Pass(v.b, Closed, v.procs[pid].submit.sourceUuid, None)
    requires env.lookupOk && env.found == None && env.createOk && env.labelsOk
    ensures Runs(v, SubmitSteps(pid, false, env))
  {
    var w1 := Step(v, TargetOpenPass(pid, None));
    var w2 := Step(w1, TargetClosedPass(None));
    var w3 := Step(w2, TargetCreate(env.uuid));
    RunsCons(w3, TargetLabel, []);
    RunsCons(w2, TargetCreate(env.uuid), [TargetLabel] + []);
    assert CreateSteps(env) == [TargetCreate(env.uuid)] + ([TargetLabel] + []);
    RunsCons(w1, TargetClosedPass(None), CreateSteps(env));
    RunsCons(v, TargetOpenPass(pid, None), [TargetClosedPass(None)] + CreateSteps(env));
    assert SubmitSteps(pid, false, env) == [TargetOpenPass(pid, None)] + ([TargetClosedPass(None)] + CreateSteps(env));
  }

  /** The client's three label writes can always follow. */
  lemma {:induction false} MarkingRuns(w: World, pid: nat, issue: IssueId, uuid: string, m: nat)
    requires pid in w.procs && w.procs[pid] == Marking(issue, uuid, m) && m < 3 && issue in w.a.issues
    ensures Runs(w, WriteSteps(pid, 3 - m))
    ensures RunOf(w, WriteSteps(pid, 3 - m)).b == w.b && RunOf(w, WriteSteps(pid, 3 - m)).procs == w.procs - {pid}
    ensures RunOf(w, WriteSteps(pid, 3 - m)).source == w.source && RunOf(w, WriteSteps(pid, 3 - m)).target == w.target
    decreases 3 - m
  {
    var n := 3 - m;
    var v := Step(w, WriteNext(pid));
    assert WriteSteps(pid, n) == [WriteNext(pid)] + WriteSteps(pid, n - 1);
    if m < 2 {
      MarkingRuns(v, pid, issue, uuid, m + 1);
    } else {
      assert WriteSteps(pid, 0) == [];
    }
    RunsCons(w, WriteNext(pid), WriteSteps(pid, n - 1));
    RunCons(w, WriteNext(pid), WriteSteps(pid, n - 1));
  }

  /** The submit has been served: the command goes on to its label writes, and nothing at A has changed. */
  lemma WaitingIsServed(s: World, pid: nat, uuid: string) returns (acts: seq<Act>)
    requires s.target.TargetIdle? && pid in s.procs && s.procs[pid].Submitting? && s.procs[pid].waiting
    ensures Runs(s, acts) && SpareSource(acts)
    ensures var m := RunOf(s, acts);
            && m.a == s.a && m.slugA == s.slugA && m.slugB == s.slugB
            && pid in m.procs && m.procs[pid] == Marking(s.procs[pid].issue, s.procs[pid].submit.sourceUuid, 0)
  {
    var open, env := SubmitRuns(s, pid, uuid);
    acts := SubmitSteps(pid, open, env);
    SubmitIsUninterrupted(s, pid, open, env);
    RunKeepsSlugs(s, acts);
  }

  lemma MarkingCompletes(s: World, pid: nat, issue: IssueId, u: string) returns (acts: seq<Act>)
    requires pid in s.procs && s.procs[pid] == Marking(issue, u, 0) && issue in s.a.issues
    ensures Runs(s, acts) && SpareSource(acts)
    ensures RunOf(s, acts).a == Change(s.a, issue, AfterSubmitWrites(s.a.issues[issue], u, 3))
  {
    acts := WriteSteps(pid, 3);
    MarkingRuns(s, pid, issue, u, 0);
    MarkingIsUninterrupted(s, pid, issue, u, 0, 3, s.a.issues[issue]);
  }

  /** The issue has been asked: it carries the three labels of an outbound issue, and B holds an inbound issue for
      it. */
  ghost predicate Asked(v: World, m: World, issue: IssueId) {
    && issue in v.a.issues && issue in m.a.issues && v.a.issues[issue].uuid.Some?
    && m.a.issues[issue] == v.a.issues[issue].(labels := v.a.issues[issue].labels
         + {"xb:outbound", "xb-status:pending", "xb-ref:" + v.a.issues[issue].uuid.value})
    && exists j :: j in m.b.issues && Inbound(m.b.issues[j].labels, v.slugA, v.a.issues[issue].uuid.value)
  }

  lemma AskedIsOutbound(w: World, v: World, m: World, issue: IssueId, u: string)
    requires Reached(w, m) && m.slugA == v.slugA && issue in v.a.issues && v.a.issues[issue].uuid == Some(u)
    requires m.a == Change(v.a, issue, AfterSubmitWrites(v.a.issues[issue], u, 3))
    ensures Asked(v, m, issue)
  {
    SubmitWritesCases(v.a.issues[issue], u, 3);
    OutboundHasItsInbound(w, m, issue, u);
    assert v.a.issues[issue].labels + {"xb:outbound"} + {"xb-status:pending"} + {"xb-ref:" + u}
        == v.a.issues[issue].labels + {"xb:outbound", "xb-status:pending", "xb-ref:" + u};
  }

  /** The issue exists and has a uuid, and these are its labels; nothing else is asked of it. */
  ghost predicate Askable(v: World, issue: IssueId, labels: seq<string>) {
    issue in v.a.issues && v.a.issues[issue].uuid.Some? && Enumerates(labels, v.a.issues[issue].labels)
  }

  /** A question can be asked: from every reached state in which B's server is free, any issue with a uuid can be
      submitted, up to the last label write, whether it has been before, and B holds the submission already, or not. */
  lemma SubmitCanComplete(w: World, v: World, issue: IssueId, labels: seq<string>, uuid: string)
    returns (acts: seq<Act>)
    requires Reached(w, v) && v.target.TargetIdle? && Askable(v, issue, labels)
    ensures Runs(v, acts) && SpareSource(acts) && Asked(v, RunOf(v, acts), issue)
  {
    var pid := v.nextPid;
    var s := Step(v, StartSubmit(issue, labels));
    var served := WaitingIsServed(s, pid, uuid);
    var u := v.a.issues[issue].uuid.value;
    var marked := MarkingCompletes(RunOf(s, served), pid, issue, u);
    RunsJoin(s, served, marked);
    var rest := served + marked;
    RunsCons(v, StartSubmit(issue, labels), rest);
    acts := [StartSubmit(issue, labels)] + rest;
    RunCons(v, StartSubmit(issue, labels), rest);
    ReachedOn(w, v, acts);
    RunKeepsSlugs(v, acts);
    AskedIsOutbound(w, v, RunOf(v, acts), issue, u);
  }

  // ---- Commands that were cut off ----

  lemma SubmittedIsHeld(db: Db, s: SubmitIssue, env: SubmitEnv)
    requires env.lookupOk && env.createOk && env.labelsOk && Finds(db, RefLabel(s.sourceUuid), env.found)
    ensures Held(Submit(db, s, env).0, s.sourceUuid)
  {
    var id := Submit(db, s, env).1.value;
    assert HasRef(Submit(db, s, env).0.issues[id], s.sourceUuid);
  }

  /** A submit that is cut off while it waits may still be served: then B holds the issue, A has not noticed, and
      the command is over. */
  lemma CutOffSubmitIsServed(v: World, pid: nat, uuid: string) returns (acts: seq<Act>)
    requires v.target.TargetIdle? && pid in v.procs && v.procs[pid].Submitting?
    ensures Runs(v, [CutOff(pid)] + acts)
    ensures var m := RunOf(v, [CutOff(pid)] + acts);
            m.a == v.a && pid !in m.procs && Held(m.b, v.procs[pid].submit.sourceUuid)
  {
    var s := Step(v, CutOff(pid));
    var open, env := SubmitRuns(s, pid, uuid);
    acts := SubmitSteps(pid, open, env);
    SubmitIsUninterrupted(s, pid, open, env);
    SubmittedIsHeld(s.b, s.procs[pid].submit, env);
    RunsCons(v, CutOff(pid), acts);
    RunCons(v, CutOff(pid), acts);
  }

  /** An answer that is cut off while it waits may still be served: then A's issue is settled, B's issue has not
      changed, and the command is over. */
  lemma CutOffAnswerIsServed(v: World, pid: nat) returns (acts: seq<Act>, id: IssueId)
    requires v.source.SourceIdle? && pid in v.procs && v.procs[pid].Answering?
    requires Held(v.a, v.procs[pid].answer.sourceUuid)
    ensures Runs(v, [CutOff(pid)] + acts)
    ensures var m := RunOf(v, [CutOff(pid)] + acts);
            && m.b == v.b && pid !in m.procs
            && id in m.a.issues && m.a.issues[id].status == Closed && STATUS_RESOLVED in m.a.issues[id].labels
  {
    var s := Step(v, CutOff(pid));
    var open: bool;
    open, id := RetryRuns(s, pid);
    var env := EVERY_CALL_OK.(found := Some(id));
    acts := AnswerSteps(pid, open, env, true);
    AnswerIsUninterrupted(s, pid, open, env, true);
    AnswerEffect(s.a, s.slugB, s.procs[pid].answer, env);
    RunsCons(v, CutOff(pid), acts);
    RunCons(v, CutOff(pid), acts);
  }

  // ---- From question to answer ----

  /** B answers the inbound issue with a result comment, unless it is there already. */
  function RemarkSteps(b: Db, j: IssueId, peer: Slug, text: string): seq<Act>
    requires j in b.issues
  {
    if Prefixed(peer, text) in Results(peer, b.issues[j].comments) then []
    else [Remark(false, j, Comment(text, "result"))]
  }

  lemma {:induction false} ResultsAppend(peer: Slug, comments: seq<Comment>, text: string)
    ensures Prefixed(peer, text) in Results(peer, comments + [Comment(text, "result")])
  {
    assert (comments + [Comment(text, "result")])[..|comments|] == comments;
  }

  lemma RemarkCompletes(m: World, j: IssueId, text: string)
    requires j in m.b.issues
    ensures var acts := RemarkSteps(m.b, j, m.slugB, text);
            var n := RunOf(m, acts);
            && Runs(m, acts) && n.a == m.a && n.source == m.source && n.slugB == m.slugB && n.slugA == m.slugA
            && j in n.b.issues && n.b.issues[j].labels == m.b.issues[j].labels
            && Prefixed(m.slugB, text) in Results(m.slugB, n.b.issues[j].comments)
  {
    var acts := RemarkSteps(m.b, j, m.slugB, text);
    if acts != [] {
      ResultsAppend(m.slugB, m.b.issues[j].comments, text);
      RunsCons(m, acts[0], []);
      assert acts == [acts[0]] + [];
      RunCons(m, acts[0], []);
    }
  }

  /** A's issue is settled with the text. */
  ghost predicate AnsweredWith(i: Issue, peer: Slug, text: string) {
    i.status == Closed && "xb-status:resolved" in i.labels && "[from " + peer + "] " + text in Contents(i)
  }

  lemma AnsweredIsOwn(w: World, v: World, id: IssueId, issue: IssueId, u: string)
    requires Reached(w, v) && id in v.a.issues && HasRef(v.a.issues[id], u)
    requires issue in v.a.issues && v.a.issues[issue].uuid == Some(u)
    ensures id == issue
  {
    ReachedOk(w, v);
    RefIsOwn(v, v.a.issues[id], u);
  }

  lemma AnswerCompletes(w: World, n: World, issue: IssueId, j: IssueId, u: string, text: string)
      returns (acts: seq<Act>)
    requires Reached(w, n) && n.source.SourceIdle? && j in n.b.issues && Inbound(n.b.issues[j].labels, n.slugA, u)
    requires issue in n.a.issues && n.a.issues[issue].uuid == Some(u) && HasRef(n.a.issues[issue], u)
    requires Prefixed(n.slugB, text) in Results(n.slugB, n.b.issues[j].comments)
    ensures Runs(n, acts)
    ensures issue in RunOf(n, acts).a.issues && AnsweredWith(RunOf(n, acts).a.issues[issue], n.slugB, text)
  {
    var labels := SomeEnumeration(n.b.issues[j].labels);
    InboundIsAnswerable(n.b, j, labels, n.slugA, u);
    var id: IssueId;
    acts, id := AnswerCanComplete(n, j, labels);
    AnsweredIsOwn(w, n, id, issue, u);
    ResultsOfResults(n.slugB, n.b.issues[j].comments);
    CopiesDiffer(n.slugB, text, text);
  }

  /** From question to answer: from every reached state in which both servers are free, an issue of A that can be
      submitted can be asked and answered with any text; then it is closed and resolved and holds the text. */
  lemma QuestionCanBeAnswered(w: World, v: World, issue: IssueId, labels: seq<string>, uuid: string, text: string)
    returns (acts: seq<Act>)
    requires Reached(w, v) && v.target.TargetIdle? && v.source.SourceIdle? && Askable(v, issue, labels)
    ensures Runs(v, acts)
    ensures issue in RunOf(v, acts).a.issues && AnsweredWith(RunOf(v, acts).a.issues[issue], v.slugB, text)
  {
    var asking := SubmitCanComplete(w, v, issue, labels, uuid);
    var m := RunOf(v, asking);
    var u := v.a.issues[issue].uuid.value;
    RunSpares(v, v.source, asking);
    RunKeepsSlugs(v, asking);
    ReachedOn(w, v, asking);
    var j :| j in m.b.issues && Inbound(m.b.issues[j].labels, v.slugA, u);
    var remark := RemarkSteps(m.b, j, m.slugB, text);
    RemarkCompletes(m, j, text);
    var n := RunOf(m, remark);
    ReachedOn(w, m, remark);
    var answering := AnswerCompletes(w, n, issue, j, u, text);
    RunsJoin(m, remark, answering);
    RunsJoin(v, asking, remark + answering);
    acts := asking + (remark + answering);
  }

  // ---- Failing, and what people do ----

  /** Any command can be cut off, or refused while its request is out, and either handler can fail halfway. None of
      this touches a database: a command that was cut off waits no more or is gone, a handler that failed is free. */
  lemma AnyoneCanFail(w: World, act: Act, pid: nat)
    requires act == CutOff(pid) || act == Refuse(pid) || act == TargetFail || act == SourceFail
    ensures CanAct(w, act) <==>
            if act == TargetFail then w.target != TargetIdle
            else if act == SourceFail then w.source != SourceIdle
            else pid in w.procs && (act == CutOff(pid) || w.procs[pid].Submitting? || w.procs[pid].Answering?)
    ensures CanAct(w, act) ==>
              var v := Step(w, act);
              && v.a == w.a && v.b == w.b && v.started == w.started && v.procs.Keys <= w.procs.Keys
              && v.target == (if act == TargetFail then TargetIdle else w.target)
              && v.source == (if act == SourceFail then SourceIdle else w.source)
              && (act == CutOff(pid) ==> v.procs - {pid} == w.procs - {pid})
              && (act == CutOff(pid) && (w.procs[pid].Submitting? || w.procs[pid].Answering?) ==>
                  pid in v.procs && v.procs[pid] == w.procs[pid].(waiting := false))
              && (act == CutOff(pid) && (w.procs[pid].Marking? || w.procs[pid].Closing?) ==> pid !in v.procs)
              && (act == Refuse(pid) ==> v.procs == w.procs - {pid})
  {
  }

  /** People can post new issues in either repository, and ids can be used up; nothing else changes. */
  lemma PeopleCanPost(w: World, i: Issue)
    ensures CanAct(w, Post(true, i)) && CanAct(w, Post(false, i)) && CanAct(w, SkipId(true)) && CanAct(w, SkipId(false))
    ensures Step(w, Post(true, i)) == w.(a := Db(w.a.issues[w.a.nextId := i], w.a.nextId + 1))
    ensures Step(w, Post(false, i)) == w.(b := Db(w.b.issues[w.b.nextId := i], w.b.nextId + 1))
    ensures Step(w, SkipId(true)) == w.(a := Db(w.a.issues, w.a.nextId + 1))
    ensures Step(w, SkipId(false)) == w.(b := Db(w.b.issues, w.b.nextId + 1))
  {
  }

  /** People can comment on and close any issue in either repository; nothing else changes. */
  lemma PeopleCanChange(w: World, issue: IssueId, c: Comment)
    ensures issue in w.a.issues ==>
              var j := w.a.issues[issue];
              && CanAct(w, Remark(true, issue, c)) && CanAct(w, CloseByHand(true, issue))
              && Step(w, Remark(true, issue, c)) == ChangeA(w, issue, j.(comments := j.comments + [c]))
              && Step(w, CloseByHand(true, issue)) == ChangeA(w, issue, j.(status := Closed))
    ensures issue in w.b.issues ==>
              var j := w.b.issues[issue];
              && CanAct(w, Remark(false, issue, c)) && CanAct(w, CloseByHand(false, issue))
              && Step(w, Remark(false, issue, c)) == ChangeB(w, issue, j.(comments := j.comments + [c]))
              && Step(w, CloseByHand(false, issue)) == ChangeB(w, issue, j.(status := Closed))
  {
  }
}
