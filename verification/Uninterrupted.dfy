/** The exchange's small steps, when nothing comes between them, are the handlers and commands as a whole. */
module Uninterrupted {
  import opened Protocol
  import opened Issues
  import opened Handlers
  import opened Client
  import opened Exchange

  /** The steps of one submit, on whichever path the lookup and the failures lead it; `open` says which
      pass hits. */
  function SubmitSteps(pid: nat, open: bool, env: SubmitEnv): seq<Act> {
    if !env.lookupOk then [Refuse(pid)]
    else if env.found.Some? && open then [TargetOpenPass(pid, env.found)]
    else if env.found.Some? then [TargetOpenPass(pid, None), TargetClosedPass(env.found)]
    else [TargetOpenPass(pid, None), TargetClosedPass(None)] + CreateSteps(env)
  }

  function CreateSteps(env: SubmitEnv): seq<Act> {
    if !env.createOk then [TargetFail] else [TargetCreate(env.uuid), if env.labelsOk then TargetLabel else TargetFail]
  }

  /** The steps of one answer; `done` says that closing either succeeds or is not needed. */
  function AnswerSteps(pid: nat, open: bool, env: AnswerEnv, done: bool): seq<Act> {
    if !env.lookupOk then [Refuse(pid)]
    else if env.found.Some? && open then [SourceOpenPass(pid, env.found)] + FoundSteps(env, done)
    else [SourceOpenPass(pid, None), SourceClosedPass(env.found)] + if env.found.Some? then FoundSteps(env, done)
        else []
  }

  /** From the moment the issue has been found. */
  function FoundSteps(env: AnswerEnv, done: bool): seq<Act> {
    if !env.commentsOk then [SourceFail]
    else if !env.writeOk then [SourceLoad, SourceFail]
    else [SourceLoad, SourceWrite, if env.loadOk && done then SourceClose else SourceFail]
  }

  /** What the client is told. */
  function Told(r: Result<IssueId>): Option<IssueId> {
    match r
    case Ok(id) => Some(id)
    case Err(_) => None
  }

  lemma RunCons(w: World, act: Act, more: seq<Act>)
    requires Runs(w, [act] + more)
    ensures CanAct(w, act) && Runs(Step(w, act), more) && RunOf(w, [act] + more) == RunOf(Step(w, act), more)
  {
  }

  lemma RunTwo(w: World, act: Act, next: Act, more: seq<Act>)
    requires Runs(w, [act, next] + more)
    ensures CanAct(w, act) && CanAct(Step(w, act), next) && Runs(Step(Step(w, act), next), more)
    ensures RunOf(w, [act, next] + more) == RunOf(Step(Step(w, act), next), more)
  {
    assert [act, next] + more == [act] + ([next] + more);
    RunCons(w, act, [next] + more);
    RunCons(Step(w, act), next, more);
  }

  /** With nothing in between, the two passes find exactly what a lookup of the open and then the closed issues may. */
  lemma PassesFindIff(db: Db, uuid: string, r: Option<IssueId>)
    ensures Finds(db, "xb-ref:" + uuid, r) <==>
            || (r.Some? && Pass(db, Open, uuid, r))
            || (Pass(db, Open, uuid, None) && Pass(db, Closed, uuid, r))
  {
    assert Holders(db, RefLabel(uuid)) == Listed(db, Open, RefLabel(uuid)) + Listed(db, Closed, RefLabel(uuid));
    if Pass(db, Open, uuid, None) {
      assert forall x :: x in Holders(db, RefLabel(uuid)) ==> db.issues[x].status != Open;
    }
  }

  lemma CreationIsUninterrupted(w: World, env: SubmitEnv)
    requires w.target.NotFound? && Runs(w, CreateSteps(env)) && env.lookupOk && env.found == None
    ensures var (d, r) := Submit(w.b, w.target.s, env);
            var v := RunOf(w, CreateSteps(env));
            v.b == d && v.a == w.a && v.procs == Reply(w.procs, w.target.pid, Told(r))
  {
    if !env.createOk {
      assert CreateSteps(env) == [TargetFail] + [];
      RunCons(w, TargetFail, []);
    } else {
      var last := if env.labelsOk then TargetLabel else TargetFail;
      assert CreateSteps(env) == [TargetCreate(env.uuid), last] + [];
      RunTwo(w, TargetCreate(env.uuid), last, []);
    }
  }

  /** On every path B's database and the reply come out as the handler leaves them. */
  lemma SubmitIsUninterrupted(w: World, pid: nat, open: bool, env: SubmitEnv)
    requires pid in w.procs && w.procs[pid].Submitting? && Runs(w, SubmitSteps(pid, open, env))
    ensures var (d, r) := Submit(w.b, w.procs[pid].submit, env);
            var v := RunOf(w, SubmitSteps(pid, open, env));
            v.b == d && v.a == w.a && v.procs == Reply(w.procs, pid, Told(r))
  {
    var acts := SubmitSteps(pid, open, env);
    if !env.lookupOk {
      assert acts == [Refuse(pid)] + [];
      RunCons(w, Refuse(pid), []);
    } else if env.found.Some? && open {
      assert acts == [TargetOpenPass(pid, env.found)] + [];
      RunCons(w, TargetOpenPass(pid, env.found), []);
    } else if env.found.Some? {
      assert acts == [TargetOpenPass(pid, None), TargetClosedPass(env.found)] + [];
      RunTwo(w, TargetOpenPass(pid, None), TargetClosedPass(env.found), []);
    } else {
      RunTwo(w, TargetOpenPass(pid, None), TargetClosedPass(None), CreateSteps(env));
      CreationIsUninterrupted(Step(Step(w, TargetOpenPass(pid, None)), TargetClosedPass(None)), env);
    }
  }

  lemma FoundIsUninterrupted(w: World, env: AnswerEnv, done: bool)
    requires w.source.Found? && Runs(w, FoundSteps(env, done)) && env.lookupOk && env.found == Some(w.source.id)
    requires w.source.id in w.a.issues && (done <==> env.closeOk || w.a.issues[w.source.id].status == Closed)
    ensures var (d, r) := Answer(w.a, w.slugB, w.source.x, env);
            var v := RunOf(w, FoundSteps(env, done));
            v.a == d && v.b == w.b && v.procs == Reply(w.procs, w.source.pid, Told(r))
  {
    if !env.commentsOk {
      assert FoundSteps(env, done) == [SourceFail] + [];
      RunCons(w, SourceFail, []);
    } else if !env.writeOk {
      assert FoundSteps(env, done) == [SourceLoad, SourceFail] + [];
      RunTwo(w, SourceLoad, SourceFail, []);
    } else {
      WriteIsUninterrupted(w, env, done);
    }
  }

  lemma LoadAndWrite(w: World, more: seq<Act>)
    requires w.source.Found? && Runs(w, [SourceLoad, SourceWrite] + more)
    ensures w.source.id in w.a.issues
    ensures var s := w.source;
            var v := ChangeA(w, s.id, Applied(w.a.issues[s.id], ToCopy(w.a.issues[s.id], w.slugB, s.x)))
                       .(source := Written(s.pid, s.x, s.id));
            Runs(v, more) && RunOf(w, [SourceLoad, SourceWrite] + more) == RunOf(v, more)
  {
    RunTwo(w, SourceLoad, SourceWrite, more);
  }

  lemma WriteIsUninterrupted(w: World, env: AnswerEnv, done: bool)
    requires w.source.Found? && env.lookupOk && env.found == Some(w.source.id) && env.commentsOk && env.writeOk
    requires Runs(w, FoundSteps(env, done))
    requires w.source.id in w.a.issues && (done <==> env.closeOk || w.a.issues[w.source.id].status == Closed)
    ensures var (d, r) := Answer(w.a, w.slugB, w.source.x, env);
            var v := RunOf(w, FoundSteps(env, done));
            v.a == d && v.b == w.b && v.procs == Reply(w.procs, w.source.pid, Told(r))
  {
    var last := if env.loadOk && done then SourceClose else SourceFail;
    assert FoundSteps(env, done) == [SourceLoad, SourceWrite] + ([last] + []);
    LoadAndWrite(w, [last] + []);
    var s := w.source;
    var v := ChangeA(w, s.id, Applied(w.a.issues[s.id], ToCopy(w.a.issues[s.id], w.slugB, s.x)))
               .(source := Written(s.pid, s.x, s.id));
    RunCons(v, last, []);
  }

  /** On every path A's database and the reply come out as the handler leaves them. */
  lemma AnswerIsUninterrupted(w: World, pid: nat, open: bool, env: AnswerEnv, done: bool)
    requires pid in w.procs && w.procs[pid].Answering? && Runs(w, AnswerSteps(pid, open, env, done))
    requires env.found.Some? ==>
               env.found.value in w.a.issues && (done <==> env.closeOk || w.a.issues[env.found.value].status == Closed)
    ensures var (d, r) := Answer(w.a, w.slugB, w.procs[pid].answer, env);
            var v := RunOf(w, AnswerSteps(pid, open, env, done));
            v.a == d && v.b == w.b && v.procs == Reply(w.procs, pid, Told(r))
  {
    var acts := AnswerSteps(pid, open, env, done);
    if !env.lookupOk {
      assert acts == [Refuse(pid)] + [];
      RunCons(w, Refuse(pid), []);
    } else if env.found.Some? && open {
      RunCons(w, SourceOpenPass(pid, env.found), FoundSteps(env, done));
      FoundIsUninterrupted(Step(w, SourceOpenPass(pid, env.found)), env, done);
    } else {
      var rest := if env.found.Some? then FoundSteps(env, done) else [];
      RunTwo(w, SourceOpenPass(pid, None), SourceClosedPass(env.found), rest);
      if env.found.Some? {
        FoundIsUninterrupted(Step(Step(w, SourceOpenPass(pid, None)), SourceClosedPass(env.found)), env, done);
      }
    }
  }

  function WriteSteps(pid: nat, n: nat): seq<Act> {
    seq(n, _ => WriteNext(pid))
  }

  /** A command cut off after n of its label writes leaves its issue as the command's specification says. */
  lemma {:induction false} MarkingIsUninterrupted(w: World, pid: nat, issue: IssueId, uuid: string, m: nat, n: nat,
      i: Issue)
    requires pid in w.procs && w.procs[pid] == Marking(issue, uuid, m) && Runs(w, WriteSteps(pid, n)) && m + n <= 3
    requires issue in w.a.issues && w.a.issues[issue] == AfterSubmitWrites(i, uuid, m)
    ensures RunOf(w, WriteSteps(pid, n)).a == Change(w.a, issue, AfterSubmitWrites(i, uuid, m + n))
    decreases n
  {
    if n == 0 {
      assert Change(w.a, issue, w.a.issues[issue]) == w.a;
    } else {
      assert WriteSteps(pid, n) == [WriteNext(pid)] + WriteSteps(pid, n - 1);
      RunCons(w, WriteNext(pid), WriteSteps(pid, n - 1));
      var v := Step(w, WriteNext(pid));
      assert v.a.issues[issue] == AfterSubmitWrites(i, uuid, m + 1);
      if n > 1 {
        MarkingIsUninterrupted(v, pid, issue, uuid, m + 1, n - 1, i);
      } else {
        assert WriteSteps(pid, 0) == [];
      }
    }
  }

  lemma ClosingIsUninterrupted(w: World, pid: nat, n: nat)
    requires pid in w.procs && w.procs[pid].Closing? && w.procs[pid].written == 0
    requires Runs(w, WriteSteps(pid, n)) && n <= 2
    requires w.procs[pid].issue in w.b.issues
    ensures var issue := w.procs[pid].issue;
            RunOf(w, WriteSteps(pid, n)).b == Change(w.b, issue, AfterAnswerWrites(w.b.issues[issue], n))
  {
    var issue := w.procs[pid].issue;
    if n == 0 {
      assert Change(w.b, issue, w.b.issues[issue]) == w.b;
    } else {
      assert WriteSteps(pid, n) == [WriteNext(pid)] + WriteSteps(pid, n - 1);
      RunCons(w, WriteNext(pid), WriteSteps(pid, n - 1));
      var v := Step(w, WriteNext(pid));
      if n == 2 {
        assert WriteSteps(pid, 1) == [WriteNext(pid)] + [];
        RunCons(v, WriteNext(pid), []);
      }
    }
  }
}
