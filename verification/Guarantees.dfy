/** What the exchange guarantees from a clean start, over every run. */
module Guarantees {
  import opened Protocol
  import opened Issues
  import opened Handlers
  import opened Client
  import opened Exchange
  import opened Delivery

  /** No submission has been made yet. */
  ghost predicate Beginning(w: World) {
    && w.procs == map[] && w.target == TargetIdle && w.source == SourceIdle && w.started == multiset{}
    && DbOk(w.a) && DbOk(w.b)
    && (forall id :: id in w.a.issues ==>
          && SourceIssueOk(w, w.a.issues[id])
          && STATUS_PENDING !in w.a.issues[id].labels && STATUS_RESOLVED !in w.a.issues[id].labels)
    && (forall id, u :: id in w.a.issues ==> !HasRef(w.a.issues[id], u))
    && (forall id, other :: (id in w.a.issues && other in w.a.issues && w.a.issues[id].uuid.Some?
          && w.a.issues[id].uuid == w.a.issues[other].uuid) ==> id == other)
    && (forall id :: id in w.b.issues ==> Distinct(w.slugB, w.b.issues[id].comments))
    && (forall id, u :: id in w.b.issues ==> !HasRef(w.b.issues[id], u))
  }

  lemma BeginningOk(w: World)
    requires Beginning(w)
    ensures WorldOk(w)
  {
  }

  ghost predicate Reached(w: World, v: World) {
    Beginning(w) && exists acts :: Runs(w, acts) && RunOf(w, acts) == v
  }

  lemma ReachedOk(w: World, v: World)
    requires Reached(w, v)
    ensures WorldOk(v)
  {
    var acts :| Runs(w, acts) && RunOf(w, acts) == v;
    BeginningOk(w);
    RunKeeps(w, acts);
  }

  // ---- One inbound issue per submission ----

  /** However often submits are repeated, cut off or half-failed, and however their database
      accesses interleave with closings, B holds at most one issue for each uuid. */
  lemma AtMostOneInbound(w: World, v: World, u: string)
    requires Reached(w, v)
    ensures AtMostOneHolder(v.b, RefLabel(u))
  {
    ReachedOk(w, v);
    forall id, other | id in Holders(v.b, RefLabel(u)) && other in Holders(v.b, RefLabel(u)) ensures id == other {
      assert HasRef(v.b.issues[id], u) && HasRef(v.b.issues[other], u);
    }
  }

  /** A's issue carries a ref label only for its own uuid, and then B holds exactly one issue for it,
      labelled as an inbound issue of A. */
  lemma OutboundHasItsInbound(w: World, v: World, id: IssueId, u: string)
    requires Reached(w, v) && id in v.a.issues && RefLabel(u) in v.a.issues[id].labels
    ensures v.a.issues[id].uuid == Some(u)
    ensures exists j :: j in v.b.issues && Inbound(v.b.issues[j].labels, v.slugA, u) && Holders(v.b, RefLabel(u)) == {j}
  {
    ReachedOk(w, v);
    assert SourceIssueOk(v, v.a.issues[id]) && HasRef(v.a.issues[id], u);
    assert REF_PREFIX <= RefLabel(u);
    PlusInjective(REF_PREFIX, u, v.a.issues[id].uuid.value);
    assert Held(v.b, u);
    var j :| j in v.b.issues && HasRef(v.b.issues[j], u);
    assert TargetIssueOk(v, v.b.issues[j]);
    AtMostOneInbound(w, v, u);
    assert j in Holders(v.b, RefLabel(u));
    forall k | k in Holders(v.b, RefLabel(u)) ensures k == j {
    }
  }

  // ---- Answers arrive ----

  ghost predicate Settled(w: World, i: Issue, x: SubmitAnswer) {
    && HasRef(i, x.sourceUuid)
    && i.status == Closed && STATUS_RESOLVED in i.labels
    && (forall c :: c in Results(w.slugB, x.comments) ==> Occurrences(i.comments, c) == 1)
  }

  lemma ArrivedIsSettled(w: World, i: Issue, x: SubmitAnswer)
    requires SourceIssueOk(w, i) && Arrived(w, i, x) && i.status == Closed
    ensures Settled(w, i, x)
  {
    forall c | c in Results(w.slugB, x.comments) ensures Occurrences(i.comments, c) == 1 {
      assert c in Elements(Results(w.slugB, x.comments));
      InContents(i, c);
      ResultsArePrefixed(w.slugB, x.comments, c);
    }
  }

  /** When A's server completes an answer, the issue it refers to is closed and resolved and holds
      every result content of the answer exactly once. */
  lemma CompletedAnswerIsSettled(w: World, v: World)
    requires Reached(w, v) && CanAct(v, SourceClose)
    ensures var id := v.source.id;
            id in Step(v, SourceClose).a.issues && Settled(v, Step(v, SourceClose).a.issues[id], v.source.x)
  {
    ReachedOk(w, v);
    ActKeeps(v, SourceClose);
    var v' := Step(v, SourceClose);
    assert SourceIssueOk(v', v'.a.issues[v.source.id]);
    ArrivedIsSettled(v', v'.a.issues[v.source.id], v.source.x);
  }

  // ---- What is never undone ----

  lemma GrowIssueTransitive(i: Issue, j: Issue, k: Issue)
    requires GrowIssue(i, j) && GrowIssue(j, k)
    ensures GrowIssue(i, k)
  {
  }

  lemma RemarkGrows(i: Issue, c: Comment)
    ensures GrowIssue(i, i.(comments := i.comments + [c]))
  {
  }

  lemma SourceWriteGrows(w: World)
    requires SourceOk(w) && SourceStateOk(w) && CanAct(w, SourceWrite)
    ensures GrowA(w.a, Step(w, SourceWrite).a)
  {
    var i := w.a.issues[w.source.id];
    assert SourceIssueOk(w, i);
    AppliedFits(w, i, w.source.x, w.source.copy);
    GrowsByChange(w.a, w.source.id, Applied(i, w.source.copy));
  }

  ghost predicate WritesA(w: World, act: Act)
    requires CanAct(w, act)
  {
    match act
    case WriteNext(pid) => w.procs[pid].Marking?
    case SourceWrite => true
    case SourceClose => true
    case Remark(atA, _, _) => atA
    case CloseByHand(atA, _) => atA
    case Post(atA, _) => atA
    case SkipId(atA) => atA
    case _ => false
  }

  lemma OthersLeaveA(w: World, act: Act)
    requires CanAct(w, act) && !WritesA(w, act)
    ensures Step(w, act).a == w.a
  {
  }

  lemma ActGrowsA(w: World, act: Act)
    requires SourceOk(w) && SourceStateOk(w) && CanAct(w, act)
    ensures GrowA(w.a, Step(w, act).a)
  {
    if !WritesA(w, act) {
      OthersLeaveA(w, act);
    } else {
      match act
      case WriteNext(pid) =>
        var p := w.procs[pid];
        GrowsByChange(w.a, p.issue, AddLabel(w.a.issues[p.issue], SubmitLabels(p.uuid)[p.written]));
      case SourceWrite => SourceWriteGrows(w);
      case SourceClose => GrowsByChange(w.a, w.source.id, w.a.issues[w.source.id].(status := Closed));
      case Remark(_, id, c) =>
        RemarkGrows(w.a.issues[id], c);
        GrowsByChange(w.a, id, w.a.issues[id].(comments := w.a.issues[id].comments + [c]));
      case CloseByHand(_, id) => GrowsByChange(w.a, id, w.a.issues[id].(status := Closed));
      case Post(_, i) =>
      case SkipId(_) =>
    }
  }

  lemma {:induction false} RunGrowsA(w: World, acts: seq<Act>)
    requires WorldOk(w) && Runs(w, acts)
    ensures GrowA(w.a, RunOf(w, acts).a)
    decreases |acts|
  {
    if acts != [] {
      var m := Step(w, acts[0]);
      ActGrowsA(w, acts[0]);
      ActKeeps(w, acts[0]);
      RunGrowsA(m, acts[1..]);
      forall id | id in w.a.issues ensures GrowIssue(w.a.issues[id], RunOf(w, acts).a.issues[id]) {
        GrowIssueTransitive(w.a.issues[id], m.a.issues[id], RunOf(w, acts).a.issues[id]);
      }
    }
  }

  lemma ActKeepsSlugs(w: World, act: Act)
    requires CanAct(w, act)
    ensures Step(w, act).slugA == w.slugA && Step(w, act).slugB == w.slugB
  {
  }

  lemma {:induction false} RunKeepsSlugs(w: World, acts: seq<Act>)
    requires Runs(w, acts)
    ensures RunOf(w, acts).slugA == w.slugA && RunOf(w, acts).slugB == w.slugB
    decreases |acts|
  {
    if acts != [] {
      ActKeepsSlugs(w, acts[0]);
      RunKeepsSlugs(Step(w, acts[0]), acts[1..]);
    }
  }

  /** An answered issue stays answered: after any further submits, answers and retries it is still
      closed and resolved and holds each of the answer's contents exactly once. */
  lemma SettledForGood(w: World, v: World, acts: seq<Act>, id: IssueId, x: SubmitAnswer)
    requires Reached(w, v) && Runs(v, acts) && id in v.a.issues && Settled(v, v.a.issues[id], x)
    ensures id in RunOf(v, acts).a.issues && Settled(v, RunOf(v, acts).a.issues[id], x)
  {
    ReachedOk(w, v);
    RunGrowsA(v, acts);
    RunKeeps(v, acts);
    RunKeepsSlugs(v, acts);
    var r := RunOf(v, acts);
    assert GrowIssue(v.a.issues[id], r.a.issues[id]) && SourceIssueOk(r, r.a.issues[id]);
    forall c | c in Results(v.slugB, x.comments) ensures c in Contents(r.a.issues[id]) {
      InContents(v.a.issues[id], c);
    }
    ArrivedIsSettled(r, r.a.issues[id], x);
  }

  // ---- The round trip ----

  /** Wherever command `pid` has got to, it is about the answer x. */
  ghost predicate Carries(w: World, pid: nat, x: SubmitAnswer) {
    && pid < w.nextPid
    && (pid in w.procs ==> (w.procs[pid].Answering? || w.procs[pid].Closing?) && w.procs[pid].answer == x)
    && (!w.source.SourceIdle? && w.source.pid == pid ==> w.source.x == x)
  }

  lemma ActCarries(w: World, act: Act, pid: nat, x: SubmitAnswer)
    requires CanAct(w, act) && Carries(w, pid, x)
    ensures Carries(Step(w, act), pid, x)
  {
  }

  lemma {:induction false} RunCarries(w: World, acts: seq<Act>, pid: nat, x: SubmitAnswer)
    requires Runs(w, acts) && Carries(w, pid, x)
    ensures Carries(RunOf(w, acts), pid, x)
    decreases |acts|
  {
    if acts != [] {
      ActCarries(w, acts[0], pid, x);
      RunCarries(Step(w, acts[0]), acts[1..], pid, x);
    }
  }

  lemma {:induction false} ResultIsCarried(peer: Slug, comments: seq<Comment>, c: Comment)
    requires c in comments && c.kind == "result"
    ensures Prefixed(peer, c.content) in Results(peer, comments)
  {
    var n := |comments| - 1;
    if comments[n] != c {
      ResultIsCarried(peer, comments[..n], c);
    }
  }

  lemma {:induction false} Snoc(w: World, acts: seq<Act>, act: Act)
    requires Runs(w, acts) && CanAct(RunOf(w, acts), act) && Unobtrusive(RunOf(w, acts), act)
    ensures Runs(w, acts + [act]) && RunOf(w, acts + [act]) == Step(RunOf(w, acts), act)
    decreases |acts|
  {
    if acts != [] {
      Snoc(Step(w, acts[0]), acts[1..], act);
      assert (acts + [act])[1..] == acts[1..] + [act];
    } else {
      assert acts + [act] == [act];
    }
  }

  lemma {:induction false} RunsJoin(w: World, acts: seq<Act>, more: seq<Act>)
    requires Runs(w, acts) && Runs(RunOf(w, acts), more)
    ensures Runs(w, acts + more) && RunOf(w, acts + more) == RunOf(RunOf(w, acts), more)
    decreases |more|
  {
    if more == [] {
      assert acts + more == acts;
    } else {
      Snoc(w, acts, more[0]);
      RunsJoin(w, acts + [more[0]], more[1..]);
      assert acts + [more[0]] + more[1..] == acts + more;
    }
  }

  lemma ReachedOn(w: World, v: World, acts: seq<Act>)
    requires Reached(w, v) && Runs(v, acts)
    ensures Reached(w, RunOf(v, acts))
  {
    var before :| Runs(w, before) && RunOf(w, before) == v;
    RunsJoin(w, before, acts);
  }

  lemma ReachedNext(w: World, v: World, act: Act)
    requires Reached(w, v) && CanAct(v, act) && Unobtrusive(v, act)
    ensures Reached(w, Step(v, act))
  {
    var before :| Runs(w, before) && RunOf(w, before) == v;
    Snoc(w, before, act);
  }

  lemma StartCarries(v: World, issue: IssueId, labels: seq<string>)
    requires Engaged(v) && CanAct(v, StartAnswer(issue, labels))
    ensures Carries(Step(v, StartAnswer(issue, labels)), v.nextPid, AnswerRequest(v.b, issue, labels).value.1)
  {
  }

  lemma AnswerIsTheOneStarted(w: World, v: World, issue: IssueId, labels: seq<string>, acts: seq<Act>)
    requires Reached(w, v) && CanAct(v, StartAnswer(issue, labels)) && Runs(Step(v, StartAnswer(issue, labels)), acts)
    ensures var m := RunOf(Step(v, StartAnswer(issue, labels)), acts);
            Reached(w, m) && m.slugB == v.slugB && Carries(m, v.nextPid, AnswerRequest(v.b, issue, labels).value.1)
  {
    var s := Step(v, StartAnswer(issue, labels));
    ReachedOk(w, v);
    StartCarries(v, issue, labels);
    RunCarries(s, acts, v.nextPid, AnswerRequest(v.b, issue, labels).value.1);
    RunKeepsSlugs(s, acts);
    ReachedNext(w, v, StartAnswer(issue, labels));
    ReachedOn(w, s, acts);
  }

  /** The issue holds, marked as coming from the peer, each of the result comments exactly once. */
  ghost predicate HoldsResults(i: Issue, peer: Slug, comments: seq<Comment>) {
    forall c :: c in comments && c.kind == "result" ==> Occurrences(i.comments, "[from " + peer + "] " + c.content) == 1
  }

  lemma SettledHoldsResults(m: World, i: Issue, x: SubmitAnswer, comments: seq<Comment>)
    requires Settled(m, i, x) && x.comments == OnlyResults(comments)
    ensures HoldsResults(i, m.slugB, comments)
  {
    ResultsOfResults(m.slugB, comments);
    forall c | c in comments && c.kind == "result"
      ensures Occurrences(i.comments, "[from " + m.slugB + "] " + c.content) == 1
    {
      ResultIsCarried(m.slugB, comments, c);
      CopiesDiffer(m.slugB, c.content, c.content);
    }
  }

  /** A holder of a ref label in A holds its own uuid. */
  lemma RefIsOwn(w: World, i: Issue, u: string)
    requires SourceIssueOk(w, i) && HasRef(i, u)
    ensures i.uuid == Some(u)
  {
    assert REF_PREFIX <= RefLabel(u);
    PlusInjective(REF_PREFIX, u, i.uuid.value);
  }

  lemma AnsweredIssueRefers(w: World, issue: IssueId, labels: seq<string>)
    requires CanAct(w, StartAnswer(issue, labels))
    ensures HasRef(w.b.issues[issue], AnswerRequest(w.b, issue, labels).value.1.sourceUuid)
  {
    FoundIsThere(labels, REF_PREFIX);
  }

  lemma SettledIsOwn(w: World, m: World, id: IssueId, x: SubmitAnswer)
    requires Reached(w, m) && id in m.a.issues && Settled(m, m.a.issues[id], x)
    ensures m.a.issues[id].uuid == Some(x.sourceUuid)
  {
    ReachedOk(w, m);
    RefIsOwn(m, m.a.issues[id], x.sourceUuid);
  }

  /** The round trip: whatever happened before and whatever else happens meanwhile, when A's server
      completes an answer, the issue of A that B's issue refers to, by its uuid, is closed and resolved
      and holds each result comment that B's issue had when the answer was started exactly once. */
  lemma AnswerRoundTrip(w: World, v: World, issue: IssueId, labels: seq<string>, acts: seq<Act>, m: World)
    requires Reached(w, v) && CanAct(v, StartAnswer(issue, labels)) && Runs(Step(v, StartAnswer(issue, labels)), acts)
    requires m == RunOf(Step(v, StartAnswer(issue, labels)), acts)
    requires CanAct(m, SourceClose) && m.source.pid == v.nextPid
    ensures m.source.id in Step(m, SourceClose).a.issues
    ensures var i := Step(m, SourceClose).a.issues[m.source.id];
            && i.uuid.Some? && HasRef(v.b.issues[issue], i.uuid.value) && HasRef(i, i.uuid.value)
            && i.status == Closed && STATUS_RESOLVED in i.labels && HoldsResults(i, v.slugB, v.b.issues[issue].comments)
  {
    AnswerIsTheOneStarted(w, v, issue, labels, acts);
    AnsweredIssueRefers(v, issue, labels);
    CompletedAnswerIsSettled(w, m);
    ReachedNext(w, m, SourceClose);
    CompletedIsOwn(w, m, Step(m, SourceClose));
    SettledHoldsResults(m, Step(m, SourceClose).a.issues[m.source.id], m.source.x, v.b.issues[issue].comments);
  }

  lemma CompletedIsOwn(w: World, m: World, m': World)
    requires CanAct(m, SourceClose) && m' == Step(m, SourceClose) && Reached(w, m')
    requires m.source.id in m'.a.issues && Settled(m, m'.a.issues[m.source.id], m.source.x)
    ensures m'.a.issues[m.source.id].uuid == Some(m.source.x.sourceUuid)
  {
    SettledIsOwn(w, m', m.source.id, m.source.x);
  }
}
