/** The client commands: an ordered sequence of local writes around one remote call,
    which may be cut off after any of its writes. */
module Client {
  import opened Protocol
  import opened Issues
  import opened Handlers

  // ---- Submit ----

  /** What `submit` reads from the local issue, or why it stops. */
  function SubmitRequest(db: Db, issue: IssueId, own: Slug, labels: seq<string>, peerUp: bool): Result<SubmitIssue> {
    if issue !in db.issues then Err("issue not found")
    else
      var i := db.issues[issue];
      if i.uuid.None? then Err("issue has no UUID in the local DB")
      else if !peerUp then Err("peer not available (not connected)")
      else Ok(SubmitIssue(i.title, i.body, labels, own, i.uuid.value))
  }

  /** The command's label writes: the ref label comes last. */
  function SubmitLabels(uuid: string): (labels: seq<string>)
    ensures |labels| == 3
  {
    [OUTBOUND, STATUS_PENDING, RefLabel(uuid)]
  }

  /** The local issue after the first n of the command's label writes. */
  function AfterSubmitWrites(i: Issue, uuid: string, n: nat): Issue {
    if n == 0 then i
    else if n <= 3 then AddLabel(AfterSubmitWrites(i, uuid, n - 1), SubmitLabels(uuid)[n - 1])
    else AfterSubmitWrites(i, uuid, 3)
  }

  /** What is asked, and exactly when: the issue exists and has a uuid, and the peer is there. */
  lemma SubmitRequestCases(db: Db, issue: IssueId, own: Slug, labels: seq<string>, peerUp: bool)
    ensures var r := SubmitRequest(db, issue, own, labels, peerUp);
            && (r.Ok? <==> issue in db.issues && db.issues[issue].uuid.Some? && peerUp)
            && (r == Err("issue not found") <==> issue !in db.issues)
            && (r == Err("issue has no UUID in the local DB") <==> issue in db.issues && db.issues[issue].uuid.None?)
            && (r.Ok? ==>
                  var i := db.issues[issue];
                  && r.value.title == i.title && r.value.body == i.body && r.value.labels == labels
                  && r.value.sourceSlug == own && Some(r.value.sourceUuid) == i.uuid)
  {
  }

  /** The labels after each write: outbound, then pending, then the ref label, and nothing else changes. */
  lemma SubmitWritesCases(i: Issue, uuid: string, n: nat)
    ensures AfterSubmitWrites(i, uuid, n) == i.(labels := AfterSubmitWrites(i, uuid, n).labels)
    ensures AfterSubmitWrites(i, uuid, n).labels == i.labels
              + (if n >= 1 then {"xb:outbound"} else {})
              + (if n >= 2 then {"xb-status:pending"} else {})
              + (if n >= 3 then {"xb-ref:" + uuid} else {})
  {
    assert AfterSubmitWrites(i, uuid, 1) == AddLabel(i, SubmitLabels(uuid)[0]);
    assert AfterSubmitWrites(i, uuid, 2) == AddLabel(AfterSubmitWrites(i, uuid, 1), SubmitLabels(uuid)[1]);
    assert AfterSubmitWrites(i, uuid, 3) == AddLabel(AfterSubmitWrites(i, uuid, 2), SubmitLabels(uuid)[2]);
  }

  /** `reply` is the server's response, None if the call fails; at most `budget` local writes happen. */
  method SubmitCmd(db: Database, issue: IssueId, own: Slug, labels: seq<string>, peerUp: bool,
      reply: Option<Result<IssueId>>, budget: nat) returns (r: Result<SubmitIssue>)
    requires issue in db.issues ==> Enumerates(labels, db.issues[issue].labels)
    modifies db
    ensures var request := SubmitRequest(old(db.View()), issue, own, labels, peerUp);
            if request.Ok? && reply.Some? && reply.value.Ok?
            then db.View() == Change(old(db.View()), issue,
                AfterSubmitWrites(old(db.issues[issue]), request.value.sourceUuid, budget))
                 && if budget >= 3 then r == request else r.Err?
            else db.View() == old(db.View()) && r.Err? && (request.Err? ==> r == request)
  {
    if issue !in db.issues {
      return Err("issue not found");
    }
    var i := db.issues[issue];
    if i.uuid.None? {
      return Err("issue has no UUID in the local DB");
    }
    if !peerUp {
      return Err("peer not available (not connected)");
    }
    var uuid := i.uuid.value;
    var request := SubmitIssue(i.title, i.body, labels, own, uuid);
    if reply.None? || reply.value.Err? {
      return Err("remote call failed");
    }
    assert Change(db.View(), issue, i) == db.View();
    if budget == 0 { return Err("cut off"); }
    db.AddLabel(issue, OUTBOUND);
    assert db.View() == Change(old(db.View()), issue, AfterSubmitWrites(i, uuid, 1));
    if budget == 1 { return Err("cut off"); }
    db.AddLabel(issue, STATUS_PENDING);
    assert db.View() == Change(old(db.View()), issue, AfterSubmitWrites(i, uuid, 2));
    if budget == 2 { return Err("cut off"); }
    db.AddLabel(issue, RefLabel(uuid));
    assert db.View() == Change(old(db.View()), issue, AfterSubmitWrites(i, uuid, 3));
    return Ok(request);
  }

  // ---- Answer ----

  function OnlyResults(comments: seq<Comment>): (out: seq<Comment>) {
    if comments == [] then []
    else
      var c := comments[|comments| - 1];
      OnlyResults(comments[..|comments| - 1]) + if c.kind == "result" then [c] else []
  }

  /** `out` holds the result comments, those at the given positions, whole and in order. */
  ghost predicate Picked(comments: seq<Comment>, out: seq<Comment>, at: seq<nat>) {
    && |at| == |out| && (forall k, n :: 0 <= k < n < |at| ==> at[k] < at[n])
    && (forall k :: 0 <= k < |at| ==>
          at[k] < |comments| && comments[at[k]].kind == "result" && out[k] == comments[at[k]])
    && (forall p :: 0 <= p < |comments| && comments[p].kind == "result" ==> p in at)
  }

  lemma PickedOneMore(comments: seq<Comment>, out: seq<Comment>, at: seq<nat>, c: Comment)
    requires Picked(comments, out, at)
    ensures if c.kind == "result" then Picked(comments + [c], out + [c], at + [|comments|])
            else Picked(comments + [c], out, at)
  {
    var all := comments + [c];
    assert forall p: nat :: p in at + [|comments|] <==> p in at || p == |comments|;
    assert forall k :: 0 <= k < |comments| ==> all[k] == comments[k];
  }

  /** Exactly the result comments travel, whole and in order. */
  lemma {:induction false} OnlyResultsInOrder(comments: seq<Comment>) returns (at: seq<nat>)
    ensures Picked(comments, OnlyResults(comments), at)
  {
    if comments == [] {
      at := [];
    } else {
      var n := |comments| - 1;
      at := OnlyResultsInOrder(comments[..n]);
      PickedOneMore(comments[..n], OnlyResults(comments[..n]), at, comments[n]);
      assert comments == comments[..n] + [comments[n]];
      assert OnlyResults(comments[..n]) + [] == OnlyResults(comments[..n]);
      at := if comments[n].kind == "result" then at + [n] else at;
    }
  }

  /** Where an inbound issue's answer goes and what it says, or why it cannot be answered. */
  function AnswerRequest(db: Db, issue: IssueId, labels: seq<string>): Result<(Slug, SubmitAnswer)> {
    if issue !in db.issues then Err("issue not found")
    else if !Has(labels, INBOUND) then Err("not an inbound crossbridge issue")
    else match (FindPrefixed(labels, SOURCE_PREFIX), FindPrefixed(labels, REF_PREFIX))
      case (None, _) => Err("missing required label xb-source:")
      case (_, None) => Err("missing required label xb-ref:")
      case (Some(source), Some(uuid)) => Ok((source, SubmitAnswer(uuid, OnlyResults(db.issues[issue].comments))))
  }

  function AfterAnswerWrites(i: Issue, n: nat): Issue {
    if n == 0 then i
    else if n == 1 then AddLabel(i, STATUS_ANSWERED)
    else AddLabel(i, STATUS_ANSWERED).(status := Closed)
  }

  lemma AnswerWritesCases(i: Issue, n: nat)
    ensures var j := AfterAnswerWrites(i, n);
            && j == i.(labels := j.labels, status := j.status)
            && j.labels == i.labels + (if n >= 1 then {"xb-status:answered"} else {})
            && j.status == if n >= 2 then Closed else i.status
  {
  }

  /** What is answered, and exactly when: the issue exists and is inbound, and names a source and a reference; the
      first such labels count. */
  lemma AnswerRequestCases(db: Db, issue: IssueId, labels: seq<string>)
    ensures var r := AnswerRequest(db, issue, labels);
            && (r.Ok? <==> issue in db.issues && "xb:inbound" in labels
                           && (exists l :: l in labels && "xb-source:" <= l)
                           && (exists l :: l in labels && "xb-ref:" <= l))
            && (r == Err("issue not found") <==> issue !in db.issues)
            && (r == Err("not an inbound crossbridge issue") <==> issue in db.issues && "xb:inbound" !in labels)
            && (r.Ok? ==>
                  && Some(r.value.0) == FindPrefixed(labels, "xb-source:")
                  && Some(r.value.1.sourceUuid) == FindPrefixed(labels, "xb-ref:")
                  && r.value.1.comments == OnlyResults(db.issues[issue].comments))
  {
    FoundIff(labels, "xb-source:");
    FoundIff(labels, "xb-ref:");
  }

  lemma {:induction false} FoundIff(labels: seq<string>, prefix: string)
    ensures FindPrefixed(labels, prefix).Some? <==> exists l :: l in labels && prefix <= l
  {
    if labels != [] && !(prefix <= labels[0]) {
      FoundIff(labels[1..], prefix);
      assert forall l :: l in labels <==> l == labels[0] || l in labels[1..];
    } else if labels != [] {
      assert labels[0] in labels;
    }
  }

  method AnswerCmd(db: Database, issue: IssueId, labels: seq<string>, peerUp: bool,
      reply: Option<Result<IssueId>>, budget: nat) returns (r: Result<(Slug, SubmitAnswer)>)
    requires issue in db.issues ==> Enumerates(labels, db.issues[issue].labels)
    modifies db
    ensures var request := AnswerRequest(old(db.View()), issue, labels);
            if request.Ok? && peerUp && reply.Some? && reply.value.Ok?
            then db.View() == Change(old(db.View()), issue, AfterAnswerWrites(old(db.issues[issue]), budget))
                 && if budget >= 2 then r == request else r.Err?
            else db.View() == old(db.View()) && r.Err? && (request.Err? ==> r == request)
  {
    var request := AnswerRequest(Db(db.issues, db.nextId), issue, labels);
    if request.Err? {
      return request;
    }
    if !peerUp {
      return Err("peer not available (not connected)");
    }
    if reply.None? || reply.value.Err? {
      return Err("remote call failed");
    }
    assert Change(db.View(), issue, db.issues[issue]) == db.View();
    if budget == 0 { return Err("cut off"); }
    db.AddLabel(issue, STATUS_ANSWERED);
    if budget == 1 { return Err("cut off"); }
    db.CloseIssue(issue);
    return request;
  }

  // ---- What was submitted can be answered ----

  /** The client's labels name no other submission and no source. */
  ghost predicate OwnLabelsOnly(s: SubmitIssue) {
    NoForeignRef(s) && forall l :: l in s.labels ==> !(SOURCE_PREFIX <= l)
  }

  /** The labels of an inbound issue name its source and its submission, and nothing else does. */
  ghost predicate Inbound(labels: set<string>, source: Slug, uuid: string) {
    && INBOUND in labels
    && SourceLabel(source) in labels && (forall l :: l in labels && SOURCE_PREFIX <= l ==> l == SourceLabel(source))
    && RefLabel(uuid) in labels && (forall l :: l in labels && REF_PREFIX <= l ==> l == RefLabel(uuid))
  }

  lemma InboundLabelsAreInbound(s: SubmitIssue)
    requires OwnLabelsOnly(s)
    ensures Inbound(InboundLabels(s), s.sourceSlug, s.sourceUuid)
  {
    forall l | l in InboundLabels(s)
      ensures SOURCE_PREFIX <= l ==> l == SourceLabel(s.sourceSlug)
      ensures REF_PREFIX <= l ==> l == RefLabel(s.sourceUuid)
    {
      if SOURCE_PREFIX <= l { assert l[3] == 's' && l[5] == 'u'; }
      if REF_PREFIX <= l { assert l[3] == 'r'; }
      assert STATUS_OPEN[5] == 'a' && RefLabel(s.sourceUuid)[3] == 'r' && SourceLabel(s.sourceSlug)[3] == 's';
      assert REQUEST[3] == 'e' && INBOUND[3] == 'i';
    }
  }

  /** Answering an inbound issue addresses its source with the uuid it was submitted under,
      in whatever order the database lists the labels. */
  lemma InboundIsAnswerable(db: Db, issue: IssueId, labels: seq<string>, source: Slug, uuid: string)
    requires issue in db.issues && Inbound(db.issues[issue].labels, source, uuid)
    requires Enumerates(labels, db.issues[issue].labels)
    ensures AnswerRequest(db, issue, labels) == Ok((source, SubmitAnswer(uuid, OnlyResults(db.issues[issue].comments))))
  {
    FindPrefixedUnique(labels, SOURCE_PREFIX, source);
    FindPrefixedUnique(labels, REF_PREFIX, uuid);
  }

  /** The issue a successful submit creates can be answered, back to the submitter and under its uuid. */
  lemma SubmittedIssueIsAnswerable(db: Db, s: SubmitIssue, env: SubmitEnv, labels: seq<string>)
    requires OwnLabelsOnly(s) && env.found == None && Submit(db, s, env).1.Ok?
    requires var d := Submit(db, s, env).0; Enumerates(labels, d.issues[db.nextId].labels)
    ensures AnswerRequest(Submit(db, s, env).0, db.nextId, labels) == Ok((s.sourceSlug, SubmitAnswer(s.sourceUuid, [])))
  {
    var d := Submit(db, s, env).0;
    assert d.issues[db.nextId].labels == InboundLabels(s);
    InboundLabelsAreInbound(s);
    InboundIsAnswerable(d, db.nextId, labels, s.sourceSlug, s.sourceUuid);
  }

  /** From repository to repository: the inbound issue a submit creates has the title, the body and the
      labels of the local issue, names the submitter and refers to the local issue's uuid. */
  lemma RequestArrives(a: Db, issue: IssueId, own: Slug, labels: seq<string>, peerUp: bool, b: Db, env: SubmitEnv)
    requires issue in a.issues && Enumerates(labels, a.issues[issue].labels) && DbOk(b)
    requires SubmitRequest(a, issue, own, labels, peerUp).Ok?
    requires var s := SubmitRequest(a, issue, own, labels, peerUp).value;
             && (env.lookupOk ==> Finds(b, RefLabel(s.sourceUuid), env.found))
             && Submit(b, s, env).1.Ok? && Submit(b, s, env).1.value !in b.issues
    ensures var (d, r) := Submit(b, SubmitRequest(a, issue, own, labels, peerUp).value, env);
            var i, j := a.issues[issue], d.issues[r.value];
            && i.uuid.Some? && j.title == i.title && i.body <= j.body && i.labels <= j.labels
            && {INBOUND, SourceLabel(own), RefLabel(i.uuid.value)} <= j.labels
  {
  }

  /** Only the result comments travel, so filtering them again at the receiver changes nothing. */
  lemma {:induction false} ResultsOfResults(peer: Slug, comments: seq<Comment>)
    ensures Results(peer, OnlyResults(comments)) == Results(peer, comments)
  {
    if comments != [] {
      var n := |comments| - 1;
      ResultsOfResults(peer, comments[..n]);
      if comments[n].kind == "result" {
        assert OnlyResults(comments)[..|OnlyResults(comments)| - 1] == OnlyResults(comments[..n]);
      } else {
        assert OnlyResults(comments) == OnlyResults(comments[..n]);
      }
    }
  }

  /** Submitting an issue again after its answer has arrived leaves it closed, with both pending and resolved. */
  lemma ResubmitAfterAnswer(i: Issue, peer: Slug, a: SubmitAnswer, uuid: string, n: nat)
    ensures var again := AfterSubmitWrites(Answered(i, peer, a), uuid, n);
            && again.status == Closed && STATUS_RESOLVED in again.labels
            && (STATUS_PENDING in again.labels <==> n >= 2)
  {
  }
}
