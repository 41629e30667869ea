/** The server's request handlers over its issue database. */
module Handlers {
  import opened Protocol
  import opened Issues

  datatype SubmitIssue = SubmitIssue(title: string, body: string, labels: seq<string>, sourceSlug: Slug,
      sourceUuid: string)

  datatype SubmitAnswer = SubmitAnswer(sourceUuid: string, comments: seq<Comment>)

  datatype Result<+T> = Ok(value: T) | Err(message: string)

  const FOOTER := "\n\n---\nAfter answering, run: `crossbridge-client answer --issue <id>`"

  /** What the environment decides in one call: the lookup's choice, the new issue's uuid, which database calls
      succeed. */
  datatype SubmitEnv = SubmitEnv(lookupOk: bool, found: Option<IssueId>, createOk: bool, uuid: string, labelsOk: bool)

  datatype AnswerEnv = AnswerEnv(lookupOk: bool, found: Option<IssueId>, commentsOk: bool, writeOk: bool,
      loadOk: bool, closeOk: bool)

  // ---- Submit ----

  function InboundLabels(s: SubmitIssue): set<string> {
    {REQUEST, INBOUND, STATUS_OPEN, SourceLabel(s.sourceSlug), RefLabel(s.sourceUuid)} + Elements(s.labels)
  }

  function NewIssue(s: SubmitIssue, uuid: string): Issue {
    Issue(s.title, s.body + FOOTER, Some(uuid), Open, {}, [])
  }

  function Labelled(db: Db, id: IssueId, s: SubmitIssue): Db
    requires id in db.issues
  {
    var i := db.issues[id];
    Change(db, id, i.(labels := i.labels + InboundLabels(s)))
  }

  function Submit(db: Db, s: SubmitIssue, env: SubmitEnv): (Db, Result<IssueId>) {
    if !env.lookupOk then (db, Err("listing issues by label"))
    else if env.found.Some? then (db, Ok(env.found.value))
    else if !env.createOk then (db, Err("creating local issue"))
    else
      var created := Insert(db, NewIssue(s, env.uuid));
      if !env.labelsOk then (created, Err("applying labels"))
      else (Labelled(created, db.nextId, s), Ok(db.nextId))
  }

  // ---- Answer ----

  function Prefixed(peer: Slug, content: string): string {
    "[from " + peer + "] " + content
  }

  /** The contents of the result comments, as they are copied. */
  function Results(peer: Slug, comments: seq<Comment>): seq<string> {
    if comments == [] then []
    else
      var c := comments[|comments| - 1];
      Results(peer, comments[..|comments| - 1]) + if c.kind == "result" then [Prefixed(peer, c.content)] else []
  }

  /** Those not among the existing contents; repeats within one answer are not removed. */
  function Missing(contents: seq<string>, existing: set<string>): seq<string> {
    if contents == [] then []
    else
      var c := contents[|contents| - 1];
      Missing(contents[..|contents| - 1], existing) + if c !in existing then [c] else []
  }

  function ToCopy(i: Issue, peer: Slug, a: SubmitAnswer): seq<string> {
    Missing(Results(peer, a.comments), Contents(i))
  }

  function AsResults(contents: seq<string>): (out: seq<Comment>)
    ensures |out| == |contents|
    ensures forall k :: 0 <= k < |contents| ==> out[k] == Comment(contents[k], "result")
  {
    seq(|contents|, k requires 0 <= k < |contents| => Comment(contents[k], "result"))
  }

  /** The answer's transaction. */
  function Applied(i: Issue, copy: seq<string>): Issue {
    i.(comments := i.comments + AsResults(copy),
       labels := i.labels - {STATUS_PENDING} + {STATUS_RESOLVED})
  }

  function Answered(i: Issue, peer: Slug, a: SubmitAnswer): Issue {
    Applied(i, ToCopy(i, peer, a)).(status := Closed)
  }

  function Answer(db: Db, peer: Slug, a: SubmitAnswer, env: AnswerEnv): (Db, Result<IssueId>)
    requires env.found.Some? ==> env.found.value in db.issues
  {
    if !env.lookupOk then (db, Err("listing issues by label"))
    else if env.found.None? then (db, Err("no local issue with label " + RefLabel(a.sourceUuid)))
    else
      var id := env.found.value;
      var i := db.issues[id];
      if !env.commentsOk then (db, Err("reading comments"))
      else if !env.writeOk then (db, Err("applying answer"))
      else
        var applied := Change(db, id, Applied(i, ToCopy(i, peer, a)));
        if !env.loadOk then (applied, Err("loading issue"))
        else if i.status == Closed then (applied, Ok(id))
        else if !env.closeOk then (applied, Err("closing issue"))
        else (Change(db, id, Answered(i, peer, a)), Ok(id))
  }

  // ---- At most one issue per submission ----

  lemma RefLabelsDiffer(u: string, v: string)
    requires u != v
    ensures RefLabel(u) != RefLabel(v)
  {
    if RefLabel(u) == RefLabel(v) {
      PlusInjective(REF_PREFIX, u, v);
    }
  }

  /** The client's labels carry no reference to another submission. */
  ghost predicate NoForeignRef(s: SubmitIssue) {
    forall l :: l in s.labels && REF_PREFIX <= l ==> l == RefLabel(s.sourceUuid)
  }

  /** Exactly when a submit keeps a ref label unique: unless every database call succeeds, no issue holds
      the submission yet, and the client's labels carry the label, foreign to it, while some issue holds it. */
  lemma SubmitKeepsUniqueIff(db: Db, s: SubmitIssue, env: SubmitEnv, u: string)
    requires DbOk(db) && AtMostOneHolder(db, RefLabel(u))
    requires env.lookupOk ==> Finds(db, RefLabel(s.sourceUuid), env.found)
    ensures AtMostOneHolder(Submit(db, s, env).0, RefLabel(u)) <==>
            !(env.lookupOk && env.createOk && env.labelsOk && Holders(db, RefLabel(s.sourceUuid)) == {}
              && RefLabel(u) in s.labels && Holders(db, RefLabel(u)) != {})
  {
    var d := Submit(db, s, env).0;
    var l := RefLabel(u);
    if env.lookupOk && env.found == None && env.createOk && env.labelsOk {
      LabelledHolders(db, s, env.uuid, u);
      if Holders(db, l) != {} && l in InboundLabels(s) {
        var id :| id in Holders(db, l);
        assert id in Holders(d, l) && db.nextId in Holders(d, l);
      }
      NotOurLabel(s, u);
    } else {
      assert Holders(d, l) == Holders(db, l) by {
        if d != db {
          InsertHolders(db, NewIssue(s, env.uuid), l);
        }
      }
    }
  }

  const ALL_WELL := SubmitEnv(true, None, true, "new", true)

  /** Submitting u and then v with the ref label of u among the labels leaves two issues that refer to u. */
  lemma ForeignLabelBreaksUniqueness(u: string, v: string, slug: Slug)
    requires u != v
    ensures var first := SubmitIssue("first", "", [], slug, u);
            var second := SubmitIssue("second", "", [RefLabel(u)], slug, v);
            var d := Submit(Db(map[], 1), first, ALL_WELL).0;
            && Finds(Db(map[], 1), RefLabel(u), None) && Finds(d, RefLabel(v), None)
            && Holders(Submit(d, second, ALL_WELL).0, RefLabel(u)) == {1, 2}
  {
    var empty: Db := Db(map[], 1);
    var first := SubmitIssue("first", "", [], slug, u);
    var second := SubmitIssue("second", "", [RefLabel(u)], slug, v);
    var d := Submit(empty, first, ALL_WELL).0;
    LabelledHolders(empty, first, "new", u);
    LabelledHolders(empty, first, "new", v);
    NotOurLabel(first, u);
    NotOurLabel(first, v);
    assert Holders(empty, RefLabel(u)) == {} && Holders(empty, RefLabel(v)) == {};
    assert Holders(d, RefLabel(u)) == {1} && Holders(d, RefLabel(v)) == {};
    LabelledHolders(d, second, "new", u);
    NotOurLabel(second, u);
  }

  lemma InsertHolders(db: Db, i: Issue, l: string)
    requires DbOk(db) && i.labels == {}
    ensures Holders(Insert(db, i), l) == Holders(db, l)
  {
  }

  lemma LabelledHolders(db: Db, s: SubmitIssue, uuid: string, u: string)
    requires DbOk(db)
    ensures var d := Labelled(Insert(db, NewIssue(s, uuid)), db.nextId, s);
            Holders(d, RefLabel(u)) ==
              Holders(db, RefLabel(u)) + if RefLabel(u) in InboundLabels(s) then {db.nextId} else {}
  {
  }

  /** Of the labels the handler sets itself only the submission's own ref label is a ref label. */
  lemma NotOurLabel(s: SubmitIssue, u: string)
    ensures RefLabel(u) in InboundLabels(s) <==> u == s.sourceUuid || RefLabel(u) in s.labels
  {
    var l := RefLabel(u);
    assert l[3] == 'r';
    assert REQUEST[3] != 'r' && INBOUND[3] != 'r' && STATUS_OPEN[3] != 'r' && SourceLabel(s.sourceSlug)[3] != 'r';
    if u != s.sourceUuid {
      RefLabelsDiffer(u, s.sourceUuid);
    }
  }

  /** Exactly when and how a submit succeeds: with the issue found, or with a new one if everything can be written.
      Whatever fails, all existing issues are left alone and at most one is added. */
  lemma SubmitCases(db: Db, s: SubmitIssue, env: SubmitEnv)
    requires DbOk(db)
    ensures var (d, r) := Submit(db, s, env);
            && (r.Ok? <==> env.lookupOk && (env.found.Some? || (env.createOk && env.labelsOk)))
            && (r.Ok? ==> r.value == if env.found.Some? then env.found.value else db.nextId)
            && (d == db <==> !env.lookupOk || env.found.Some? || !env.createOk)
            && (d != db ==> d.nextId == db.nextId + 1 && d.issues.Keys == db.issues.Keys + {db.nextId}
                            && (forall id :: id in db.issues ==> d.issues[id] == db.issues[id])
                            && (r.Err? ==> d.issues[db.nextId].labels == {}))
  {
  }

  /** A reply without error names a holder of the ref label; the issue created for it is open, asks what the
      client asked, tells how to answer, and carries ours and the client's labels. A failure leaves no new
      issue that refers to the submission. */
  lemma SubmitEffect(db: Db, s: SubmitIssue, env: SubmitEnv)
    requires DbOk(db) && (env.lookupOk ==> Finds(db, RefLabel(s.sourceUuid), env.found))
    ensures var (d, r) := Submit(db, s, env);
            && DbOk(d)
            && (r.Ok? ==> r.value in Holders(d, "xb-ref:" + s.sourceUuid))
            && (r.Ok? && r.value !in db.issues ==>
                  var i := d.issues[r.value];
                  && i.status == Open && i.title == s.title && i.comments == [] && i.uuid == Some(env.uuid)
                  && i.body == s.body + "\n\n---\nAfter answering, run: `crossbridge-client answer --issue <id>`"
                  && i.labels == {"type:request", "xb:inbound", "xb-status:open"}
                                 + {"xb-source:" + s.sourceSlug, "xb-ref:" + s.sourceUuid} + Elements(s.labels))
            && (r.Err? ==> Holders(d, RefLabel(s.sourceUuid)) == Holders(db, RefLabel(s.sourceUuid)))
  {
  }

  // ---- Any sequence of submits ----

  datatype Episode = Submitted(s: SubmitIssue, env: SubmitEnv) | ClosedByHand(id: IssueId)

  function Happen(db: Db, e: Episode): Db {
    match e
    case Submitted(s, env) => Submit(db, s, env).0
    case ClosedByHand(id) => if id in db.issues then Change(db, id, db.issues[id].(status := Closed)) else db
  }

  function HappenAll(db: Db, episodes: seq<Episode>): Db {
    if episodes == [] then db else Happen(HappenAll(db, episodes[..|episodes| - 1]), episodes[|episodes| - 1])
  }

  /** Events happen one after the other: a submit as its handler does it, and a closing closes the issue, if there is
      one, and leaves all else alone. */
  lemma HappensNext(db: Db, episodes: seq<Episode>, e: Episode)
    ensures HappenAll(db, []) == db
    ensures var (c, d) := (HappenAll(db, episodes), HappenAll(db, episodes + [e]));
            && (e.Submitted? ==> d == Submit(c, e.s, e.env).0)
            && (e.ClosedByHand? && e.id !in c.issues ==> d == c)
            && (e.ClosedByHand? && e.id in c.issues ==>
                  && d.nextId == c.nextId && d.issues.Keys == c.issues.Keys
                  && d.issues[e.id] == c.issues[e.id].(status := Closed)
                  && (forall id :: id in c.issues && id != e.id ==> d.issues[id] == c.issues[id]))
  {
    assert (episodes + [e])[..|episodes|] == episodes;
  }

  /** The event is possible in db: its lookup returns a matching issue, its labels are not foreign. */
  ghost predicate Plausible(db: Db, e: Episode) {
    e.Submitted? ==> NoForeignRef(e.s) && (e.env.lookupOk ==> Finds(db, RefLabel(e.s.sourceUuid), e.env.found))
  }

  ghost predicate PlausibleAll(db: Db, episodes: seq<Episode>) {
    forall k :: 0 <= k < |episodes| ==> Plausible(HappenAll(db, episodes[..k]), episodes[k])
  }

  lemma HappenKeepsUnique(db: Db, e: Episode, u: string)
    requires DbOk(db) && AtMostOneHolder(db, RefLabel(u)) && Plausible(db, e)
    ensures DbOk(Happen(db, e)) && AtMostOneHolder(Happen(db, e), RefLabel(u))
    ensures Holders(db, RefLabel(u)) <= Holders(Happen(db, e), RefLabel(u))
  {
    match e
    case Submitted(s, env) =>
      SubmitKeepsUniqueIff(db, s, env, u);
      if RefLabel(u) in s.labels {
        assert REF_PREFIX <= RefLabel(u);
        if u != s.sourceUuid { RefLabelsDiffer(u, s.sourceUuid); }
      }
    case ClosedByHand(id) =>
      assert Holders(Happen(db, e), RefLabel(u)) == Holders(db, RefLabel(u));
  }

  /** A submit has its effect at most once: whatever submits (complete or failing half-way) and
      closings happen, each ref label keeps at most one holder, and a holder stays one. */
  lemma {:induction false} SubmitsKeepUnique(db: Db, episodes: seq<Episode>, u: string)
    requires DbOk(db) && AtMostOneHolder(db, RefLabel(u)) && PlausibleAll(db, episodes)
    ensures DbOk(HappenAll(db, episodes)) && AtMostOneHolder(HappenAll(db, episodes), RefLabel(u))
    ensures Holders(db, RefLabel(u)) <= Holders(HappenAll(db, episodes), RefLabel(u))
    decreases |episodes|
  {
    if episodes != [] {
      var n := |episodes| - 1;
      forall k | 0 <= k < n ensures Plausible(HappenAll(db, episodes[..n][..k]), episodes[..n][k]) {
        assert episodes[..n][..k] == episodes[..k];
      }
      SubmitsKeepUnique(db, episodes[..n], u);
      HappenKeepsUnique(HappenAll(db, episodes[..n]), episodes[n], u);
    }
  }

  lemma SuccessHolds(db: Db, s: SubmitIssue, env: SubmitEnv)
    requires DbOk(db) && (env.lookupOk ==> Finds(db, RefLabel(s.sourceUuid), env.found))
    requires Submit(db, s, env).1.Ok?
    ensures Submit(db, s, env).1.value in Holders(Submit(db, s, env).0, RefLabel(s.sourceUuid))
  {
  }

  /** All successful submits of one uuid return the same id, and once one has succeeded every
      further submit of it leaves the database as it is, whether the issue is open or closed. */
  lemma SubmitsAgree(db: Db, episodes: seq<Episode>, j: nat, k: nat)
    requires DbOk(db) && PlausibleAll(db, episodes) && j < k < |episodes|
    requires episodes[j].Submitted? && episodes[k].Submitted? && episodes[j].s.sourceUuid == episodes[k].s.sourceUuid
    requires AtMostOneHolder(db, RefLabel(episodes[j].s.sourceUuid))
    requires Submit(HappenAll(db, episodes[..j]), episodes[j].s, episodes[j].env).1.Ok?
    ensures var first := Submit(HappenAll(db, episodes[..j]), episodes[j].s, episodes[j].env);
            var before := HappenAll(db, episodes[..k]);
            var again := Submit(before, episodes[k].s, episodes[k].env);
            again.0 == before && (again.1.Ok? ==> again.1 == first.1)
  {
    var u := episodes[j].s.sourceUuid;
    PlausiblePrefix(db, episodes, j);
    SubmitsKeepUnique(db, episodes[..j], u);
    SuccessHolds(HappenAll(db, episodes[..j]), episodes[j].s, episodes[j].env);
    assert episodes[..j + 1][..j] == episodes[..j];
    PlausiblePrefix(db, episodes, k);
    PlausibleSuffix(db, episodes[..k], j + 1);
    assert episodes[..k][..j + 1] == episodes[..j + 1];
    HappenKeepsUnique(HappenAll(db, episodes[..j]), episodes[j], u);
    var mid := HappenAll(db, episodes[..j + 1]);
    SubmitsKeepUnique(mid, episodes[j + 1..k], u);
    HappenSplit(db, episodes[..k], j + 1);
    assert episodes[..k][j + 1..] == episodes[j + 1..k];
  }

  lemma PlausiblePrefix(db: Db, episodes: seq<Episode>, n: nat)
    requires PlausibleAll(db, episodes) && n <= |episodes|
    ensures PlausibleAll(db, episodes[..n])
  {
    forall k | 0 <= k < n ensures Plausible(HappenAll(db, episodes[..n][..k]), episodes[..n][k]) {
      assert episodes[..n][..k] == episodes[..k];
    }
  }

  lemma PlausibleSuffix(db: Db, episodes: seq<Episode>, n: nat)
    requires PlausibleAll(db, episodes) && n <= |episodes|
    ensures PlausibleAll(HappenAll(db, episodes[..n]), episodes[n..])
  {
    forall k | 0 <= k < |episodes| - n
        ensures Plausible(HappenAll(HappenAll(db, episodes[..n]), episodes[n..][..k]), episodes[n..][k]) {
      HappenSplit(db, episodes[..n + k], n);
      assert episodes[..n + k][..n] == episodes[..n] && episodes[..n + k][n..] == episodes[n..][..k];
    }
  }

  lemma {:induction false} HappenSplit(db: Db, episodes: seq<Episode>, n: nat)
    requires n <= |episodes|
    ensures HappenAll(db, episodes) == HappenAll(HappenAll(db, episodes[..n]), episodes[n..])
    decreases |episodes|
  {
    if n == |episodes| {
      assert episodes[..n] == episodes;
    } else {
      var m := |episodes| - 1;
      HappenSplit(db, episodes[..m], n);
      assert episodes[..m][..n] == episodes[..n] && episodes[..m][n..] == episodes[n..][..|episodes[n..]| - 1];
    }
  }

  // ---- What an answer copies ----

  lemma MultisetSnoc(xs: seq<string>, x: string)
    requires xs != []
    ensures multiset(xs)[x] == multiset(xs[..|xs| - 1])[x] + if xs[|xs| - 1] == x then 1 else 0
  {
    assert xs == xs[..|xs| - 1] + [xs[|xs| - 1]];
  }

  lemma {:induction false} MissingCount(contents: seq<string>, existing: set<string>, x: string)
    ensures multiset(Missing(contents, existing))[x] == if x in existing then 0 else multiset(contents)[x]
  {
    if contents != [] {
      var n := |contents| - 1;
      MissingCount(contents[..n], existing, x);
      MultisetSnoc(contents, x);
    }
  }

  lemma MissingElements(contents: seq<string>, existing: set<string>)
    ensures Elements(Missing(contents, existing)) == Elements(contents) - existing
  {
    forall x ensures x in Missing(contents, existing) <==> x in contents && x !in existing {
      MissingCount(contents, existing, x);
      assert x in Missing(contents, existing) <==> multiset(Missing(contents, existing))[x] > 0;
      assert x in contents <==> multiset(contents)[x] > 0;
    }
  }

  /** How often a content occurs among an issue's comments. */
  function Occurrences(comments: seq<Comment>, x: string): nat {
    if comments == [] then 0
    else Occurrences(comments[..|comments| - 1], x) + if comments[|comments| - 1].content == x then 1 else 0
  }

  /** The comments counted are those with the content. */
  lemma {:induction false} OccurrencesAre(comments: seq<Comment>, x: string) returns (at: set<nat>)
    ensures |at| == Occurrences(comments, x)
    ensures forall k: nat :: k in at <==> k < |comments| && comments[k].content == x
  {
    if comments == [] {
      at := {};
    } else {
      var n := |comments| - 1;
      at := OccurrencesAre(comments[..n], x);
      if comments[n].content == x {
        at := at + {n};
      }
    }
  }

  lemma OccurrencesSnoc(comments: seq<Comment>, c: Comment, x: string)
    ensures Occurrences(comments + [c], x) == Occurrences(comments, x) + if c.content == x then 1 else 0
  {
  }

  lemma {:induction false} OccurrencesAppend(comments: seq<Comment>, copy: seq<string>, x: string)
    ensures Occurrences(comments + AsResults(copy), x) == Occurrences(comments, x) + multiset(copy)[x]
    decreases |copy|
  {
    if copy == [] {
      assert comments + AsResults(copy) == comments;
    } else {
      OccurrencesAppend(comments, copy[..|copy| - 1], x);
      MultisetSnoc(copy, x);
      AppendOneMore(comments, copy, x);
    }
  }

  lemma AppendOneMore(comments: seq<Comment>, copy: seq<string>, x: string)
    requires copy != []
    ensures Occurrences(comments + AsResults(copy), x) ==
            Occurrences(comments + AsResults(copy[..|copy| - 1]), x) + if copy[|copy| - 1] == x then 1 else 0
  {
    var front, c := AsResults(copy[..|copy| - 1]), Comment(copy[|copy| - 1], "result");
    assert AsResults(copy) == front + [c];
    OccurrencesSnoc(comments + front, c, x);
    assert comments + AsResults(copy) == comments + front + [c];
  }

  lemma {:induction false} OccurrencesPositive(comments: seq<Comment>, x: string)
    ensures Occurrences(comments, x) > 0 <==> exists c :: c in comments && c.content == x
    decreases |comments|
  {
    if comments != [] {
      var n := |comments| - 1;
      assert comments == comments[..n] + [comments[n]];
      OccurrencesPositive(comments[..n], x);
    }
  }

  lemma InContents(i: Issue, x: string)
    ensures x in Contents(i) <==> Occurrences(i.comments, x) > 0
  {
    OccurrencesPositive(i.comments, x);
  }

  /** Exactly how often a content occurs after an answer: unchanged if it was there, else as often
      as the answer's result comments carry it. */
  lemma AnswerOccurrences(i: Issue, peer: Slug, a: SubmitAnswer, x: string)
    ensures Occurrences(Answered(i, peer, a).comments, x) ==
            if x in Contents(i) then Occurrences(i.comments, x) else multiset(Results(peer, a.comments))[x]
  {
    OccurrencesAppend(i.comments, ToCopy(i, peer, a), x);
    MissingCount(Results(peer, a.comments), Contents(i), x);
    InContents(i, x);
  }

  /** An answer brings the set of contents to the old set with every prefixed result content. */
  lemma AnswerContents(i: Issue, peer: Slug, a: SubmitAnswer)
    ensures Contents(Answered(i, peer, a)) == Contents(i) + Elements(Results(peer, a.comments))
  {
    forall x ensures x in Contents(Answered(i, peer, a)) <==> x in Contents(i) || x in Results(peer, a.comments) {
      AnswerOccurrences(i, peer, a, x);
      InContents(i, x);
      InContents(Answered(i, peer, a), x);
      assert x in Results(peer, a.comments) <==> multiset(Results(peer, a.comments))[x] > 0;
    }
  }

  /** At the given positions of the answer are its result comments that the issue did not have yet: they have been
      appended in this order, each as a result with its text marked as coming from the peer. */
  ghost predicate CopiedFrom(i: Issue, j: Issue, peer: Slug, comments: seq<Comment>, at: seq<nat>) {
    && |j.comments| == |i.comments| + |at| && i.comments <= j.comments
    && (forall k, n :: 0 <= k < n < |at| ==> at[k] < at[n])
    && (forall k :: 0 <= k < |at| ==>
          && at[k] < |comments| && comments[at[k]].kind == "result"
          && j.comments[|i.comments| + k] == Comment("[from " + peer + "] " + comments[at[k]].content, "result")
          && "[from " + peer + "] " + comments[at[k]].content !in Contents(i))
    && (forall p :: 0 <= p < |comments| && comments[p].kind == "result" ==>
          p in at || "[from " + peer + "] " + comments[p].content in Contents(i))
  }

  /** Different texts stay different. */
  lemma CopiesDiffer(peer: Slug, x: string, y: string)
    ensures Prefixed(peer, x) == "[from " + peer + "] " + x
    ensures Prefixed(peer, x) == Prefixed(peer, y) ==> x == y
  {
    if Prefixed(peer, x) == Prefixed(peer, y) {
      PlusInjective("[from " + peer + "] ", x, y);
    }
  }

  lemma MissingSnoc(contents: seq<string>, x: string, existing: set<string>)
    ensures Missing(contents + [x], existing) == Missing(contents, existing) + if x !in existing then [x] else []
  {
    assert (contents + [x])[..|contents|] == contents;
  }

  lemma {:induction false} CopyPositions(peer: Slug, comments: seq<Comment>, existing: set<string>)
      returns (at: seq<nat>)
    ensures var copy := Missing(Results(peer, comments), existing);
            && |at| == |copy|
            && (forall k, n :: 0 <= k < n < |at| ==> at[k] < at[n])
            && (forall k :: 0 <= k < |at| ==>
                  at[k] < |comments| && comments[at[k]].kind == "result"
                  && copy[k] == "[from " + peer + "] " + comments[at[k]].content && copy[k] !in existing)
            && (forall p :: 0 <= p < |comments| && comments[p].kind == "result" ==>
                  p in at || "[from " + peer + "] " + comments[p].content in existing)
  {
    if comments == [] {
      at := [];
    } else {
      var n := |comments| - 1;
      at := CopyPositions(peer, comments[..n], existing);
      if comments[n].kind == "result" {
        MissingSnoc(Results(peer, comments[..n]), Prefixed(peer, comments[n].content), existing);
        if Prefixed(peer, comments[n].content) !in existing {
          at := at + [n];
        }
      } else {
        assert Results(peer, comments) == Results(peer, comments[..n]);
      }
    }
  }

  lemma AppliedCopies(i: Issue, peer: Slug, a: SubmitAnswer) returns (at: seq<nat>)
    ensures CopiedFrom(i, Applied(i, ToCopy(i, peer, a)), peer, a.comments, at)
  {
    at := CopyPositions(peer, a.comments, Contents(i));
  }

  /** Exactly when an answer succeeds, and all that it does: unless its transaction fails nothing changes; with it
      the issue found gets the comments it lacks and the resolved label for the pending one, and nothing else;
      it is closed exactly by a success. */
  lemma AnswerEffect(db: Db, peer: Slug, a: SubmitAnswer, env: AnswerEnv)
    requires env.found.Some? ==> env.found.value in db.issues
    ensures var (d, r) := Answer(db, peer, a, env);
            && d.nextId == db.nextId && d.issues.Keys == db.issues.Keys
            && (forall id :: id in db.issues && env.found != Some(id) ==> d.issues[id] == db.issues[id])
            && (r.Ok? <==> env.lookupOk && env.found.Some? && env.commentsOk && env.writeOk && env.loadOk
                           && (env.closeOk || db.issues[env.found.value].status == Closed))
            && (r.Ok? ==> r.value == env.found.value)
            && (!(env.lookupOk && env.found.Some? && env.commentsOk && env.writeOk) ==> d == db)
            && (env.lookupOk && env.found.Some? && env.commentsOk && env.writeOk ==>
                  var i, j := db.issues[env.found.value], d.issues[env.found.value];
                  && (j.title, j.body, j.uuid) == (i.title, i.body, i.uuid)
                  && j.labels == i.labels - {"xb-status:pending"} + {"xb-status:resolved"}
                  && j.status == (if r.Ok? then Closed else i.status)
                  && exists at :: CopiedFrom(i, j, peer, a.comments, at))
  {
    if env.lookupOk && env.found.Some? && env.commentsOk && env.writeOk {
      var i := db.issues[env.found.value];
      var at := AppliedCopies(i, peer, a);
      assert CopiedFrom(i, Answer(db, peer, a, env).0.issues[env.found.value], peer, a.comments, at);
    }
  }

  lemma {:induction false} NothingMissing(contents: seq<string>, existing: set<string>)
    requires Elements(contents) <= existing
    ensures Missing(contents, existing) == []
  {
    if contents != [] {
      var n := |contents| - 1;
      assert contents[n] in Elements(contents);
      assert Elements(contents[..n]) <= Elements(contents);
      NothingMissing(contents[..n], existing);
    }
  }

  /** Applying an answer twice is applying it once. */
  lemma AnswerTwice(i: Issue, peer: Slug, a: SubmitAnswer)
    ensures Answered(Answered(i, peer, a), peer, a) == Answered(i, peer, a)
  {
    var j := Answered(i, peer, a);
    AnswerContents(i, peer, a);
    NothingMissing(Results(peer, a.comments), Contents(j));
    assert j.comments + AsResults([]) == j.comments;
    assert j.labels - {STATUS_PENDING} + {STATUS_RESOLVED} == j.labels;
  }

  /** Redelivering an answer that has succeeded finds the issue again, now among the closed ones,
      and leaves the database as it is, whichever database calls fail this time. */
  lemma AnswerIdempotent(db: Db, peer: Slug, a: SubmitAnswer, env: AnswerEnv, again: AnswerEnv)
    requires AtMostOneHolder(db, RefLabel(a.sourceUuid)) && Finds(db, RefLabel(a.sourceUuid), env.found)
    requires Answer(db, peer, a, env).1.Ok?
    requires Finds(Answer(db, peer, a, env).0, RefLabel(a.sourceUuid), again.found)
    ensures again.found == env.found
    ensures Answer(Answer(db, peer, a, env).0, peer, a, again).0 == Answer(db, peer, a, env).0
  {
    var id := env.found.value;
    var d := Answer(db, peer, a, env).0;
    var j := Answered(db.issues[id], peer, a);
    assert d == Change(db, id, j);
    AnswerTwice(db.issues[id], peer, a);
    PendingIsNoRef(a.sourceUuid);
    assert Holders(d, RefLabel(a.sourceUuid)) == Holders(db, RefLabel(a.sourceUuid));
    assert d.issues[id] == j && Change(d, id, j) == d;
    assert Applied(j, ToCopy(j, peer, a)) == j by {
      assert Answered(j, peer, a) == j;
    }
  }

  lemma PendingIsNoRef(u: string)
    ensures RefLabel(u) != STATUS_PENDING && RefLabel(u) != STATUS_RESOLVED
  {
    assert RefLabel(u)[3] == 'r';
  }

  // ---- Any sequence of answers ----

  /** One delivery of an answer, complete or failing anywhere. */
  datatype Reception = Reception(peer: Slug, answer: SubmitAnswer, env: AnswerEnv)

  function Receive(db: Db, d: Reception): Db {
    if d.env.found.Some? && d.env.found.value !in db.issues then db else Answer(db, d.peer, d.answer, d.env).0
  }

  function ReceiveAll(db: Db, ds: seq<Reception>): Db {
    if ds == [] then db else Receive(ReceiveAll(db, ds[..|ds| - 1]), ds[|ds| - 1])
  }

  /** The answer's transaction happens; the issue may still fail to be loaded or closed after it. */
  predicate Writes(d: Reception) {
    d.env.lookupOk && d.env.found.Some? && d.env.commentsOk && d.env.writeOk
  }

  function Brought(ds: set<Reception>, id: IssueId): set<string> {
    set d, x | d in ds && Writes(d) && d.env.found == Some(id) && x in Results(d.peer, d.answer.comments) :: x
  }

  lemma BroughtOneMore(ds: set<Reception>, d: Reception, id: IssueId)
    ensures Brought(ds + {d}, id) ==
            Brought(ds, id)
            + if Writes(d) && d.env.found == Some(id) then Elements(Results(d.peer, d.answer.comments)) else {}
  {
  }

  lemma ReceiveOne(db: Db, d: Reception, id: IssueId)
    requires id in db.issues
    ensures Receive(db, d).issues.Keys == db.issues.Keys
    ensures var i, j := db.issues[id], Receive(db, d).issues[id];
            if Writes(d) && d.env.found == Some(id)
            then j.comments == Answered(i, d.peer, d.answer).comments else j.comments == i.comments
    ensures forall u :: RefLabel(u) in Receive(db, d).issues[id].labels <==> RefLabel(u) in db.issues[id].labels
  {
    forall u ensures RefLabel(u) != STATUS_PENDING && RefLabel(u) != STATUS_RESOLVED {
      PendingIsNoRef(u);
    }
  }

  /** After any sequence of deliveries, half-failed ones and their retries included, an issue's contents are
      the old ones and all that the transactions on it brought; the old comments are kept in place, and
      none of their contents is appended again. */
  lemma {:induction false} AnswersAccumulate(db: Db, ds: seq<Reception>, id: IssueId)
    requires id in db.issues
    ensures ReceiveAll(db, ds).issues.Keys == db.issues.Keys
    ensures var i, k := db.issues[id], ReceiveAll(db, ds).issues[id];
            && Contents(k) == Contents(i) + Brought(Elements(ds), id)
            && i.comments <= k.comments
            && forall x :: x in Contents(i) ==> Occurrences(k.comments, x) == Occurrences(i.comments, x)
  {
    if ds != [] {
      var front, last := ds[..|ds| - 1], ds[|ds| - 1];
      AnswersAccumulate(db, front, id);
      assert ds == front + [last];
      ElementsSnoc(front, last);
      var m := ReceiveAll(db, front);
      ReceiveOne(m, last, id);
      BroughtOneMore(Elements(front), last, id);
      if Writes(last) && last.env.found == Some(id) {
        OneMoreAnswer(db.issues[id], m.issues[id], Brought(Elements(front), id), last.peer, last.answer,
            Receive(m, last).issues[id]);
      }
    }
  }

  lemma SameComments(i: Issue, j: Issue)
    requires i.comments == j.comments
    ensures Contents(i) == Contents(j)
  {
  }

  lemma OneMoreAnswer(i: Issue, j: Issue, brought: set<string>, peer: Slug, a: SubmitAnswer, k: Issue)
    requires Contents(j) == Contents(i) + brought && i.comments <= j.comments
    requires forall x :: x in Contents(i) ==> Occurrences(j.comments, x) == Occurrences(i.comments, x)
    requires k.comments == Answered(j, peer, a).comments
    ensures Contents(k) == Contents(i) + (brought + Elements(Results(peer, a.comments))) && i.comments <= k.comments
    ensures forall x :: x in Contents(i) ==> Occurrences(k.comments, x) == Occurrences(i.comments, x)
  {
    AnswerContents(j, peer, a);
    SameComments(k, Answered(j, peer, a));
    forall x | x in Contents(i) ensures Occurrences(k.comments, x) == Occurrences(i.comments, x) {
      AnswerOccurrences(j, peer, a, x);
    }
  }

  /** Every delivery's lookup returns what the database then holds. */
  ghost predicate Receivable(db: Db, ds: seq<Reception>) {
    forall k :: 0 <= k < |ds| ==>
      ds[k].env.lookupOk ==> Finds(ReceiveAll(db, ds[..k]), RefLabel(ds[k].answer.sourceUuid), ds[k].env.found)
  }

  function WrittenAnswers(ds: set<Reception>): set<(Slug, SubmitAnswer)> {
    set d | d in ds && Writes(d) :: (d.peer, d.answer)
  }

  lemma {:induction false} HoldersStay(db: Db, ds: seq<Reception>, u: string)
    ensures Holders(ReceiveAll(db, ds), RefLabel(u)) == Holders(db, RefLabel(u))
    ensures ReceiveAll(db, ds).issues.Keys == db.issues.Keys
  {
    if ds != [] {
      var m := ReceiveAll(db, ds[..|ds| - 1]);
      HoldersStay(db, ds[..|ds| - 1], u);
      HoldersStayOnce(m, ds[|ds| - 1], u);
    }
  }

  lemma HoldersStayOnce(db: Db, d: Reception, u: string)
    ensures Holders(Receive(db, d), RefLabel(u)) == Holders(db, RefLabel(u))
    ensures Receive(db, d).issues.Keys == db.issues.Keys
  {
    forall id | id in db.issues
      ensures id in Receive(db, d).issues
      ensures (RefLabel(u) in Receive(db, d).issues[id].labels <==> RefLabel(u) in db.issues[id].labels)
    {
      ReceiveOne(db, d, id);
    }
    if db.issues != map[] {
      var id :| id in db.issues;
      ReceiveOne(db, d, id);
    }
  }

  /** What reaches an issue is what was written for the ref labels it holds. */
  lemma BroughtIs(db: Db, ds: seq<Reception>, id: IssueId, x: string)
    requires Receivable(db, ds) && forall u :: AtMostOneHolder(db, RefLabel(u))
    ensures x in Brought(Elements(ds), id) <==>
            exists p, a :: (p, a) in WrittenAnswers(Elements(ds)) && id in Holders(db, RefLabel(a.sourceUuid)) &&
                x in Results(p, a.comments)
  {
    forall d | d in ds && Writes(d) ensures d.env.found.value in Holders(db, RefLabel(d.answer.sourceUuid)) {
      var k :| 0 <= k < |ds| && ds[k] == d;
      HoldersStay(db, ds[..k], d.answer.sourceUuid);
    }
    var written: set<(Slug, SubmitAnswer)> := WrittenAnswers(Elements(ds));
    if p, a: SubmitAnswer :|
      (p, a) in written && id in Holders(db, RefLabel(a.sourceUuid)) && x in Results(p, a.comments)
    {
      var d :| d in ds && Writes(d) && d.peer == p && d.answer == a;
      assert d in Elements(ds) && d.env.found == Some(id);
    }
    if x in Brought(Elements(ds), id) {
      var d :| d in ds && Writes(d) && d.env.found == Some(id) && x in Results(d.peer, d.answer.comments);
      assert d in Elements(ds) && (d.peer, d.answer) in WrittenAnswers(Elements(ds));
    }
  }

  /** Answers converge: two schedules that get the same answers written, in any order, with any repeats and
      whatever fails besides, end with the same contents in every issue. */
  lemma AnswersConverge(db: Db, ds: seq<Reception>, es: seq<Reception>, id: IssueId)
    requires id in db.issues && forall u :: AtMostOneHolder(db, RefLabel(u))
    requires Receivable(db, ds) && Receivable(db, es) && WrittenAnswers(Elements(ds)) == WrittenAnswers(Elements(es))
    ensures id in ReceiveAll(db, ds).issues && id in ReceiveAll(db, es).issues
    ensures Contents(ReceiveAll(db, ds).issues[id]) == Contents(ReceiveAll(db, es).issues[id])
  {
    AnswersAccumulate(db, ds, id);
    AnswersAccumulate(db, es, id);
    forall x ensures x in Brought(Elements(ds), id) <==> x in Brought(Elements(es), id) {
      BroughtIs(db, ds, id, x);
      BroughtIs(db, es, id, x);
    }
  }

  // ---- The handlers, writing step by step ----

  /** The first open issue listed, else the first closed one. */
  function Lookup(opens: seq<IssueId>, closeds: seq<IssueId>): Option<IssueId> {
    if opens != [] then Some(opens[0]) else if closeds != [] then Some(closeds[0]) else None
  }

  /** What the database lists for the label, in some order. */
  ghost predicate Listing(db: Db, l: string, opens: seq<IssueId>, closeds: seq<IssueId>) {
    Enumerates(opens, Listed(db, Open, l)) && Enumerates(closeds, Listed(db, Closed, l))
  }

  method FindIssueWithLabel(db: Database, l: string, opens: seq<IssueId>, closeds: seq<IssueId>)
      returns (r: Option<IssueId>)
    requires Listing(db.View(), l, opens, closeds)
    ensures r == Lookup(opens, closeds) && Finds(db.View(), l, r)
  {
    if opens != [] {
      assert opens[0] in opens;
      return Some(opens[0]);
    }
    if closeds != [] {
      assert closeds[0] in closeds;
      assert Listed(db.View(), Open, l) == {};
      return Some(closeds[0]);
    }
    assert Holders(db.View(), l) == Listed(db.View(), Open, l) + Listed(db.View(), Closed, l);
    return None;
  }

  method HandleSubmit(db: Database, s: SubmitIssue, env: SubmitEnv, opens: seq<IssueId>, closeds: seq<IssueId>)
      returns (r: Result<IssueId>)
    requires Listing(db.View(), RefLabel(s.sourceUuid), opens, closeds)
    modifies db
    ensures Finds(old(db.View()), RefLabel(s.sourceUuid), Lookup(opens, closeds))
    ensures (db.View(), r) == Submit(old(db.View()), s, env.(found := Lookup(opens, closeds)))
  {
    var found := FindIssueWithLabel(db, RefLabel(s.sourceUuid), opens, closeds);
    if !env.lookupOk {
      return Err("listing issues by label");
    }
    if found.Some? {
      return Ok(found.value);
    }
    if !env.createOk {
      return Err("creating local issue");
    }
    var id := db.CreateIssue(NewIssue(s, env.uuid));
    var ours := [REQUEST, INBOUND, STATUS_OPEN, SourceLabel(s.sourceSlug), RefLabel(s.sourceUuid)];
    assert Elements(ours) == {REQUEST, INBOUND, STATUS_OPEN, SourceLabel(s.sourceSlug), RefLabel(s.sourceUuid)};
    OursDiffer(s);
    var labels := Merge(ours, s.labels);
    assert Elements(labels) == InboundLabels(s);
    if !env.labelsOk {
      return Err("applying labels");
    }
    ApplyLabels(db, id, labels);
    return Ok(id);
  }

  method ApplyLabels(db: Database, id: IssueId, labels: seq<string>)
    requires id in db.issues
    modifies db
    ensures db.View() ==
        Change(old(db.View()), id, old(db.issues[id]).(labels := old(db.issues[id]).labels + Elements(labels)))
  {
    ghost var was := db.View();
    ghost var i := was.issues[id];
    assert i.labels + Elements(labels[..0]) == i.labels;
    assert Change(was, id, i) == was;
    var k := 0;
    while k < |labels|
      invariant 0 <= k <= |labels| && id in db.issues
      invariant db.View() == Change(was, id, i.(labels := i.labels + Elements(labels[..k])))
    {
      assert labels[..k + 1] == labels[..k] + [labels[k]];
      ElementsSnoc(labels[..k], labels[k]);
      db.AddLabel(id, labels[k]);
      assert i.labels + Elements(labels[..k]) + {labels[k]} == i.labels + Elements(labels[..k + 1]);
      k := k + 1;
    }
    assert labels[..k] == labels;
  }

  predicate NoRepeats(xs: seq<string>) {
    forall i, j :: 0 <= i < j < |xs| ==> xs[i] != xs[j]
  }

  lemma OursDiffer(s: SubmitIssue)
    ensures NoRepeats([REQUEST, INBOUND, STATUS_OPEN, SourceLabel(s.sourceSlug), RefLabel(s.sourceUuid)])
  {
    assert REQUEST[0] == 't' && INBOUND[2] == ':' && STATUS_OPEN[4] == 't';
    assert SourceLabel(s.sourceSlug)[3] == 's' && SourceLabel(s.sourceSlug)[4] == 'o' &&
        RefLabel(s.sourceUuid)[3] == 'r';
    assert INBOUND[0] == 'x' && STATUS_OPEN[0] == 'x' && SourceLabel(s.sourceSlug)[0] == 'x' &&
        RefLabel(s.sourceUuid)[0] == 'x';
    assert STATUS_OPEN[2] == '-' && SourceLabel(s.sourceSlug)[2] == '-' && RefLabel(s.sourceUuid)[2] == '-' &&
        STATUS_OPEN[3] == 's';
  }

  /** Our own labels, then those of the client's that are not among them yet. */
  method Merge(ours: seq<string>, extra: seq<string>) returns (labels: seq<string>)
    requires NoRepeats(ours)
    ensures Elements(labels) == Elements(ours) + Elements(extra)
    ensures ours <= labels && NoRepeats(labels)
  {
    labels := ours;
    var k := 0;
    while k < |extra|
      invariant 0 <= k <= |extra| && ours <= labels && NoRepeats(labels)
      invariant Elements(labels) == Elements(ours) + Elements(extra[..k])
    {
      assert extra[..k + 1] == extra[..k] + [extra[k]];
      ElementsSnoc(extra[..k], extra[k]);
      if extra[k] !in labels {
        ElementsSnoc(labels, extra[k]);
        labels := labels + [extra[k]];
      } else {
        assert extra[k] in Elements(labels);
      }
      k := k + 1;
    }
    assert extra[..k] == extra;
  }

  method HandleAnswer(db: Database, peer: Slug, a: SubmitAnswer, env: AnswerEnv, opens: seq<IssueId>,
      closeds: seq<IssueId>) returns (r: Result<IssueId>)
    requires Listing(db.View(), RefLabel(a.sourceUuid), opens, closeds)
    modifies db
    ensures Finds(old(db.View()), RefLabel(a.sourceUuid), Lookup(opens, closeds))
    ensures (db.View(), r) == Answer(old(db.View()), peer, a, env.(found := Lookup(opens, closeds)))
  {
    var found := FindIssueWithLabel(db, RefLabel(a.sourceUuid), opens, closeds);
    if !env.lookupOk {
      return Err("listing issues by label");
    }
    if found.None? {
      return Err("no local issue with label " + RefLabel(a.sourceUuid));
    }
    var id := found.value;
    if !env.commentsOk {
      return Err("reading comments");
    }
    var i := db.issues[id];
    var copy := ToCopy(i, peer, a);
    if !env.writeOk {
      return Err("applying answer");
    }
    ApplyAnswer(db, id, copy);
    if !env.loadOk {
      return Err("loading issue");
    }
    if db.issues[id].status != Closed {
      if !env.closeOk {
        return Err("closing issue");
      }
      db.CloseIssue(id);
      assert db.View() == Change(old(db.View()), id, Answered(i, peer, a));
    }
    return Ok(id);
  }

  /** The answer's transaction. */
  method ApplyAnswer(db: Database, id: IssueId, copy: seq<string>)
    requires id in db.issues
    modifies db
    ensures db.View() == Change(old(db.View()), id, Applied(old(db.issues[id]), copy))
  {
    var i := db.issues[id];
    CopyComments(db, id, copy);
    if STATUS_PENDING in i.labels {
      db.RemoveLabel(id, STATUS_PENDING);
    }
    if STATUS_RESOLVED !in i.labels {
      db.AddLabel(id, STATUS_RESOLVED);
    }
    assert db.issues[id] == Applied(i, copy);
  }

  method CopyComments(db: Database, id: IssueId, copy: seq<string>)
    requires id in db.issues
    modifies db
    ensures db.View() ==
        Change(old(db.View()), id, old(db.issues[id]).(comments := old(db.issues[id]).comments + AsResults(copy)))
  {
    ghost var was := db.View();
    ghost var i := was.issues[id];
    assert i.comments + AsResults(copy[..0]) == i.comments;
    assert Change(was, id, i) == was;
    var k := 0;
    while k < |copy|
      invariant 0 <= k <= |copy| && id in db.issues
      invariant db.View() == Change(was, id, i.(comments := i.comments + AsResults(copy[..k])))
    {
      db.AddComment(id, Comment(copy[k], "result"));
      assert i.comments + AsResults(copy[..k + 1]) == i.comments + AsResults(copy[..k]) + [Comment(copy[k], "result")];
      k := k + 1;
    }
    assert copy[..k] == copy;
  }
}
