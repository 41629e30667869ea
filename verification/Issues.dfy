/** The issue database as far as crossbridge uses it, and the xb label conventions. */
module Issues {
  import opened Protocol

  type IssueId = nat

  datatype Status = Open | Closed

  datatype Comment = Comment(content: string, kind: string)

  /** The labels of an issue have no repeats; the order in which they are listed is not specified. */
  datatype Issue = Issue(title: string, body: string, uuid: Option<string>, status: Status, labels: set<string>,
      comments: seq<Comment>)

  datatype Db = Db(issues: map<IssueId, Issue>, nextId: IssueId)

  ghost predicate DbOk(db: Db) {
    forall id :: id in db.issues ==> id < db.nextId
  }

  // ---- Labels ----

  const INBOUND := "xb:inbound"
  const OUTBOUND := "xb:outbound"
  const REQUEST := "type:request"
  const STATUS_OPEN := "xb-status:open"
  const STATUS_PENDING := "xb-status:pending"
  const STATUS_RESOLVED := "xb-status:resolved"
  const STATUS_ANSWERED := "xb-status:answered"
  const SOURCE_PREFIX := "xb-source:"
  const REF_PREFIX := "xb-ref:"

  function RefLabel(value: string): string {
    REF_PREFIX + value
  }

  function SourceLabel(slug: string): string {
    SOURCE_PREFIX + slug
  }

  /** The value after `prefix` in the first label that has it. */
  function FindPrefixed(labels: seq<string>, prefix: string): Option<string> {
    if labels == [] then None
    else if prefix <= labels[0] then Some(labels[0][|prefix|..])
    else FindPrefixed(labels[1..], prefix)
  }

  predicate Has(labels: seq<string>, marker: string) {
    marker in labels
  }

  lemma PrefixedIsPlus(l: string, prefix: string)
    requires prefix <= l
    ensures l == prefix + l[|prefix|..]
  {
  }

  lemma PlusInjective(prefix: string, a: string, b: string)
    requires prefix + a == prefix + b
    ensures a == b
  {
    assert (prefix + a)[|prefix|..] == a && (prefix + b)[|prefix|..] == b;
  }

  /** With one label carrying the prefix, its value is found whatever the order of the labels. */
  lemma {:induction false} FindPrefixedUnique(labels: seq<string>, prefix: string, value: string)
    requires prefix + value in labels
    requires forall l :: l in labels && prefix <= l ==> l == prefix + value
    ensures FindPrefixed(labels, prefix) == Some(value)
  {
    assert labels[0] in labels;
    if prefix <= labels[0] {
      assert labels[0] == prefix + value;
      assert (prefix + value)[|prefix|..] == value;
    } else {
      assert prefix + value != labels[0] by {
        assert prefix <= prefix + value;
      }
      assert forall l :: l in labels[1..] ==> l in labels;
      FindPrefixedUnique(labels[1..], prefix, value);
    }
  }

  /** What is found is the value of the first label that has the prefix. */
  lemma {:induction false} FindPrefixedFirst(labels: seq<string>, prefix: string, k: nat)
    requires k < |labels| && prefix <= labels[k] && forall j :: 0 <= j < k ==> !(prefix <= labels[j])
    ensures FindPrefixed(labels, prefix).Some? && prefix + FindPrefixed(labels, prefix).value == labels[k]
    decreases k
  {
    if k == 0 {
      PrefixedIsPlus(labels[0], prefix);
    } else {
      assert !(prefix <= labels[0]);
      FindPrefixedFirst(labels[1..], prefix, k - 1);
    }
  }

  lemma {:induction false} FindPrefixedNone(labels: seq<string>, prefix: string)
    requires forall l :: l in labels ==> !(prefix <= l)
    ensures FindPrefixed(labels, prefix) == None
  {
    if labels != [] {
      assert labels[0] in labels && forall l :: l in labels[1..] ==> l in labels;
      FindPrefixedNone(labels[1..], prefix);
    }
  }

  // ---- Lookups ----

  function Holders(db: Db, l: string): set<IssueId> {
    set id | id in db.issues && l in db.issues[id].labels
  }

  function Listed(db: Db, status: Status, l: string): set<IssueId> {
    set id | id in db.issues && l in db.issues[id].labels && db.issues[id].status == status
  }

  ghost predicate AtMostOneHolder(db: Db, l: string) {
    forall id, other :: id in Holders(db, l) && other in Holders(db, l) ==> id == other
  }

  /** What a lookup of the open and then the closed issues may return. */
  ghost predicate Finds(db: Db, l: string, r: Option<IssueId>) {
    match r
    case None => Holders(db, l) == {}
    case Some(id) => id in Holders(db, l) && (db.issues[id].status == Open || Listed(db, Open, l) == {})
  }

  // ---- Writes ----

  function Change(db: Db, id: IssueId, issue: Issue): Db {
    db.(issues := db.issues[id := issue])
  }

  function AddLabel(i: Issue, l: string): Issue {
    i.(labels := i.labels + {l})
  }

  function Contents(i: Issue): set<string> {
    set c | c in i.comments :: c.content
  }

  function Insert(db: Db, issue: Issue): Db {
    Db(db.issues[db.nextId := issue], db.nextId + 1)
  }

  // ---- The database, updated in place ----

  class Database {
    var issues: map<IssueId, Issue>
    var nextId: IssueId

    ghost function View(): Db
      reads this
    {
      Db(issues, nextId)
    }

    constructor ()
      ensures View() == Db(map[], 1)
    {
      issues, nextId := map[], 1;
    }

    method CreateIssue(issue: Issue) returns (id: IssueId)
      modifies this
      ensures id == old(nextId) && View() == Insert(old(View()), issue)
    {
      id := nextId;
      issues := issues[id := issue];
      nextId := nextId + 1;
    }

    method AddLabel(id: IssueId, l: string)
      requires id in issues
      modifies this
      ensures View() == Change(old(View()), id, old(issues[id]).(labels := old(issues[id]).labels + {l}))
    {
      issues := issues[id := issues[id].(labels := issues[id].labels + {l})];
    }

    method RemoveLabel(id: IssueId, l: string)
      requires id in issues
      modifies this
      ensures View() == Change(old(View()), id, old(issues[id]).(labels := old(issues[id]).labels - {l}))
    {
      issues := issues[id := issues[id].(labels := issues[id].labels - {l})];
    }

    method AddComment(id: IssueId, c: Comment)
      requires id in issues
      modifies this
      ensures View() == Change(old(View()), id, old(issues[id]).(comments := old(issues[id]).comments + [c]))
    {
      issues := issues[id := issues[id].(comments := issues[id].comments + [c])];
    }

    method CloseIssue(id: IssueId)
      requires id in issues
      modifies this
      ensures View() == Change(old(View()), id, old(issues[id]).(status := Closed))
    {
      issues := issues[id := issues[id].(status := Closed)];
    }
  }
}
