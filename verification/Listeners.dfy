/** The per-peer listening sockets of one server: the listener table, the socket
    files it binds and the accept tasks it spawns. Unlinking succeeds; creating a
    peer's directory and binding a socket may fail. */
module Listeners {
  import opened Protocol

  /** The socket file `<dir>/<name>.socket` under the runtime root. */
  datatype Path = Path(dir: Slug, name: Slug)

  datatype Listener = Listener(task: nat, path: Path)

  datatype Fault = MkdirFails | BindFails

  /** `files` is what exists on disk under this server's name, left-overs of earlier
      processes included; `bound` are those of them that this server bound and that have not
      been unlinked since, `tasks` the accept tasks it spawned and has not aborted, with the
      peer each serves. */
  datatype Table = Table(
    own: Slug,
    entries: map<Slug, Listener>,
    files: set<Path>,
    bound: set<Path>,
    tasks: map<nat, Slug>,
    nextTask: nat)

  function Fresh(own: Slug, stale: set<Path>): Table {
    Table(own, map[], stale, {}, map[], 0)
  }

  function Unlink(t: Table, path: Path): Table {
    t.(files := t.files - {path}, bound := t.bound - {path})
  }

  /** A stale socket file is removed before a bind. */
  function Sweep(t: Table, path: Path): Table {
    if path in t.files then Unlink(t, path) else t
  }

  function Drop(t: Table, peer: Slug): Table {
    if peer in t.entries then
      var e := t.entries[peer];
      Unlink(t, e.path).(entries := t.entries - {peer}, tasks := t.tasks - {e.task})
    else t
  }

  function Bind(t: Table, peer: Slug): Table {
    var path := Path(peer, t.own);
    Table(t.own, t.entries[peer := Listener(t.nextTask, path)], t.files + {path}, t.bound + {path},
          t.tasks[t.nextTask := peer], t.nextTask + 1)
  }

  /** The supervisor removes directories of departed slugs with all that is in them. */
  function Wipe(t: Table, gone: set<Slug>): Table {
    t.(files := (set p | p in t.files && p.dir !in gone), bound := (set p | p in t.bound && p.dir !in gone))
  }

  function Put(t: Table, peer: Slug, fault: Option<Fault>): Table {
    if fault == Some(MkdirFails) then t
    else
      var u := Sweep(Drop(t, peer), Path(peer, t.own));
      if fault == Some(BindFails) then u else Bind(u, peer)
  }

  function DropAll(t: Table, peers: seq<Slug>): Table {
    if peers == [] then t else Drop(DropAll(t, peers[..|peers| - 1]), peers[|peers| - 1])
  }

  // ---- Everything bound or running belongs to a current entry ----

  ghost predicate Owned(t: Table) {
    && (forall s :: s in t.entries ==>
          && t.entries[s].path == Path(s, t.own)
          && t.entries[s].task < t.nextTask
          && t.entries[s].task in t.tasks && t.tasks[t.entries[s].task] == s)
    && (forall p :: p in t.bound ==> p.dir in t.entries && t.entries[p.dir].path == p)
    && (forall k: nat :: k in t.tasks ==> t.tasks[k] in t.entries && t.entries[t.tasks[k]].task == k)
    && t.bound <= t.files
  }

  /** Every current entry has its socket file. */
  ghost predicate Intact(t: Table) {
    forall s :: s in t.entries ==> t.entries[s].path in t.bound
  }

  lemma FreshOwned(own: Slug, stale: set<Path>)
    ensures Owned(Fresh(own, stale)) && Intact(Fresh(own, stale))
  {
  }

  lemma DropOwned(t: Table, peer: Slug)
    requires Owned(t)
    ensures Owned(Drop(t, peer))
    ensures Drop(t, peer).entries.Keys == t.entries.Keys - {peer}
    ensures Path(peer, t.own) !in Drop(t, peer).bound
    ensures Drop(t, peer).own == t.own && Drop(t, peer).nextTask == t.nextTask
    ensures Intact(t) ==> Intact(Drop(t, peer))
  {
  }

  lemma WipeOwned(t: Table, gone: set<Slug>)
    requires Owned(t)
    ensures Owned(Wipe(t, gone))
    ensures Wipe(t, gone).entries == t.entries && Wipe(t, gone).own == t.own
  {
  }

  lemma SweepOwned(t: Table, path: Path)
    requires Owned(t) && path !in t.bound
    ensures Owned(Sweep(t, path))
    ensures Sweep(t, path).entries == t.entries && Sweep(t, path).own == t.own && Sweep(t, path).bound == t.bound
  {
  }

  lemma BindOwned(t: Table, peer: Slug)
    requires Owned(t) && peer !in t.entries
    ensures Owned(Bind(t, peer)) && (Intact(t) ==> Intact(Bind(t, peer)))
  {
  }

  /** Adding keeps ownership whatever fails, and only a failed bind loses the peer's key; when the
      directory cannot be created nothing changes at all. */
  lemma PutOwned(t: Table, peer: Slug, fault: Option<Fault>)
    requires Owned(t)
    ensures Owned(Put(t, peer, fault))
    ensures Put(t, peer, fault).own == t.own
    ensures Put(t, peer, fault).entries.Keys ==
            match fault
            case None => t.entries.Keys + {peer}
            case Some(MkdirFails) => t.entries.Keys
            case Some(BindFails) => t.entries.Keys - {peer}
    ensures fault == Some(MkdirFails) ==> Put(t, peer, fault) == t
  {
    if fault != Some(MkdirFails) {
      ClearedOwned(t, peer, Path(peer, t.own));
      if fault == None {
        BindOwned(Sweep(Drop(t, peer), Path(peer, t.own)), peer);
      }
    }
  }

  /** The place for a new socket has been cleared. */
  lemma ClearedOwned(t: Table, peer: Slug, path: Path)
    requires Owned(t) && path == Path(peer, t.own)
    ensures var u := Sweep(Drop(t, peer), path);
            Owned(u) && u.own == t.own && u.entries.Keys == t.entries.Keys - {peer}
  {
    DropOwned(t, peer);
    SweepOwned(Drop(t, peer), path);
  }

  /** Other peers' entries and sockets stay as they are; a new entry has its socket. */
  lemma PutBinds(t: Table, peer: Slug, fault: Option<Fault>)
    requires Owned(t)
    ensures var u := Put(t, peer, fault);
            forall s :: s in u.entries && !(s in t.entries && u.entries[s] == t.entries[s]) ==>
                s == peer && u.entries[s].path in u.bound
    ensures t.bound - {Path(peer, t.own)} <= Put(t, peer, fault).bound
    ensures Intact(t) ==> Intact(Put(t, peer, fault))
  {
  }

  /** A listener for the peer is dropped before the new one exactly unless the directory cannot be created. */
  lemma OldListenerDroppedIff(t: Table, peer: Slug, fault: Option<Fault>)
    requires Owned(t) && peer in t.entries
    ensures t.entries[peer].task !in Put(t, peer, fault).tasks <==> fault != Some(MkdirFails)
    ensures peer in Put(t, peer, fault).entries && Put(t, peer, fault).entries[peer] == t.entries[peer]
            <==> fault == Some(MkdirFails)
  {
    DropOwned(t, peer);
  }

  /** All that adding a listener changes, when the directory is there: the peer's entry, task and socket file. An old
      file of this name is gone, whether it was a listener's or was left over; a new one is there exactly if
      nothing failed. */
  lemma PutCases(t: Table, peer: Slug, fault: Option<Fault>)
    requires Owned(t) && fault != Some(MkdirFails)
    ensures var u := Put(t, peer, fault);
            var path := Path(peer, t.own);
            && u.entries - {peer} == t.entries - {peer} && (peer in u.entries <==> fault == None)
            && (fault == None ==>
                  && u.files == t.files + {path} && u.bound == t.bound + {path}
                  && u.entries[peer] == Listener(t.nextTask, path))
            && (fault == Some(BindFails) ==> u.files == t.files - {path} && u.bound == t.bound - {path})
            && (forall k: nat :: k in t.tasks && t.tasks[k] != peer ==> k in u.tasks && u.tasks[k] == t.tasks[k])
            && (forall k: nat :: k in u.tasks && u.tasks[k] != peer ==> k in t.tasks)
  {
    var path := Path(peer, t.own);
    var u := Sweep(Drop(t, peer), path);
    SweptCases(t, peer, u);
    BindCases(u, peer);
    assert peer !in u.entries && u.entries - {peer} == u.entries;
    assert fault.None? || fault.value.BindFails?;
    assert t.files - {path} + {path} == t.files + {path} && t.bound - {path} + {path} == t.bound + {path};
  }

  lemma BindCases(t: Table, peer: Slug)
    ensures var u := Bind(t, peer);
            var path := Path(peer, t.own);
            && u.files == t.files + {path} && u.bound == t.bound + {path}
            && u.entries - {peer} == t.entries - {peer}
            && peer in u.entries && u.entries[peer] == Listener(t.nextTask, path)
            && (forall k: nat :: k != t.nextTask && k in t.tasks ==> k in u.tasks && u.tasks[k] == t.tasks[k])
            && (forall k: nat :: k in u.tasks ==> k in t.tasks || (k == t.nextTask && u.tasks[k] == peer))
  {
  }

  /** The old listener and any file in the place of its socket are gone. */
  lemma SweptCases(t: Table, peer: Slug, u: Table)
    requires Owned(t) && u == Sweep(Drop(t, peer), Path(peer, t.own))
    ensures u.files == t.files - {Path(peer, t.own)} && u.bound == t.bound - {Path(peer, t.own)}
    ensures u.entries == t.entries - {peer} && u.nextTask == t.nextTask && u.own == t.own
    ensures forall k: nat :: k in u.tasks <==> k in t.tasks && t.tasks[k] != peer
    ensures forall k: nat :: k in u.tasks ==> u.tasks[k] == t.tasks[k] && k != t.nextTask
  {
    DropCases(t, peer);
    DropOwned(t, peer);
    TasksAreOld(t);
  }

  lemma TasksAreOld(t: Table)
    requires Owned(t)
    ensures t.nextTask !in t.tasks
  {
  }

  /** All that removing a listener changes: the peer's entry, task and socket file are gone. */
  lemma DropCases(t: Table, peer: Slug)
    requires Owned(t)
    ensures var u := Drop(t, peer);
            && (peer !in t.entries ==> u == t)
            && (peer in t.entries ==>
                  && u.files == t.files - {Path(peer, t.own)} && u.bound == t.bound - {Path(peer, t.own)}
                  && u.entries == t.entries - {peer}
                  && (forall k: nat :: k in u.tasks <==> k in t.tasks && t.tasks[k] != peer)
                  && (forall k: nat :: k in u.tasks ==> u.tasks[k] == t.tasks[k])
                  && u.nextTask == t.nextTask)
            && peer !in u.entries && Path(peer, t.own) !in u.bound &&
                (forall k: nat :: k in u.tasks ==> u.tasks[k] != peer)
  {
    DropOwned(t, peer);
  }

  lemma {:induction false} DropAllOwned(t: Table, peers: seq<Slug>)
    requires Owned(t)
    ensures Owned(DropAll(t, peers))
    ensures DropAll(t, peers).entries.Keys == t.entries.Keys - Elements(peers)
    ensures DropAll(t, peers).own == t.own && (Intact(t) ==> Intact(DropAll(t, peers)))
  {
    if peers != [] {
      var n := |peers| - 1;
      DropAllOwned(t, peers[..n]);
      DropOwned(DropAll(t, peers[..n]), peers[n]);
      assert peers == peers[..n] + [peers[n]];
      ElementsSnoc(peers[..n], peers[n]);
    }
  }

  /** After clear nothing this server bound exists any more and no task of it runs. */
  lemma ClearLeavesNothing(t: Table, peers: seq<Slug>)
    requires Owned(t) && Enumerates(peers, t.entries.Keys)
    ensures var d := DropAll(t, peers); d.entries == map[] && d.bound == {} && d.tasks == map[]
    ensures forall p :: p in t.bound ==> p !in DropAll(t, peers).files
  {
    var d := DropAll(t, peers);
    DropAllOwned(t, peers);
    assert d.entries.Keys == {};
    forall p | p in t.bound ensures p !in d.files {
      DropAllUnlinks(t, peers, p.dir);
    }
  }

  lemma {:induction false} DropAllUnlinks(t: Table, peers: seq<Slug>, s: Slug)
    requires Owned(t) && s in t.entries && s in peers
    ensures t.entries[s].path !in DropAll(t, peers).files
    decreases |peers|
  {
    var n := |peers| - 1;
    var front := peers[..n];
    assert peers == front + [peers[n]];
    DropAllOwned(t, front);
    if s in front {
      DropAllUnlinks(t, front, s);
    } else {
      assert s in DropAll(t, front).entries;
      DropAllKeeps(t, front, s);
    }
  }

  lemma {:induction false} DropAllKeeps(t: Table, peers: seq<Slug>, s: Slug)
    requires s in t.entries && s !in peers
    ensures s in DropAll(t, peers).entries && DropAll(t, peers).entries[s] == t.entries[s]
    decreases |peers|
  {
    if peers != [] {
      var n := |peers| - 1;
      assert peers == peers[..n] + [peers[n]];
      DropAllKeeps(t, peers[..n], s);
    }
  }

  // ---- Any sequence of operations ----

  /** What the server does, and directories that the supervisor removes meanwhile. */
  datatype Op =
    | Add(peer: Slug, fault: Option<Fault>)
    | Remove(peer: Slug)
    | Clear(order: seq<Slug>)
    | DirsVanish(gone: set<Slug>)

  function Perform(t: Table, op: Op): Table {
    match op
    case Add(peer, fault) => Put(t, peer, fault)
    case Remove(peer) => Drop(t, peer)
    case Clear(order) => DropAll(t, order)
    case DirsVanish(gone) => Wipe(t, gone)
  }

  function PerformAll(t: Table, ops: seq<Op>): Table
    decreases |ops|
  {
    if ops == [] then t else PerformAll(Perform(t, ops[0]), ops[1..])
  }

  /** Which peers are listened for after an operation; and directories vanish with the sockets in them, while the table
      stays as it is. */
  lemma PerformCases(t: Table, op: Op, s: Slug)
    requires Owned(t)
    ensures s in Perform(t, op).entries <==>
            match op
            case Add(peer, fault) =>
              if s == peer then fault == None || (fault == Some(MkdirFails) && s in t.entries) else s in t.entries
            case Remove(peer) => s != peer && s in t.entries
            case Clear(order) => s !in order && s in t.entries
            case DirsVanish(_) => s in t.entries
    ensures op.DirsVanish? ==>
              && (forall p :: p in Perform(t, op).files <==> p in t.files && p.dir !in op.gone)
              && (forall p :: p in Perform(t, op).bound <==> p in t.bound && p.dir !in op.gone)
  {
    match op
    case Add(peer, fault) => PutOwned(t, peer, fault);
    case Remove(peer) => DropOwned(t, peer);
    case Clear(order) => DropAllOwned(t, order);
    case DirsVanish(gone) =>
  }

  /** No socket file and no accept task ever leaks, whatever sequence of adds (failing or not), removes and
      clears is performed and whatever directories vanish; and a listener is without its socket only if one did. */
  lemma {:induction false} NothingLeaks(t: Table, ops: seq<Op>)
    requires Owned(t)
    ensures Owned(PerformAll(t, ops))
    ensures Intact(t) && (forall op :: op in ops ==> !op.DirsVanish?) ==> Intact(PerformAll(t, ops))
    decreases |ops|
  {
    if ops != [] {
      match ops[0] {
        case Add(peer, fault) => PutOwned(t, peer, fault); PutBinds(t, peer, fault);
        case Remove(peer) => DropOwned(t, peer);
        case Clear(order) => DropAllOwned(t, order);
        case DirsVanish(gone) => WipeOwned(t, gone);
      }
      assert ops[0] in ops && forall op :: op in ops[1..] ==> op in ops;
      NothingLeaks(Perform(t, ops[0]), ops[1..]);
    }
  }

  // ---- The listener set, updated in place ----

  class ListenerSet {
    const own: Slug
    var entries: map<Slug, Listener>
    var files: set<Path>
    var bound: set<Path>
    var tasks: map<nat, Slug>
    var nextTask: nat

    ghost function View(): Table
      reads this
    {
      Table(own, entries, files, bound, tasks, nextTask)
    }

    ghost predicate Valid()
      reads this
    {
      Owned(View())
    }

    constructor (own: Slug, stale: set<Path>)
      ensures Valid() && View() == Fresh(own, stale)
    {
      this.own := own;
      entries, files, bound, tasks, nextTask := map[], stale, {}, map[], 0;
    }

    method RemoveFile(path: Path)
      modifies this`files, this`bound
      ensures View() == Unlink(old(View()), path)
    {
      files := files - {path};
      bound := bound - {path};
    }

    method Add(peer: Slug, fault: Option<Fault>) returns (ok: bool)
      requires Valid()
      modifies this
      ensures Valid() && View() == Put(old(View()), peer, fault)
      ensures ok <==> fault == None
    {
      PutOwned(View(), peer, fault);
      if fault == Some(MkdirFails) {
        return false;
      }
      var path := Path(peer, own);
      var _ := TakeOut(peer);
      if path in files {
        RemoveFile(path);
      }
      if fault == Some(BindFails) {
        return false;
      }
      Listen(peer, path);
      return true;
    }

    /** Bind the socket, spawn its accept task and enter both in the table. */
    method Listen(peer: Slug, path: Path)
      requires path == Path(peer, own)
      modifies this
      ensures View() == Bind(old(View()), peer)
    {
      files := files + {path};
      bound := bound + {path};
      var task := nextTask;
      tasks := tasks[task := peer];
      nextTask := nextTask + 1;
      entries := entries[peer := Listener(task, path)];
    }

    method TakeOut(peer: Slug) returns (found: bool)
      modifies this
      ensures View() == Drop(old(View()), peer)
      ensures found <==> peer in old(entries)
    {
      if peer in entries {
        var entry := entries[peer];
        entries := entries - {peer};
        tasks := tasks - {entry.task};
        RemoveFile(entry.path);
        return true;
      } else {
        return false;
      }
    }

    method Remove(peer: Slug) returns (found: bool)
      requires Valid()
      modifies this
      ensures Valid() && View() == Drop(old(View()), peer)
      ensures found <==> peer in old(entries)
    {
      DropOwned(View(), peer);
      found := TakeOut(peer);
    }

    /** `slugs` are the keys in the order the hash map yields them. */
    method Clear(slugs: seq<Slug>)
      requires Valid() && Enumerates(slugs, entries.Keys)
      modifies this
      ensures Valid() && View() == DropAll(old(View()), slugs)
      ensures entries == map[] && bound == {} && tasks == map[]
      ensures forall p :: p in old(bound) ==> p !in files
    {
      ghost var was := View();
      ClearLeavesNothing(was, slugs);
      var i := 0;
      while i < |slugs|
        invariant 0 <= i <= |slugs|
        invariant Valid() && View() == DropAll(was, slugs[..i])
      {
        var _ := Remove(slugs[i]);
        assert slugs[..i + 1][..i] == slugs[..i];
        i := i + 1;
      }
      assert slugs[..i] == slugs;
    }
  }
}
