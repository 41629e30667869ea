/** Failure cascades end: handling departures can only queue so many more. */
module Cascade {
  import opened Protocol
  import opened Supervisor
  import opened Membership

  /** 0 + 1 + ... + (n - 1): the writes that can still fail while n connections depart one by one. */
  function Triangle(n: nat): nat {
    if n == 0 then 0 else Triangle(n - 1) + n - 1
  }

  lemma {:induction false} TriangleClosed(n: nat)
    ensures 2 * Triangle(n) == n * (n - 1)
  {
    if n > 0 {
      TriangleClosed(n - 1);
      assert n * (n - 1) == (n - 1) * (n - 2) + 2 * (n - 1);
    }
  }

  ghost predicate OnlyDepartures(queue: seq<Event>) {
    forall e :: e in queue ==> e.Departed?
  }

  function Handled(steps: seq<Step>): nat {
    if steps == [] then 0 else (if steps[0].Handle? then 1 else 0) + Handled(steps[1..])
  }

  /** Queued events, watchers that may still fire, and failures that may still happen. */
  function Work(c: Core): nat {
    |c.queue| + |c.watching| + Triangle(|c.conns|)
  }

  lemma PeersAreFewer(groups: Index, conns: map<ConnId, Register>, x: ConnId, peerIds: seq<ConnId>)
    requires Inverse(groups, conns) && x in conns
    requires Enumerates(peerIds, Ids(Unindex(groups, conns[x]), conns[x].group))
    ensures |peerIds| < |conns|
  {
    var ids := Ids(Unindex(groups, conns[x]), conns[x].group);
    UnindexInverse(groups, conns, x);
    IdsAreLive(Unindex(groups, conns[x]), conns - {x}, conns[x].group);
    EnumerationSize(peerIds, ids);
    SubsetSize(ids, conns.Keys - {x});
  }

  lemma OneFewer(conns: map<ConnId, Register>, x: ConnId)
    requires x in conns
    ensures |conns - {x}| == |conns| - 1
  {
  }

  lemma {:induction false} SubsetSize<T>(a: set<T>, b: set<T>)
    requires a <= b
    ensures |a| <= |b|
  {
    if a != {} {
      var x :| x in a;
      SubsetSize(a - {x}, b - {x});
    }
  }

  /** Handling one departure uses up work, even though it may queue more events. */
  lemma DepartureUsesWork(c: Core, env: Env)
    requires Inv(c) && Enabled(c, Handle(env)) && OnlyDepartures(c.queue)
    ensures var d := HandleHead(c, env);
            && OnlyDepartures(d.queue)
            && |d.queue| + Triangle(|d.conns|) < |c.queue| + Triangle(|c.conns|)
            && |d.watching| <= |c.watching|
  {
    assert c.queue[0] in c.queue;
    var x := c.queue[0].id;
    if x in c.conns {
      PeersAreFewer(c.groups, c.conns, x, env.peerIds);
      OneFewer(c.conns, x);
      ExpelUsesWork(c, Pop(c), x, env);
    }
  }

  lemma ExpelUsesWork(c: Core, p: Core, x: ConnId, env: Env)
    requires c.queue != [] && p == Pop(c) && OnlyDepartures(c.queue) && x in c.conns
    requires |env.peerIds| < |c.conns| && |c.conns - {x}| == |c.conns| - 1
    ensures var d := Expel(p, x, env);
            && OnlyDepartures(d.queue)
            && |d.queue| + Triangle(|d.conns|) < |c.queue| + Triangle(|c.conns|)
            && |d.watching| <= |c.watching|
  {
    var conns := c.conns - {x};
    FailuresContent(env.peerIds, conns, env.fails);
    SubsetSize(c.watching - {x}, c.watching);
    assert Triangle(|c.conns|) == Triangle(|conns|) + |c.conns| - 1;
  }

  /** Draining a queue of q departures with n live connections takes at most q + n(n-1)/2 handler calls. */
  lemma DrainBound(c: Core, steps: seq<Step>)
    requires Inv(c) && OnlyDepartures(c.queue) && Valid(c, steps)
    requires forall step :: step in steps ==> step.Handle?
    ensures |steps| <= |c.queue| + |c.conns| * (|c.conns| - 1) / 2
  {
    DrainTriangle(c, steps);
    TriangleClosed(|c.conns|);
  }

  lemma {:induction false} DrainTriangle(c: Core, steps: seq<Step>)
    requires Inv(c) && OnlyDepartures(c.queue) && Valid(c, steps)
    requires forall step :: step in steps ==> step.Handle?
    ensures |steps| <= |c.queue| + Triangle(|c.conns|)
    decreases |steps|
  {
    if steps != [] {
      StepKeepsInv(c, steps[0]);
      DepartureUsesWork(c, steps[0].env);
      assert forall step :: step in steps[1..] ==> step in steps;
      DrainTriangle(Next(c, steps[0]), steps[1..]);
    }
  }

  /** Without new registrations, even with every watcher firing in between, q queued departures, w watchers and n live
      connections make for at most q + w + n(n-1)/2 events handled. */
  lemma CascadeBound(c: Core, steps: seq<Step>, handled: set<nat>)
    requires Inv(c) && OnlyDepartures(c.queue) && Valid(c, steps)
    requires forall step :: step in steps ==> !step.Arrive?
    requires forall k: nat :: k in handled <==> k < |steps| && steps[k].Handle?
    ensures |handled| <= |c.queue| + |c.watching| + |c.conns| * (|c.conns| - 1) / 2
  {
    HandledIs(steps, handled);
    WorkBound(c, steps);
    TriangleClosed(|c.conns|);
  }

  lemma {:induction false} HandledIs(steps: seq<Step>, handled: set<nat>)
    requires forall k: nat :: k in handled <==> k < |steps| && steps[k].Handle?
    ensures |handled| == Handled(steps)
    decreases |steps|
  {
    if steps == [] {
      assert handled == {};
    } else {
      var n := |steps| - 1;
      var rest := handled - {n};
      assert forall k: nat :: k in rest <==> k < |steps[..n]| && steps[..n][k].Handle?;
      HandledIs(steps[..n], rest);
      if steps[n].Handle? {
        assert handled == rest + {n};
      } else {
        assert handled == rest;
      }
      HandledSnoc(steps[..n], steps[n]);
      assert steps == steps[..n] + [steps[n]];
    }
  }

  lemma {:induction false} HandledSnoc(steps: seq<Step>, step: Step)
    ensures Handled(steps + [step]) == Handled(steps) + if step.Handle? then 1 else 0
    decreases |steps|
  {
    if steps != [] {
      assert (steps + [step])[1..] == steps[1..] + [step];
      HandledSnoc(steps[1..], step);
    }
  }

  lemma {:induction false} WorkBound(c: Core, steps: seq<Step>)
    requires Inv(c) && OnlyDepartures(c.queue) && Valid(c, steps)
    requires forall step :: step in steps ==> !step.Arrive?
    ensures Handled(steps) <= Work(c)
    decreases |steps|
  {
    if steps != [] {
      StepKeepsInv(c, steps[0]);
      assert forall step :: step in steps[1..] ==> step in steps;
      StepUsesWork(c, steps[0]);
      WorkBound(Next(c, steps[0]), steps[1..]);
    }
  }

  lemma StepUsesWork(c: Core, step: Step)
    requires Inv(c) && Enabled(c, step) && OnlyDepartures(c.queue) && !step.Arrive?
    ensures OnlyDepartures(Next(c, step).queue)
    ensures Work(Next(c, step)) + (if step.Handle? then 1 else 0) <= Work(c)
  {
    match step
    case Handle(env) => DepartureUsesWork(c, env);
    case WatchEnds(id) => assert Next(c, step).watching + {id} == c.watching;
  }

  /** The next event can always be handled, with any outcome of its writes and of the operations on its directory. */
  lemma SomeEnvFits(c: Core, mkdirError: Option<string>, ackOk: bool, rmdirOk: bool, fails: set<ConnId>)
    returns (env: Env)
    requires c.queue != []
    ensures Enabled(c, Handle(env))
    ensures env == Env(mkdirError, ackOk, rmdirOk, env.peers, env.peerIds, fails)
  {
    var peers, peerIds: seq<ConnId> := [], [];
    match c.queue[0] {
      case Registered(r) =>
        peers := SomeEnumeration(Members(c.groups, r.group).Keys);
        peerIds := SomeEnumeration(Ids(c.groups, r.group));
      case Departed(id) =>
        if id in c.conns {
          peerIds := SomeEnumeration(Ids(Unindex(c.groups, c.conns[id]), c.conns[id].group));
        }
    }
    env := Env(mkdirError, ackOk, rmdirOk, peers, peerIds, fails);
  }

  lemma {:induction false} SomeEnumeration<T(!new)>(s: set<T>) returns (xs: seq<T>)
    ensures Enumerates(xs, s)
  {
    if s == {} {
      xs := [];
    } else {
      var x :| x in s;
      var rest := SomeEnumeration(s - {x});
      xs := rest + [x];
    }
  }
}
