/** The supervisor's state, updated in place as its event loop does, proved against
    the handlers of module Supervisor. */
module State {
  import opened Protocol
  import opened Supervisor
  import opened Membership

  function Departures(ids: seq<ConnId>): (events: seq<Event>)
    ensures |events| == |ids|
    ensures forall i :: 0 <= i < |ids| ==> events[i] == Departed(ids[i])
  {
    seq(|ids|, i requires 0 <= i < |ids| => Departed(ids[i]))
  }

  /** Writing to one more distinct peer extends the fan-out by that peer. */
  lemma FanOutOneMore(wires: map<ConnId, Wire>, conns: map<ConnId, Register>, ids: seq<ConnId>, x: ConnId, e: Entry,
      fails: set<ConnId>)
    requires x !in ids && conns.Keys <= wires.Keys
    ensures FanOut(wires, Found(ids + [x], conns), e, fails) ==
            var done := FanOut(wires, Found(ids, conns), e, fails);
            if x in conns then done[x := Write(done[x], e, x !in fails)] else done
  {
  }

  lemma FailuresOneMore(conns: map<ConnId, Register>, ids: seq<ConnId>, x: ConnId, fails: set<ConnId>)
    ensures Failures(ids + [x], conns, fails) ==
            Failures(ids, conns, fails) + if x in conns && x in fails then [Departed(x)] else []
  {
  }

  class State {
    var nextId: nat
    var groups: Index
    var conns: map<ConnId, Register>
    var queue: seq<Event>
    var watching: set<ConnId>
    var dirs: set<Slug>
    var wires: map<ConnId, Wire>

    ghost function View(): Core
      reads this
    {
      Core(nextId, groups, conns, queue, watching, dirs, wires)
    }

    /** Every connection with a record has a stream. */
    ghost predicate Connected()
      reads this
    {
      conns.Keys <= wires.Keys
    }

    constructor ()
      ensures View() == INIT && Inv(View())
    {
      nextId, groups, conns, queue, watching, dirs, wires := 0, map[], map[], [], {}, {}, map[];
      new;
      InitInv();
    }

    method HandleRegistration(r: Register, env: Env) returns (reply: RegisterResponse)
      requires Connected()
      requires Enumerates(env.peerIds, Ids(groups, r.group))
      modifies this
      ensures View() == Registration(old(View()), r, env)
      ensures reply == Reply(old(View()), r, env)
    {
      if r.group in groups && r.slug in groups[r.group] {
        return Nack(DuplicateReason(r));
      }
      match env.mkdirError {
        case Some(e) => return Nack("failed to create slug directory: " + e);
        case None =>
      }
      dirs := dirs + {r.slug};
      reply := Ack(env.peers);
      if !env.ackOk {
        if env.rmdirOk {
          dirs := dirs - {r.slug};
          assert dirs == old(dirs) - {r.slug};
        }
        return;
      }
      Enrol(r, env);
    }

    /** The connection gets its id, its watcher and its entries, and its peers are told. */
    method Enrol(r: Register, env: Env)
      requires Connected() && r.slug in dirs
      requires Enumerates(env.peerIds, Ids(groups, r.group))
      modifies this
      ensures View() == Admit(old(View()), r, env)
    {
      var id := nextId;
      nextId := nextId + 1;
      watching := watching + {id};
      var failed := Notice(env.peerIds, Entry(Notify(PeerJoined(r.slug)), id), env.fails);
      var members := if r.group in groups then groups[r.group] else map[];
      groups := groups[r.group := members[r.slug := id]];
      conns := conns[id := r];
      wires := wires[id := Wire(r, [Entry(Response(Ack(env.peers)), id)], false, [])];
      Report(failed);
      assert dirs + {r.slug} == dirs;
    }

    method HandleDeparture(id: ConnId, env: Env)
      requires Connected()
      requires id in conns ==> Enumerates(env.peerIds, Ids(Unindex(groups, conns[id]), conns[id].group))
      modifies this
      ensures View() == Departure(old(View()), id, env)
    {
      if id !in conns {
        return;
      }
      var r := conns[id];
      conns := conns - {id};
      watching := watching - {id};
      if r.group in groups {
        groups := groups[r.group := groups[r.group] - {r.slug}];
        if groups[r.group] == map[] {
          groups := groups - {r.group};
          assert groups == old(groups) - {r.group};
        }
      }
      if env.rmdirOk {
        dirs := dirs - {r.slug};
      }
      var failed := Notice(env.peerIds, Entry(Notify(PeerLeft(r.slug)), id), env.fails);
      Report(failed);
    }

    /** Write one frame to every peer whose record is found, collecting those whose write fails. */
    method Notice(peerIds: seq<ConnId>, e: Entry, fails: set<ConnId>) returns (failed: seq<ConnId>)
      requires Connected()
      requires forall i, j :: 0 <= i < j < |peerIds| ==> peerIds[i] != peerIds[j]
      modifies this`wires
      ensures wires == FanOut(old(wires), Found(peerIds, conns), e, fails)
      ensures Departures(failed) == Failures(peerIds, conns, fails)
    {
      failed := [];
      var k := 0;
      assert wires == FanOut(wires, Found([], conns), e, fails);
      while k < |peerIds|
        invariant 0 <= k <= |peerIds|
        invariant wires == FanOut(old(wires), Found(peerIds[..k], conns), e, fails)
        invariant Departures(failed) == Failures(peerIds[..k], conns, fails)
      {
        var peer := peerIds[k];
        assert peerIds[..k + 1] == peerIds[..k] + [peer];
        FanOutOneMore(old(wires), conns, peerIds[..k], peer, e, fails);
        FailuresOneMore(conns, peerIds[..k], peer, fails);
        if peer in conns {
          var ok := peer !in fails;
          wires := wires[peer := Write(wires[peer], e, ok)];
          if !ok {
            failed := failed + [peer];
          }
        }
        k := k + 1;
      }
      assert peerIds[..k] == peerIds;
    }

    method Report(failed: seq<ConnId>)
      modifies this`queue
      ensures queue == old(queue) + Departures(failed)
    {
      var k := 0;
      while k < |failed|
        invariant 0 <= k <= |failed|
        invariant queue == old(queue) + Departures(failed)[..k]
      {
        queue := queue + [Departed(failed[k])];
        k := k + 1;
      }
    }

    /** One turn of the event loop's second branch: take the head event and handle it to completion. */
    method HandleEvent(env: Env)
      requires Inv(View()) && Enabled(View(), Handle(env))
      modifies this
      ensures View() == HandleHead(old(View()), env) && Inv(View())
    {
      HandleKeepsInv(View(), env);
      var event := queue[0];
      queue := queue[1..];
      match event
      case Registered(r) => var _ := HandleRegistration(r, env);
      case Departed(id) => HandleDeparture(id, env);
    }

    /** The event loop, driven by what arrives, what the watchers see and the outcomes of its writes. */
    method Run(steps: seq<Step>)
      requires Inv(View()) && Valid(View(), steps)
      modifies this
      ensures View() == Exec(old(View()), steps) && Inv(View())
    {
      var k := 0;
      while k < |steps|
        invariant 0 <= k <= |steps|
        invariant Inv(View()) && Valid(View(), steps[k..])
        invariant Exec(View(), steps[k..]) == Exec(old(View()), steps)
      {
        ghost var rest := steps[k..];
        StepKeepsInv(View(), rest[0]);
        assert rest[1..] == steps[k + 1..];
        match steps[k] {
          case Arrive(r) => queue := queue + [Registered(r)];
          case Handle(env) => HandleEvent(env);
          case WatchEnds(id) =>
            queue := queue + [Departed(id)];
            watching := watching - {id};
        }
        k := k + 1;
      }
    }
  }
}
