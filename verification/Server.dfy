/** One server's side of a session: the handshake, and the loop that folds notifications
    into the listener set it updates in place. */
module Server {
  import opened Protocol
  import opened Supervisor
  import opened Membership
  import opened Listeners
  import opened Sessions

  /** What a read yields: a frame, with the faults that heeding it meets, or an error that is not the end. */
  datatype Arrival = Received(message: SupervisorMessage, faults: Faults) | Unreadable

  /** Broken: the session ends with an error, because of an unreadable frame or a response in mid-stream. */
  datatype Ending = ShutDown | EndOfStream | Broken

  datatype Handshake = Accepted(peers: seq<Slug>) | Rejected(reason: string) | NotAResponse | NoAnswer

  /** The first frame after Register decides the registration; None if it cannot be sent or read. */
  function Shake(first: Option<SupervisorMessage>): Handshake {
    match first
    case Some(Response(Ack(peers))) => Accepted(peers)
    case Some(Response(Nack(reason))) => Rejected(reason)
    case Some(Notify(_)) => NotAResponse
    case None => NoAnswer
  }

  /** A session starts exactly after an Ack, with its peers; a Nack is told apart from all other failures. */
  lemma ShakeIff(first: Option<SupervisorMessage>, peers: seq<Slug>, reason: string)
    ensures Shake(first) == Accepted(peers) <==> first == Some(Response(Ack(peers)))
    ensures Shake(first) == Rejected(reason) <==> first == Some(Response(Nack(reason)))
    ensures Shake(first) == NotAResponse <==> first.Some? && first.value.Notify?
  {
  }

  predicate Heeded(x: Arrival) {
    x.Received? && x.message.Notify?
  }

  predicate AllHeeded(xs: seq<Arrival>) {
    forall x :: x in xs ==> Heeded(x)
  }

  /** How many notifications are heeded before a shutdown, the end of the stream or an error. */
  function Consumed(incoming: seq<Arrival>, shutdownAt: Option<nat>): nat {
    if incoming == [] || shutdownAt == Some(0) || !Heeded(incoming[0]) then 0
    else 1 + Consumed(incoming[1..], match shutdownAt case Some(n) => Some(n - 1) case None => None)
  }

  function FoldMany(t: Table, frames: seq<Arrival>): Table
    requires AllHeeded(frames)
  {
    if frames == [] then t
    else
      var last := frames[|frames| - 1];
      assert last in frames && forall x :: x in frames[..|frames| - 1] ==> x in frames;
      Fold(FoldMany(t, frames[..|frames| - 1]), last.message, last.faults)
  }

  lemma FoldManySnoc(t: Table, frames: seq<Arrival>, x: Arrival)
    requires Heeded(x) && AllHeeded(frames)
    ensures AllHeeded(frames + [x])
    ensures FoldMany(t, frames + [x]) == Fold(FoldMany(t, frames), x.message, x.faults)
  {
    assert (frames + [x])[..|frames|] == frames;
  }

  function FramesOf(frames: seq<Arrival>): (entries: seq<Entry>)
    requires AllHeeded(frames)
    ensures |entries| == |frames|
    ensures forall k :: 0 <= k < |frames| ==> Heeded(frames[k]) && entries[k].message == frames[k].message
  {
    seq(|frames|, k requires 0 <= k < |frames| => assert Heeded(frames[k]); Entry(frames[k].message, 0))
  }

  /** With no faults, the listener keys after a session are what its notifications spell out. */
  lemma {:induction false} FoldManyKeys(t: Table, frames: seq<Arrival>)
    requires Owned(t) && AllHeeded(frames) && forall x :: x in frames ==> x.faults == map[]
    ensures Owned(FoldMany(t, frames)) && FoldMany(t, frames).entries.Keys == Deliver(t.entries.Keys, FramesOf(frames))
  {
    if frames != [] {
      var front, last := frames[..|frames| - 1], frames[|frames| - 1];
      assert last in frames && forall x :: x in front ==> x in frames;
      FoldManyKeys(t, front);
      FoldKeys(FoldMany(t, front), last.message, last.faults);
      assert FramesOf(frames)[..|frames| - 1] == FramesOf(front);
    }
  }

  lemma {:induction false} ConsumedIsFirstStop(incoming: seq<Arrival>, shutdownAt: Option<nat>, k: nat)
    requires k <= |incoming|
    requires forall i :: 0 <= i < k ==> Heeded(incoming[i])
    requires shutdownAt.Some? ==> k <= shutdownAt.value
    requires k == |incoming| || !Heeded(incoming[k]) || shutdownAt == Some(k)
    ensures Consumed(incoming, shutdownAt) == k
    decreases k
  {
    if k > 0 {
      ConsumedIsFirstStop(incoming[1..], match shutdownAt case Some(n) => Some(n - 1) case None => None, k - 1);
    }
  }

  method InstallPeers(listeners: ListenerSet, peers: seq<Slug>, faults: Faults)
    requires listeners.Valid()
    modifies listeners
    ensures listeners.Valid() && listeners.View() == PutAll(old(listeners.View()), peers, faults)
  {
    var k := 0;
    while k < |peers|
      invariant 0 <= k <= |peers|
      invariant listeners.Valid() && listeners.View() == PutAll(old(listeners.View()), peers[..k], faults)
    {
      assert peers[..k + 1][..k] == peers[..k];
      var _ := listeners.Add(peers[k], FaultOf(faults, peers[k]));
      k := k + 1;
    }
    assert peers[..k] == peers;
  }

  method Heed(listeners: ListenerSet, n: Notification, faults: Faults)
    requires listeners.Valid()
    modifies listeners
    ensures listeners.Valid() && listeners.View() == Fold(old(listeners.View()), Notify(n), faults)
  {
    match n
    case PeerJoined(slug) => var _ := listeners.Add(slug, FaultOf(faults, slug));
    case PeerLeft(slug) => var _ := listeners.Remove(slug);
  }

  /** The notification loop: read and heed frames up to the first reason to stop. */
  method HeedAll(listeners: ListenerSet, incoming: seq<Arrival>, shutdownAt: Option<nat>) returns (k: nat)
    requires listeners.Valid()
    modifies listeners
    ensures listeners.Valid() && k == Consumed(incoming, shutdownAt) <= |incoming|
    ensures AllHeeded(incoming[..k]) && listeners.View() == FoldMany(old(listeners.View()), incoming[..k])
  {
    k := 0;
    ghost var was := listeners.View();
    while k < |incoming| && shutdownAt != Some(k) && Heeded(incoming[k])
      invariant 0 <= k <= |incoming| && (shutdownAt.Some? ==> k <= shutdownAt.value)
      invariant forall i :: 0 <= i < k ==> Heeded(incoming[i])
      invariant listeners.Valid() && listeners.View() == FoldMany(was, incoming[..k])
    {
      assert incoming[..k + 1] == incoming[..k] + [incoming[k]];
      FoldManySnoc(was, incoming[..k], incoming[k]);
      Heed(listeners, incoming[k].message.notification, incoming[k].faults);
      k := k + 1;
    }
    ConsumedIsFirstStop(incoming, shutdownAt, k);
  }

  function EndingOf(incoming: seq<Arrival>, shutdownAt: Option<nat>, k: nat): Ending {
    if shutdownAt == Some(k) then ShutDown else if k == |incoming| then EndOfStream else Broken
  }

  /** The first k arrivals are all notifications. */
  predicate Notifications(incoming: seq<Arrival>, k: nat) {
    k <= |incoming| && forall i :: 0 <= i < k ==> incoming[i].Received? && incoming[i].message.Notify?
  }

  /** Shutdown is requested at a point that the session reaches, at the end of the stream at the latest. */
  predicate AskedToStop(incoming: seq<Arrival>, shutdownAt: Option<nat>) {
    shutdownAt.Some? && Notifications(incoming, shutdownAt.value)
  }

  /** Something other than a notification arrives first. */
  predicate Disturbed(incoming: seq<Arrival>, shutdownAt: Option<nat>) {
    exists k :: 0 <= k < |incoming| && Notifications(incoming, k) && !Notifications(incoming, k + 1)
                && !(shutdownAt.Some? && shutdownAt.value <= k)
  }

  /** How a session ends: whichever comes first of shutdown, an arrival that is no notification, and the end of the
      stream, and shutdown where they coincide. */
  predicate Ends(incoming: seq<Arrival>, shutdownAt: Option<nat>, ending: Ending) {
    && (ending == ShutDown <==> AskedToStop(incoming, shutdownAt))
    && (ending == Broken <==> Disturbed(incoming, shutdownAt))
    && (ending == EndOfStream <==> Notifications(incoming, |incoming|) && !AskedToStop(incoming, shutdownAt))
  }

  lemma EndingIsRight(incoming: seq<Arrival>, shutdownAt: Option<nat>, k: nat)
    requires k <= |incoming| && (forall i :: 0 <= i < k ==> Heeded(incoming[i]))
    requires shutdownAt.Some? ==> k <= shutdownAt.value
    requires k == |incoming| || !Heeded(incoming[k]) || shutdownAt == Some(k)
    ensures Ends(incoming, shutdownAt, EndingOf(incoming, shutdownAt, k))
  {
    assert Notifications(incoming, k);
    if k < |incoming| && shutdownAt != Some(k) {
      assert !Notifications(incoming, k + 1) by {
        assert !(incoming[k].Received? && incoming[k].message.Notify?);
      }
    }
  }

  lemma ConsumedEnds(incoming: seq<Arrival>, shutdownAt: Option<nat>)
    ensures Ends(incoming, shutdownAt, EndingOf(incoming, shutdownAt, Consumed(incoming, shutdownAt)))
  {
    ConsumedStops(incoming, shutdownAt);
    EndingIsRight(incoming, shutdownAt, Consumed(incoming, shutdownAt));
  }

  lemma {:induction false} ConsumedStops(incoming: seq<Arrival>, shutdownAt: Option<nat>)
    ensures var k := Consumed(incoming, shutdownAt);
            && k <= |incoming| && (forall i :: 0 <= i < k ==> Heeded(incoming[i]))
            && (shutdownAt.Some? ==> k <= shutdownAt.value)
            && (k == |incoming| || !Heeded(incoming[k]) || shutdownAt == Some(k))
  {
    if Consumed(incoming, shutdownAt) > 0 {
      var next := match shutdownAt case Some(n) => Some(n - 1) case None => None;
      ConsumedStops(incoming[1..], next);
      assert forall i :: 0 < i < |incoming| ==> incoming[i] == incoming[1..][i - 1];
    }
  }

  /** Serve one session. `shutdownAt` is the number of notifications after which shutdown is
      requested; the biased select tests it before every read. */
  method ServeOneSession(listeners: ListenerSet, peers: seq<Slug>, faults: Faults, incoming: seq<Arrival>,
      shutdownAt: Option<nat>) returns (ending: Ending)
    requires listeners.Valid()
    modifies listeners
    ensures listeners.Valid() && Ends(incoming, shutdownAt, ending)
    ensures AskedToStop(incoming, shutdownAt) ==>
              ending == ShutDown && listeners.entries == map[] && listeners.bound == {} && listeners.tasks == map[]
    ensures var k := Consumed(incoming, shutdownAt);
            && k <= |incoming| && AllHeeded(incoming[..k])
            && (ending != ShutDown ==>
                  listeners.View() == FoldMany(PutAll(old(listeners.View()), peers, faults), incoming[..k]))
  {
    InstallPeers(listeners, peers, faults);
    var k := HeedAll(listeners, incoming, shutdownAt);
    ending := EndingOf(incoming, shutdownAt, k);
    ConsumedEnds(incoming, shutdownAt);
    if ending == ShutDown {
      ClearListeners(listeners);
    }
  }

  method ClearListeners(listeners: ListenerSet)
    requires listeners.Valid()
    modifies listeners
    ensures listeners.Valid() && listeners.entries == map[] && listeners.bound == {} && listeners.tasks == map[]
  {
    var keys := listeners.entries.Keys;
    var slugs: seq<Slug> := [];
    while keys != {}
      invariant Enumerates(slugs, listeners.entries.Keys - keys) && keys <= listeners.entries.Keys
      decreases keys
    {
      var s :| s in keys;
      slugs := slugs + [s];
      keys := keys - {s};
    }
    assert listeners.entries.Keys - keys == listeners.entries.Keys;
    listeners.Clear(slugs);
  }

  /** What a session that was not shut down leaves behind is dropped before reconnecting. */
  method RunOnce(listeners: ListenerSet, first: Option<SupervisorMessage>, faults: Faults, incoming: seq<Arrival>,
      shutdownAt: Option<nat>) returns (ending: Option<Ending>)
    requires listeners.Valid() && listeners.entries == map[]
    modifies listeners
    ensures listeners.Valid() && listeners.entries == map[] && listeners.bound == {} && listeners.tasks == map[]
    ensures ending.Some? <==> first.Some? && first.value.Response? && first.value.response.Ack?
    ensures ending.Some? ==> Ends(incoming, shutdownAt, ending.value)
  {
    match Shake(first)
    case Accepted(peers) =>
      var e := ServeOneSession(listeners, peers, faults, incoming, shutdownAt);
      ClearListeners(listeners);
      ending := Some(e);
    case _ =>
      ClearListeners(listeners);
      ending := None;
  }
}
