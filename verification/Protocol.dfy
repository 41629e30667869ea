/** The message vocabulary shared by supervisor, repo servers and clients. */
module Protocol {
  type Slug = string
  type Group = string

  datatype Option<+T> = None | Some(value: T)

  /** A slug within a group: the contents of a registration. */
  datatype Register = Register(slug: Slug, group: Group)

  datatype RegisterResponse = Ack(peers: seq<Slug>) | Nack(reason: string)

  datatype Notification = PeerJoined(slug: Slug) | PeerLeft(slug: Slug)

  datatype SupervisorMessage =
    | Response(response: RegisterResponse)
    | Notify(notification: Notification)

  function Elements<T>(xs: seq<T>): set<T> {
    set x | x in xs
  }

  lemma ElementsSnoc<T>(xs: seq<T>, x: T)
    ensures Elements(xs + [x]) == Elements(xs) + {x}
  {
  }

  /** xs lists every element of s exactly once, in some order: what iterating a hash map yields. */
  ghost predicate Enumerates<T(!new)>(xs: seq<T>, s: set<T>) {
    && (forall x :: x in xs <==> x in s)
    && (forall i, j :: 0 <= i < j < |xs| ==> xs[i] != xs[j])
  }

  /** An enumeration is as long as the set is large. */
  lemma {:induction false} EnumerationSize<T(!new)>(xs: seq<T>, s: set<T>)
    requires Enumerates(xs, s)
    ensures |xs| == |s|
  {
    if xs == [] {
      assert s == {};
    } else {
      var n := |xs| - 1;
      var front := xs[..n];
      assert forall x :: x in xs <==> x in front || x == xs[n];
      EnumerationSize(front, s - {xs[n]});
    }
  }
}
