/** Length-prefixed frames over a byte stream that delivers arbitrary chunks. */
module Framing {
  import opened Protocol

  newtype byte = x: int | 0 <= x < 0x100

  const MAX_FRAME_SIZE: nat := 16 * 1024 * 1024

  /** The payload codec; serializing may fail, and so may parsing. */
  datatype Codec<!M> = Codec(enc: M -> Option<seq<byte>>, dec: seq<byte> -> Option<M>)

  ghost predicate Faithful<M(!new)>(c: Codec<M>) {
    forall m :: c.enc(m).Some? ==> c.dec(c.enc(m).value) == Some(m)
  }

  /** Broken stands for any I/O error other than an unexpected end of the stream. */
  datatype Failure = Unserializable | TooLarge(size: nat) | Undecodable | UnexpectedEof | Broken

  datatype Outcome<+T> = Done(value: T) | Failed(failure: Failure)

  // ---- The length prefix ----

  function LengthBytes(n: nat): (b: seq<byte>)
    requires n < 0x1_0000_0000
    ensures |b| == 4
  {
    [(n / 0x100_0000) as byte, (n / 0x1_0000 % 0x100) as byte, (n / 0x100 % 0x100) as byte, (n % 0x100) as byte]
  }

  function Length(b: seq<byte>): (n: nat)
    requires |b| == 4
    ensures n < 0x1_0000_0000
  {
    b[0] as nat * 0x100_0000 + b[1] as nat * 0x1_0000 + b[2] as nat * 0x100 + b[3] as nat
  }

  lemma LengthRoundTrip(n: nat)
    requires n < 0x1_0000_0000
    ensures Length(LengthBytes(n)) == n
  {
    assert n == n / 0x100 * 0x100 + n % 0x100;
    assert n / 0x100 == n / 0x1_0000 * 0x100 + n / 0x100 % 0x100;
    assert n / 0x1_0000 == n / 0x100_0000 * 0x100 + n / 0x1_0000 % 0x100;
  }

  lemma Digits(b0: nat, b1: nat, b2: nat, b3: nat, n: nat)
    requires b0 < 0x100 && b1 < 0x100 && b2 < 0x100 && b3 < 0x100
    requires n == b0 * 0x100_0000 + b1 * 0x1_0000 + b2 * 0x100 + b3
    ensures n / 0x100_0000 == b0 && n / 0x1_0000 % 0x100 == b1 && n / 0x100 % 0x100 == b2 && n % 0x100 == b3
  {
    assert n / 0x1_0000 == b0 * 0x100 + b1;
    assert n / 0x100 == (b0 * 0x100 + b1) * 0x100 + b2;
  }

  lemma LengthDetermines(b: seq<byte>)
    requires |b| == 4
    ensures LengthBytes(Length(b)) == b
  {
    Digits(b[0] as nat, b[1] as nat, b[2] as nat, b[3] as nat, Length(b));
  }

  /** The first byte in which they differ is smaller in a. */
  predicate Precedes(a: seq<byte>, b: seq<byte>)
    requires |a| == |b| == 4
  {
    exists k :: 0 <= k < 4 && a[..k] == b[..k] && a[k] < b[k]
  }

  /** The bytes are in big-endian order: of two lengths the smaller has the smaller bytes, from the first one on. */
  lemma BigEndian(n: nat, m: nat)
    requires n < m < 0x1_0000_0000
    ensures Precedes(LengthBytes(n), LengthBytes(m))
  {
    var a, b := LengthBytes(n), LengthBytes(m);
    LengthRoundTrip(n);
    LengthRoundTrip(m);
    if a[0] < b[0] {
      assert a[..0] == b[..0];
    } else if a[1] < b[1] && a[0] == b[0] {
      assert a[..1] == b[..1];
    } else if a[2] < b[2] && a[0] == b[0] && a[1] == b[1] {
      assert a[..2] == b[..2];
    } else {
      assert a[0] == b[0] && a[1] == b[1] && a[2] == b[2] && a[3] < b[3];
      assert a[..3] == b[..3];
    }
  }

  // ---- Frames ----

  /** The payload of a message, if it can be sent. */
  function Encode<M>(c: Codec<M>, m: M): (r: Outcome<seq<byte>>)
    ensures r.Done? <==> c.enc(m).Some? && |c.enc(m).value| <= MAX_FRAME_SIZE
    ensures r.Done? ==> c.enc(m) == Some(r.value)
    ensures r.Failed? ==> r.failure == if c.enc(m).None? then Unserializable else TooLarge(|c.enc(m).value|)
  {
    match c.enc(m)
    case None => Failed(Unserializable)
    case Some(payload) => if |payload| > MAX_FRAME_SIZE then Failed(TooLarge(|payload|)) else Done(payload)
  }

  function Frame(payload: seq<byte>): seq<byte>
    requires |payload| <= MAX_FRAME_SIZE
  {
    LengthBytes(|payload|) + payload
  }

  /** The first message of the bytes `s`, after which the stream ends or breaks, and what is left. */
  function ReadFrame<M>(c: Codec<M>, s: seq<byte>, end: Failure): (r: (Outcome<M>, seq<byte>))
    ensures r.0.Done? ==> |r.1| + 4 <= |s|
  {
    if |s| < 4 then (Failed(end), [])
    else
      var len := Length(s[..4]);
      if len > MAX_FRAME_SIZE then (Failed(TooLarge(len)), s[4..])
      else if |s| < 4 + len then (Failed(end), [])
      else match c.dec(s[4..4 + len])
        case None => (Failed(Undecodable), s[4 + len..])
        case Some(m) => (Done(m), s[4 + len..])
  }

  /** All messages up to the first failure, and that failure. */
  function ReadAll<M>(c: Codec<M>, s: seq<byte>, end: Failure): (seq<M>, Failure)
    decreases |s|
  {
    match ReadFrame(c, s, end)
    case (Failed(f), _) => ([], f)
    case (Done(m), rest) => var more := ReadAll(c, rest, end); ([m] + more.0, more.1)
  }

  lemma FrameReadsBack<M(!new)>(c: Codec<M>, m: M, rest: seq<byte>, end: Failure)
    requires Faithful(c) && Encode(c, m).Done?
    ensures ReadFrame(c, Frame(Encode(c, m).value) + rest, end) == (Done(m), rest)
  {
    var payload := Encode(c, m).value;
    var s := Frame(payload) + rest;
    LengthRoundTrip(|payload|);
    assert s[..4] == LengthBytes(|payload|) && s[4..4 + |payload|] == payload && s[4 + |payload|..] == rest;
  }

  lemma CutFrameFails<M>(c: Codec<M>, payload: seq<byte>, n: nat, end: Failure)
    requires |payload| <= MAX_FRAME_SIZE && n < |Frame(payload)|
    ensures ReadFrame(c, Frame(payload)[..n], end) == (Failed(end), [])
  {
    LengthRoundTrip(|payload|);
    if n >= 4 {
      assert Frame(payload)[..n][..4] == LengthBytes(|payload|);
    }
  }

  /** Whatever is read was framed: a successful read consumes exactly one frame, of bounded size,
      whose payload parses to the message. */
  lemma ReadIsSound<M>(c: Codec<M>, s: seq<byte>, end: Failure)
    requires ReadFrame(c, s, end).0.Done?
    ensures exists payload :: |payload| <= MAX_FRAME_SIZE && c.dec(payload) == Some(ReadFrame(c, s, end).0.value)
                              && s == Frame(payload) + ReadFrame(c, s, end).1
  {
    var len := Length(s[..4]);
    var payload := s[4..4 + len];
    LengthDetermines(s[..4]);
    assert s == s[..4] + payload + s[4 + len..];
    assert Frame(payload) == LengthBytes(len) + payload;
  }

  /** A whole frame is there, as far as its length can be believed. */
  predicate Complete(s: seq<byte>) {
    |s| >= 4 && (Length(s[..4]) > 16 * 1024 * 1024 || |s| >= 4 + Length(s[..4]))
  }

  /** Every way of reading to end, and what is left: too few bytes, a length over 16 MiB, of which only the four
      bytes are consumed, or a payload that the codec accepts or not. */
  lemma ReadFrameCases<M>(c: Codec<M>, s: seq<byte>, end: Failure)
    ensures !Complete(s) ==> ReadFrame(c, s, end) == (Failed(end), [])
    ensures Complete(s) && Length(s[..4]) > 16 * 1024 * 1024 ==>
              ReadFrame(c, s, end) == (Failed(TooLarge(Length(s[..4]))), s[4..])
    ensures Complete(s) && Length(s[..4]) <= 16 * 1024 * 1024 ==>
              var len := Length(s[..4]);
              var m := c.dec(s[4..4 + len]);
              ReadFrame(c, s, end) == (if m.Some? then Done(m.value) else Failed(Undecodable), s[4 + len..])
  {
  }

  function Frames(payloads: seq<seq<byte>>): seq<byte>
    requires forall p :: p in payloads ==> |p| <= MAX_FRAME_SIZE
  {
    if payloads == [] then []
    else
      assert forall p :: p in payloads[1..] ==> p in payloads;
      Frame(payloads[0]) + Frames(payloads[1..])
  }

  /** What is read until the first failure are the messages of the stream's frames, one after the other, and
      reading the rest is what fails. */
  lemma {:induction false} ReadAllIsSound<M>(c: Codec<M>, s: seq<byte>, end: Failure)
    returns (payloads: seq<seq<byte>>, rest: seq<byte>)
    ensures forall p :: p in payloads ==> |p| <= MAX_FRAME_SIZE
    ensures s == Frames(payloads) + rest && |payloads| == |ReadAll(c, s, end).0|
    ensures forall k :: 0 <= k < |payloads| ==> c.dec(payloads[k]) == Some(ReadAll(c, s, end).0[k])
    ensures ReadFrame(c, rest, end).0 == Failed(ReadAll(c, s, end).1)
    decreases |s|
  {
    var r := ReadFrame(c, s, end);
    if r.0.Failed? {
      payloads, rest := [], s;
    } else {
      ReadIsSound(c, s, end);
      var p :| |p| <= MAX_FRAME_SIZE && c.dec(p) == Some(r.0.value) && s == Frame(p) + r.1;
      var more: seq<seq<byte>>;
      more, rest := ReadAllIsSound(c, r.1, end);
      payloads := [p] + more;
      FramesCons(p, more, rest);
      forall k | 0 <= k < |payloads| ensures c.dec(payloads[k]) == Some(ReadAll(c, s, end).0[k]) {
        if k > 0 { assert payloads[k] == more[k - 1]; }
      }
    }
  }

  lemma FramesCons(p: seq<byte>, more: seq<seq<byte>>, rest: seq<byte>)
    requires |p| <= MAX_FRAME_SIZE && forall q :: q in more ==> |q| <= MAX_FRAME_SIZE
    ensures forall q :: q in [p] + more ==> |q| <= MAX_FRAME_SIZE
    ensures Frames([p] + more) + rest == Frame(p) + (Frames(more) + rest)
  {
    assert ([p] + more)[1..] == more;
  }

  // ---- Sending until something fails ----

  /** What reaches the stream when the messages are written in turn until one cannot be sent or
      the stream breaks after `budget` bytes. */
  function Emitted<M>(c: Codec<M>, msgs: seq<M>, budget: nat): (s: seq<byte>)
    ensures |s| <= budget
  {
    if msgs == [] then []
    else match Encode(c, msgs[0])
      case Failed(_) => []
      case Done(payload) =>
        var f := Frame(payload);
        if |f| <= budget then f + Emitted(c, msgs[1..], budget - |f|) else f[..budget]
  }

  /** How many of these writes succeed. */
  function Sent<M>(c: Codec<M>, msgs: seq<M>, budget: nat): (k: nat)
    ensures k <= |msgs|
  {
    if msgs == [] then 0
    else match Encode(c, msgs[0])
      case Failed(_) => 0
      case Done(payload) =>
        var f := Frame(payload);
        if |f| <= budget then 1 + Sent(c, msgs[1..], budget - |f|) else 0
  }

  lemma FirstIsRead<M(!new)>(c: Codec<M>, m: M, rest: seq<byte>, end: Failure)
    requires Faithful(c) && Encode(c, m).Done?
    ensures ReadAll(c, Frame(Encode(c, m).value) + rest, end) ==
        ([m] + ReadAll(c, rest, end).0, ReadAll(c, rest, end).1)
  {
    FrameReadsBack(c, m, rest, end);
  }

  /** The receiver gets exactly the messages whose writes succeeded, in order and unchanged, and then
      the end of the stream: no half-written message is ever delivered. */
  lemma {:induction false} ExactlyTheSentArrive<M(!new)>(c: Codec<M>, msgs: seq<M>, budget: nat, end: Failure)
    requires Faithful(c)
    ensures ReadAll(c, Emitted(c, msgs, budget), end) == (msgs[..Sent(c, msgs, budget)], end)
    decreases |msgs|
  {
    if msgs == [] || Encode(c, msgs[0]).Failed? {
      assert msgs[..0] == [];
    } else {
      var payload := Encode(c, msgs[0]).value;
      if |Frame(payload)| <= budget {
        var left := budget - |Frame(payload)|;
        var k := Sent(c, msgs[1..], left);
        ExactlyTheSentArrive(c, msgs[1..], left, end);
        OneMoreRead(c, msgs[0], payload, Emitted(c, msgs[1..], left), msgs[1..][..k], end);
        FirstIsEmitted(c, msgs, payload, budget);
        PrefixOneMore(msgs, k);
      } else {
        CutFrameFails(c, payload, budget, end);
        assert msgs[..0] == [];
      }
    }
  }

  lemma FirstIsEmitted<M>(c: Codec<M>, msgs: seq<M>, payload: seq<byte>, budget: nat)
    requires msgs != [] && Encode(c, msgs[0]) == Done(payload) && |Frame(payload)| <= budget
    ensures Emitted(c, msgs, budget) == Frame(payload) + Emitted(c, msgs[1..], budget - |Frame(payload)|)
    ensures Sent(c, msgs, budget) == 1 + Sent(c, msgs[1..], budget - |Frame(payload)|)
  {
  }

  lemma PrefixOneMore<M>(msgs: seq<M>, k: nat)
    requires msgs != [] && k < |msgs|
    ensures msgs[..1 + k] == [msgs[0]] + msgs[1..][..k]
  {
  }

  lemma OneMoreRead<M(!new)>(c: Codec<M>, m: M, payload: seq<byte>, rest: seq<byte>, got: seq<M>, end: Failure)
    requires Faithful(c) && Encode(c, m) == Done(payload) && ReadAll(c, rest, end) == (got, end)
    ensures ReadAll(c, Frame(payload) + rest, end) == ([m] + got, end)
  {
    FirstIsRead(c, m, rest, end);
  }

  ghost predicate AllFit<M(!new)>(c: Codec<M>, msgs: seq<M>) {
    forall m :: m in msgs ==> Encode(c, m).Done?
  }

  /** The frames of messages that all fit. */
  function Stream<M(!new)>(c: Codec<M>, msgs: seq<M>): seq<byte>
    requires AllFit(c, msgs)
  {
    if msgs == [] then []
    else
      assert forall m :: m in msgs[1..] ==> m in msgs;
      Frame(Encode(c, msgs[0]).value) + Stream(c, msgs[1..])
  }

  lemma {:induction false} PrefixIsEmitted<M(!new)>(c: Codec<M>, msgs: seq<M>, n: nat)
    requires AllFit(c, msgs) && n <= |Stream(c, msgs)|
    ensures Emitted(c, msgs, n) == Stream(c, msgs)[..n]
    ensures Sent(c, msgs, n) == |msgs| <==> n == |Stream(c, msgs)|
    decreases |msgs|
  {
    if msgs != [] {
      var f := Frame(Encode(c, msgs[0]).value);
      assert forall m :: m in msgs[1..] ==> m in msgs;
      if |f| <= n {
        PrefixIsEmitted(c, msgs[1..], n - |f|);
      } else {
        assert Stream(c, msgs)[..n] == f[..n];
      }
    }
  }

  /** The round trip: all bytes of a sequence of messages give the sequence back, and any strict
      prefix of the bytes gives a strict prefix of the messages and then the end. */
  lemma PrefixYieldsPrefix<M(!new)>(c: Codec<M>, msgs: seq<M>, n: nat, end: Failure)
    requires Faithful(c) && AllFit(c, msgs) && n <= |Stream(c, msgs)|
    ensures ReadAll(c, Stream(c, msgs)[..n], end).1 == end
    ensures ReadAll(c, Stream(c, msgs)[..n], end).0 <= msgs
    ensures ReadAll(c, Stream(c, msgs)[..n], end).0 == msgs <==> n == |Stream(c, msgs)|
  {
    PrefixIsEmitted(c, msgs, n);
    ExactlyTheSentArrive(c, msgs, n, end);
  }

  // ---- Notifications ----

  datatype NotificationRead = Got(n: Notification) | EndOfStream | Error

  function ReadNotification(c: Codec<SupervisorMessage>, s: seq<byte>, end: Failure): NotificationRead {
    var r: Outcome<SupervisorMessage> := ReadFrame(c, s, end).0;
    match r
    case Done(Notify(n)) => Got(n)
    case Done(Response(_)) => Error
    case Failed(UnexpectedEof) => EndOfStream
    case Failed(_) => Error
  }

  /** A notification that was sent is the one that is got. */
  lemma NotificationReadsBack(c: Codec<SupervisorMessage>, n: Notification, rest: seq<byte>, end: Failure)
    requires Faithful(c) && Encode(c, Notify(n)).Done?
    ensures ReadNotification(c, Frame(Encode(c, Notify(n)).value) + rest, end) == Got(n)
  {
    FrameReadsBack(c, Notify(n), rest, end);
  }

  /** For all bytes: a notification is got exactly if the first frame is complete, within the limit and parses to
      it. A response, a payload that does not parse, a length over the limit and any other failure are errors. */
  lemma ReadNotificationCases(c: Codec<SupervisorMessage>, s: seq<byte>, end: Failure, n: Notification)
    ensures ReadNotification(c, s, end) == Got(n) <==>
            Complete(s) && Length(s[..4]) <= 16 * 1024 * 1024 && c.dec(s[4..4 + Length(s[..4])]) == Some(Notify(n))
    ensures ReadNotification(c, s, end) == Error <==>
            if !Complete(s) then end != UnexpectedEof
            else Length(s[..4]) > 16 * 1024 * 1024
                 || c.dec(s[4..4 + Length(s[..4])]) == None
                 || c.dec(s[4..4 + Length(s[..4])]).value.Response?
  {
    ReadFrameCases(c, s, end);
  }

  /** The server takes the stream for ended exactly when it ends before the next frame is complete,
      on a frame boundary or in the middle of a frame. */
  lemma EndOfStreamIff(c: Codec<SupervisorMessage>, s: seq<byte>, end: Failure)
    ensures ReadNotification(c, s, end) == EndOfStream <==>
            end == UnexpectedEof && (|s| < 4 || (Length(s[..4]) <= MAX_FRAME_SIZE && |s| < 4 + Length(s[..4])))
  {
  }

  /** Its documentation says clean end; a supervisor that dies in the middle of a frame looks the same. */
  lemma TruncatedLooksClean(c: Codec<SupervisorMessage>)
    ensures ReadNotification(c, [0, 0, 0, 9, 1], UnexpectedEof) == ReadNotification(c, [], UnexpectedEof) == EndOfStream
  {
  }

  // ---- The stream, read and written in place ----

  function Flatten(chunks: seq<seq<byte>>): seq<byte> {
    if chunks == [] then [] else chunks[0] + Flatten(chunks[1..])
  }

  class Reader {
    var chunks: seq<seq<byte>>
    const end: Failure

    ghost predicate Valid()
      reads this
    {
      forall ch :: ch in chunks ==> ch != []
    }

    ghost function Rest(): seq<byte>
      reads this
    {
      Flatten(chunks)
    }

    constructor (chunks: seq<seq<byte>>, end: Failure)
      requires forall ch :: ch in chunks ==> ch != []
      ensures Valid() && Rest() == Flatten(chunks) && this.end == end
    {
      this.chunks := chunks;
      this.end := end;
    }

    /** One read into buf[from..]: as much of the next chunk as there is room for, nothing at the end. */
    method Read(buf: array<byte>, from: nat) returns (n: nat)
      requires Valid() && from < buf.Length
      modifies this, buf
      ensures Valid() && n <= buf.Length - from && n <= |old(Rest())| && (n == 0 <==> old(Rest()) == [])
      ensures buf[..from] == old(buf[..from]) && buf[from..from + n] == old(Rest())[..n]
      ensures Rest() == old(Rest())[n..]
    {
      if chunks == [] {
        return 0;
      }
      var ch := chunks[0];
      assert ch in chunks && forall d :: d in chunks[1..] ==> d in chunks;
      n := if |ch| <= buf.Length - from then |ch| else buf.Length - from;
      forall k | from <= k < from + n {
        buf[k] := ch[k - from];
      }
      assert old(Rest())[..n] == ch[..n];
      if n == |ch| {
        chunks := chunks[1..];
      } else {
        chunks := [ch[n..]] + chunks[1..];
        assert chunks[1..] == old(chunks)[1..];
      }
    }

    /** Fill the buffer, or fail having used up the stream. */
    method ReadExact(buf: array<byte>) returns (ok: bool)
      requires Valid()
      modifies this, buf
      ensures Valid() && ok == (|old(Rest())| >= buf.Length)
      ensures ok ==> buf[..] == old(Rest())[..buf.Length] && Rest() == old(Rest())[buf.Length..]
      ensures !ok ==> Rest() == []
    {
      var filled := 0;
      ghost var all := Rest();
      while filled < buf.Length
        invariant Valid() && filled <= buf.Length && filled <= |all|
        invariant buf[..filled] == all[..filled] && Rest() == all[filled..]
        decreases buf.Length - filled
      {
        var n := Read(buf, filled);
        if n == 0 {
          return false;
        }
        assert buf[..filled + n] == buf[..filled] + buf[filled..filled + n];
        assert all[..filled + n] == all[..filled] + all[filled..][..n];
        filled := filled + n;
      }
      assert buf[..] == buf[..filled];
      ok := true;
    }

    method ReadMessage<M>(c: Codec<M>) returns (r: Outcome<M>)
      requires Valid()
      modifies this
      ensures Valid() && (r, Rest()) == ReadFrame(c, old(Rest()), end)
    {
      ghost var s := Rest();
      var lengthBytes := new byte[4](_ => 0);
      var ok := ReadExact(lengthBytes);
      if !ok {
        return Failed(end);
      }
      var len := Length(lengthBytes[..]);
      if len > MAX_FRAME_SIZE {
        return Failed(TooLarge(len));
      }
      var buf := new byte[len](_ => 0);
      ok := ReadExact(buf);
      if !ok {
        return Failed(end);
      }
      assert s[4..][..len] == s[4..4 + len] && s[4..][len..] == s[4 + len..];
      match c.dec(buf[..])
      case None => return Failed(Undecodable);
      case Some(m) => return Done(m);
    }
  }

  lemma ReadAllStep<M>(c: Codec<M>, s: seq<byte>, end: Failure, msgs: seq<M>)
    ensures var (r, rest) := ReadFrame(c, s, end);
            match r
            case Failed(f) => msgs + ReadAll(c, s, end).0 == msgs && ReadAll(c, s, end).1 == f
            case Done(m) => msgs + ReadAll(c, s, end).0 == msgs + [m] + ReadAll(c, rest, end).0
                            && ReadAll(c, s, end).1 == ReadAll(c, rest, end).1
  {
  }

  /** Read until something fails: the result depends on the bytes only, not on how they arrive. */
  method ReadMessages<M>(reader: Reader, c: Codec<M>) returns (msgs: seq<M>, failure: Failure)
    requires reader.Valid()
    modifies reader
    ensures reader.Valid() && (msgs, failure) == ReadAll(c, old(reader.Rest()), reader.end)
  {
    ghost var all := ReadAll(c, reader.Rest(), reader.end);
    msgs := [];
    while true
      invariant reader.Valid()
      invariant all.0 == msgs + ReadAll(c, reader.Rest(), reader.end).0
      invariant all.1 == ReadAll(c, reader.Rest(), reader.end).1
      decreases |reader.Rest()|
    {
      ReadAllStep(c, reader.Rest(), reader.end, msgs);
      var r := reader.ReadMessage(c);
      match r
      case Failed(f) =>
        failure := f;
        return;
      case Done(m) =>
        msgs := msgs + [m];
    }
  }

  /** A stream that accepts `budget` more bytes and then breaks. */
  class Writer {
    var out: seq<byte>
    var budget: nat

    constructor (budget: nat)
      ensures out == [] && this.budget == budget
    {
      out := [];
      this.budget := budget;
    }

    method WriteAll(data: seq<byte>) returns (ok: bool)
      modifies this
      ensures ok == (|data| <= old(budget))
      ensures out == old(out) + (if ok then data else data[..old(budget)])
      ensures budget == if ok then old(budget) - |data| else 0
    {
      ok := |data| <= budget;
      if ok {
        out := out + data;
        budget := budget - |data|;
      } else {
        out := out + data[..budget];
        budget := 0;
      }
    }

    /** A message that cannot be sent emits no bytes; otherwise its frame is emitted as far as it gets. */
    method WriteMessage<M>(c: Codec<M>, m: M) returns (failure: Option<Failure>)
      modifies this
      ensures Encode(c, m).Failed? ==> failure == Some(Encode(c, m).failure) && out == old(out) && budget == old(budget)
      ensures Encode(c, m).Done? ==>
                var f := Frame(Encode(c, m).value);
                if |f| <= old(budget) then failure == None && out == old(out) + f && budget == old(budget) - |f|
                else failure == Some(Broken) && out == old(out) + f[..old(budget)] && budget == 0
    {
      match Encode(c, m)
      case Failed(f) =>
        return Some(f);
      case Done(payload) =>
        var ok := WriteAll(LengthBytes(|payload|));
        if !ok {
          assert Frame(payload)[..old(budget)] == LengthBytes(|payload|)[..old(budget)];
          return Some(Broken);
        }
        ok := WriteAll(payload);
        if !ok {
          assert Frame(payload)[..old(budget)] == LengthBytes(|payload|) + payload[..old(budget) - 4];
          return Some(Broken);
        }
        return None;
    }
  }

  lemma EmittedStep<M>(c: Codec<M>, msgs: seq<M>, k: nat, out: seq<byte>, budget: nat)
    requires k < |msgs|
    ensures Encode(c, msgs[k]).Failed? ==> out + Emitted(c, msgs[k..], budget) == out && Sent(c, msgs[k..], budget) == 0
    ensures Encode(c, msgs[k]).Done? ==>
              var f := Frame(Encode(c, msgs[k]).value);
              if |f| <= budget
              then out + Emitted(c, msgs[k..], budget) == out + f + Emitted(c, msgs[k + 1..], budget - |f|)
                   && Sent(c, msgs[k..], budget) == 1 + Sent(c, msgs[k + 1..], budget - |f|)
              else Emitted(c, msgs[k..], budget) == f[..budget] && Sent(c, msgs[k..], budget) == 0
  {
  }

  /** Write the messages in turn until one fails. */
  method WriteMessages<M>(writer: Writer, c: Codec<M>, msgs: seq<M>) returns (k: nat)
    modifies writer
    ensures writer.out == old(writer.out) + Emitted(c, msgs, old(writer.budget))
    ensures k == Sent(c, msgs, old(writer.budget))
  {
    ghost var all := Emitted(c, msgs, old(writer.budget));
    k := 0;
    while k < |msgs|
      invariant k <= |msgs|
      invariant old(writer.out) + all == writer.out + Emitted(c, msgs[k..], writer.budget)
      invariant Sent(c, msgs, old(writer.budget)) == k + Sent(c, msgs[k..], writer.budget)
    {
      EmittedStep(c, msgs, k, writer.out, writer.budget);
      var failure := writer.WriteMessage(c, msgs[k]);
      if failure.Some? {
        return;
      }
      k := k + 1;
    }
  }
}
