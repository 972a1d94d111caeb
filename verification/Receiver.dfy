/** The network thread of agent/net.c as a function of what it meets: one step for each look it takes
    at memory it shares, or at its socket. */
module Receiver {
  import opened Framing

  type Chunk = b: Bytes | b != [] witness [0]

  /** What `recv` answers on an open socket: bytes, 0 at the end of the stream, or a failure, which alone
      writes `errno`: `EAGAIN` or something else. */
  datatype Recv = Got(bytes: Chunk) | End | Failed(again: bool)

  /** What a step meets: whether another thread, in `net_not_connected`, has just given the socket up
      (`closed`) or lowered the status (`lowered`), which are two accesses; whether it has asked to stop,
      before the step or (`late`) while it connects; and how the calls the step makes turn out. `left` says
      whether `errno` reads `EAGAIN` after `socket` and `connect`, which may fail and be tried again. */
  datatype Moment = Moment(closed: bool, lowered: bool, stop: bool, late: bool, socketMade: bool, connected: bool,
                           left: bool, greeted: bool, recv: Recv)

  /** History of one socket: the bytes received on it, and the messages processed from it. */
  datatype Endpoint = Endpoint(received: Bytes, messages: seq<Bytes>)

  datatype Phase =
    | Top       // the test of `status` at the head of net_loop
    | Joining   // net_connect_to_controller succeeded
    | Look      // the test of `stop` in an inner loop
    | Ask       // the call of net_recv
    | Halted

  /** `sockfd` is -1 for none; sockets are numbered from 1 in the order they are made, and the last is
      `newest`. `again` says that `errno` reads `EAGAIN`, `held` is the part of the buffer below `bread`,
      and `processed` lists all that went to `net_process_message`. */
  datatype Wire = Wire(sockfd: int, again: bool, stop: bool, status: bool, phase: Phase, held: Bytes, made: nat,
                       older: seq<Endpoint>, newest: Endpoint, processed: seq<Bytes>)

  function Fresh(): Wire {
    Wire(-1, false, false, false, Top, [], 0, [], Endpoint([], []), [])
  }

  /** `net_not_connected`. */
  function HungUp(s: Wire): Wire {
    s.(sockfd := if s.sockfd > 0 then -1 else s.sockfd, status := false)
  }

  /** Other threads take their turn. */
  function Interfered(s: Wire, m: Moment): Wire {
    s.(sockfd := if m.closed && s.sockfd > 0 then -1 else s.sockfd, status := s.status && !m.lowered,
       stop := s.stop || m.stop)
  }

  /** How many bytes the buffer must hold next: a header, then what the header announces. */
  function Target(p: Protocol, held: Bytes): int {
    if |held| < p.header then p.header else p.length(held[..p.header])
  }

  /** A new socket, on which nothing has come in. */
  function NewSocket(s: Wire): Wire {
    s.(sockfd := s.made + 1, made := s.made + 1,
       older := if s.made == 0 then s.older else s.older + [s.newest], newest := Endpoint([], []))
  }

  /** `net_connect_to_controller`: a socket is made only when there is none. */
  function Joined(s: Wire, m: Moment): Wire {
    if s.sockfd < 0 && !m.socketMade then s.(again := m.left, phase := Top)
    else
      var t := if s.sockfd >= 0 then s else NewSocket(s);
      t.(again := m.left, stop := t.stop || m.late, phase := if t.stop || m.late || !m.connected then Top else Joining)
  }

  /** The bytes `recv` stores: no more than asked for. */
  function Taken(bytes: Bytes, size: nat): Bytes {
    if |bytes| <= size then bytes else bytes[..size]
  }

  lemma TakenIs(bytes: Bytes, size: nat)
    ensures Taken(bytes, size) == bytes[..if |bytes| <= size then |bytes| else size]
  {
  }

  function Received(s: Wire, bytes: Bytes): Wire {
    s.(held := s.held + bytes, newest := s.newest.(received := s.newest.received + bytes))
  }

  /** Between two looks at the world: a complete message is processed, a malformed header ends the
      connection, anything less is waited for. */
  function Advanced(p: Protocol, s: Wire): Wire {
    if |s.held| < p.header || |s.held| < p.length(s.held[..p.header]) then s.(phase := Look)
    else if p.length(s.held[..p.header]) < p.header then HungUp(s).(phase := Top)
    else
      s.(newest := s.newest.(messages := s.newest.messages + [s.held]),
         processed := s.processed + [s.held], phase := Top)
  }

  /** `errno` after `recv`: a socket given up is a bad descriptor. */
  function Errno(s: Wire, r: Recv): bool {
    if s.sockfd == -1 then false else if r.Failed? then r.again else s.again
  }

  /** `net_recv` and what follows it. Without bytes it is `errno` alone that decides. */
  function Asked(p: Protocol, s: Wire, r: Recv): Wire {
    var t, size := s.(again := Errno(s, r)), Target(p, s.held) - |s.held|;
    if s.sockfd != -1 && r.Got? && size > 0 then Advanced(p, Received(s, Taken(r.bytes, size)))
    else if t.again then t.(phase := Look)
    else HungUp(t).(phase := Top)
  }

  function NetStep(p: Protocol, s: Wire, m: Moment): Wire {
    var t := Interfered(s, m);
    match s.phase
    case Top =>
      if t.status then t.(phase := Look, held := [])
      else if t.stop then t.(phase := Halted) else Joined(t, m)
    case Joining =>
      if m.greeted then t.(status := true, phase := Look, held := []) else HungUp(t).(phase := Top)
    case Look => t.(phase := if t.stop then Halted else Ask)
    case Ask => Asked(p, t, m.recv)
    case Halted => t
  }

  /** After `k` steps. */
  function NetRun(p: Protocol, s: Wire, o: nat -> Moment, k: nat): Wire {
    if k == 0 then s else NetStep(p, NetRun(p, s, o, k - 1), o(k - 1))
  }

  // ---------------------------------------------------------------- soundness

  /** The messages processed from a socket are exactly those its bytes fall into: however the bytes
      came in pieces, and none of them from another socket. */
  predicate Sound(p: Protocol, e: Endpoint) {
    e.messages == Frames(p, e.received)
  }

  /** The bytes of `e` are its messages and then `rest`. */
  ghost predicate Pending(p: Protocol, e: Endpoint, rest: Bytes) {
    e.received == Flat(e.messages) + rest && forall m | m in e.messages :: Framed(p, m)
  }

  ghost predicate AllSound(p: Protocol, s: Wire) {
    (forall i | 0 <= i < |s.older| :: Sound(p, s.older[i])) && Sound(p, s.newest)
  }

  /** The messages processed from these sockets, socket by socket. */
  function MessagesOf(es: seq<Endpoint>): seq<Bytes>
    decreases |es|
  {
    if es == [] then [] else MessagesOf(es[..|es| - 1]) + es[|es| - 1].messages
  }

  /** Only the newest socket is ever open; what the buffer holds in the inner loops came from it since
      its last whole message, and is none yet; at the top nothing is pending on an open socket, nor while
      the status is up. */
  ghost predicate NetInv(p: Protocol, s: Wire) {
    && AllSound(p, s)
    && s.processed == MessagesOf(s.older) + s.newest.messages
    && (s.made == 0 ==> s.older == [] && s.newest == Endpoint([], []))
    && (s.sockfd == -1 || 1 <= s.sockfd == s.made)
    && (s.phase.Look? || s.phase.Ask? ==> Pending(p, s.newest, s.held) && |s.held| < Target(p, s.held))
    && (s.phase.Top? && (s.status || s.sockfd != -1) ==> Pending(p, s.newest, []))
    && (s.phase.Joining? ==> Pending(p, s.newest, []))
  }

  lemma PendingSound(p: Protocol, e: Endpoint, rest: Bytes)
    requires Pending(p, e, rest) && Frames(p, rest) == []
    ensures Sound(p, e)
  {
    FramesOfFlat(p, e.messages, rest);
  }

  lemma PendingMore(p: Protocol, e: Endpoint, rest: Bytes, more: Bytes)
    requires Pending(p, e, rest)
    ensures Pending(p, e.(received := e.received + more), rest + more)
  {
  }

  /** Processing the pending bytes as one message leaves nothing pending. */
  lemma PendingDone(p: Protocol, e: Endpoint, m: Bytes)
    requires Pending(p, e, m) && Framed(p, m)
    ensures Pending(p, e.(messages := e.messages + [m]), [])
  {
    FlatAdd(e.messages, m);
    assert e.received == Flat(e.messages + [m]) + [];
  }

  lemma NoneSound(p: Protocol)
    ensures Sound(p, Endpoint([], [])) && Pending(p, Endpoint([], []), [])
  {
  }

  lemma InterferedInv(p: Protocol, s: Wire, m: Moment)
    requires NetInv(p, s)
    ensures NetInv(p, Interfered(s, m))
  {
  }

  /** Bytes that complete no message: more are waited for, or the connection ends. */
  lemma PartInv(p: Protocol, s: Wire, bytes: Bytes)
    requires NetInv(p, s) && s.phase.Ask? && s.sockfd != -1
    requires var t := Received(s, bytes); Sound(p, t.newest) && Pending(p, t.newest, t.held) && !Framed(p, t.held)
    requires var h := s.held + bytes;
      |h| < Target(p, h) || (p.header <= |h| && p.length(h[..p.header]) < p.header)
    ensures NetInv(p, Advanced(p, Received(s, bytes)))
  {
  }

  /** Bytes that complete one: it is processed. */
  lemma WholeInv(p: Protocol, s: Wire, bytes: Bytes)
    requires NetInv(p, s) && s.phase.Ask? && s.sockfd != -1
    requires var t := Received(s, bytes); Pending(p, t.newest, t.held) && Framed(p, t.held)
    ensures NetInv(p, Advanced(p, Received(s, bytes)))
  {
    var t := Received(s, bytes);
    PendingDone(p, t.newest, t.held);
    PendingSound(p, t.newest.(messages := t.newest.messages + [t.held]), []);
  }

  /** Bytes arriving on an open socket: the message they may complete is processed, and all is sound. */
  lemma ArrivalInv(p: Protocol, s: Wire, bytes: Bytes)
    requires NetInv(p, s) && s.phase.Ask? && s.sockfd != -1 && p.header > 0
    requires |s.held + bytes| <= Target(p, s.held)
    ensures NetInv(p, Advanced(p, Received(s, bytes)))
  {
    var t := Received(s, bytes);
    PendingMore(p, s.newest, s.held, bytes);
    assert |s.held| >= p.header ==> t.held[..p.header] == s.held[..p.header];
    if Framed(p, t.held) {
      WholeInv(p, s, bytes);
    } else {
      IncompleteFrame(p, t.held);
      PendingSound(p, t.newest, t.held);
      PartInv(p, s, bytes);
    }
  }

  lemma NewSocketInv(p: Protocol, s: Wire)
    requires NetInv(p, s) && !s.status && s.phase.Top? && s.sockfd < 0
    ensures NetInv(p, NewSocket(s))
  {
    NoneSound(p);
    var more := s.older + [s.newest];
    assert more[..|more| - 1] == s.older && MessagesOf(more) + [] == MessagesOf(more);
  }

  lemma JoinInv(p: Protocol, s: Wire, m: Moment)
    requires NetInv(p, s) && !s.status && s.phase.Top?
    ensures NetInv(p, Joined(s, m))
  {
    if s.sockfd < 0 {
      NewSocketInv(p, s);
    }
  }

  lemma LostInv(p: Protocol, s: Wire)
    requires NetInv(p, s)
    ensures NetInv(p, HungUp(s).(phase := Top))
  {
  }

  /** The three ways a call of `net_recv` goes. */
  lemma AskedCases(p: Protocol, s: Wire, r: Recv)
    requires |s.held| < Target(p, s.held)
    ensures var size := Target(p, s.held) - |s.held|;
      && (s.sockfd != -1 && r.Got? ==>
            Asked(p, s, r) == Advanced(p, Received(s, Taken(r.bytes, size))) && |Taken(r.bytes, size)| <= size)
      && (s.sockfd == -1 || !r.Got? ==>
            var t := s.(again := Errno(s, r));
            Asked(p, s, r) == if t.again then t.(phase := Look) else HungUp(t).(phase := Top))
      && Advanced(p, s) == s.(phase := Look)
  {
  }

  lemma AskInv(p: Protocol, s: Wire, r: Recv)
    requires NetInv(p, s) && p.header > 0 && s.phase.Ask?
    ensures NetInv(p, Asked(p, s, r))
  {
    AskedCases(p, s, r);
    if s.sockfd == -1 || !r.Got? {
      LostInv(p, s.(again := Errno(s, r)));
    } else {
      ArrivalInv(p, s, Taken(r.bytes, Target(p, s.held) - |s.held|));
    }
  }

  lemma TopInv(p: Protocol, s: Wire, m: Moment)
    requires NetInv(p, s) && s.phase.Top? && p.header > 0
    ensures NetInv(p, NetStep(p, s, m))
  {
    InterferedInv(p, s, m);
    if !Interfered(s, m).status {
      JoinInv(p, Interfered(s, m), m);
    }
  }

  lemma JoiningInv(p: Protocol, s: Wire, m: Moment)
    requires NetInv(p, s) && s.phase.Joining? && p.header > 0
    ensures NetInv(p, NetStep(p, s, m))
  {
    InterferedInv(p, s, m);
  }

  lemma StepInv(p: Protocol, s: Wire, m: Moment)
    requires NetInv(p, s) && p.header > 0
    ensures NetInv(p, NetStep(p, s, m))
  {
    match s.phase
    case Top => TopInv(p, s, m);
    case Joining => JoiningInv(p, s, m);
    case Ask =>
      InterferedInv(p, s, m);
      AskInv(p, Interfered(s, m), m.recv);
    case _ => InterferedInv(p, s, m);
  }

  lemma FreshInv(p: Protocol, s: Wire)
    requires s == Fresh()
    ensures NetInv(p, s)
  {
  }

  /** However the bytes come in pieces, whatever fails, and whenever other threads tear the connection
      down or ask to stop: at every moment, everything processed so far was processed soundly. */
  lemma {:induction false} RunSound(p: Protocol, s: Wire, o: nat -> Moment, k: nat)
    requires p.header > 0 && NetInv(p, s)
    ensures NetInv(p, NetRun(p, s, o, k))
    decreases k
  {
    if k > 0 {
      RunSound(p, s, o, k - 1);
      StepInv(p, NetRun(p, s, o, k - 1), o(k - 1));
    }
  }
}
