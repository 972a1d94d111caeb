/** When the network thread ends, when it notices that the controller has closed the connection, and when
    it comes up again. */
module Stalls {
  import opened Framing
  import opened Receiver

  /** The states `h` are those of the network thread step by step, each step as `o` has it. */
  ghost predicate Plays(p: Protocol, h: nat -> Wire, o: nat -> Moment) {
    forall j: nat :: PlaysAt(p, h, o, j)
  }

  ghost predicate PlaysAt(p: Protocol, h: nat -> Wire, o: nat -> Moment, j: nat) {
    h(j + 1) == NetStep(p, h(j), o(j))
  }

  function NetHistory(p: Protocol, s: Wire, o: nat -> Moment): nat -> Wire {
    (k: nat) => NetRun(p, s, o, k)
  }

  /** For every start and whatever the world does there is such a history. */
  lemma NetHistoryPlays(p: Protocol, s: Wire, o: nat -> Moment)
    ensures Plays(p, NetHistory(p, s, o), o)
  {
    forall j: nat ensures PlaysAt(p, NetHistory(p, s, o), o, j) {
    }
  }

  // --------------------------------------------------------------------- stopping

  /** How many steps at most are left once `stop` is up. */
  function StepsLeft(s: Wire): nat {
    match s.phase
    case Halted => 0
    case Look => 1
    case Top => if s.status then 2 else 1
    case Joining => 2
    case Ask => 3
  }

  lemma NearerToHalt(p: Protocol, s: Wire, m: Moment)
    requires s.stop
    ensures var q := NetStep(p, s, m); q.stop && (StepsLeft(q) < StepsLeft(s) || q.phase.Halted?)
  {
  }

  /** Once it sees `stop` the thread ends within three looks at the world, whatever the others do. */
  lemma {:induction false} NetStops(p: Protocol, h: nat -> Wire, o: nat -> Moment, k: nat, n: nat)
    requires Plays(p, h, o)
    requires h(k).stop && StepsLeft(h(k)) <= n
    ensures h(k + n).phase.Halted?
    decreases n
  {
    if n > 0 {
      var q := h(k);
      assert PlaysAt(p, h, o, k);
      NearerToHalt(p, q, o(k));
      NetStops(p, h, o, k + 1, n - 1);
    }
  }

  lemma StopEndsNet(p: Protocol, h: nat -> Wire, o: nat -> Moment, k: nat, e: nat)
    requires Plays(p, h, o)
    requires h(k).stop && k + 3 <= e
    ensures h(e).phase.Halted?
  {
    NetStops(p, h, o, k, e - k);
  }

  /** The thread was told to stop three looks before look `e`, or earlier. */
  ghost predicate StoppedBy(h: nat -> Wire, e: nat) {
    exists i: nat :: i + 3 <= e && h(i).stop
  }

  lemma StoppedHalts(p: Protocol, s: Wire, o: nat -> Moment, e: nat)
    ensures StoppedBy(NetHistory(p, s, o), e) ==> NetHistory(p, s, o)(e).phase.Halted?
  {
    var h := NetHistory(p, s, o);
    NetHistoryPlays(p, s, o);
    if i: nat :| i + 3 <= e && h(i).stop {
      StopEndsNet(p, h, o, i, e);
    }
  }

  // ------------------------------------------------------- the end of the stream

  /** Nobody gives the socket up or asks to stop, and `recv` comes to nothing but the end of the stream. */
  predicate AtEnd(m: Moment) {
    !m.closed && !m.stop && m.recv.End?
  }

  /** Nor is there anything but that or `EAGAIN`. */
  predicate Empty(m: Moment) {
    !m.closed && !m.stop && (m.recv.End? || m.recv == Failed(true))
  }

  /** The thread waits, on an open socket, for bytes still missing. */
  predicate Waiting(p: Protocol, s: Wire) {
    (s.phase.Look? || s.phase.Ask?) && s.sockfd > 0 && !s.stop && |s.held| < Target(p, s.held)
  }

  lemma WaitStep(p: Protocol, s: Wire, m: Moment)
    requires Waiting(p, s) && s.again && Empty(m)
    ensures var q := NetStep(p, s, m);
      Waiting(p, q) && q.again && q.sockfd == s.sockfd && q.held == s.held && q.newest == s.newest
  {
    if s.phase.Ask? {
      AskedCases(p, Interfered(s, m), m.recv);
    }
  }

  /** While `errno` reads `EAGAIN`, the end of the stream passes for a lack of bytes: the thread waits on,
      on the same socket. */
  lemma {:induction false} WaitsOn(p: Protocol, h: nat -> Wire, o: nat -> Moment, i: nat, k: nat)
    requires Plays(p, h, o)
    requires var q := h(i); Waiting(p, q) && q.again
    requires i <= k && forall j: nat | i <= j :: Empty(o(j))
    ensures var q, r := h(i), h(k);
      Waiting(p, r) && r.again && r.sockfd == q.sockfd && r.held == q.held && r.newest == q.newest
    decreases k
  {
    if i < k {
      var j := k - 1;
      WaitsOn(p, h, o, i, j);
      assert PlaysAt(p, h, o, j);
      WaitStep(p, h(j), o(j));
    }
  }

  /** Otherwise the connection is given up at the next call. */
  lemma NoticedSoon(p: Protocol, h: nat -> Wire, o: nat -> Moment, i: nat) returns (k: nat)
    requires Plays(p, h, o)
    requires var q := h(i); Waiting(p, q) && !q.again
    requires AtEnd(o(i)) && AtEnd(o(i + 1))
    ensures i <= k && h(k).sockfd == -1 && !h(k).status
  {
    assert PlaysAt(p, h, o, i);
    assert PlaysAt(p, h, o, i + 1);
    k := if h(i).phase.Ask? then i + 1 else i + 2;
  }

  /** A connection the controller has closed is given up if and only if `errno` does not read `EAGAIN` from
      the last call that failed. */
  lemma NoticedExactly(p: Protocol, h: nat -> Wire, o: nat -> Moment, i: nat)
    requires Plays(p, h, o)
    requires var q := h(i); Waiting(p, q)
    requires forall j: nat | i <= j :: AtEnd(o(j))
    ensures (exists k: nat :: i <= k && h(k).sockfd == -1) <==> !h(i).again
    ensures (exists k: nat :: i <= k && h(k).sockfd == -1 && !h(k).status) <==> !h(i).again
  {
    if h(i).again {
      forall k: nat | i <= k ensures h(k).sockfd != -1 {
        WaitsOn(p, h, o, i, k);
      }
    } else {
      var k := NoticedSoon(p, h, o, i);
    }
  }

  /** So it is never noticed if the thread was idle before: one `EAGAIN` on the open socket is enough. */
  lemma ClosedWhenIdle(p: Protocol, h: nat -> Wire, o: nat -> Moment, i: nat, k: nat)
    requires Plays(p, h, o)
    requires var q := h(i); Waiting(p, q) && q.phase.Ask?
    requires !o(i).closed && !o(i).stop && o(i).recv == Failed(true)
    requires forall j: nat | i < j :: AtEnd(o(j))
    ensures i < k ==> Waiting(p, h(k)) && h(k).sockfd == h(i).sockfd
  {
    assert PlaysAt(p, h, o, i);
    AskedCases(p, Interfered(h(i), o(i)), o(i).recv);
    if i < k {
      WaitsOn(p, h, o, i + 1, k);
    }
  }

  /** A connection another thread gives up is noticed within two looks, whatever `recv` would have answered. */
  lemma ClosedNoticed(p: Protocol, h: nat -> Wire, o: nat -> Moment, i: nat) returns (k: nat)
    requires Plays(p, h, o)
    requires Waiting(p, h(i)) && o(i).closed && !o(i).stop && !o(i + 1).stop
    ensures i < k <= i + 2 && h(k).phase.Top? && h(k).sockfd == -1 && !h(k).status
  {
    assert PlaysAt(p, h, o, i);
    assert PlaysAt(p, h, o, i + 1);
    k := if h(i).phase.Ask? then i + 1 else i + 2;
  }

  // ------------------------------------------------------------- coming up again

  /** What the head of the loop comes to: with the status up the thread goes on to collect a message, else it
      ends if it was told to, else it makes a socket if there is none, and the connection is made if and only
      if there is a socket, `connect` succeeds and nobody has asked to stop meanwhile. */
  lemma JoinsExactly(p: Protocol, s: Wire, m: Moment)
    requires s.phase.Top?
    ensures var q, up, halt := NetStep(p, s, m), s.status && !m.lowered, s.stop || m.stop;
      var fd := if m.closed && s.sockfd > 0 then -1 else s.sockfd;
      && (q.phase.Look? <==> up) && (q.phase.Halted? <==> !up && halt)
      && (q.phase.Joining? <==> !up && !halt && (fd >= 0 || m.socketMade) && !m.late && m.connected)
      && q.made == s.made + (if !up && !halt && fd < 0 && m.socketMade then 1 else 0)
      && q.processed == s.processed
  {
  }

  /** Nobody tears the connection down or asks to stop, and `recv` answers bytes or has none for now. */
  predicate Healthy(m: Moment) {
    !m.closed && !m.lowered && !m.stop && (m.recv.Got? || m.recv == Failed(true))
  }

  /** The connection on socket `c` is up. */
  predicate Up(p: Protocol, s: Wire, c: int) {
    && s.status && s.sockfd == c == s.made && c > 0 && !s.stop
    && (s.phase.Top? || ((s.phase.Look? || s.phase.Ask?) && |s.held| < Target(p, s.held)))
  }

  /** Every header announces a message that holds it. */
  ghost predicate WellFormed(p: Protocol) {
    p.header > 0 && forall b: Bytes | |b| == p.header :: p.length(b) >= p.header
  }

  lemma UpStep(p: Protocol, s: Wire, m: Moment, c: int)
    requires WellFormed(p) && Up(p, s, c) && Healthy(m)
    ensures Up(p, NetStep(p, s, m), c)
  {
    if s.phase.Ask? {
      var t := Interfered(s, m);
      AskedCases(p, t, m.recv);
    }
  }

  lemma {:induction false} UpOn(p: Protocol, h: nat -> Wire, o: nat -> Moment, i: nat, k: nat, c: int)
    requires Plays(p, h, o) && WellFormed(p)
    requires Up(p, h(i), c)
    requires i <= k && forall j: nat | i <= j :: Healthy(o(j))
    ensures Up(p, h(k), c)
    decreases k
  {
    if i < k {
      var j := k - 1;
      UpOn(p, h, o, i, j, c);
      assert PlaysAt(p, h, o, j);
      UpStep(p, h(j), o(j), c);
    }
  }

  /** A connection that has been made and greeted stays up, on its socket, for as long as nobody tears it down
      and the controller keeps it open: however many messages come, the thread never connects again. */
  lemma StaysUp(p: Protocol, h: nat -> Wire, o: nat -> Moment, i: nat, k: nat)
    requires Plays(p, h, o) && WellFormed(p)
    requires var q := h(i); q.phase.Joining? && q.sockfd == q.made > 0 && !q.stop && o(i).greeted
    requires i < k && forall j: nat | i <= j :: Healthy(o(j))
    ensures Up(p, h(k), h(i).sockfd)
  {
    assert PlaysAt(p, h, o, i);
    UpOn(p, h, o, i + 1, k, h(i).sockfd);
  }

  /** The status is down, but the socket of the connection is still there. */
  predicate Stranded(s: Wire) {
    s.phase.Top? && !s.status && s.sockfd > 0 && !s.stop
  }

  predicate LeftAlone(m: Moment) {
    !m.closed && !m.stop && !m.late
  }

  lemma StrandedStep(p: Protocol, s: Wire, m: Moment)
    requires Stranded(s) && LeftAlone(m)
    ensures var q := NetStep(p, s, m);
      if m.connected then q.phase.Joining? else Stranded(q) && q.sockfd == s.sockfd && q.made == s.made
  {
  }

  lemma {:induction false} StrandedOn(p: Protocol, h: nat -> Wire, o: nat -> Moment, i: nat, k: nat)
    requires Plays(p, h, o)
    requires Stranded(h(i)) && i <= k
    requires forall j: nat | i <= j :: LeftAlone(o(j))
    requires forall j: nat | i <= j < k :: !o(j).connected
    ensures Stranded(h(k)) && h(k).sockfd == h(i).sockfd
    decreases k
  {
    if i < k {
      var j := k - 1;
      StrandedOn(p, h, o, i, j);
      assert PlaysAt(p, h, o, j);
      StrandedStep(p, h(j), o(j));
    }
  }

  lemma {:induction false} FirstConnected(o: nat -> Moment, i: nat, j: nat) returns (k: nat)
    requires i <= j && o(j).connected
    ensures i <= k <= j && o(k).connected && forall l: nat | i <= l < k :: !o(l).connected
    decreases j
  {
    if l: nat :| i <= l < j && o(l).connected {
      k := FirstConnected(o, i, l);
    } else {
      k := j;
    }
  }

  /** When the status is lowered while the socket stays, no new one is made: the thread leaves the head of
      its loop if and only if `connect` succeeds on the old one, unless somebody gives that up. */
  lemma StrandedExactly(p: Protocol, h: nat -> Wire, o: nat -> Moment, i: nat)
    requires Plays(p, h, o)
    requires Stranded(h(i))
    requires forall j: nat | i <= j :: LeftAlone(o(j))
    ensures (exists k: nat :: i <= k && !h(k).phase.Top?) <==> (exists j: nat :: i <= j && o(j).connected)
  {
    if j: nat :| i <= j && o(j).connected {
      var k := FirstConnected(o, i, j);
      StrandedOn(p, h, o, i, k);
      assert PlaysAt(p, h, o, k);
      StrandedStep(p, h(k), o(k));
      assert !h(k + 1).phase.Top?;
    } else {
      forall k: nat | i <= k ensures h(k).phase.Top? {
        StrandedOn(p, h, o, i, k);
      }
    }
  }

  /** It happens: another thread lowers the status of a connection that has come up, and `connect` fails on
      its socket. */
  lemma GetsStranded(p: Protocol, s: Wire, m: Moment)
    requires s.phase.Top? && s.status && s.sockfd > 0 && !s.stop && LeftAlone(m) && m.lowered && !m.connected
    ensures Stranded(NetStep(p, s, m)) && NetStep(p, s, m).sockfd == s.sockfd
  {
  }
}
