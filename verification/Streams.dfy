/** What the controller sent on each connection, and what of it the agent has received and processed. */
module Streams {
  import opened Framing
  import opened Receiver
  import opened Stalls

  /** The bytes a call of `net_recv` on an open socket answers are those that land in the buffer, up to what
      was still asked for. */
  lemma BytesArrive(p: Protocol, s: Wire, m: Moment)
    requires s.phase.Ask? && m.recv.Got? && Interfered(s, m).sockfd != -1 && |s.held| < Target(p, s.held)
    ensures var n := Target(p, s.held) - |s.held|;
      var b := if |m.recv.bytes| <= n then m.recv.bytes else m.recv.bytes[..n];
      NetStep(p, s, m).newest.received == s.newest.received + b
  {
  }

  /** What `recv` answers on socket `c` is the next piece of `sent(c)`, which the controller sent on it. */
  ghost predicate Brings(sent: nat -> Bytes, s: Wire, m: Moment) {
    s.phase.Ask? && Interfered(s, m).sockfd != -1 && m.recv.Got? ==>
      |s.newest.received| <= |sent(s.made)| && m.recv.bytes <= sent(s.made)[|s.newest.received|..]
  }

  /** Socket `c`: the newest is the last that was made. */
  function Socket(s: Wire, c: nat): Endpoint {
    if 1 <= c <= |s.older| then s.older[c - 1] else s.newest
  }

  ghost predicate Truthful(sent: nat -> Bytes, s: Wire) {
    && (s.made == 0 ==> s.older == [] && s.newest == Endpoint([], []))
    && (s.made > 0 ==> |s.older| == s.made - 1)
    && forall c: nat | 1 <= c <= s.made :: Socket(s, c).received <= sent(c)
  }

  lemma PieceFits(a: Bytes, b: Bytes, c: Bytes, n: nat)
    requires a <= c && b <= c[|a|..] && n <= |b|
    ensures a + b[..n] <= c
  {
    assert c == a + c[|a|..];
    assert c[|a|..] == b + c[|a|..][|b|..];
    assert b == b[..n] + b[n..];
  }

  lemma AdvancedKeeps(p: Protocol, s: Wire)
    ensures var q := Advanced(p, s);
      q.made == s.made && q.older == s.older && q.newest.received == s.newest.received
  {
  }

  /** What a call of `net_recv` leaves of the sockets. */
  lemma AskSockets(p: Protocol, s: Wire, m: Moment) returns (n: nat)
    requires s.phase.Ask? && |s.held| < Target(p, s.held)
    ensures var q, asks := NetStep(p, s, m), Interfered(s, m).sockfd != -1 && m.recv.Got?;
      && q.made == s.made && q.older == s.older
      && (!asks ==> q.newest == s.newest)
      && (asks ==> n <= |m.recv.bytes| && q.newest.received == s.newest.received + m.recv.bytes[..n])
  {
    var t, r := Interfered(s, m), m.recv;
    var size := Target(p, s.held) - |s.held|;
    AskedCases(p, t, r);
    n := 0;
    if t.sockfd != -1 && r.Got? {
      n := if |r.bytes| <= size then |r.bytes| else size;
      TakenIs(r.bytes, size);
      AdvancedKeeps(p, Received(t, Taken(r.bytes, size)));
    }
  }

  lemma AskTruthful(p: Protocol, sent: nat -> Bytes, s: Wire, m: Moment)
    requires Truthful(sent, s) && Brings(sent, s, m) && s.phase.Ask? && |s.held| < Target(p, s.held)
    requires Interfered(s, m).sockfd != -1 ==> s.made > 0
    ensures Truthful(sent, NetStep(p, s, m))
  {
    var q := NetStep(p, s, m);
    var n := AskSockets(p, s, m);
    if Interfered(s, m).sockfd != -1 && m.recv.Got? {
      assert Socket(s, s.made) == s.newest;
      PieceFits(s.newest.received, m.recv.bytes, sent(s.made), n);
      MoreReceived(sent, s, q);
    } else {
      SameSockets(sent, s, q);
    }
  }

  lemma MoreReceived(sent: nat -> Bytes, s: Wire, q: Wire)
    requires Truthful(sent, s) && 0 < q.made == s.made && q.older == s.older && q.newest.received <= sent(s.made)
    ensures Truthful(sent, q)
  {
    forall c: nat | 1 <= c <= q.made ensures Socket(q, c).received <= sent(c) {
      assert Socket(s, c).received <= sent(c);
    }
  }

  lemma SameSockets(sent: nat -> Bytes, s: Wire, q: Wire)
    requires Truthful(sent, s) && q.made == s.made && q.older == s.older && q.newest == s.newest
    ensures Truthful(sent, q)
  {
    forall c: nat | 1 <= c <= q.made ensures Socket(q, c).received <= sent(c) {
      assert Socket(s, c).received <= sent(c);
    }
  }

  lemma NewTruthful(sent: nat -> Bytes, s: Wire, q: Wire)
    requires Truthful(sent, s) && q.made == s.made + 1 && q.newest == Endpoint([], [])
    requires q.older == if s.made == 0 then [] else s.older + [s.newest]
    ensures Truthful(sent, q)
  {
    forall c: nat | 1 <= c <= q.made ensures Socket(q, c).received <= sent(c) {
      if c <= s.made {
        assert Socket(s, c).received <= sent(c);
      }
    }
  }

  /** No other step touches a socket, but for making one. */
  lemma OtherSockets(p: Protocol, s: Wire, m: Moment)
    requires !s.phase.Ask?
    ensures var q := NetStep(p, s, m);
      || (q.made == s.made && q.older == s.older && q.newest == s.newest)
      || (q.made == s.made + 1 && q.newest == Endpoint([], [])
          && q.older == if s.made == 0 then s.older else s.older + [s.newest])
  {
  }

  lemma TruthStep(p: Protocol, sent: nat -> Bytes, s: Wire, m: Moment)
    requires NetInv(p, s) && Truthful(sent, s) && Brings(sent, s, m)
    ensures Truthful(sent, NetStep(p, s, m))
  {
    var q := NetStep(p, s, m);
    if s.phase.Ask? {
      AskTruthful(p, sent, s, m);
    } else {
      OtherSockets(p, s, m);
      if q.made == s.made {
        SameSockets(sent, s, q);
      } else {
        NewTruthful(sent, s, q);
      }
    }
  }

  /** What every state of a history keeps. */
  ghost predicate Kept(p: Protocol, sent: nat -> Bytes, s: Wire) {
    NetInv(p, s) && Truthful(sent, s)
  }

  lemma KeptStep(p: Protocol, sent: nat -> Bytes, s: Wire, m: Moment)
    requires p.header > 0 && Kept(p, sent, s) && Brings(sent, s, m)
    ensures Kept(p, sent, NetStep(p, s, m))
  {
    TruthStep(p, sent, s, m);
    StepInv(p, s, m);
  }

  /** In the first `k` moments `recv` answers the truth. */
  ghost predicate BringsUntil(sent: nat -> Bytes, h: nat -> Wire, o: nat -> Moment, k: nat) {
    forall j: nat | j < k :: Brings(sent, h(j), o(j))
  }

  lemma {:induction false} KeptOn(p: Protocol, sent: nat -> Bytes, h: nat -> Wire, o: nat -> Moment, k: nat)
    requires p.header > 0 && Plays(p, h, o) && Kept(p, sent, h(0)) && BringsUntil(sent, h, o, k)
    ensures Kept(p, sent, h(k))
    decreases k
  {
    if k > 0 {
      var j := k - 1;
      KeptOn(p, sent, h, o, j);
      assert PlaysAt(p, h, o, j) && Brings(sent, h(j), o(j));
      KeptStep(p, sent, h(j), o(j));
    }
  }

  lemma SocketSound(p: Protocol, sent: nat -> Bytes, s: Wire, c: nat)
    requires Kept(p, sent, s) && 1 <= c <= s.made
    ensures var e := Socket(s, c); e.received <= sent(c) && e.messages == Frames(p, e.received)
  {
    assert Sound(p, Socket(s, c));
  }

  lemma FreshKept(p: Protocol, sent: nat -> Bytes, s: Wire)
    requires s == Fresh()
    ensures Kept(p, sent, s)
  {
    FreshInv(p, s);
  }

  /** If the controller sends `sent(c)` on connection `c`, and `recv` brings it piece by piece, cut in
      whatever way and given up at whatever moment, then of each connection the agent has received a part from
      the beginning on, and has processed the first of the messages it falls into; all of them once all of it
      has arrived. */
  lemma ChunksDoNotMatter(p: Protocol, sent: nat -> Bytes, h: nat -> Wire, o: nat -> Moment, k: nat, c: nat)
    requires p.header > 0 && Plays(p, h, o) && h(0) == Fresh() && BringsUntil(sent, h, o, k)
    requires 1 <= c <= h(k).made
    ensures var e := Socket(h(k), c);
      && e.received <= sent(c) && e.messages <= Frames(p, sent(c))
      && (e.received == sent(c) ==> e.messages == Frames(p, sent(c)))
  {
    FreshKept(p, sent, h(0));
    KeptOn(p, sent, h, o, k);
    SocketSound(p, sent, h(k), c);
    FramesMonotone(p, Socket(h(k), c).received, sent(c));
  }
}
