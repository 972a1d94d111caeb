/** The network context of agent/net.c in place, and its loop: the buffer fills, the fields change, and
    every step is the step of the receiver. */
module NetLoop {
  import opened Framing
  import opened Receiver
  import opened Stalls

  /** What became of an attempt to fill the buffer. */
  datatype Fill = Full | Lost | Stopped | Unfinished

  /** A step that finds the thread in an inner loop. */
  lemma InnerStep(p: Protocol, s: Wire, m: Moment)
    ensures Interfered(s, m).held == s.held && Interfered(s, m).phase == s.phase
    ensures s.phase.Look? ==>
      NetStep(p, s, m) == Interfered(s, m).(phase := if Interfered(s, m).stop then Halted else Ask)
    ensures s.phase.Ask? ==> NetStep(p, s, m) == Asked(p, Interfered(s, m), m.recv)
  {
  }

  lemma RunNext(p: Protocol, s: Wire, o: nat -> Moment, k: nat)
    ensures NetRun(p, s, o, k + 1) == NetStep(p, NetRun(p, s, o, k), o(k))
  {
  }

  /** Bytes that follow do not change what has to be collected, until it is. */
  lemma TargetStays(p: Protocol, a: Bytes, b: Bytes, target: int)
    requires a <= b && |b| < target == Target(p, a)
    ensures target == Target(p, b)
  {
    if |a| >= p.header {
      assert a[..p.header] == b[..p.header];
    }
  }

  /** A call of `net_recv` that brings bytes. */
  lemma HandleGot(p: Protocol, s: Wire, r: Recv, op: int, q: Wire)
    requires |s.held| < Target(p, s.held) && s.sockfd != -1 && r.Got?
    requires var b := Taken(r.bytes, Target(p, s.held) - |s.held|); op == |b| && q == Received(s, b)
    ensures Asked(p, s, r) == Advanced(p, q) && |q.held| == |s.held| + op <= Target(p, s.held) && s.held <= q.held
  {
    AskedCases(p, s, r);
  }

  /** One that brings none. */
  lemma HandleNone(p: Protocol, s: Wire, r: Recv)
    requires |s.held| < Target(p, s.held) && (s.sockfd == -1 || !r.Got?)
    ensures var t := s.(again := Errno(s, r));
      && Asked(p, s, r) == (if t.again then t.(phase := Look) else HungUp(t).(phase := Top))
      && Advanced(p, t.(phase := Look)) == t.(phase := Look)
  {
    AskedCases(p, s, r);
  }

  lemma PrefixTrans(a: Bytes, b: Bytes, c: Bytes)
    requires a <= b <= c
    ensures a <= c
  {
  }

  class NetCtx {
    const protocol: Protocol
    /** -1 for none. Sockets are numbered from 1 in the order they are made. */
    var sockfd: int
    /** `errno` reads `EAGAIN`. */
    var again: bool
    var stop: bool
    var status: bool
    var nextSeq: nat
    const buf: array<bv8>
    /** How many sockets were made so far. */
    var made: nat
    /** The calls of `net_process_message` so far. */
    var processed: seq<Bytes>
    ghost var view: Wire

    /** The fields and the buffer are those of the receiver. */
    ghost predicate Agrees()
      reads this, buf
    {
      && Fits(protocol) && buf.Length == EM_BUF_SIZE
      && sockfd == view.sockfd && again == view.again && stop == view.stop && status == view.status
      && made == view.made && processed == view.processed
      && |view.held| <= buf.Length && forall i | 0 <= i < |view.held| :: buf[i] == view.held[i]
    }

    /** As `em_start` and `net_start` prepare it. */
    constructor (p: Protocol)
      requires Fits(p)
      ensures Agrees() && fresh(buf) && protocol == p && view == Fresh() && nextSeq == 0
    {
      protocol := p;
      sockfd, again, stop, status, nextSeq, made, processed := -1, false, false, false, 0, 0, [];
      buf := new bv8[EM_BUF_SIZE];
      view := Fresh();
    }

    /** `net_next_seq`: the counter is a 32-bit one. */
    method NextSeq() returns (r: nat)
      modifies `nextSeq
      ensures r == old(nextSeq) && nextSeq == (old(nextSeq) + 1) % 0x1_0000_0000
    {
      r := nextSeq;
      nextSeq := (nextSeq + 1) % 0x1_0000_0000;
    }

    /** `net_not_connected`. */
    method NotConnected()
      requires Agrees()
      modifies `sockfd, `status, `nextSeq, `view
      ensures Agrees() && view == HungUp(old(view)) && !status && nextSeq == 0
    {
      if sockfd > 0 {
        sockfd := -1;
      }
      status := false;
      nextSeq := 0;
      view := HungUp(view);
    }

    /** The last assignment of `net_connected`. */
    method MarkUp()
      requires Agrees()
      modifies `status, `view
      ensures Agrees() && status && view == old(view).(status := true)
    {
      status := true;
      view := view.(status := true);
    }

    /** Other threads take their turn. */
    method Observe(m: Moment)
      requires Agrees()
      modifies `sockfd, `status, `nextSeq, `stop, `view
      ensures Agrees() && view == Interfered(old(view), m)
    {
      if m.closed && sockfd > 0 {
        sockfd := -1;
      }
      if m.lowered {
        status := false;
        nextSeq := 0;
      }
      if m.stop {
        stop := true;
      }
      view := Interfered(view, m);
    }

    /** `net_connect_to_controller`. */
    method ConnectToController(m: Moment) returns (ok: bool)
      requires Agrees()
      modifies `sockfd, `again, `stop, `made, `view
      ensures Agrees() && view == Joined(old(view), m) && ok == view.phase.Joining?
    {
      var there := sockfd >= 0 || m.socketMade;
      if sockfd < 0 && there {
        OpenSocket();
      }
      if there && m.late {
        stop := true;
      }
      ok := there && !stop && m.connected;
      again := m.left;
      view := view.(again := again, stop := stop, phase := if ok then Joining else Top);
    }

    method OpenSocket()
      requires Agrees()
      modifies `sockfd, `made, `view
      ensures Agrees() && view == NewSocket(old(view))
    {
      made := made + 1;
      sockfd := made;
      view := NewSocket(view);
    }

    /** `recv` putting `n` bytes into the buffer at `bread`. */
    method Fetch(bytes: Bytes, bread: nat, n: nat)
      requires n <= |bytes| && bread + n <= buf.Length
      modifies buf
      ensures forall j | 0 <= j < bread :: buf[j] == old(buf[j])
      ensures forall j | 0 <= j < n :: buf[bread + j] == bytes[j]
    {
      for i := 0 to n
        invariant forall j | 0 <= j < bread :: buf[j] == old(buf[j])
        invariant forall j | 0 <= j < i :: buf[bread + j] == bytes[j]
      {
        buf[bread + i] := bytes[i];
      }
    }

    /** `net_recv` of up to `size` bytes into the buffer from `bread` on. */
    method Receive(r: Recv, bread: nat, size: nat) returns (op: int)
      requires Agrees() && bread == |view.held| && 0 < size && bread + size <= buf.Length
      modifies buf, `again, `view
      ensures Agrees()
      ensures op > 0 <==> sockfd != -1 && r.Got?
      ensures op > 0 ==> op == (if |r.bytes| <= size then |r.bytes| else size)
      ensures op > 0 ==>
        Taken(r.bytes, size) == r.bytes[..op] && view == Received(old(view), Taken(r.bytes, size))
      ensures op <= 0 ==> view == old(view).(again := Errno(old(view), r))
    {
      if sockfd == -1 || r.Failed? {
        again := if sockfd == -1 then false else r.again;
        view := view.(again := again);
        return -1;
      }
      if r.End? {
        return 0;
      }
      TakenIs(r.bytes, size);
      op := Store(r.bytes, bread, size);
    }

    /** What `recv` stores of the bytes that have come. */
    method Store(bytes: Chunk, bread: nat, size: nat) returns (n: nat)
      requires Agrees() && bread == |view.held| && 0 < size && bread + size <= buf.Length
      modifies buf, `view
      ensures Agrees() && 0 < n == if |bytes| <= size then |bytes| else size
      ensures view == Received(old(view), bytes[..n]) && forall j | 0 <= j < n :: buf[bread + j] == bytes[j]
    {
      n := if |bytes| <= size then |bytes| else size;
      Fetch(bytes, bread, n);
      view := Received(view, bytes[..n]);
      assert forall i | bread <= i < bread + n :: view.held[i] == bytes[i - bread] == buf[bread + (i - bread)];
    }

    /** One call of `net_recv` in an inner loop, and its handling, up to the processing of what may now
        be complete. */
    method Handle(m: Recv, bread: nat, target: nat) returns (r: Fill, b: nat)
      requires Agrees() && bread == |view.held| < target <= buf.Length && target == Target(protocol, view.held)
      modifies `sockfd, `again, `status, `nextSeq, `view, buf
      ensures Agrees() && (r == Full || r == Lost)
      ensures r == Lost ==> view == Asked(protocol, old(view), m) && view.phase.Top?
      ensures r == Full ==> Asked(protocol, old(view), m) == Advanced(protocol, view)
      ensures r == Full ==> b == |view.held| <= target && old(view.held) <= view.held
    {
      ghost var s := view;
      var op := Receive(m, bread, target - bread);
      if op > 0 {
        HandleGot(protocol, s, m, op, view);
        return Full, bread + op;
      }
      HandleNone(protocol, s, m);
      if again {
        view := view.(phase := Look);
        return Full, bread;
      }
      Lose();
      return Lost, bread;
    }

    /** The connection is given up, and the loop goes back to its head. */
    method Lose()
      requires Agrees()
      modifies `sockfd, `status, `nextSeq, `view
      ensures Agrees() && view == HungUp(old(view)).(phase := Top)
    {
      NotConnected();
      view := view.(phase := Top);
    }

    /** The state reached from `s` after `k` moments, once what is complete is processed. */
    ghost predicate Reached(s: Wire, o: nat -> Moment, k: nat)
      reads this
    {
      NetRun(protocol, s, o, k) == Advanced(protocol, view)
    }

    /** The first half of a turn of an inner loop: the test of `stop`. */
    method LookTurn(o: nat -> Moment, k: nat, ghost s: Wire)
      requires Agrees() && view.phase.Look? && view == NetRun(protocol, s, o, k)
      modifies `sockfd, `status, `nextSeq, `stop, `view
      ensures Agrees() && view.held == old(view.held) && view.phase == (if stop then Halted else Ask)
      ensures view == NetRun(protocol, s, o, k + 1)
    {
      InnerStep(protocol, view, o(k));
      RunNext(protocol, s, o, k);
      Observe(o(k));
      view := view.(phase := if stop then Halted else Ask);
    }

    /** The second half: a call of `net_recv`. */
    method AskTurn(o: nat -> Moment, start: nat, limit: nat, bread: nat, target: nat, ghost s: Wire)
      returns (r: Fill, k: nat, b: nat)
      requires Agrees() && bread == |view.held| < target <= buf.Length && start <= limit
      requires target == Target(protocol, view.held) && view.phase.Ask? && view == NetRun(protocol, s, o, start)
      modifies `sockfd, `again, `status, `nextSeq, `stop, `processed, `view, buf
      ensures Agrees() && start <= k <= limit && r != Stopped
      ensures r == Full ==> Reached(s, o, k) && start < k && b == |view.held| <= target && old(view.held) <= view.held
      ensures r != Full ==> view == NetRun(protocol, s, o, k)
      ensures r == Lost ==> view.phase.Top? && start < k
      ensures r == Unfinished ==> k == limit
    {
      if start == limit {
        return Unfinished, start, bread;
      }
      InnerStep(protocol, view, o(start));
      RunNext(protocol, s, o, start);
      Observe(o(start));
      k := start + 1;
      r, b := Handle(o(start).recv, bread, target);
    }

    /** A turn of an inner loop. */
    method Turn(o: nat -> Moment, start: nat, limit: nat, bread: nat, target: nat, ghost s: Wire)
      returns (r: Fill, k: nat, b: nat)
      requires Agrees() && bread == |view.held| < target <= buf.Length && start < limit
      requires target == Target(protocol, view.held) && view.phase.Look? && view == NetRun(protocol, s, o, start)
      modifies `sockfd, `again, `status, `nextSeq, `stop, `processed, `view, buf
      ensures Agrees() && start < k <= limit
      ensures r == Full ==> Reached(s, o, k) && b == |view.held| <= target && old(view.held) <= view.held
      ensures r != Full ==> view == NetRun(protocol, s, o, k)
      ensures r == Lost ==> view.phase.Top?
      ensures r == Stopped ==> view.phase.Halted?
      ensures r == Unfinished ==> k == limit
    {
      LookTurn(o, start, s);
      if stop {
        return Stopped, start + 1, bread;
      }
      r, k, b := AskTurn(o, start + 1, limit, bread, target, s);
    }

    /** Either inner loop of `net_loop`: collect bytes until the buffer holds `target` of them. The
        k-th and following moments happen meanwhile; after `limit` of them we stop looking. */
    method Collect(o: nat -> Moment, start: nat, limit: nat, from: nat, target: nat, ghost s: Wire)
      returns (r: Fill, k: nat)
      requires Agrees() && from == |view.held| <= target <= buf.Length && start <= limit
      requires from < target ==> target == Target(protocol, view.held)
      requires Reached(s, o, start)
      modifies `sockfd, `again, `status, `nextSeq, `stop, `processed, `view, buf
      ensures Agrees() && start <= k <= limit
      ensures r == Full ==> Reached(s, o, k) && |view.held| == target && old(view.held) <= view.held
      ensures r == Full && from < target ==> start < k
      ensures r != Full ==> view == NetRun(protocol, s, o, k)
      ensures r == Lost ==> view.phase.Top? && start < k
      ensures r == Stopped ==> view.phase.Halted?
      ensures r == Unfinished ==> k == limit
    {
      r, k := Full, start;
      var bread := from;
      while bread < target
        invariant Agrees() && bread == |view.held| <= target && start <= k <= limit
        invariant (from < bread ==> start < k) && old(view.held) <= view.held
        invariant bread < target ==> target == Target(protocol, view.held)
        invariant Reached(s, o, k)
        decreases limit - k
      {
        ghost var held := view.held;
        view := view.(phase := Look);
        if k == limit {
          return Unfinished, k;
        }
        r, k, bread := Turn(o, k, limit, bread, target, s);
        if r != Full {
          return;
        }
        PrefixTrans(old(view.held), held, view.held);
        if bread < target {
          TargetStays(protocol, held, view.held, target);
        }
      }
      r := Full;
    }

    /** The head of `net_loop`: the test of `status`, and when it is down that of `stop` and
        `net_connect_to_controller`. */
    method TopTurn(o: nat -> Moment, k: nat, ghost s: Wire) returns (halt: bool, up: bool, joined: bool)
      requires Agrees() && view.phase.Top? && view == NetRun(protocol, s, o, k)
      modifies `sockfd, `again, `status, `nextSeq, `stop, `made, `view
      ensures Agrees() && view == NetRun(protocol, s, o, k + 1)
      ensures halt <==> view.phase.Halted?
      ensures up <==> view.phase.Look?
      ensures joined <==> view.phase.Joining?
      ensures !view.phase.Ask?
      ensures up ==> view.held == []
    {
      var m := o(k);
      RunNext(protocol, s, o, k);
      Observe(m);
      halt, up, joined := false, status, false;
      if status {
        view := view.(phase := Look, held := []);
        return;
      }
      if stop {
        view := view.(phase := Halted);
        return true, false, false;
      }
      joined := ConnectToController(m);
    }

    /** `net_connected`, for which `greeted` says that its Hello task was accepted, and what follows. */
    method JoinTurn(o: nat -> Moment, k: nat, ghost s: Wire) returns (up: bool)
      requires Agrees() && view.phase.Joining? && view == NetRun(protocol, s, o, k)
      modifies `sockfd, `status, `nextSeq, `stop, `view
      ensures Agrees() && view == NetRun(protocol, s, o, k + 1)
      ensures if up then view.phase.Look? && view.held == [] else view.phase.Top?
    {
      var m := o(k);
      RunNext(protocol, s, o, k);
      Observe(m);
      up := m.greeted;
      if up {
        MarkUp();
        view := view.(phase := Look, held := []);
      } else {
        NotConnected();
        view := view.(phase := Top);
      }
    }

    /** What follows the inner loops: a malformed length ends the connection, a whole message goes to
        `net_process_message`. */
    method Process(mlen: int)
      requires Agrees() && protocol.header <= |view.held| && mlen == protocol.length(view.held[..protocol.header])
      requires mlen < protocol.header || mlen == |view.held|
      modifies `sockfd, `status, `nextSeq, `processed, `view
      ensures Agrees() && view == Advanced(protocol, old(view)) && view.phase.Top?
    {
      ghost var next := Advanced(protocol, view);
      if mlen < protocol.header {
        NotConnected();
      } else {
        processed := processed + [buf[..mlen]];
        assert buf[..mlen] == view.held;
      }
      view := next;
    }

    /** The rest of a turn of `net_loop`: a header, the message it announces, and its processing. */
    method OneMessage(o: nat -> Moment, start: nat, limit: nat, ghost s: Wire) returns (halt: bool, k: nat)
      requires Agrees() && view.phase.Look? && view.held == [] && view == NetRun(protocol, s, o, start)
        && start <= limit
      modifies `sockfd, `again, `status, `nextSeq, `stop, `processed, `view, buf
      ensures Agrees() && view == NetRun(protocol, s, o, k) && start <= k <= limit
      ensures if halt then k == limit || view.phase.Halted? else view.phase.Top? && start < k
    {
      var r;
      assert Advanced(protocol, view) == view;
      r, k := Collect(o, start, limit, 0, protocol.header, s);
      if r != Full {
        return r != Lost, k;
      }
      assert buf[..protocol.header] == view.held;
      var mlen := protocol.length(buf[..protocol.header]);
      if mlen > protocol.header {
        halt, k := Body(o, k, limit, mlen, s);
      } else {
        assert view.held[..protocol.header] == view.held;
        Process(mlen);
        halt := false;
      }
    }

    /** The second inner loop, for a message longer than its header. */
    method Body(o: nat -> Moment, start: nat, limit: nat, mlen: nat, ghost s: Wire) returns (halt: bool, k: nat)
      requires Agrees() && |view.held| == protocol.header < mlen == protocol.length(view.held) && start <= limit
      requires Reached(s, o, start)
      modifies `sockfd, `again, `status, `nextSeq, `stop, `processed, `view, buf
      ensures Agrees() && view == NetRun(protocol, s, o, k) && start <= k <= limit
      ensures if halt then k == limit || view.phase.Halted? else view.phase.Top? && start < k
    {
      var r;
      ghost var head := view.held;
      assert head[..protocol.header] == head;
      r, k := Collect(o, start, limit, protocol.header, mlen, s);
      if r != Full {
        return r != Lost, k;
      }
      assert view.held[..protocol.header] == head;
      Process(mlen);
      halt := false;
    }

    /** The head of a turn of `net_loop`, up to an established connection. */
    method ComeUp(o: nat -> Moment, start: nat, limit: nat, ghost s: Wire) returns (halt: bool, up: bool, k: nat)
      requires Agrees() && view.phase.Top? && view == NetRun(protocol, s, o, start) && start < limit
      modifies `sockfd, `again, `status, `nextSeq, `stop, `made, `view
      ensures Agrees() && view == NetRun(protocol, s, o, k) && start < k <= limit
      ensures halt ==> k == limit || view.phase.Halted?
      ensures !halt && up ==> view.phase.Look? && view.held == []
      ensures !halt && !up ==> view.phase.Top?
    {
      var joined;
      halt, up, joined := TopTurn(o, start, s);
      if !joined {
        return halt, up, start + 1;
      }
      if start + 1 == limit {
        return true, false, limit;
      }
      up := JoinTurn(o, start + 1, s);
      return false, up, start + 2;
    }

    /** The turns of `net_loop`. */
    method Rounds(o: nat -> Moment, limit: nat) returns (k: nat)
      requires Agrees() && view.phase.Top?
      modifies this, buf
      ensures Agrees() && k <= limit && view == NetRun(protocol, old(view), o, k)
      ensures k == limit || view.phase.Halted?
    {
      k := 0;
      ghost var s := view;
      while k < limit
        invariant Agrees() && k <= limit && view == NetRun(protocol, s, o, k) && view.phase.Top?
        decreases limit - k
      {
        var halt, up;
        halt, up, k := ComeUp(o, k, limit, s);
        if !halt && up {
          halt, k := OneMessage(o, k, limit, s);
        }
        if halt {
          return;
        }
      }
    }

    /** `net_loop`, watched for `limit` looks at the world: what it then holds is what the receiver holds
        after as many steps, or after stopping for good; and it has stopped for good if it was told to
        three looks before the last, or earlier. */
    method Loop(o: nat -> Moment, limit: nat) returns (k: nat)
      requires Agrees() && view.phase.Top?
      modifies this, buf
      ensures Agrees() && k <= limit && view == NetRun(protocol, old(view), o, k)
      ensures k == limit || view.phase.Halted?
      ensures StoppedBy(NetHistory(protocol, old(view), o), limit) ==> view.phase.Halted?
    {
      ghost var h := NetHistory(protocol, view, o);
      StoppedHalts(protocol, view, o, limit);
      k := Rounds(o, limit);
      assert h(k) == view;
    }
  }
}
