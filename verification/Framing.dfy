/** How a byte stream falls into messages, for agent/net.c. */
module Framing {

  type Bytes = seq<bv8>

  /** The receive buffer, and the longest message `sched_send_msg` takes. */
  const EM_BUF_SIZE := 4096

  /** What the agent uses of the protocol library: `EP_HEADER_SIZE`, and `epp_msg_length` of a header. */
  datatype Protocol = Protocol(header: nat, length: Bytes -> int)

  /** Headers and the messages they announce fit the receive buffer. */
  ghost predicate Fits(p: Protocol) {
    0 < p.header <= EM_BUF_SIZE && forall h: Bytes | |h| == p.header :: p.length(h) <= EM_BUF_SIZE
  }

  /** A whole message: as long as its own header says. */
  predicate Framed(p: Protocol, m: Bytes) {
    0 < p.header <= |m| && p.length(m[..p.header]) == |m|
  }

  /** The messages at the front of a stream, up to the first incomplete or malformed one. */
  function Frames(p: Protocol, s: Bytes): (ms: seq<Bytes>)
    ensures forall m | m in ms :: Framed(p, m)
    ensures Flat(ms) <= s
    decreases |s|
  {
    if p.header == 0 || |s| < p.header then []
    else
      var n := p.length(s[..p.header]);
      if n < p.header || |s| < n then []
      else
        assert s == s[..n] + s[n..] && s[..n][..p.header] == s[..p.header];
        [s[..n]] + Frames(p, s[n..])
  }

  /** Less than a header, or less than the header announces, is no message yet. */
  lemma IncompleteFrame(p: Protocol, s: Bytes)
    requires p.header <= |s| ==>
      0 < p.header && (p.length(s[..p.header]) < p.header || |s| < p.length(s[..p.header]))
    ensures Frames(p, s) == []
  {
  }

  function Flat(ms: seq<Bytes>): Bytes {
    if ms == [] then [] else ms[0] + Flat(ms[1..])
  }

  lemma {:induction false} FlatAdd(a: seq<Bytes>, m: Bytes)
    ensures Flat(a + [m]) == Flat(a) + m
  {
    if a == [] {
      assert [m][1..] == [] && m + [] == m;
    } else {
      FlatAdd(a[1..], m);
      assert (a + [m])[1..] == a[1..] + [m];
    }
  }

  /** Whole messages followed by less than one are framed back into those messages. */
  lemma {:induction false} FramesOfFlat(p: Protocol, ms: seq<Bytes>, rest: Bytes)
    requires forall m | m in ms :: Framed(p, m)
    requires Frames(p, rest) == []
    ensures Frames(p, Flat(ms) + rest) == ms
  {
    if ms == [] {
      assert Flat(ms) + rest == rest;
    } else {
      assert Framed(p, ms[0]);
      var s := Flat(ms) + rest;
      var n := |ms[0]|;
      assert s == ms[0] + (Flat(ms[1..]) + rest);
      assert s[..n] == ms[0] && s[n..] == Flat(ms[1..]) + rest;
      assert s[..p.header] == ms[0][..p.header];
      FramesOfFlat(p, ms[1..], rest);
      assert Frames(p, s) == [ms[0]] + Frames(p, s[n..]);
    }
  }

  /** More bytes never change the messages already framed: those of a prefix are a prefix of those
      of the whole. */
  lemma {:induction false} FramesMonotone(p: Protocol, s: Bytes, t: Bytes)
    requires s <= t
    ensures Frames(p, s) <= Frames(p, t)
    decreases |s|
  {
    if p.header > 0 && |s| >= p.header {
      var n := p.length(s[..p.header]);
      assert s[..p.header] == t[..p.header];
      if p.header <= n <= |s| {
        assert s[..n] == t[..n] && s[n..] <= t[n..];
        FramesMonotone(p, s[n..], t[n..]);
      }
    }
  }
}
