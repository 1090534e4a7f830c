/** Message framing over a byte stream: the Rust frames with type, request id and length, and
    the Python requests with a length prefix and a cast marker. */
module Framing {
  import opened Base

  type Byte = x: int | 0 <= x < 256
  type Bytes = seq<Byte>

  // ----- big-endian numbers of fixed width

  function Pow256(k: nat): (p: nat)
    ensures p > 0
  {
    if k == 0 then 1 else 256 * Pow256(k - 1)
  }

  /** The low |k| bytes of a number, as a fixed-width write leaves them. */
  function BigEndian(n: nat, k: nat): (bs: Bytes)
    ensures |bs| == k
  {
    if k == 0 then [] else BigEndian(n / 256, k - 1) + [n % 256]
  }

  function Value(bs: Bytes): nat {
    if bs == [] then 0 else 256 * Value(bs[..|bs| - 1]) + bs[|bs| - 1]
  }

  lemma {:induction false} ValueBound(bs: Bytes)
    ensures Value(bs) < Pow256(|bs|)
  {
    if bs != [] {
      ValueBound(bs[..|bs| - 1]);
    }
  }

  /** Reading back a number written with fixed width yields it exactly when it fits. */
  lemma {:induction false} ValueOfBigEndian(n: nat, k: nat)
    ensures Value(BigEndian(n, k)) == n <==> n < Pow256(k)
    decreases k
  {
    ValueBound(BigEndian(n, k));
    if k > 0 {
      assert BigEndian(n, k)[..k - 1] == BigEndian(n / 256, k - 1);
      ValueOfBigEndian(n / 256, k - 1);
    }
  }

  lemma QuotientIs(n: nat, d: nat, q: nat)
    requires d > 0 && d * q <= n < d * q + d
    ensures n / d == q
  {
    var e := n / d - q;
    assert d * e == n - n % d - d * q;
    if e >= 1 {
      Scaled(d, e);
    } else if e <= -1 {
      Scaled(d, -e);
    }
  }

  lemma Scaled(d: nat, e: int)
    requires e >= 1
    ensures d * e >= d
  {
  }

  lemma DivideTwice(n: nat, m: nat)
    requires m > 0
    ensures (n / 256) / m == n / (256 * m)
  {
    var h := n / 256;
    var q := h / m;
    assert m * q <= h < m * q + m;
    assert (256 * m) * q == 256 * (m * q);
    QuotientIs(n, 256 * m, q);
  }

  /** The most significant byte comes first. */
  lemma {:induction false} ByteAt(n: nat, k: nat, i: nat)
    requires i < k
    ensures BigEndian(n, k)[i] == (n / Pow256(k - 1 - i)) % 256
    decreases k
  {
    if i < k - 1 {
      ByteAt(n / 256, k - 1, i);
      DivideTwice(n, Pow256(k - 2 - i));
    }
  }

  /** The bytes of |n|, the most significant first. */
  predicate IsNumber(bs: Bytes, n: nat) {
    forall i :: 0 <= i < |bs| ==> bs[i] == (n / Pow256(|bs| - 1 - i)) % 256
  }

  lemma BigEndianIsNumber(n: nat, k: nat)
    ensures IsNumber(BigEndian(n, k), n)
  {
    hide BigEndian, Pow256;
    forall i | 0 <= i < k
      ensures BigEndian(n, k)[i] == (n / Pow256(k - 1 - i)) % 256
    {
      ByteAt(n, k, i);
    }
  }

  // ----- Rust frames

  datatype Frame = Frame(kind: Byte, id: nat, payload: Bytes)

  const HEADER := 13

  function WriteFrame(f: Frame): Bytes {
    [f.kind] + BigEndian(f.id, 8) + BigEndian(|f.payload|, 4) + f.payload
  }

  /** The frame at the front of a stream and what follows it; none if the stream ends first. */
  function ReadFrame(s: Bytes): Option<(Frame, Bytes)> {
    if |s| < HEADER then None
    else
      var len := Value(s[9..13]);
      if |s| < HEADER + len then None
      else Some((Frame(s[0], Value(s[1..9]), s[13..13 + len]), s[13 + len..]))
  }

  /** Frames read until the stream ends, and the bytes of the unfinished one. */
  function ReadAll(s: Bytes): (seq<Frame>, Bytes)
    decreases |s|
  {
    match ReadFrame(s)
    case None => ([], s)
    case Some((f, rest)) =>
      var (fs, left) := ReadAll(rest);
      ([f] + fs, left)
  }

  function WriteAll(fs: seq<Frame>): Bytes {
    if fs == [] then [] else WriteFrame(fs[0]) + WriteAll(fs[1..])
  }

  predicate Fits(f: Frame) { f.id < Pow256(8) && |f.payload| < Pow256(4) }

  lemma Layout(f: Frame, tail: Bytes)
    ensures var s := WriteFrame(f) + tail;
            && |s| == HEADER + |f.payload| + |tail| && s[0] == f.kind
            && s[1..9] == BigEndian(f.id, 8) && s[9..13] == BigEndian(|f.payload|, 4)
            && s[13..] == f.payload + tail
  {
  }

  /** On the wire: type byte, id in eight bytes, length in four, payload. */
  lemma FrameLayout(f: Frame)
    ensures var s := WriteFrame(f);
            && |s| == 13 + |f.payload| && s[0] == f.kind && IsNumber(s[1..9], f.id)
            && IsNumber(s[9..13], |f.payload|) && s[13..] == f.payload
  {
    hide BigEndian, IsNumber;
    Layout(f, []);
    assert WriteFrame(f) + [] == WriteFrame(f);
    BigEndianIsNumber(f.id, 8);
    BigEndianIsNumber(|f.payload|, 4);
  }

  /** A frame survives the stream exactly when its id fits 64 bits and its length 32 bits; the
      length is truncated silently when writing. */
  lemma FrameSurvives(f: Frame, tail: Bytes)
    ensures ReadFrame(WriteFrame(f) + tail) == Some((f, tail)) <==> Fits(f)
  {
    hide WriteFrame, Pow256, BigEndian, Value;
    var s := WriteFrame(f) + tail;
    Layout(f, tail);
    ValueOfBigEndian(f.id, 8);
    ValueOfBigEndian(|f.payload|, 4);
    if Fits(f) {
      assert s[13..13 + |f.payload|] == s[13..][..|f.payload|] == f.payload;
      assert s[13 + |f.payload|..] == s[13..][|f.payload|..] == tail;
    } else if ReadFrame(s).Some? {
      assert |ReadFrame(s).value.0.payload| == Value(s[9..13]);
      assert ReadFrame(s).value.0.id == Value(s[1..9]);
    }
  }

  /** Any sequence of fitting frames is read back exactly. */
  lemma {:induction false} StreamSurvives(fs: seq<Frame>)
    requires forall f :: f in fs ==> Fits(f)
    ensures ReadAll(WriteAll(fs)) == (fs, [])
  {
    hide WriteFrame, ReadFrame, Fits;
    if fs == [] {
      EmptyStream();
    } else {
      FrameSurvives(fs[0], WriteAll(fs[1..]));
      StreamSurvives(fs[1..]);
      assert [fs[0]] + fs[1..] == fs;
    }
  }

  lemma EmptyStream()
    ensures ReadFrame([]) == None
  {
  }

  lemma CutFrame(f: Frame, n: nat)
    requires Fits(f) && n < |WriteFrame(f)|
    ensures ReadFrame(WriteFrame(f)[..n]) == None
  {
    hide Pow256, BigEndian, Value;
    var s := WriteFrame(f);
    Layout(f, []);
    assert s + [] == s;
    ValueOfBigEndian(|f.payload|, 4);
    if n >= HEADER {
      assert s[..n][9..13] == s[9..13];
    }
  }

  /** However much of the stream has arrived, what has been read is a prefix of what was written. */
  lemma {:induction false} PartialStream(fs: seq<Frame>, n: nat)
    requires (forall f :: f in fs ==> Fits(f)) && n <= |WriteAll(fs)|
    ensures ReadAll(WriteAll(fs)[..n]).0 <= fs
    decreases fs
  {
    hide WriteFrame, ReadFrame, Fits;
    var s := WriteAll(fs)[..n];
    if fs == [] {
      EmptyStream();
      assert s == [];
    } else if n < |WriteFrame(fs[0])| {
      assert s == WriteFrame(fs[0])[..n];
      CutFrame(fs[0], n);
    } else {
      var k := n - |WriteFrame(fs[0])|;
      assert s == WriteFrame(fs[0]) + WriteAll(fs[1..])[..k];
      FrameSurvives(fs[0], WriteAll(fs[1..])[..k]);
      PartialStream(fs[1..], k);
    }
  }

  /** One direction of a connection, written at one end and read at the other. */
  class ByteStream {
    var sent: Bytes
    var pos: nat

    predicate Valid()
      reads this
    {
      pos <= |sent|
    }

    function Unread(): Bytes
      reads this
      requires Valid()
    {
      sent[pos..]
    }

    constructor ()
      ensures Valid() && sent == [] && pos == 0
    {
      sent, pos := [], 0;
    }

    method Write(f: Frame)
      requires Valid()
      modifies this`sent
      ensures Valid() && sent == old(sent) + WriteFrame(f)
    {
      sent := sent + [f.kind];
      sent := sent + BigEndian(f.id, 8);
      sent := sent + BigEndian(|f.payload|, 4);
      sent := sent + f.payload;
    }

    /** Exactly |n| bytes, or nothing and the position unchanged if the stream is shorter. */
    method ReadExact(n: nat) returns (got: Option<Bytes>)
      requires Valid()
      modifies this`pos
      ensures Valid()
      ensures n <= |old(Unread())| ==> got == Some(old(Unread())[..n]) && Unread() == old(Unread())[n..]
      ensures |old(Unread())| < n ==> got == None && pos == old(pos)
    {
      if pos + n > |sent| {
        return None;
      }
      assert sent[pos..][..n] == sent[pos..pos + n] && sent[pos..][n..] == sent[pos + n..];
      got := Some(sent[pos..pos + n]);
      pos := pos + n;
    }

    method Read() returns (got: Option<Frame>)
      requires Valid()
      modifies this`pos
      ensures Valid()
      ensures match ReadFrame(old(Unread()))
              case Some((f, rest)) => got == Some(f) && Unread() == rest
              case None => got == None
    {
      hide Value, Unread;
      ghost var s := Unread();
      got := None;
      var kind := ReadExact(1);
      if kind.None? { return; }
      var id := ReadExact(8);
      if id.None? { return; }
      var len := ReadExact(4);
      if len.None? { return; }
      var payload := ReadExact(Value(len.value));
      Slices(s, Value(s[9..13]));
      if payload.None? { return; }
      got := Some(Frame(kind.value[0], Value(id.value), payload.value));
    }
  }

  /** Slices of what is left after each of the four reads, in terms of the whole stream. */
  lemma Slices(s: Bytes, len: nat)
    requires |s| >= HEADER
    ensures s[1..][..8] == s[1..9] && s[1..][8..] == s[9..]
    ensures s[9..][..4] == s[9..13] && s[9..][4..] == s[13..]
    ensures |s| >= HEADER + len ==> s[13..][..len] == s[13..13 + len] && s[13..][len..] == s[13 + len..]
  {
  }

  // ----- Python requests

  datatype Request = Call(msg: Bytes) | Notify(msg: Bytes)

  const MARKER: nat := 0xFFFF_FFFF

  /** Packing a length that needs more than four bytes is an error. */
  function WriteRequest(r: Request): Option<Bytes> {
    if |r.msg| >= Pow256(4) then None
    else Some((if r.Notify? then BigEndian(MARKER, 4) else []) + BigEndian(|r.msg|, 4) + r.msg)
  }

  /** A call is its length in four bytes and the message; a cast has four bytes of all ones in front. */
  lemma RequestLayout(r: Request)
    requires WriteRequest(r).Some?
    ensures var s, n := WriteRequest(r).value, if r.Notify? then 4 else 0;
            && |s| == n + 4 + |r.msg| && s[n + 4..] == r.msg
            && IsNumber(s[n..n + 4], |r.msg|) && (r.Notify? ==> s[..4] == [255, 255, 255, 255])
  {
    hide Pow256, BigEndian, IsNumber;
    BigEndianIsNumber(|r.msg|, 4);
    MarkerBytes();
    var s, n := WriteRequest(r).value, if r.Notify? then 4 else 0;
    assert s[n..n + 4] == BigEndian(|r.msg|, 4);
  }

  lemma MarkerBytes()
    ensures BigEndian(MARKER, 4) == [255, 255, 255, 255]
  {
    assert BigEndian(0xFF, 1) == [255];
    assert BigEndian(0xFFFF, 2) == [255, 255];
    assert BigEndian(0xFF_FFFF, 3) == [255, 255, 255];
  }

  function ReadRequest(s: Bytes): Option<(Request, Bytes)> {
    if |s| < 4 then None
    else if Value(s[..4]) != MARKER then
      var len := Value(s[..4]);
      if |s| < 4 + len then None else Some((Call(s[4..4 + len]), s[4 + len..]))
    else if |s| < 8 then None
    else
      var len := Value(s[4..8]);
      if |s| < 8 + len then None else Some((Notify(s[8..8 + len]), s[8 + len..]))
  }

  lemma MarkerFits()
    ensures Value(BigEndian(MARKER, 4)) == MARKER && MARKER + 1 == Pow256(4)
  {
    assert Pow256(4) == 256 * 256 * 256 * 256;
    ValueOfBigEndian(MARKER, 4);
  }

  /** A request that can be written is read back exactly, unless it is a call whose length is the
      cast marker: that one is taken for a cast. */
  lemma RequestSurvives(r: Request, tail: Bytes)
    requires WriteRequest(r).Some?
    ensures ReadRequest(WriteRequest(r).value + tail) == Some((r, tail)) <==> !(r.Call? && |r.msg| == MARKER)
  {
    hide Pow256, BigEndian, Value;
    MarkerFits();
    ValueOfBigEndian(|r.msg|, 4);
    var s := WriteRequest(r).value + tail;
    assert s[..4] == if r.Notify? then BigEndian(MARKER, 4) else BigEndian(|r.msg|, 4);
    if r.Notify? {
      assert s[4..8] == BigEndian(|r.msg|, 4);
      assert s[8..8 + |r.msg|] == r.msg && s[8 + |r.msg|..] == tail;
    } else if |r.msg| != MARKER {
      assert s[4..4 + |r.msg|] == r.msg && s[4 + |r.msg|..] == tail;
    }
  }

  function WriteRequests(rs: seq<Request>): Bytes
    requires forall r :: r in rs ==> WriteRequest(r).Some?
  {
    if rs == [] then [] else WriteRequest(rs[0]).value + WriteRequests(rs[1..])
  }

  /** The server loop: requests read until the stream ends. */
  function ReadRequests(s: Bytes): seq<Request>
    decreases |s|
  {
    match ReadRequest(s)
    case None => []
    case Some((r, rest)) => [r] + ReadRequests(rest)
  }

  lemma {:induction false} RequestsSurvive(rs: seq<Request>)
    requires forall r :: r in rs ==> WriteRequest(r).Some? && !(r.Call? && |r.msg| == MARKER)
    ensures ReadRequests(WriteRequests(rs)) == rs
  {
    hide WriteRequest, ReadRequest;
    if rs == [] {
      assert ReadRequest([]) == None by { EmptyRequest(); }
    } else {
      RequestSurvives(rs[0], WriteRequests(rs[1..]));
      RequestsSurvive(rs[1..]);
    }
  }

  lemma EmptyRequest()
    ensures ReadRequest([]) == None
  {
  }
}
