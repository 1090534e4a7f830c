/** The multiplexed Rust connection down to the bytes of the reply stream. The client waits for the
    next thing to send and for the next reply frame at once; when there is something to send, the
    read it had begun is dropped together with the bytes that read had already taken. */
module RequestWire {
  import opened Base
  import opened Framing
  import Mux = RequestMux

  type Reply = Mux.Reply

  const RESPONSE_OK: Byte := 2
  const RESPONSE_ERR: Byte := 3

  function FrameOf(r: Mux.Inbound): Frame {
    Frame(if r.reply.Ok? then RESPONSE_OK else RESPONSE_ERR, r.id, r.reply.payload)
  }

  /** Frames of other kinds are ignored. */
  function Meaning(f: Frame): Option<Reply> {
    if f.kind == RESPONSE_OK then Some(Mux.Ok(f.payload))
    else if f.kind == RESPONSE_ERR then Some(Mux.Err(f.payload))
    else None
  }

  /** What the connection task holds: the sends waiting under each id, the bytes of the stream not
      read off yet, and how many of them the current read has taken. */
  datatype Client = Client(pending: map<nat, nat>, unread: Bytes, taken: nat)

  function Arrive(cl: Client, bytes: Bytes): Client { cl.(unread := cl.unread + bytes) }

  /** The current read can take |n| more bytes without having its frame complete. */
  predicate CanTake(cl: Client, n: nat) {
    n > 0 && cl.taken + n <= |cl.unread| && ReadFrame(cl.unread[..cl.taken + n]) == None
  }

  function Take(cl: Client, n: nat): Client { cl.(taken := cl.taken + n) }

  /** The send goes out; a read that had begun is lost. */
  function Outgoing(cl: Client, k: nat): Client
    requires cl.taken <= |cl.unread|
  {
    Client(cl.pending[Mux.IdOf(k) := k], cl.unread[cl.taken..], 0)
  }

  /** A whole frame has been read: the client after it, and the send it completes. */
  function Incoming(cl: Client): (Client, Option<(nat, Reply)>)
    requires ReadFrame(cl.unread).Some?
  {
    var (f, rest) := ReadFrame(cl.unread).value;
    match Meaning(f)
    case Some(reply) =>
      (Client(cl.pending - {f.id}, rest, 0), if f.id in cl.pending then Some((cl.pending[f.id], reply)) else None)
    case None => (Client(cl.pending, rest, 0), None)
  }

  /** An answer goes out with type byte 2, an error with 3; a frame of any other type is skipped. */
  lemma TypesExactly(r: Mux.Inbound, cl: Client)
    ensures WriteFrame(FrameOf(r))[0] == if r.reply.Ok? then 2 else 3
    ensures ReadFrame(cl.unread).Some? && ReadFrame(cl.unread).value.0.kind !in {2, 3} ==>
              Incoming(cl) == (Client(cl.pending, ReadFrame(cl.unread).value.1, 0), None)
  {
    hide ReadFrame;
  }

  class TcpConnection {
    var issued: nat
    var pending: map<nat, nat>
    var unread: Bytes
    var taken: nat

    ghost function View(): Client reads this { Client(pending, unread, taken) }

    constructor ()
      ensures issued == 0 && View() == Client(map[], [], 0)
    {
      issued, pending, unread, taken := 0, map[], [], 0;
    }

    method DrawId() returns (id: nat)
      modifies this`issued
      ensures id == Mux.IdOf(old(issued)) && issued == old(issued) + 1
    {
      id := Mux.IdOf(issued);
      issued := issued + 1;
    }

    method OnBytes(bytes: Bytes)
      modifies this`unread
      ensures View() == Arrive(old(View()), bytes)
    {
      unread := unread + bytes;
    }

    method ReadOn(n: nat)
      requires CanTake(View(), n)
      modifies this`taken
      ensures View() == Take(old(View()), n)
    {
      taken := taken + n;
    }

    method OnOutgoing(k: nat) returns (id: nat)
      requires taken <= |unread|
      modifies this`pending, this`unread, this`taken
      ensures id == Mux.IdOf(k) && View() == Outgoing(old(View()), k)
    {
      unread, taken := unread[taken..], 0;
      id := Mux.IdOf(k);
      pending := pending[id := k];
    }

    method OnFrame() returns (completed: Option<(nat, Reply)>)
      requires ReadFrame(unread).Some?
      modifies this`pending, this`unread, this`taken
      ensures (View(), completed) == Incoming(old(View()))
    {
      hide ReadFrame;
      completed := None;
      var (f, rest) := ReadFrame(unread).value;
      unread, taken := rest, 0;
      var reply := Meaning(f);
      if reply.Some? {
        if f.id in pending {
          completed := Some((pending[f.id], reply.value));
        }
        pending := pending - {f.id};
      }
    }
  }

  // ----- the system

  /** |mux.replies| lists the replies the server has written and no frame has been read for; what
      the client really has of them is |unread|. */
  datatype Sys = Sys(mux: Mux.Sys, unread: Bytes, taken: nat)

  const STARTED := Sys(Mux.STARTED, [], 0)

  datatype Event = Issue | Enqueue(k: nat) | Write | Serve(h: Mux.Handling) | Partly(n: nat) | Receive

  function ClientOf(w: Sys): Client { Client(w.mux.pending, w.unread, w.taken) }

  predicate Enabled(w: Sys, e: Event) {
    match e
    case Issue => true
    case Enqueue(k) => k in w.mux.drawn
    case Write => w.mux.queue != [] && w.taken <= |w.unread|
    case Serve(_) => w.mux.requests != []
    case Partly(n) => CanTake(ClientOf(w), n)
    case Receive => ReadFrame(w.unread).Some?
  }

  /** The frames of the system outside the client as in |RequestMux|. */
  function Received(m: Mux.Sys, cl: Client, completed: Option<(nat, Reply)>): Mux.Sys {
    m.(pending := cl.pending, replies := if m.replies == [] then [] else m.replies[1..],
       results := if completed.Some? then m.results[completed.value.0 := completed.value.1] else m.results)
  }

  function Apply(w: Sys, e: Event): Sys
    requires Enabled(w, e)
  {
    match e
    case Issue => w.(mux := Mux.Apply(w.mux, Mux.Issue))
    case Enqueue(k) => w.(mux := Mux.Apply(w.mux, Mux.Enqueue(k)))
    case Write =>
      var cl := Outgoing(ClientOf(w), w.mux.queue[0]);
      Sys(Mux.Apply(w.mux, Mux.Write).(pending := cl.pending), cl.unread, cl.taken)
    case Serve(h) =>
      var k := w.mux.requests[0];
      var cl := Arrive(ClientOf(w), WriteFrame(FrameOf(Mux.Inbound(Mux.IdOf(k), Mux.Answer(h), k))));
      Sys(Mux.Apply(w.mux, Mux.Serve(h)), cl.unread, cl.taken)
    case Partly(n) => w.(taken := Take(ClientOf(w), n).taken)
    case Receive =>
      var (cl, completed) := Incoming(ClientOf(w));
      Sys(Received(w.mux, cl, completed), cl.unread, cl.taken)
  }

  /** Nothing is sent while a frame is partly read. */
  predicate Uncut(w: Sys, e: Event) { e.Write? ==> w.taken == 0 }

  ghost predicate Step(w: Sys, w': Sys) {
    exists e: Event :: Enabled(w, e) && w' == Apply(w, e)
  }

  ghost predicate UncutStep(w: Sys, w': Sys) {
    exists e: Event :: Enabled(w, e) && Uncut(w, e) && w' == Apply(w, e)
  }

  ghost predicate Run(run: seq<Sys>) {
    && run != [] && run[0] == STARTED
    && forall i :: 0 <= i < |run| - 1 ==> Step(run[i], run[i + 1])
  }

  ghost predicate UncutRun(run: seq<Sys>) {
    forall i :: 0 <= i < |run| - 1 ==> UncutStep(run[i], run[i + 1])
  }

  /** The id counter has not wrapped and every answer's length fits its field. */
  ghost predicate InRange(w: Sys) {
    && w.mux.issued <= Pow256(8)
    && forall k :: k in w.mux.answered ==> |w.mux.answered[k].payload| < Pow256(4)
  }

  ghost predicate AllInRange(run: seq<Sys>) { forall w :: w in run ==> InRange(w) }

  // ----- while no read is cut, the bytes are the frames of the replies

  function Frames(rs: seq<Mux.Inbound>): seq<Frame> {
    if rs == [] then [] else [FrameOf(rs[0])] + Frames(rs[1..])
  }

  predicate Aligned(w: Sys) {
    w.unread == WriteAll(Frames(w.mux.replies)) && w.taken <= |w.unread|
  }

  ghost predicate Inv(w: Sys) { Mux.Inv(w.mux) && Aligned(w) }

  lemma {:induction false} WriteAllAppend(fs: seq<Frame>, f: Frame)
    ensures WriteAll(fs + [f]) == WriteAll(fs) + WriteFrame(f)
  {
    hide WriteFrame;
    if fs == [] {
      assert [f][1..] == [];
      assert WriteAll([f]) == WriteFrame(f) + [];
    } else {
      WriteAllAppend(fs[1..], f);
      assert (fs + [f])[1..] == fs[1..] + [f];
    }
  }

  lemma {:induction false} FramesAppend(rs: seq<Mux.Inbound>, r: Mux.Inbound)
    ensures Frames(rs + [r]) == Frames(rs) + [FrameOf(r)]
  {
    hide FrameOf;
    if rs == [] {
    } else {
      FramesAppend(rs[1..], r);
      assert (rs + [r])[1..] == rs[1..] + [r];
    }
  }

  lemma HeadFits(w: Sys)
    requires Mux.Truthful(w.mux) && InRange(w) && w.mux.replies != []
    ensures Fits(FrameOf(w.mux.replies[0]))
  {
    hide Pow256;
    var r := w.mux.replies[0];
    assert r in w.mux.replies;
  }

  /** The frame read is that of the oldest outstanding reply, and handling it is what the reply
      means. */
  lemma ReadsHead(w: Sys)
    requires Inv(w) && InRange(w) && ReadFrame(w.unread).Some?
    ensures w.mux.replies != []
    ensures Apply(w, Receive) == Sys(Mux.Apply(w.mux, Mux.Receive), WriteAll(Frames(w.mux.replies[1..])), 0)
  {
    hide Mux.Conserved, Mux.Tabled, WriteFrame, ReadFrame, Pow256, Mux.IdOf, InRange;
    var rs := w.mux.replies;
    if rs == [] {
      EmptyStream();
    } else {
      HeadFits(w);
      FrameSurvives(FrameOf(rs[0]), WriteAll(Frames(rs[1..])));
      assert Frames(rs)[1..] == Frames(rs[1..]);
      HeadMeans(w, WriteAll(Frames(rs[1..])));
    }
  }

  lemma HeadMeans(w: Sys, rest: Bytes)
    requires w.mux.replies != [] && ReadFrame(w.unread) == Some((FrameOf(w.mux.replies[0]), rest))
    ensures Apply(w, Receive) == Sys(Mux.Apply(w.mux, Mux.Receive), rest, 0)
  {
    hide ReadFrame;
    var r := w.mux.replies[0];
    assert Meaning(FrameOf(r)) == Some(r.reply);
  }

  lemma MuxAfter(w: Sys, e: Mux.Event)
    requires Inv(w) && InRange(w) && Mux.Enabled(w.mux, e)
    ensures Mux.Inv(Mux.Apply(w.mux, e))
  {
    hide Pow256, Mux.Inv, Mux.Apply;
    Mux.InvAfter(w.mux, e);
  }

  lemma WriteKeeps(w: Sys)
    requires Inv(w) && InRange(w) && Enabled(w, Write) && Uncut(w, Write)
    ensures Inv(Apply(w, Write))
  {
    hide Mux.Inv, Pow256, Mux.IdOf, WriteAll;
    MuxAfter(w, Mux.Write);
    assert w.unread[0..] == w.unread;
    assert Apply(w, Write).mux == Mux.Apply(w.mux, Mux.Write);
  }

  lemma ServeKeeps(w: Sys, h: Mux.Handling)
    requires Inv(w) && InRange(w) && Enabled(w, Serve(h))
    ensures Inv(Apply(w, Serve(h)))
  {
    hide Mux.Inv, Pow256, Mux.IdOf, Mux.Answer, WriteFrame, WriteAll;
    MuxAfter(w, Mux.Serve(h));
    var k := w.mux.requests[0];
    var r := Mux.Inbound(Mux.IdOf(k), Mux.Answer(h), k);
    FramesAppend(w.mux.replies, r);
    WriteAllAppend(Frames(w.mux.replies), FrameOf(r));
  }

  lemma ReceiveKeeps(w: Sys)
    requires Inv(w) && InRange(w) && Enabled(w, Receive)
    ensures Inv(Apply(w, Receive))
  {
    hide Mux.Inv, Pow256, Mux.IdOf, WriteAll, ReadFrame;
    ReadsHead(w);
    MuxAfter(w, Mux.Receive);
  }

  lemma InvAfter(w: Sys, e: Event)
    requires Inv(w) && InRange(w) && Enabled(w, e) && Uncut(w, e)
    ensures Inv(Apply(w, e))
  {
    hide Mux.Inv, WriteFrame, ReadFrame, Pow256, Mux.IdOf, WriteAll, InRange;
    match e
    case Issue => MuxAfter(w, Mux.Issue);
    case Enqueue(k) => MuxAfter(w, Mux.Enqueue(k));
    case Write => WriteKeeps(w);
    case Serve(h) => ServeKeeps(w, h);
    case Partly(n) =>
    case Receive => ReceiveKeeps(w);
  }

  lemma StartedInv()
    ensures Inv(STARTED)
  {
    Mux.StartedInv();
  }

  /** In every state of a run in which no read is cut, the bytes ahead of the client are exactly the
      outstanding reply frames, and every send is where it should be. */
  lemma {:induction false} RunKeepsInv(run: seq<Sys>, i: nat)
    requires Run(run) && AllInRange(run) && UncutRun(run) && i < |run|
    ensures Inv(run[i])
  {
    hide Inv, Apply, Enabled, InRange;
    if i == 0 {
      StartedInv();
    } else {
      RunKeepsInv(run, i - 1);
      assert UncutStep(run[i - 1], run[i - 1 + 1]);
      var e: Event :| Enabled(run[i - 1], e) && Uncut(run[i - 1], e) && run[i] == Apply(run[i - 1], e);
      assert run[i - 1] in run;
      InvAfter(run[i - 1], e);
    }
  }

  /** Sending while a frame is partly read takes the client off the frame boundaries. */
  lemma CutMisaligns(w: Sys)
    requires Aligned(w) && Enabled(w, Write) && w.taken > 0
    ensures !Aligned(Apply(w, Write))
  {
    hide WriteAll, Mux.IdOf;
    assert |Apply(w, Write).unread| < |w.unread|;
  }

  /** The client stays on the frame boundaries exactly in the runs in which nothing is sent while a
      frame is partly read. */
  lemma AlignedExactly(run: seq<Sys>)
    requires Run(run) && AllInRange(run)
    ensures UncutRun(run) <==> forall i :: 0 <= i < |run| ==> Aligned(run[i])
  {
    hide Step, UncutStep, AllInRange, Mux.Inv, Aligned;
    if UncutRun(run) {
      forall i | 0 <= i < |run|
        ensures Aligned(run[i])
      {
        RunKeepsInv(run, i);
      }
    }
    if forall i :: 0 <= i < |run| ==> Aligned(run[i]) {
      forall i | 0 <= i < |run| - 1
        ensures UncutStep(run[i], run[i + 1])
      {
        AlignedStep(run[i], run[i + 1]);
      }
    }
  }

  lemma AlignedStep(w: Sys, w': Sys)
    requires Step(w, w') && Aligned(w) && Aligned(w')
    ensures UncutStep(w, w')
  {
    hide Aligned, Apply;
    var e: Event :| Enabled(w, e) && w' == Apply(w, e);
    if !Uncut(w, e) {
      CutMisaligns(w);
    }
  }

  // ----- results, where no read is cut

  /** Every result a send has returned is the server's answer to that same send, and the send is
      then nowhere else. */
  lemma CompletesOnceWithItsOwnReply(run: seq<Sys>, i: nat, k: nat)
    requires Run(run) && AllInRange(run) && UncutRun(run) && i < |run| && k in run[i].mux.results
    ensures var m := run[i].mux;
            && k in m.answered && m.results[k] == m.answered[k] && k < m.issued
            && k !in m.drawn && k !in m.queue && k !in m.requests && k !in Mux.Tokens(m.replies)
  {
    hide Run, UncutRun, AllInRange, Mux.Inv;
    RunKeepsInv(run, i);
    Mux.ResultFacts(run[i].mux, k);
  }

  /** The pending table is exactly the ids of the sends on the stream and not yet answered. */
  lemma PendingIsOutstanding(run: seq<Sys>, i: nat, id: nat)
    requires Run(run) && AllInRange(run) && UncutRun(run) && i < |run|
    ensures id in run[i].mux.pending <==> exists k :: k in Mux.InFlight(run[i].mux) && Mux.IdOf(k) == id
  {
    hide Run, UncutRun, AllInRange, Mux.Truthful, Mux.Conserved, Mux.InFlight, Mux.IdOf, Aligned;
    RunKeepsInv(run, i);
  }

  /** With nothing on its way, every send issued has returned the server's answer to it. */
  lemma AllAnsweredAtRest(run: seq<Sys>, i: nat)
    requires Run(run) && AllInRange(run) && UncutRun(run) && i < |run|
    requires var w := run[i]; w.mux.drawn == multiset{} && w.mux.queue == [] && w.mux.requests == [] && w.unread == []
    ensures var m := run[i].mux;
            m.pending == map[] && (forall k: nat :: k in m.results <==> k < m.issued) && m.results == m.answered
  {
    hide Run, UncutRun, AllInRange, Mux.Inv, WriteFrame;
    RunKeepsInv(run, i);
    assert run[i].mux.replies == [] by { NoBytesNoReplies(run[i]); }
    Mux.RestFacts(run[i].mux);
  }

  lemma NoBytesNoReplies(w: Sys)
    requires Aligned(w)
    ensures w.mux.replies != [] ==> w.unread != []
  {
  }

  // ----- reachable states

  ghost predicate Reached(w: Sys, inRange: bool, uncut: bool) {
    exists run :: Run(run) && run[|run| - 1] == w && (inRange ==> AllInRange(run)) && (uncut ==> UncutRun(run))
  }

  lemma ReachStart(inRange: bool, uncut: bool)
    ensures Reached(STARTED, inRange, uncut)
  {
    var run := [STARTED];
    assert Run(run) && run[|run| - 1] == STARTED && AllInRange(run) && UncutRun(run);
  }

  lemma ReachNext(w: Sys, e: Event, inRange: bool, uncut: bool)
    requires Reached(w, inRange, uncut) && Enabled(w, e)
    requires inRange ==> InRange(Apply(w, e))
    requires uncut ==> Uncut(w, e)
    ensures Reached(Apply(w, e), inRange, uncut)
  {
    hide Apply, Enabled, InRange, Uncut;
    var run :| Run(run) && run[|run| - 1] == w && (inRange ==> AllInRange(run)) && (uncut ==> UncutRun(run));
    var w' := Apply(w, e);
    var longer := run + [w'];
    assert Step(w, w') && (uncut ==> UncutStep(w, w'));
    forall i | 0 <= i < |longer| - 1
      ensures Step(longer[i], longer[i + 1]) && (uncut ==> UncutStep(longer[i], longer[i + 1]))
    {
      if i < |run| - 1 {
        assert Step(run[i], run[i + 1]) && (uncut ==> UncutStep(run[i], run[i + 1]));
      }
    }
    assert longer[|longer| - 1] == w';
  }

  // ----- a read that is cut

  /** The reply to the first send, made of the frame of a reply to the second. */
  function Bait(x: Bytes): Bytes { WriteFrame(Frame(RESPONSE_OK, 2, x)) }

  function BaitFrame(x: Bytes): Bytes { WriteFrame(Frame(RESPONSE_OK, 1, Bait(x))) }

  lemma FirstIds()
    ensures Mux.IdOf(0) == 1 && Mux.IdOf(1) == 2 && Pow256(8) > 2
  {
    assert Pow256(8) > 2 by { assert Pow256(8) == 256 * Pow256(7); }
  }

  lemma BaitFacts(x: Bytes)
    requires |x| + HEADER < Pow256(4)
    ensures |BaitFrame(x)| >= 2 * HEADER && BaitFrame(x)[HEADER..] == Bait(x)
    ensures ReadFrame(BaitFrame(x)[..HEADER]) == None
    ensures ReadFrame(Bait(x)) == Some((Frame(RESPONSE_OK, 2, x), []))
  {
    hide WriteFrame, ReadFrame, Pow256;
    FirstIds();
    var inner, outer := Frame(RESPONSE_OK, 2, x), Frame(RESPONSE_OK, 1, Bait(x));
    Layout(inner, []);
    Layout(outer, []);
    assert WriteFrame(inner) + [] == WriteFrame(inner) && WriteFrame(outer) + [] == WriteFrame(outer);
    assert Bait(x) + [] == Bait(x);
    FrameSurvives(inner, []);
    CutFrame(outer, HEADER);
  }

  function TwoIssued(): Sys { STARTED.(mux := Mux.STARTED.(issued := 2, drawn := multiset{0, 1})) }

  lemma TwoIssuedReached()
    ensures Reached(TwoIssued(), true, false)
  {
    hide Pow256, Reached;
    ReachStart(true, false);
    FirstIds();
    ReachNext(STARTED, Issue, true, false);
    var w := Apply(STARTED, Issue);
    assert w == STARTED.(mux := Mux.STARTED.(issued := 1, drawn := multiset{0}));
    ReachNext(w, Issue, true, false);
    assert Apply(w, Issue) == TwoIssued();
  }

  function FirstSent(): Sys {
    STARTED.(mux := Mux.STARTED.(issued := 2, drawn := multiset{1}, pending := map[1 := 0], requests := [0]))
  }

  lemma FirstSentReached()
    ensures Reached(FirstSent(), true, false)
  {
    hide Pow256, Reached, Mux.IdOf;
    TwoIssuedReached();
    FirstIds();
    ReachNext(TwoIssued(), Enqueue(0), true, false);
    var w := TwoIssued().(mux := TwoIssued().mux.(drawn := multiset{1}, queue := [0]));
    assert Apply(TwoIssued(), Enqueue(0)) == w;
    ReachNext(w, Write, true, false);
    assert [0][1..] == [];
    assert Apply(w, Write) == FirstSent();
  }

  /** The first reply is on the stream and its header has been taken. */
  function HeaderTaken(x: Bytes): Sys {
    Sys(FirstSent().mux.(requests := [], replies := [Mux.Inbound(1, Mux.Ok(Bait(x)), 0)],
                         answered := map[0 := Mux.Ok(Bait(x))]),
        BaitFrame(x), HEADER)
  }

  lemma HeaderTakenReached(x: Bytes)
    requires |x| + HEADER < Pow256(4)
    ensures Reached(HeaderTaken(x), true, false) && InRange(HeaderTaken(x))
  {
    hide Pow256, Reached, Mux.IdOf, ReadFrame, WriteFrame;
    FirstSentReached();
    FirstIds();
    BaitFacts(x);
    BaitSize(x);
    var h := Mux.Data(Bait(x));
    var w := HeaderTaken(x).(taken := 0);
    ReachServe(w, h, x);
    ReachNext(w, Partly(HEADER), true, false);
    assert Apply(w, Partly(HEADER)) == HeaderTaken(x);
  }

  lemma BaitSize(x: Bytes)
    ensures |Bait(x)| == HEADER + |x|
  {
  }

  lemma ReachServe(w: Sys, h: Mux.Handling, x: Bytes)
    requires w == HeaderTaken(x).(taken := 0) && h == Mux.Data(Bait(x)) && InRange(w)
    requires Reached(FirstSent(), true, false)
    ensures Reached(w, true, false)
  {
    hide Pow256, Reached, Mux.IdOf, ReadFrame, WriteFrame, InRange;
    FirstIds();
    assert [0][1..] == [] && [] + BaitFrame(x) == BaitFrame(x);
    assert Apply(FirstSent(), Serve(h)) == w;
    ReachNext(FirstSent(), Serve(h), true, false);
  }

  /** The second send has gone out, the header is lost, and the payload stands for a frame. */
  function Misread(x: Bytes): Sys {
    Sys(HeaderTaken(x).mux.(drawn := multiset{}, pending := map[1 := 0, 2 := 1], requests := [1]), Bait(x), 0)
  }

  lemma MisreadReached(x: Bytes)
    requires |x| + HEADER < Pow256(4)
    ensures Reached(Misread(x), true, false) && InRange(Misread(x))
  {
    hide Pow256, Reached, Mux.IdOf, ReadFrame, WriteFrame;
    HeaderTakenReached(x);
    FirstIds();
    BaitFacts(x);
    var w := HeaderTaken(x).(mux := HeaderTaken(x).mux.(drawn := multiset{}, queue := [1]));
    assert Apply(HeaderTaken(x), Enqueue(1)) == w;
    ReachNext(HeaderTaken(x), Enqueue(1), true, false);
    assert [1][1..] == [] && map[1 := 0][2 := 1] == map[1 := 0, 2 := 1];
    assert Apply(w, Write) == Misread(x);
    ReachNext(w, Write, true, false);
  }

  /** The end of the run: nothing is on its way in either direction. */
  function Misdelivered(x: Bytes, h: Mux.Handling): Sys {
    Sys(Mux.Sys(2, multiset{}, [], map[1 := 0], [], [],
                map[0 := Mux.Ok(Bait(x)), 1 := Mux.Answer(h)], map[1 := Mux.Ok(x)]), [], 0)
  }

  lemma MisdeliveredReached(x: Bytes, h: Mux.Handling)
    requires |x| + HEADER < Pow256(4) && |Mux.Answer(h).payload| < Pow256(4)
    ensures Reached(Misdelivered(x, h), true, false)
  {
    hide Pow256, Reached, Mux.IdOf, ReadFrame, WriteFrame, Mux.Answer;
    MisreadReached(x);
    FirstIds();
    BaitFacts(x);
    var w := Misread(x);
    var w' := Sys(w.mux.(pending := map[1 := 0], replies := [], results := map[1 := Mux.Ok(x)]), [], 0);
    assert map[1 := 0, 2 := 1] - {2} == map[1 := 0];
    assert Apply(w, Receive) == w';
    ReachNext(w, Receive, true, false);
    LateReply(w', x, h);
  }

  lemma LateReply(w: Sys, x: Bytes, h: Mux.Handling)
    requires w == Sys(Misread(x).mux.(pending := map[1 := 0], replies := [], results := map[1 := Mux.Ok(x)]), [], 0)
    requires Reached(w, true, false) && InRange(w) && |Mux.Answer(h).payload| < Pow256(4)
    ensures Reached(Misdelivered(x, h), true, false)
  {
    hide Pow256, Reached, Mux.IdOf, ReadFrame, WriteFrame, Mux.Answer;
    FirstIds();
    var r := Mux.Inbound(2, Mux.Answer(h), 1);
    var m := w.mux.(requests := [], replies := [r], answered := w.mux.answered[1 := Mux.Answer(h)]);
    var w' := Sys(m, WriteFrame(FrameOf(r)), 0);
    assert [1][1..] == [] && [] + WriteFrame(FrameOf(r)) == WriteFrame(FrameOf(r));
    assert Apply(w, Serve(h)) == w';
    ReachNext(w, Serve(h), true, false);
    FrameSurvives(FrameOf(r), []);
    assert WriteFrame(FrameOf(r)) + [] == WriteFrame(FrameOf(r));
    assert map[1 := 0] - {2} == map[1 := 0];
    assert Apply(w', Receive) == Misdelivered(x, h);
    ReachNext(w', Receive, true, false);
  }

  /** For any bytes and any answer there is a run in which all is delivered, one send returns those
      bytes instead of its answer, and another never returns. */
  lemma CutReadMisdelivers(x: Bytes, h: Mux.Handling) returns (run: seq<Sys>)
    requires |x| + HEADER < Pow256(4) && |Mux.Answer(h).payload| < Pow256(4)
    ensures Run(run) && AllInRange(run)
    ensures var w := run[|run| - 1];
            && w.mux.drawn == multiset{} && w.mux.queue == [] && w.mux.requests == [] && w.unread == []
            && 1 in w.mux.answered && w.mux.answered[1] == Mux.Answer(h)
            && 1 in w.mux.results && w.mux.results[1] == Mux.Ok(x)
            && 0 in w.mux.answered && 0 !in w.mux.results
  {
    hide Pow256, Run, AllInRange, Reached, WriteFrame;
    MisdeliveredReached(x, h);
    run := RunTo(Misdelivered(x, h), true, false);
  }

  // ----- an id counter that wraps

  function Drawn(n: nat): multiset<nat> {
    if n == 0 then multiset{} else Drawn(n - 1) + multiset{n - 1}
  }

  lemma {:induction false} DrawnHas(n: nat, k: nat)
    ensures k in Drawn(n) <==> k < n
  {
    if n > 0 {
      DrawnHas(n - 1, k);
    }
  }

  function ManyIssued(n: nat): Sys { STARTED.(mux := Mux.STARTED.(issued := n, drawn := Drawn(n))) }

  lemma {:induction false} ManyIssuedReached(n: nat)
    ensures Reached(ManyIssued(n), false, true)
  {
    hide Pow256, Reached;
    if n == 0 {
      ReachStart(false, true);
    } else {
      ManyIssuedReached(n - 1);
      ReachNext(ManyIssued(n - 1), Issue, false, true);
      assert Apply(ManyIssued(n - 1), Issue) == ManyIssued(n);
    }
  }

  lemma FirstOut(n: nat) returns (w: Sys)
    requires n > 0
    ensures Reached(w, false, true) && n in w.mux.drawn
    ensures w.mux == Mux.STARTED.(
              issued := n + 1, drawn := w.mux.drawn, pending := map[Mux.IdOf(0) := 0], requests := [0])
    ensures w.unread == [] && w.taken == 0
  {
    hide Pow256, Reached, Mux.IdOf, Drawn;
    ManyIssuedReached(n + 1);
    DrawnHas(n + 1, 0);
    DrawnHas(n + 1, n);
    var w0 := ManyIssued(n + 1);
    ReachNext(w0, Enqueue(0), false, true);
    var w1 := Apply(w0, Enqueue(0));
    ReachNext(w1, Write, false, true);
    w := Apply(w1, Write);
  }

  /** With one send more than there are ids, the first is pending and the last reuses its id. */
  lemma BothSent(n: nat) returns (w: Sys)
    requires n == Pow256(8)
    ensures Reached(w, false, true)
    ensures w.mux.pending == map[Mux.IdOf(0) := n] && w.mux.requests == [0, n] && w.mux.replies == []
    ensures w.mux.answered == map[] && w.mux.results == map[] && w.unread == [] && w.taken == 0
    ensures w.mux.issued == n + 1
  {
    hide Pow256, Reached, Mux.IdOf, Drawn;
    var w2 := FirstOut(n);
    ReachNext(w2, Enqueue(n), false, true);
    var w3 := Apply(w2, Enqueue(n));
    assert w3.mux.queue == [n];
    Mux.IdsRepeat(0);
    ReachNext(w3, Write, false, true);
    w := Apply(w3, Write);
    assert map[Mux.IdOf(0) := 0][Mux.IdOf(0) := n] == map[Mux.IdOf(0) := n];
  }

  /** The bound on the counter is exact: with 2^64 + 1 sends there is a run, no read cut, in which
      the answer to the first send completes the last, which has not been answered. */
  lemma WrappedIdMisdelivers(h: Mux.Handling) returns (run: seq<Sys>, k: nat)
    requires |Mux.Answer(h).payload| < Pow256(4)
    ensures Run(run) && UncutRun(run) && run[|run| - 1].mux.issued == Pow256(8) + 1
    ensures var m := run[|run| - 1].mux;
            && m.answered == map[0 := Mux.Answer(h)] && k != 0 && m.results == map[k := Mux.Answer(h)]
            && m.pending == map[]
  {
    hide Pow256, Reached, Mux.IdOf, WriteFrame, ReadFrame, Mux.Answer, Run, UncutRun;
    k := Pow256(8);
    var w := BothSent(k);
    var r := Mux.Inbound(Mux.IdOf(0), Mux.Answer(h), 0);
    ReachNext(w, Serve(h), false, true);
    var w' := Apply(w, Serve(h));
    assert [] + WriteFrame(FrameOf(r)) == WriteFrame(FrameOf(r)) == WriteFrame(FrameOf(r)) + [];
    assert w'.unread == WriteFrame(FrameOf(r));
    IdFits(0);
    FrameSurvives(FrameOf(r), []);
    ReachNext(w', Receive, false, true);
    var w'' := Apply(w', Receive);
    assert Incoming(ClientOf(w')) == (Client(map[Mux.IdOf(0) := k] - {Mux.IdOf(0)}, [], 0), Some((k, Mux.Answer(h))));
    assert w''.mux.results == map[k := Mux.Answer(h)];
    run := RunTo(w'', false, true);
  }

  lemma RunTo(w: Sys, inRange: bool, uncut: bool) returns (run: seq<Sys>)
    requires Reached(w, inRange, uncut)
    ensures Run(run) && run[|run| - 1] == w && (inRange ==> AllInRange(run)) && (uncut ==> UncutRun(run))
  {
    hide Step, UncutStep, InRange;
    run :| Run(run) && run[|run| - 1] == w && (inRange ==> AllInRange(run)) && (uncut ==> UncutRun(run));
  }

  lemma IdFits(k: nat)
    ensures Mux.IdOf(k) < Pow256(8)
  {
    hide Pow256;
  }
}
