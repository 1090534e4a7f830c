/** The multiplexed Rust connection in every run, with cut reads, wrapped ids and oversized replies:
    no send completes twice, and exactly when all sends get their own answers. */
module RequestExact {
  import opened Base
  import opened Bags
  import opened Framing
  import opened RequestWire
  import Mux = RequestMux

  // ----- each send is waited for at most once

  /** The sends not yet written. */
  function Unwritten(m: Mux.Sys): multiset<nat> { m.drawn + multiset(m.queue) }

  function Unserved(m: Mux.Sys): multiset<nat> { Unwritten(m) + multiset(m.requests) }

  /** Each send is in at most one place before the server has it, and then not answered. */
  ghost predicate ServedOnce(m: Mux.Sys) {
    && (forall k :: Unserved(m)[k] <= 1)
    && (forall k :: k in Unserved(m) ==> k < m.issued && k !in m.answered)
    && (forall k :: k in m.answered ==> k < m.issued)
  }

  /** A send that can still complete has no result: it is unwritten or waits under its own id. */
  ghost predicate OpenOnce(m: Mux.Sys) {
    && (forall k :: k in Unwritten(m) ==> k !in m.results && k !in m.pending.Values)
    && (forall id :: id in m.pending ==>
          Mux.IdOf(m.pending[id]) == id && m.pending[id] < m.issued && m.pending[id] !in m.results)
    && (forall k :: k in m.results ==> k < m.issued)
  }

  ghost predicate Once(m: Mux.Sys) { ServedOnce(m) && OpenOnce(m) }

  lemma IssueMoves(m: Mux.Sys)
    ensures var m' := Mux.Apply(m, Mux.Issue);
            Unwritten(m') == Unwritten(m) + multiset{m.issued} && Unserved(m') == Unserved(m) + multiset{m.issued}
  {
  }

  lemma EnqueueMoves(m: Mux.Sys, k: nat)
    requires k in m.drawn
    ensures var m' := Mux.Apply(m, Mux.Enqueue(k)); Unwritten(m') == Unwritten(m) && Unserved(m') == Unserved(m)
  {
    var m' := Mux.Apply(m, Mux.Enqueue(k));
    assert m.drawn == m'.drawn + multiset{k};
    assert multiset(m'.queue) == multiset(m.queue) + multiset{k};
    assert Unwritten(m') == Unwritten(m);
  }

  lemma WriteMoves(m: Mux.Sys)
    requires m.queue != []
    ensures var m' := Mux.Apply(m, Mux.Write);
            Unwritten(m) == Unwritten(m') + multiset{m.queue[0]} && Unserved(m') == Unserved(m)
  {
    hide Mux.IdOf;
    var m' := Mux.Apply(m, Mux.Write);
    Mux.Split(m.queue);
    assert multiset(m'.requests) == multiset(m.requests) + multiset{m.queue[0]};
    assert Unwritten(m) == Unwritten(m') + multiset{m.queue[0]};
  }

  lemma ServeMoves(m: Mux.Sys, h: Mux.Handling)
    requires m.requests != []
    ensures var m' := Mux.Apply(m, Mux.Serve(h));
            Unwritten(m') == Unwritten(m) && Unserved(m) == Unserved(m') + multiset{m.requests[0]}
  {
    hide Mux.IdOf, Mux.Answer;
    Mux.Split(m.requests);
  }

  lemma Unserveds(m: Mux.Sys)
    ensures forall k :: k in Unwritten(m) ==> k in Unserved(m)
  {
  }

  lemma IssueOnce(m: Mux.Sys)
    requires Once(m)
    ensures Once(Mux.Apply(m, Mux.Issue))
  {
    hide Mux.IdOf, Unwritten, Unserved;
    IssueMoves(m);
    Unserveds(m);
    assert m.issued !in m.pending.Values;
  }

  lemma EnqueueOnce(m: Mux.Sys, k: nat)
    requires Once(m) && k in m.drawn
    ensures Once(Mux.Apply(m, Mux.Enqueue(k)))
  {
    hide Mux.IdOf, Unwritten, Unserved;
    EnqueueMoves(m, k);
  }

  lemma WriteOnce(m: Mux.Sys)
    requires Once(m) && m.queue != []
    ensures Once(Mux.Apply(m, Mux.Write))
  {
    hide Mux.IdOf, Unwritten, Unserved;
    var k, m' := m.queue[0], Mux.Apply(m, Mux.Write);
    WriteMoves(m);
    Unserveds(m);
    OnlyOnce(m, m', k);
    assert forall j :: j in m'.pending.Values ==> j == k || j in m.pending.Values;
  }

  lemma OnlyOnce(m: Mux.Sys, m': Mux.Sys, k: nat)
    requires ServedOnce(m) && Unwritten(m) == Unwritten(m') + multiset{k}
    ensures k in Unwritten(m) && k !in Unwritten(m')
  {
    assert Unserved(m)[k] >= Unwritten(m)[k];
  }

  lemma ServeOnce(m: Mux.Sys, h: Mux.Handling)
    requires Once(m) && m.requests != []
    ensures Once(Mux.Apply(m, Mux.Serve(h))) && m.requests[0] !in m.answered
  {
    hide Mux.IdOf, Mux.Answer, Unwritten, Unserved;
    var k, m' := m.requests[0], Mux.Apply(m, Mux.Serve(h));
    ServeMoves(m, h);
    assert Unserved(m)[k] == Unserved(m')[k] + 1 <= 1;
    assert forall j :: j in Unserved(m') ==> j in Unserved(m) && j != k;
  }

  lemma ReceiveOnce(w: Sys)
    requires Once(w.mux) && ReadFrame(w.unread).Some?
    ensures Once(Apply(w, Receive).mux)
    ensures match Incoming(ClientOf(w)).1
            case Some((k, reply)) =>
              k !in w.mux.results && Apply(w, Receive).mux.results == w.mux.results[k := reply]
            case None => Apply(w, Receive).mux.results == w.mux.results
  {
    hide Mux.IdOf, ReadFrame, Unwritten, Unserved, Meaning;
    var m, m' := w.mux, Apply(w, Receive).mux;
    SameUnserved(m, m');
    assert forall k :: k in m'.pending.Values ==> k in m.pending.Values;
  }

  lemma SameUnserved(m: Mux.Sys, m': Mux.Sys)
    requires m'.drawn == m.drawn && m'.queue == m.queue && m'.requests == m.requests
    ensures Unwritten(m') == Unwritten(m) && Unserved(m') == Unserved(m)
  {
  }

  lemma OnceAfter(w: Sys, e: Event)
    requires Once(w.mux) && Enabled(w, e)
    ensures Once(Apply(w, e).mux)
    ensures !e.Receive? ==> Apply(w, e).mux.results == w.mux.results
  {
    hide Once, ReadFrame, WriteFrame, Mux.IdOf, Mux.Answer;
    match e
    case Issue => IssueOnce(w.mux);
    case Enqueue(k) => EnqueueOnce(w.mux, k);
    case Write => WriteOnce(w.mux);
    case Serve(h) => ServeOnce(w.mux, h);
    case Partly(_) =>
    case Receive => ReceiveOnce(w);
  }

  lemma {:induction false} RunKeepsOnce(run: seq<Sys>, i: nat)
    requires Run(run) && i < |run|
    ensures Once(run[i].mux)
  {
    hide Apply, Enabled;
    if i == 0 {
      assert run[0].mux == Mux.STARTED;
    } else {
      hide Once;
      RunKeepsOnce(run, i - 1);
      assert Step(run[i - 1], run[i - 1 + 1]);
      var e: Event :| Enabled(run[i - 1], e) && run[i] == Apply(run[i - 1], e);
      OnceAfter(run[i - 1], e);
    }
  }

  /** Between the two states send |k| has completed, and nothing else has. */
  predicate Completed(m: Mux.Sys, m': Mux.Sys, k: nat) {
    k !in m.results && k in m'.results && m'.results == m.results[k := m'.results[k]]
  }

  ghost predicate AtMostOne(m: Mux.Sys, m': Mux.Sys) {
    m'.results == m.results || exists k :: Completed(m, m', k)
  }

  /** In every run a step completes at most one send, and never one that has completed before. */
  lemma CompletesAtMostOnce(run: seq<Sys>, i: nat)
    requires Run(run) && i + 1 < |run|
    ensures AtMostOne(run[i].mux, run[i + 1].mux)
  {
    hide Apply, Enabled, Once, Incoming;
    RunKeepsOnce(run, i);
    assert Step(run[i], run[i + 1]);
    var e: Event :| Enabled(run[i], e) && run[i + 1] == Apply(run[i], e);
    OnceAfter(run[i], e);
    if e.Receive? {
      ReceiveStep(run[i]);
    }
  }

  lemma ReceiveStep(w: Sys)
    requires Once(w.mux) && Enabled(w, Receive)
    ensures AtMostOne(w.mux, Apply(w, Receive).mux)
  {
    hide Once, Apply, ReadFrame;
    ReceiveOnce(w);
    var done := Incoming(ClientOf(w)).1;
    if done.Some? {
      assert Completed(w.mux, Apply(w, Receive).mux, done.value.0);
    }
  }

  /** In every run a completed send keeps its result. */
  lemma {:induction false} ResultsAreFinal(run: seq<Sys>, i: nat, j: nat, k: nat)
    requires Run(run) && i <= j < |run| && k in run[i].mux.results
    ensures k in run[j].mux.results && run[j].mux.results[k] == run[i].mux.results[k]
    decreases j - i
  {
    hide Step;
    if i < j {
      CompletesAtMostOnce(run, i);
      ResultsAreFinal(run, i + 1, j, k);
    }
  }

  // ----- the bytes of the replies

  ghost function CostOf(m: map<nat, Reply>): nat -> nat {
    k => if k in m then HEADER + |m[k].payload| else 0
  }

  /** The bytes of the frames of these replies. */
  ghost function Cost(m: map<nat, Reply>): nat { Sum(multiset(m.Keys), CostOf(m)) }

  lemma CostAdd(m: map<nat, Reply>, k: nat, reply: Reply)
    requires k !in m
    ensures Cost(m[k := reply]) == Cost(m) + HEADER + |reply.payload|
  {
    hide Sum;
    var m' := m[k := reply];
    assert m'.Keys == m.Keys + {k};
    assert multiset(m'.Keys) == multiset(m.Keys) + multiset{k};
    SumInsert(multiset(m.Keys), CostOf(m'), k);
    SumSame(multiset(m.Keys), CostOf(m), CostOf(m'));
  }

  /** What has been read and lost was written. */
  ghost predicate Accounted(w: Sys, lost: nat) {
    |w.unread| + Cost(w.mux.results) + lost <= Cost(w.mux.answered) && w.taken <= |w.unread|
  }

  lemma ServeAccounts(w: Sys, h: Mux.Handling, lost: nat)
    requires Once(w.mux) && Enabled(w, Serve(h)) && Accounted(w, lost)
    ensures Accounted(Apply(w, Serve(h)), lost)
  {
    hide Cost, Mux.IdOf, Mux.Answer, WriteFrame, Once;
    var k := w.mux.requests[0];
    var f := FrameOf(Mux.Inbound(Mux.IdOf(k), Mux.Answer(h), k));
    ServeOnce(w.mux, h);
    CostAdd(w.mux.answered, k, Mux.Answer(h));
    Layout(f, []);
    assert WriteFrame(f) + [] == WriteFrame(f);
  }

  lemma FrameLength(s: Bytes)
    requires ReadFrame(s).Some?
    ensures var (f, rest) := ReadFrame(s).value; |s| == HEADER + |f.payload| + |rest|
  {
    hide Value;
  }

  lemma MeaningLength(f: Frame)
    ensures Meaning(f).Some? ==> |Meaning(f).value.payload| == |f.payload|
  {
  }

  lemma ReceiveAccounts(w: Sys, lost: nat)
    requires Once(w.mux) && Enabled(w, Receive) && Accounted(w, lost)
    ensures Accounted(Apply(w, Receive), lost)
  {
    hide Cost, ReadFrame, Meaning, Once;
    var done := Incoming(ClientOf(w)).1;
    ReceiveOnce(w);
    FrameLength(w.unread);
    MeaningLength(ReadFrame(w.unread).value.0);
    if done.Some? {
      CostAdd(w.mux.results, done.value.0, done.value.1);
    }
  }

  /** Every event keeps the account; a cut read loses at least one byte. */
  lemma AccountedAfter(w: Sys, e: Event, lost: nat)
    requires Once(w.mux) && Enabled(w, e) && Accounted(w, lost)
    ensures Accounted(Apply(w, e), if Uncut(w, e) then lost else lost + 1)
  {
    hide Cost, ReadFrame, WriteFrame, Once, Mux.IdOf, Mux.Answer;
    match e
    case Issue =>
    case Enqueue(_) =>
    case Write =>
    case Serve(h) => ServeAccounts(w, h, lost);
    case Partly(_) =>
    case Receive => ReceiveAccounts(w, lost);
  }

  ghost predicate UncutTill(run: seq<Sys>, i: nat)
    requires i < |run|
  {
    forall j :: 0 <= j < i ==> UncutStep(run[j], run[j + 1])
  }

  lemma {:induction false} RunIsAccounted(run: seq<Sys>, i: nat) returns (lost: nat)
    requires Run(run) && i < |run|
    ensures Accounted(run[i], lost) && (lost == 0 ==> UncutTill(run, i))
  {
    hide Apply, Enabled, Accounted, Once, Uncut;
    if i == 0 {
      lost := 0;
      StartAccounted();
    } else {
      var before := RunIsAccounted(run, i - 1);
      RunKeepsOnce(run, i - 1);
      assert Step(run[i - 1], run[i - 1 + 1]);
      var e: Event :| Enabled(run[i - 1], e) && run[i] == Apply(run[i - 1], e);
      AccountedAfter(run[i - 1], e, before);
      lost := if Uncut(run[i - 1], e) then before else before + 1;
    }
  }

  lemma StartAccounted()
    ensures Accounted(STARTED, 0)
  {
  }

  // ----- exactly when every send gets its own answer

  /** All issued sends have gone out and been answered, and nothing is left to read. */
  predicate AllRead(w: Sys) {
    w.mux.drawn == multiset{} && w.mux.queue == [] && w.mux.requests == [] && w.unread == []
  }

  /** Once everything is delivered, each send has returned the server's answer to it if and only if
      nothing was ever sent while a frame was partly read. */
  lemma AnsweredExactly(run: seq<Sys>)
    requires Run(run) && AllInRange(run) && AllRead(run[|run| - 1])
    ensures run[|run| - 1].mux.results == run[|run| - 1].mux.answered <==> UncutRun(run)
  {
    hide Step, UncutStep, AllInRange, Cost;
    var last := |run| - 1;
    if UncutRun(run) {
      AllAnsweredAtRest(run, last);
    }
    if run[last].mux.results == run[last].mux.answered {
      var lost := RunIsAccounted(run, last);
      assert UncutTill(run, last);
    }
  }

  // ----- what each handling is answered by

  lemma AnswerKept(w: Sys, e: Event, k: nat)
    requires Once(w.mux) && Enabled(w, e) && k in w.mux.answered
    ensures k in Apply(w, e).mux.answered && Apply(w, e).mux.answered[k] == w.mux.answered[k]
  {
    hide Once, ReadFrame, WriteFrame, Mux.IdOf, Mux.Answer;
    if e.Serve? {
      ServeOnce(w.mux, e.h);
    }
  }

  lemma {:induction false} AnswersAreFinal(run: seq<Sys>, i: nat, j: nat, k: nat)
    requires Run(run) && i <= j < |run| && k in run[i].mux.answered
    ensures k in run[j].mux.answered && run[j].mux.answered[k] == run[i].mux.answered[k]
    decreases j - i
  {
    hide Apply, Enabled, Once;
    if i < j {
      RunKeepsOnce(run, i);
      assert Step(run[i], run[i + 1]);
      var e: Event :| Enabled(run[i], e) && run[i + 1] == Apply(run[i], e);
      AnswerKept(run[i], e, k);
      AnswersAreFinal(run, i + 1, j, k);
    }
  }

  /** A send whose handling failed returns the error with its text; one whose handling gave data
      returns the data, and nothing is returned as empty data. */
  lemma HandlingIsReturned(run: seq<Sys>, i: nat, j: nat, h: Mux.Handling, k: nat)
    requires Run(run) && AllInRange(run) && UncutRun(run) && i < j < |run|
    requires run[i].mux.requests != [] && run[i].mux.requests[0] == k && run[i + 1] == Apply(run[i], Serve(h))
    requires k in run[j].mux.results
    ensures run[j].mux.results[k] == match h
              case Data(bytes) => Mux.Ok(bytes)
              case Nothing => Mux.Ok([])
              case Failed(text) => Mux.Err(text)
  {
    hide Run, UncutRun, AllInRange, ReadFrame, WriteFrame, Mux.IdOf;
    AnswersAreFinal(run, i + 1, j, k);
    CompletesOnceWithItsOwnReply(run, j, k);
  }
}
