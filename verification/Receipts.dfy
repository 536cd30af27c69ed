/** What becomes of a terminal's receipt: it is awaited exactly while the terminal is queued or being sent,
    true exactly when a dispatch has delivered it, and whatever it says there is a next step. */
module Receipts {
  import opened Delivery
  import opened Inbox
  import opened Outbound
  import opened TurnPayments
  import opened Wrappers

  /** The terminal with this receipt is queued, or being sent. */
  predicate UnderWay(w: World, m: Mid, r: nat) {
    Awaited(m, r) in w.outbox || w.inFlight == Some(Awaited(m, r))
  }

  /** Receipts are handed out once: what is queued has one of its own, and is awaited unless its message has
      been given up. */
  ghost predicate Matched(w: World) {
    && (forall i :: 0 <= i < |w.outbox| && w.outbox[i].Awaited? ==> w.outbox[i].receipt < w.nextReceipt)
    && (w.inFlight.Some? && w.inFlight.value.Awaited? ==> w.inFlight.value.receipt < w.nextReceipt)
    && (forall i, j :: 0 <= i < j < |w.outbox| && w.outbox[i].Awaited? && w.outbox[j].Awaited? ==>
                         w.outbox[i].receipt != w.outbox[j].receipt)
    && (forall i :: 0 <= i < |w.outbox| && w.outbox[i].Awaited? && w.inFlight.Some? && w.inFlight.value.Awaited? ==>
                      w.outbox[i].receipt != w.inFlight.value.receipt)
    && (forall m :: m in w.stages && w.stages[m].Awaiting? ==>
                      w.stages[m].receipt < w.nextReceipt
                      && (w.stages[m].verdict == None <==> UnderWay(w, m, w.stages[m].receipt)))
  }

  /** What an act answers to this receipt of this message. */
  ghost function Answer(w: World, a: Act, m: Mid, r: nat): Option<bool> {
    match a
    case Dispatched(subscribers) =>
      if w.inFlight == Some(Awaited(m, r)) then Some(TookOriginal(subscribers)) else None
    case DispatcherStops => if w.inFlight == Some(Awaited(m, r)) then Some(false) else None
    case Drain => if w.outbox != [] && w.outbox[0] == Awaited(m, r) then Some(false) else None
    case SendTerminal(k) => if k == m && w.stopped && w.nextReceipt == r then Some(false) else None
    case _ => None
  }

  lemma TookIsDelivered(subscribers: seq<Answers>)
    ensures TookOriginal(subscribers) <==> Delivered(subscribers)
  {
    DeliveredByCalls(subscribers, false);
  }

  /** A dispatch that ends while its receipt is awaited sets it: true if and only if every subscriber took
      the original terminal; nobody else's stage changes. */
  lemma DispatchAnswers(w: World, subscribers: seq<Answers>, m: Mid, r: nat)
    requires May(w, Dispatched(subscribers)) && w.inFlight == Some(Awaited(m, r))
    requires m in w.stages && w.stages[m] == Awaiting(r, None)
    ensures var v := Do(w, Dispatched(subscribers));
            && v.stages == w.stages[m := Awaiting(r, Some(TookOriginal(subscribers)))]
            && v.inFlight == None
  {
    TookIsDelivered(subscribers);
  }

  // ---------------------------------------------------------------- one act

  /** Nothing is queued or sent, and nobody begins to wait for a receipt but, in vain, for a new one. */
  lemma QuietKeepsMatched(w: World, v: World)
    requires Matched(w) && v.outbox == w.outbox && v.inFlight == w.inFlight && w.nextReceipt <= v.nextReceipt
    requires forall m :: m in v.stages && v.stages[m].Awaiting? ==>
                           || (m in w.stages && v.stages[m] == w.stages[m])
                           || (v.stages[m].verdict.Some? && v.stages[m].receipt == w.nextReceipt < v.nextReceipt)
    ensures Matched(v)
  {
  }

  /** Something is queued: a terminal with a new receipt, or a message nobody waits for. */
  lemma PutKeepsMatched(w: World, v: World, item: Item)
    requires Matched(w) && v.outbox == w.outbox + [item] && v.inFlight == w.inFlight
    requires item.Awaited? ==> item.receipt == w.nextReceipt < v.nextReceipt
    requires w.nextReceipt <= v.nextReceipt
    requires forall m :: m in v.stages && v.stages[m].Awaiting? ==>
                           || (m in w.stages && v.stages[m] == w.stages[m])
                           || (v.stages[m].verdict.None? && item == Awaited(m, v.stages[m].receipt))
    ensures Matched(v)
  {
    assert item in v.outbox;
    forall m | m in v.stages && v.stages[m].Awaiting?
      ensures v.stages[m].verdict == None <==> UnderWay(v, m, v.stages[m].receipt)
    {
      var a := Awaited(m, v.stages[m].receipt);
      assert a in v.outbox <==> a in w.outbox || a == item;
    }
  }

  lemma DispatchKeepsMatched(w: World)
    requires Matched(w) && May(w, Dispatch)
    ensures Matched(Do(w, Dispatch))
  {
    var v := Do(w, Dispatch);
    assert w.outbox == [w.outbox[0]] + v.outbox;
    assert forall i :: 0 <= i < |v.outbox| ==> v.outbox[i] == w.outbox[i + 1];
    forall m | m in v.stages && v.stages[m].Awaiting?
      ensures v.stages[m].verdict == None <==> UnderWay(v, m, v.stages[m].receipt)
    {
      var a := Awaited(m, v.stages[m].receipt);
      assert a in w.outbox <==> a == w.outbox[0] || a in v.outbox;
    }
  }

  lemma EndKeepsMatched(w: World, v: World, ok: bool)
    requires Matched(w) && w.inFlight.Some? && v.inFlight == None && v.outbox == w.outbox
    requires v.nextReceipt == w.nextReceipt && v.stages == Resolve(w.stages, w.inFlight.value, ok)
    ensures Matched(v)
  {
  }

  lemma DrainKeepsMatched(w: World)
    requires Matched(w) && May(w, Drain)
    ensures Matched(Do(w, Drain))
  {
    var v, first := Do(w, Drain), w.outbox[0];
    assert forall i :: 0 <= i < |v.outbox| ==> v.outbox[i] == w.outbox[i + 1];
    assert first.Awaited? ==> forall i :: 0 <= i < |v.outbox| ==> v.outbox[i] != first;
    forall m | m in v.stages && v.stages[m].Awaiting?
      ensures v.stages[m].verdict == None <==> UnderWay(v, m, v.stages[m].receipt)
    {
      var a := Awaited(m, v.stages[m].receipt);
      assert w.outbox == [first] + v.outbox;
      assert a in w.outbox <==> a == first || a in v.outbox;
    }
  }

  lemma DoKeepsMatched(w: World, a: Act)
    requires Matched(w) && May(w, a)
    ensures Matched(Do(w, a))
  {
    match a
    case SendTerminal(m) =>
      if w.stopped {
        QuietKeepsMatched(w, Do(w, a));
      } else {
        PutKeepsMatched(w, Do(w, a), Awaited(m, w.nextReceipt));
      }
    case SendPlain(c) => PutKeepsMatched(w, Do(w, a), Plain(c));
    case FinishPlain(_, m, _, replies) =>
      if replies {
        PutKeepsMatched(w, Do(w, a), Plain(w.bus.chat(m)));
      } else {
        QuietKeepsMatched(w, Do(w, a));
      }
    case Dispatch => DispatchKeepsMatched(w);
    case Dispatched(subscribers) => EndKeepsMatched(w, Do(w, a), Delivered(subscribers));
    case DispatcherStops =>
      if w.inFlight.Some? {
        EndKeepsMatched(w, Do(w, a), false);
      } else {
        QuietKeepsMatched(w, Do(w, a));
      }
    case Drain => DrainKeepsMatched(w);
    case _ => QuietKeepsMatched(w, Do(w, a));
  }

  /** What one act does to a receipt that is awaited afterwards: it was awaited before and has been answered
      now, if it is the act's to answer; or it is new. */
  lemma ActAnswers(w: World, a: Act, m: Mid)
    requires Matched(w) && May(w, a) && m in Do(w, a).stages && Do(w, a).stages[m].Awaiting?
    ensures var Awaiting(r, verdict) := Do(w, a).stages[m];
            var answer := Answer(w, a, m, r);
            if m in w.stages && w.stages[m].Awaiting? && w.stages[m].receipt == r
            then verdict == (if answer.Some? then answer else w.stages[m].verdict)
                 && (answer.Some? ==> w.stages[m].verdict == None)
            else r == w.nextReceipt < Do(w, a).nextReceipt && verdict == answer
  {
    match a
    case Dispatched(subscribers) => TookIsDelivered(subscribers);
    case Drain => assert w.outbox[0] in w.outbox;
    case _ =>
  }

  lemma AnswersOldOnes(w: World, a: Act, m: Mid, r: nat)
    requires Matched(w) && May(w, a) && Answer(w, a, m, r).Some?
    ensures r < Do(w, a).nextReceipt
  {
  }

  // ---------------------------------------------------------------- every run

  ghost predicate AnsweredAt(w: World, acts: seq<Act>, i: nat, m: Mid, r: nat, ok: bool) {
    && i < |acts| && May(Play(w, acts[..i]), acts[i])
    && Answer(Play(w, acts[..i]), acts[i], m, r) == Some(ok)
  }

  lemma {:induction false} PlayKeepsMatched(w: World, acts: seq<Act>)
    requires Matched(w)
    ensures Matched(Play(w, acts)) && w.nextReceipt <= Play(w, acts).nextReceipt
    decreases |acts|
  {
    if acts != [] {
      var front := acts[..|acts| - 1];
      PlayKeepsMatched(w, front);
      if May(Play(w, front), acts[|acts| - 1]) {
        DoKeepsMatched(Play(w, front), acts[|acts| - 1]);
      }
    }
  }

  lemma {:induction false} AnsweredIsOld(w: World, acts: seq<Act>, i: nat, m: Mid, r: nat, ok: bool)
    requires Matched(w) && AnsweredAt(w, acts, i, m, r, ok)
    ensures r < Play(w, acts).nextReceipt
    decreases |acts|
  {
    var front, a := acts[..|acts| - 1], acts[|acts| - 1];
    PlayKeepsMatched(w, front);
    if i < |front| {
      assert front[..i] == acts[..i];
      AnsweredIsOld(w, front, i, m, r, ok);
    } else {
      assert acts[..i] == front;
      AnswersOldOnes(Play(w, front), a, m, r);
    }
  }

  /** Answered in a run: before its last act, or by it. */
  lemma AnsweredGrows(w: World, acts: seq<Act>, m: Mid, r: nat, ok: bool)
    requires acts != []
    ensures var front, a := acts[..|acts| - 1], acts[|acts| - 1];
            (exists i: nat :: AnsweredAt(w, acts, i, m, r, ok)) <==>
              || (exists i: nat :: AnsweredAt(w, front, i, m, r, ok))
              || (May(Play(w, front), a) && Answer(Play(w, front), a, m, r) == Some(ok))
  {
    var n := |acts| - 1;
    var front := acts[..n];
    assert AnsweredAt(w, acts, n, m, r, ok) <==> May(Play(w, front), acts[n]) && Answer(Play(w, front), acts[n], m, r) == Some(ok);
    forall i: nat | i < n ensures AnsweredAt(w, acts, i, m, r, ok) <==> AnsweredAt(w, front, i, m, r, ok) {
      assert front[..i] == acts[..i];
    }
    if i: nat :| AnsweredAt(w, front, i, m, r, ok) {
      assert AnsweredAt(w, acts, i, m, r, ok);
    }
  }

  lemma {:induction false} VerdictSince(w: World, acts: seq<Act>, m: Mid, ok: bool)
    requires Matched(w) && (m in w.stages ==> !w.stages[m].Awaiting?)
    requires m in Play(w, acts).stages && Play(w, acts).stages[m].Awaiting?
    ensures var Awaiting(r, verdict) := Play(w, acts).stages[m];
            verdict == Some(ok) <==> exists i: nat :: AnsweredAt(w, acts, i, m, r, ok)
    decreases |acts|
  {
    if acts != [] {
      var front, a := acts[..|acts| - 1], acts[|acts| - 1];
      var v := Play(w, front);
      var Awaiting(r, verdict) := Play(w, acts).stages[m];
      PlayKeepsMatched(w, front);
      AnsweredGrows(w, acts, m, r, ok);
      if m in v.stages && v.stages[m].Awaiting? && v.stages[m].receipt == r {
        VerdictSince(w, front, m, ok);
      } else if i: nat :| AnsweredAt(w, front, i, m, r, ok) {
        AnsweredIsOld(w, front, i, m, r, ok);
      }
      if May(v, a) {
        ActAnswers(v, a, m);
      }
    }
  }

  /** Over every run, as long as a message's receipt is awaited: it is unanswered if and only if its terminal
      is queued or being sent; and it says what some act of the run has answered to it, true if and only if
      at some point a dispatch of this very terminal ended with every subscriber having taken it. */
  lemma VerdictIff(chat: Mid -> Chat, rows: set<Hid>, nextHid: Hid, acts: seq<Act>, m: Mid)
    requires var v := Play(Start(chat, rows, nextHid), acts); m in v.stages && v.stages[m].Awaiting?
    ensures var w := Start(chat, rows, nextHid);
            var v := Play(w, acts);
            var Awaiting(r, verdict) := v.stages[m];
            && (verdict == None <==> UnderWay(v, m, r))
            && (verdict == Some(true) <==> exists i: nat :: AnsweredAt(w, acts, i, m, r, true))
            && (verdict == Some(false) <==> exists i: nat :: AnsweredAt(w, acts, i, m, r, false))
            && (forall i: nat :: AnsweredAt(w, acts, i, m, r, true) ==> DeliveredAt(w, acts, i, m))
  {
    var w := Start(chat, rows, nextHid);
    PlayKeepsMatched(w, acts);
    VerdictSince(w, acts, m, true);
    VerdictSince(w, acts, m, false);
  }

  // ---------------------------------------------------------------- there is a next step

  /** Whatever the state of a message in the worker's hands, there is something to be done about it: a
      terminal is sent, or is on its way; a false receipt sends it again; a true one completes. */
  lemma NeverStuck(w: World, m: Mid, t: Tid)
    requires Handled(w) && Answered(w) && Inbox.Inv(w.bus) && Matched(w)
    requires m in w.stages && !w.stages[m].Done? && !w.bus.fatal && t !in w.bus.procs
    ensures match w.stages[m]
            case Working =>
              if m in w.bus.plain then May(w, FinishPlain(t, m, Deleted, true))
              else May(w, SendTerminal(m)) && Do(w, SendTerminal(m)).stages[m] ==
                                              Awaiting(w.nextReceipt, if w.stopped then Some(false) else None)
            case Awaiting(r, None) => UnderWay(w, m, r)
            case Awaiting(_, Some(true)) => May(w, CompleteMessage(t, m, Deleted))
            case Awaiting(_, Some(false)) => May(w, Redeliver(m)) && Do(w, Redeliver(m)).stages == w.stages[m := Working]
  {
    assert Uncompleted(w.bus, m);
  }

  lemma TrueCompletes(v: World, m: Mid, t: Tid)
    requires Inbox.Inv(v.bus) && Uncompleted(v.bus, m) && m !in v.bus.plain && !v.bus.fatal && t !in v.bus.procs
    requires m in v.stages && v.stages[m].Awaiting? && v.stages[m].verdict == Some(true)
    ensures May(v, CompleteMessage(t, m, Deleted)) && m in Do(v, CompleteMessage(t, m, Deleted)).bus.gone
  {
    ReceiptLeadsToDeletion(v, t, m);
  }

  /** From the dispatch of an awaited terminal to the deletion: if every subscriber took it, the message can be
      completed, which, when the store answers, deletes its row. */
  lemma DeliveryLeadsToDeletion(w: World, subscribers: seq<Answers>, m: Mid, r: nat, t: Tid)
    requires Handled(w) && Answered(w) && Inbox.Inv(w.bus) && May(w, Dispatched(subscribers))
    requires w.inFlight == Some(Awaited(m, r)) && m in w.stages && w.stages[m] == Awaiting(r, None)
    requires !w.bus.fatal && t !in w.bus.procs && TookOriginal(subscribers)
    ensures var v := Do(w, Dispatched(subscribers));
            && May(v, CompleteMessage(t, m, Deleted)) && !May(v, Redeliver(m))
            && m in Do(v, CompleteMessage(t, m, Deleted)).bus.gone
  {
    DispatchAnswers(w, subscribers, m, r);
    assert Uncompleted(w.bus, m) && Do(w, Dispatched(subscribers)).bus == w.bus;
    TrueCompletes(Do(w, Dispatched(subscribers)), m, t);
  }

  /** If not, it cannot be completed; its terminal can be sent once more, and its row is untouched. */
  lemma FailureSendsAgain(w: World, subscribers: seq<Answers>, m: Mid, r: nat, t: Tid)
    requires Handled(w) && Answered(w) && Inbox.Inv(w.bus) && May(w, Dispatched(subscribers))
    requires w.inFlight == Some(Awaited(m, r)) && m in w.stages && w.stages[m] == Awaiting(r, None)
    requires !TookOriginal(subscribers)
    ensures var v := Do(w, Dispatched(subscribers));
            && May(v, Redeliver(m)) && !May(v, CompleteMessage(t, m, Deleted))
            && May(Do(v, Redeliver(m)), SendTerminal(m)) && v.bus == w.bus
  {
    DispatchAnswers(w, subscribers, m, r);
  }

  // ---------------------------------------------------------------- the outbound queue

  function Puts(w: World, a: Act): seq<Item>
    requires May(w, a)
  {
    match a
    case SendTerminal(m) => if w.stopped then [] else [Awaited(m, w.nextReceipt)]
    case SendPlain(c) => [Plain(c)]
    case FinishPlain(_, m, _, replies) => if replies then [Plain(w.bus.chat(m))] else []
    case _ => []
  }

  /** Everything put on the outbound queue in a run, in order. */
  function AllPut(w: World, acts: seq<Act>): seq<Item>
    decreases |acts|
  {
    if acts == [] then []
    else
      var v, a := Play(w, acts[..|acts| - 1]), acts[|acts| - 1];
      AllPut(w, acts[..|acts| - 1]) + if May(v, a) then Puts(v, a) else []
  }

  /** How much was taken from it, by the dispatcher or at the shutdown. */
  function Takes(w: World, acts: seq<Act>): nat
    decreases |acts|
  {
    if acts == [] then 0
    else
      var v, a := Play(w, acts[..|acts| - 1]), acts[|acts| - 1];
      Takes(w, acts[..|acts| - 1]) + if May(v, a) && (a.Dispatch? || a.Drain?) then 1 else 0
  }

  lemma OutboxStep(w: World, a: Act)
    requires May(w, a)
    ensures Do(w, a).outbox == if a.Dispatch? || a.Drain? then w.outbox[1..] else w.outbox + Puts(w, a)
    ensures a.Dispatch? || a.Drain? ==> Puts(w, a) == []
  {
  }

  /** The dispatcher takes the first item, and that one it sends. */
  lemma DispatchTakesFirst(w: World)
    requires May(w, Dispatch)
    ensures Do(w, Dispatch).inFlight == Some(w.outbox[0]) && w.outbox == [w.outbox[0]] + Do(w, Dispatch).outbox
  {
  }

  /** `left` is `all` without its first elements; so it stays when one more is taken, or some are put. */
  lemma StillInOrder(all: seq<Item>, taken: nat, put: seq<Item>)
    requires taken <= |all|
    ensures all[taken..] + put == (all + put)[taken..]
    ensures taken < |all| ==> all[taken..][1..] == all[taken + 1..]
  {
  }

  lemma LastAct(w: World, acts: seq<Act>)
    requires acts != []
    ensures var front, a := acts[..|acts| - 1], acts[|acts| - 1];
            var v := Play(w, front);
            && (May(v, a) ==>
                  && Play(w, acts) == Do(v, a)
                  && w.outbox + AllPut(w, acts) == (w.outbox + AllPut(w, front)) + Puts(v, a)
                  && Takes(w, acts) == Takes(w, front) + if a.Dispatch? || a.Drain? then 1 else 0)
            && (!May(v, a) ==>
                  && Play(w, acts) == v && AllPut(w, acts) == AllPut(w, front) && Takes(w, acts) == Takes(w, front))
  {
  }

  /** First in, first out: the outbound queue is all that was put there, without the first ones, as many as
      were taken. */
  lemma {:induction false} OutboxInOrder(w: World, acts: seq<Act>)
    ensures var all := w.outbox + AllPut(w, acts);
            Takes(w, acts) <= |all| && Play(w, acts).outbox == all[Takes(w, acts)..]
    decreases |acts|
  {
    if acts == [] {
      assert w.outbox + AllPut(w, acts) == w.outbox;
    } else {
      var front, a := acts[..|acts| - 1], acts[|acts| - 1];
      OutboxInOrder(w, front);
      LastAct(w, acts);
      if May(Play(w, front), a) {
        OutboxStep(Play(w, front), a);
        StillInOrder(w.outbox + AllPut(w, front), Takes(w, front), Puts(Play(w, front), a));
      }
    }
  }

  /** The dispatcher's last word: it stopped, and has not started again. */
  predicate StoppedBy(w: World, acts: seq<Act>)
    decreases |acts|
  {
    if acts == [] then w.stopped
    else
      var v, a := Play(w, acts[..|acts| - 1]), acts[|acts| - 1];
      a.DispatcherStops? || (StoppedBy(w, acts[..|acts| - 1]) && !(a.DispatcherRuns? && May(v, a)))
  }

  /** After the dispatcher has stopped, and until it starts again, nothing is dispatched and a terminal is
      refused at once; otherwise it is queued. */
  lemma {:induction false} StoppedIff(w: World, acts: seq<Act>, m: Mid)
    requires w.stopped ==> !w.running && w.inFlight == None
    ensures var v := Play(w, acts);
            && (v.stopped <==> StoppedBy(w, acts))
            && (v.stopped ==> !v.running && v.inFlight == None && !May(v, Dispatch))
            && (May(v, SendTerminal(m)) ==>
                  (Do(v, SendTerminal(m)).stages[m] == Awaiting(v.nextReceipt, Some(false)) <==> StoppedBy(w, acts)))
    decreases |acts|
  {
    if acts != [] {
      StoppedIff(w, acts[..|acts| - 1], m);
    }
  }

  /** Once started again, the dispatcher takes what is queued. */
  lemma RunsAgain(w: World)
    requires May(w, DispatcherRuns)
    ensures var v := Do(w, DispatcherRuns);
            v.running && !v.stopped && v.outbox == w.outbox && (v.outbox != [] ==> May(v, Dispatch))
  {
  }
}
