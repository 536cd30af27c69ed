/** The path from an accepted handoff to the deletion of its row (bootstrap/passive_worker.py over
    bus/queue.py): the lane worker takes the message, publishes its turn's terminal with a receipt, and
    completes the message only on a true receipt; everything else leaves the row and its owner alone. */
module Delivery {
  import opened Inbox
  import opened Outbound
  import opened Wrappers

  /** Where the worker is with one message. Every (re)delivery sends that turn's one terminal. */
  datatype Stage =
    | Working
    | Awaiting(receipt: nat, verdict: Option<bool>)
    | Done

  /** The outbound queue: awaited terminals, and messages sent to a chat without a receipt. */
  datatype Item = Awaited(mid: Mid, receipt: nat) | Plain(chat: Chat)

  /** `landed` is history: the messages whose original terminal some dispatch has delivered. */
  datatype World = World(bus: Bus, stages: map<Mid, Stage>, outbox: seq<Item>, inFlight: Option<Item>,
                         running: bool, stopped: bool, nextReceipt: nat, landed: set<Mid>)

  datatype Act =
    | BusEvent(e: Event)                       // any event of the inbox but the two below
    | Take                                     // the worker takes the next inbound message
    | SendTerminal(mid: Mid)                   // publish_outbound_awaited
    | FinishPlain(t: Tid, mid: Mid, outcome: Outcome, replies: bool) // no row: publish, complete at once
    | SendPlain(chat: Chat)                    // publish_outbound by anybody
    | Dispatch                                 // the dispatcher takes the next item
    | Dispatched(subscribers: seq<Answers>)    // its send is over
    | DispatcherStops                          // cancelled, perhaps in the middle of a send
    | DispatcherRuns
    | Drain                                    // shutdown empties the queue
    | Redeliver(mid: Mid)                      // the terminal was retained: once more
    | CompleteMessage(t: Tid, mid: Mid, outcome: Outcome)
    | GiveUp(mid: Mid)                         // the lane task is cancelled or fails

  function Start(chat: Mid -> Chat, rows: set<Hid>, nextHid: Hid): World {
    World(Init(chat, rows, nextHid), map[], [], None, false, false, 0, {})
  }

  predicate May(w: World, a: Act) {
    match a
    case BusEvent(e) => !e.Consume? && !e.Complete? && Enabled(w.bus, e)
    case Take => Enabled(w.bus, Consume)
    case SendTerminal(mid) => mid in w.stages && w.stages[mid].Working? && mid !in w.bus.plain
    case FinishPlain(t, mid, outcome, _) =>
      mid in w.stages && w.stages[mid].Working? && mid in w.bus.plain && Enabled(w.bus, Complete(t, mid, outcome))
    case SendPlain(_) => true
    case Dispatch => w.running && w.inFlight.None? && w.outbox != []
    case Dispatched(_) => w.inFlight.Some?
    case DispatcherStops => true
    case DispatcherRuns => w.inFlight.None?
    case Drain => w.outbox != []
    case Redeliver(mid) =>
      mid in w.stages && w.stages[mid].Awaiting? && w.stages[mid].verdict == Some(false)
    case CompleteMessage(t, mid, outcome) =>
      && mid in w.stages && w.stages[mid].Awaiting? && w.stages[mid].verdict == Some(true)
      && Enabled(w.bus, Complete(t, mid, outcome))
    case GiveUp(mid) => mid in w.stages
  }

  /** A receipt is set once, and only if somebody still awaits it. */
  function Resolve(stages: map<Mid, Stage>, item: Item, ok: bool): map<Mid, Stage> {
    if item.Awaited? && item.mid in stages && stages[item.mid] == Awaiting(item.receipt, None)
    then stages[item.mid := Awaiting(item.receipt, Some(ok))] else stages
  }

  function Do(w: World, a: Act): World
    requires May(w, a)
  {
    match a
    case BusEvent(e) => w.(bus := Step(w.bus, e))
    case Take => w.(bus := Step(w.bus, Consume), stages := w.stages[w.bus.inbound[0] := Working])
    case SendTerminal(mid) =>
      if w.stopped then w.(stages := w.stages[mid := Awaiting(w.nextReceipt, Some(false))], nextReceipt := w.nextReceipt + 1)
      else
        w.(stages := w.stages[mid := Awaiting(w.nextReceipt, None)], nextReceipt := w.nextReceipt + 1,
           outbox := w.outbox + [Awaited(mid, w.nextReceipt)])
    case FinishPlain(t, mid, outcome, replies) =>
      w.(bus := Step(w.bus, Complete(t, mid, outcome)), stages := w.stages[mid := Done],
         outbox := if replies then w.outbox + [Plain(w.bus.chat(mid))] else w.outbox)
    case SendPlain(chat) => w.(outbox := w.outbox + [Plain(chat)])
    case Dispatch => w.(inFlight := Some(w.outbox[0]), outbox := w.outbox[1..])
    case Dispatched(subscribers) =>
      var item := w.inFlight.value;
      w.(inFlight := None, stages := Resolve(w.stages, item, Delivered(subscribers)),
         landed := if item.Awaited? && Delivered(subscribers) then w.landed + {item.mid} else w.landed)
    case DispatcherStops =>
      w.(running := false, stopped := true, inFlight := None,
         stages := if w.inFlight.Some? then Resolve(w.stages, w.inFlight.value, false) else w.stages)
    case DispatcherRuns => w.(running := true, stopped := false)
    case Drain => w.(outbox := w.outbox[1..], stages := Resolve(w.stages, w.outbox[0], false))
    case Redeliver(mid) => w.(stages := w.stages[mid := Working])
    case CompleteMessage(t, mid, outcome) =>
      w.(bus := Step(w.bus, Complete(t, mid, outcome)), stages := w.stages[mid := Done])
    case GiveUp(mid) => w.(stages := w.stages[mid := Done])
  }

  /** Only a landed terminal clears a message for deletion. */
  ghost predicate Cleared(w: World) {
    && w.bus.gone <= w.landed
    && (forall m :: m in w.bus.accepted && w.bus.accepted[m].cleanupPending ==> m in w.landed)
    && (forall m :: m in w.stages && w.stages[m].Awaiting? && w.stages[m].verdict == Some(true) ==> m in w.landed)
  }

  lemma DoKeepsInbox(w: World, a: Act)
    requires Inbox.Inv(w.bus) && May(w, a)
    ensures Inbox.Inv(Do(w, a).bus)
  {
    match a
    case BusEvent(e) => StepKeepsInv(w.bus, e);
    case Take => StepKeepsInv(w.bus, Consume);
    case CompleteMessage(t, mid, outcome) => StepKeepsInv(w.bus, Complete(t, mid, outcome));
    case FinishPlain(t, mid, outcome, _) => StepKeepsInv(w.bus, Complete(t, mid, outcome));
    case _ => assert Do(w, a).bus == w.bus;
  }

  lemma BusKeepsCleared(w: World, e: Event)
    requires Cleared(w) && May(w, BusEvent(e))
    ensures Cleared(Do(w, BusEvent(e)))
  {
  }

  lemma PlainKeepsCleared(w: World, t: Tid, mid: Mid, outcome: Outcome, replies: bool)
    requires Cleared(w) && Inbox.Inv(w.bus) && May(w, FinishPlain(t, mid, outcome, replies))
    ensures Cleared(Do(w, FinishPlain(t, mid, outcome, replies)))
  {
    assert mid !in w.bus.accepted;
  }

  lemma ReceiptsKeepCleared(w: World, subscribers: seq<Answers>)
    requires Cleared(w) && May(w, Dispatched(subscribers))
    ensures Cleared(Do(w, Dispatched(subscribers)))
  {
  }

  lemma CompletionKeepsCleared(w: World, t: Tid, mid: Mid, outcome: Outcome)
    requires Cleared(w) && May(w, CompleteMessage(t, mid, outcome))
    ensures Cleared(Do(w, CompleteMessage(t, mid, outcome)))
  {
  }

  lemma DoKeepsCleared(w: World, a: Act)
    requires Cleared(w) && Inbox.Inv(w.bus) && May(w, a)
    ensures Cleared(Do(w, a))
  {
    match a
    case BusEvent(e) => BusKeepsCleared(w, e);
    case Dispatched(subscribers) => ReceiptsKeepCleared(w, subscribers);
    case CompleteMessage(t, mid, outcome) => CompletionKeepsCleared(w, t, mid, outcome);
    case FinishPlain(t, mid, outcome, replies) => PlainKeepsCleared(w, t, mid, outcome, replies);
    case _ =>
  }

  // ---------------------------------------------------------------- each message is completed once

  /** Nobody has completed the message yet. */
  predicate Uncompleted(b: Bus, m: Mid) {
    (m in b.accepted && m !in b.gone && !b.accepted[m].cleanupPending) || m in b.plain
  }

  ghost predicate Registers(b: Bus, t: Tid, m: Mid) {
    t in b.procs && Registering(b.procs[t]).Some? && Registering(b.procs[t]).value.0 == m
  }

  /** A message is in the queue, or with the worker, or has not got that far; until the worker is done
      with it, nobody has completed it. */
  ghost predicate Handled(w: World) {
    && (forall i, j :: 0 <= i < j < |w.bus.inbound| ==> w.bus.inbound[i] != w.bus.inbound[j])
    && (forall m :: m in w.bus.inbound ==> m !in w.stages && Uncompleted(w.bus, m))
    && (forall m :: m in w.stages ==> m < w.bus.nextMid && (!w.stages[m].Done? ==> Uncompleted(w.bus, m)))
    && (forall t, m :: Registers(w.bus, t, m) ==> m !in w.stages)
  }

  /** The bus may do anything to the other messages; `m` is the one it completes or releases, if any. */
  lemma OthersHandled(w: World, v: World, m: Mid)
    requires Handled(w) && v.bus.inbound == w.bus.inbound && w.bus.nextMid <= v.bus.nextMid
    requires v.stages == w.stages || (m in w.stages && v.stages == w.stages[m := Done])
    requires m in v.stages && !v.stages[m].Done? ==> !Uncompleted(w.bus, m) || Uncompleted(v.bus, m)
    requires m in w.bus.inbound ==> Uncompleted(v.bus, m)
    requires forall k :: k != m && Uncompleted(w.bus, k) ==> Uncompleted(v.bus, k)
    requires forall t, k :: Registers(v.bus, t, k) ==> Registers(w.bus, t, k) || w.bus.nextMid <= k
    ensures Handled(v)
  {
  }

  /** A message that is nowhere yet comes into the queue. */
  lemma QueuedHandled(w: World, v: World, m: Mid)
    requires Handled(w) && v.stages == w.stages && v.bus.inbound == w.bus.inbound + [m]
    requires m !in w.bus.inbound && m !in w.stages && Uncompleted(v.bus, m) && w.bus.nextMid <= v.bus.nextMid
    requires forall k :: Uncompleted(w.bus, k) ==> Uncompleted(v.bus, k)
    requires forall t, k :: Registers(v.bus, t, k) ==> Registers(w.bus, t, k)
    ensures Handled(v)
  {
  }

  lemma UncompletedIsOld(b: Bus, m: Mid)
    requires Inbox.Inv(b) && Uncompleted(b, m)
    ensures m < b.nextMid
  {
  }

  lemma PlainKeepsHandled(w: World)
    requires Handled(w) && Inbox.Inv(w.bus) && May(w, BusEvent(PublishPlain))
    ensures Handled(Do(w, BusEvent(PublishPlain)))
  {
    var m := w.bus.nextMid;
    if m in w.bus.inbound {
      UncompletedIsOld(w.bus, m);
    }
    QueuedHandled(w, Do(w, BusEvent(PublishPlain)), m);
  }

  lemma EnqueueKeepsHandled(w: World, t: Tid)
    requires Handled(w) && Inbox.Inv(w.bus) && May(w, BusEvent(Enqueue(t)))
    ensures Handled(Do(w, BusEvent(Enqueue(t))))
  {
    var v := Do(w, BusEvent(Enqueue(t)));
    var (m, h) := Registering(w.bus.procs[t]).value;
    assert Registers(w.bus, t, m) && Registered(w.bus, t, m, h);
    assert !Uncompleted(w.bus, m);
    assert forall u, k :: Registers(v.bus, u, k) ==> Registers(w.bus, u, k);
    QueuedHandled(w, v, m);
  }

  /** Events that neither queue nor complete nor release a message. */
  lemma IdleKeepsHandled(w: World, v: World)
    requires Handled(w) && v.stages == w.stages && v.bus.inbound == w.bus.inbound
    requires v.bus.accepted == w.bus.accepted && v.bus.gone == w.bus.gone && v.bus.plain == w.bus.plain
    requires w.bus.nextMid <= v.bus.nextMid
    requires forall t, k :: Registers(v.bus, t, k) ==> Registers(w.bus, t, k) || w.bus.nextMid <= k
    ensures Handled(v)
  {
    assert forall m :: Uncompleted(v.bus, m) <==> Uncompleted(w.bus, m);
  }

  /** A row is deleted: its message was not uncompleted before, as its delete was being retried. */
  lemma DeletedKeepsHandled(w: World, t: Tid, m: Mid)
    requires Handled(w) && Inbox.Inv(w.bus) && t !in w.bus.procs
    requires m in w.bus.accepted && w.bus.accepted[m].cleanupPending
    ensures Handled(w.(bus := DeleteRow(w.bus, t, m)))
  {
    var v := w.(bus := DeleteRow(w.bus, t, m));
    assert !Uncompleted(w.bus, m);
    assert forall u, k :: Registers(v.bus, u, k) ==> Registers(w.bus, u, k);
    OthersHandled(w, v, m);
  }

  lemma RetryKeepsHandled(w: World, t: Tid, m: Mid, outcome: Outcome)
    requires Handled(w) && Inbox.Inv(w.bus) && May(w, BusEvent(Retry(t, m, outcome)))
    ensures Handled(Do(w, BusEvent(Retry(t, m, outcome))))
  {
    var b := w.bus;
    if m in b.accepted && b.accepted[m].cleanupPending && Deletion(b, b.accepted[m].hid, outcome) == Deleted {
      DeletedKeepsHandled(w, t, m);
      IdleKeepsHandled(w.(bus := DeleteRow(b, t, m)), Do(w, BusEvent(Retry(t, m, outcome))));
    } else {
      IdleKeepsHandled(w, Do(w, BusEvent(Retry(t, m, outcome))));
    }
  }

  lemma FinalizeKeepsHandled(w: World, t: Tid)
    requires Handled(w) && Inbox.Inv(w.bus) && May(w, BusEvent(Finalize(t)))
    ensures Handled(Do(w, BusEvent(Finalize(t))))
  {
    var v, m := Do(w, BusEvent(Finalize(t))), w.bus.procs[t].mid;
    assert m in w.bus.gone;
    assert forall u, k :: Registers(v.bus, u, k) ==> Registers(w.bus, u, k);
    OthersHandled(w, v, m);
  }

  predicate Idle(e: Event) {
    !e.Enqueue? && !e.PublishPlain? && !e.Consume? && !e.Complete? && !e.Retry? && !e.Finalize?
  }

  lemma IdleEvent(b: Bus, e: Event)
    requires Enabled(b, e) && Idle(e)
    ensures var d := Step(b, e);
            && d.inbound == b.inbound && d.accepted == b.accepted && d.gone == b.gone && d.plain == b.plain
            && b.nextMid <= d.nextMid
            && forall t, k :: Registers(d, t, k) ==> Registers(b, t, k) || b.nextMid <= k
  {
  }

  lemma BusKeepsHandled(w: World, e: Event)
    requires Handled(w) && Inbox.Inv(w.bus) && May(w, BusEvent(e))
    ensures Handled(Do(w, BusEvent(e)))
  {
    if e.Enqueue? {
      EnqueueKeepsHandled(w, e.t);
    } else if e.PublishPlain? {
      PlainKeepsHandled(w);
    } else if e.Retry? {
      RetryKeepsHandled(w, e.t, e.mid, e.outcome);
    } else if e.Finalize? {
      FinalizeKeepsHandled(w, e.t);
    } else {
      IdleEvent(w.bus, e);
      IdleKeepsHandled(w, w.(bus := Step(w.bus, e)));
    }
  }

  lemma TakeKeepsHandled(w: World)
    requires Handled(w) && Inbox.Inv(w.bus) && May(w, Take)
    ensures Handled(Do(w, Take))
  {
    var v, first := Do(w, Take), w.bus.inbound[0];
    assert w.bus.inbound == [first] + v.bus.inbound;
    assert Uncompleted(w.bus, first);
    UncompletedIsOld(w.bus, first);
    assert forall m :: Uncompleted(v.bus, m) <==> Uncompleted(w.bus, m);
    forall i | 0 <= i < |v.bus.inbound| ensures v.bus.inbound[i] != first && v.bus.inbound[i] in w.bus.inbound {
      assert w.bus.inbound[i + 1] == v.bus.inbound[i];
    }
    forall t, m | Registers(v.bus, t, m) ensures m !in v.stages {
      assert Registers(w.bus, t, m) && Registered(w.bus, t, m, Registering(w.bus.procs[t]).value.1);
    }
  }

  lemma StagesKeepHandled(w: World, v: World)
    requires Handled(w) && v.bus == w.bus && v.stages.Keys == w.stages.Keys
    requires forall m :: m in v.stages && w.stages[m].Done? ==> v.stages[m].Done?
    ensures Handled(v)
  {
  }

  lemma CompletionKeepsHandled(w: World, v: World, t: Tid, m: Mid, outcome: Outcome)
    requires Handled(w) && Inbox.Inv(w.bus) && Enabled(w.bus, Complete(t, m, outcome)) && m in w.stages
    requires v.bus == Step(w.bus, Complete(t, m, outcome)) && v.stages == w.stages[m := Done]
    ensures Handled(v)
  {
    assert forall u, k :: Registers(v.bus, u, k) ==> Registers(w.bus, u, k);
    OthersHandled(w, v, m);
  }

  lemma DoKeepsHandled(w: World, a: Act)
    requires Handled(w) && Inbox.Inv(w.bus) && May(w, a)
    ensures Handled(Do(w, a))
  {
    match a
    case BusEvent(e) => BusKeepsHandled(w, e);
    case Take => TakeKeepsHandled(w);
    case CompleteMessage(t, m, outcome) => CompletionKeepsHandled(w, Do(w, a), t, m, outcome);
    case FinishPlain(t, m, outcome, _) => CompletionKeepsHandled(w, Do(w, a), t, m, outcome);
    case _ => StagesKeepHandled(w, Do(w, a));
  }

  /** What an act does to the turns owed. */
  function TurnMove(w: World, a: Act): Move
    requires May(w, a)
  {
    match a
    case BusEvent(e) => MoveOf(w.bus, e)
    case CompleteMessage(t, m, outcome) => MoveOf(w.bus, Complete(t, m, outcome))
    case FinishPlain(t, m, outcome, _) => MoveOf(w.bus, Complete(t, m, outcome))
    case _ => Stays
  }

  lemma ActMovesOneTurn(w: World, a: Act)
    requires Handled(w) && Inbox.Inv(w.bus) && May(w, a)
    ensures Moved(w.bus, Do(w, a).bus, TurnMove(w, a))
  {
    match a
    case BusEvent(e) => MovesOneTurn(w.bus, e);
    case CompleteMessage(t, m, outcome) => MovesOneTurn(w.bus, Complete(t, m, outcome));
    case FinishPlain(t, m, outcome, _) => MovesOneTurn(w.bus, Complete(t, m, outcome));
    case _ => SameOwing(w.bus, Do(w, a).bus);
  }

  // ---------------------------------------------------------------- every run

  /** Acts that cannot happen where they stand are passed over. */
  function Play(w: World, acts: seq<Act>): World
    decreases |acts|
  {
    if acts == [] then w
    else
      var v := Play(w, acts[..|acts| - 1]);
      if May(v, acts[|acts| - 1]) then Do(v, acts[|acts| - 1]) else v
  }

  lemma {:induction false} PlayKeepsHandled(w: World, acts: seq<Act>)
    requires Handled(w) && Inbox.Inv(w.bus) && Tallied(w.bus)
    ensures Handled(Play(w, acts)) && Inbox.Inv(Play(w, acts).bus) && Tallied(Play(w, acts).bus)
    decreases |acts|
  {
    if acts != [] {
      var v, a := Play(w, acts[..|acts| - 1]), acts[|acts| - 1];
      PlayKeepsHandled(w, acts[..|acts| - 1]);
      if May(v, a) {
        DoKeepsHandled(v, a);
        DoKeepsInbox(v, a);
        ActMovesOneTurn(v, a);
        TallyKept(v.bus, Do(v, a).bus, TurnMove(v, a));
      }
    }
  }

  lemma StartsHandled(chat: Mid -> Chat, rows: set<Hid>, nextHid: Hid)
    requires forall h :: h in rows ==> h < nextHid
    ensures var w := Start(chat, rows, nextHid); Handled(w) && Inbox.Inv(w.bus) && Tallied(w.bus)
  {
    TalliedAtFirst(chat, rows, nextHid);
  }

  lemma {:induction false} PlayKeepsCleared(w: World, acts: seq<Act>)
    requires Cleared(w) && Inbox.Inv(w.bus)
    ensures Cleared(Play(w, acts)) && Inbox.Inv(Play(w, acts).bus)
    decreases |acts|
  {
    if acts != [] {
      var front := acts[..|acts| - 1];
      PlayKeepsCleared(w, front);
      if May(Play(w, front), acts[|acts| - 1]) {
        DoKeepsCleared(Play(w, front), acts[|acts| - 1]);
        DoKeepsInbox(Play(w, front), acts[|acts| - 1]);
      }
    }
  }

  /** Every subscriber took the original message, and nobody was sent a fallback. */
  ghost predicate TookOriginal(subscribers: seq<Answers>) {
    && subscribers != []
    && (forall i: nat :: i < |subscribers| ==> Call(i, true, true) in Calls(subscribers, false))
    && (forall c :: c in Calls(subscribers, false) ==> c.original)
  }

  /** At position `i` a dispatch of the message's terminal ends, every subscriber having taken it. */
  ghost predicate DeliveredAt(w: World, acts: seq<Act>, i: nat, m: Mid) {
    && i < |acts| && acts[i].Dispatched? && TookOriginal(acts[i].subscribers)
    && Play(w, acts[..i]).inFlight.Some?
    && Play(w, acts[..i]).inFlight.value.Awaited? && Play(w, acts[..i]).inFlight.value.mid == m
  }

  lemma {:induction false} LandedByDispatch(w: World, acts: seq<Act>, m: Mid) returns (i: nat)
    requires w.landed == {} && m in Play(w, acts).landed
    ensures DeliveredAt(w, acts, i, m)
    decreases |acts|
  {
    var front := acts[..|acts| - 1];
    if m in Play(w, front).landed {
      i := LandedByDispatch(w, front, m);
      assert front[..i] == acts[..i];
    } else {
      i := |front|;
      assert acts[..i] == front;
      DeliveredByCalls(acts[i].subscribers, false);
    }
  }

  /** In every run, if a message's row has been deleted, or its deletion is being retried, an earlier
      dispatch ran every subscriber's callback successfully on that message's own terminal. */
  lemma DeletedOnlyAfterDelivery(chat: Mid -> Chat, rows: set<Hid>, nextHid: Hid, acts: seq<Act>, m: Mid) returns (i: nat)
    requires forall h :: h in rows ==> h < nextHid
    requires var b := Play(Start(chat, rows, nextHid), acts).bus;
             m in b.gone || (m in b.accepted && b.accepted[m].cleanupPending)
    ensures DeliveredAt(Start(chat, rows, nextHid), acts, i, m)
  {
    PlayKeepsCleared(Start(chat, rows, nextHid), acts);
    i := LandedByDispatch(Start(chat, rows, nextHid), acts, m);
  }

  /** Until its row is deleted, an accepted message keeps its owner: no accepted row of a live process
      is both stored and unowned, whatever fails, is retained or shut down. */
  lemma StoredRowsStayOwned(chat: Mid -> Chat, rows: set<Hid>, nextHid: Hid, acts: seq<Act>)
    requires forall h :: h in rows ==> h < nextHid
    ensures var b := Play(Start(chat, rows, nextHid), acts).bus;
            forall h :: h in b.enqueued && h in b.rows ==>
                          exists m :: m in b.accepted && b.accepted[m].hid == h && m !in b.gone
  {
    PlayKeepsCleared(Start(chat, rows, nextHid), acts);
    var b := Play(Start(chat, rows, nextHid), acts).bus;
    forall h | h in b.enqueued && h in b.rows
      ensures exists m :: m in b.accepted && b.accepted[m].hid == h && m !in b.gone
    {
      assert h in OwnedIds(b.accepted);
      var m :| m in b.accepted && b.accepted[m].hid == h;
      assert m !in b.gone;
    }
  }

  /** A true receipt is enough: if the store answers, completing the message deletes its row, and
      taking the lock once more releases its owner. */
  lemma ReceiptLeadsToDeletion(w: World, t: Tid, m: Mid)
    requires Inbox.Inv(w.bus) && May(w, CompleteMessage(t, m, Deleted))
    requires m in w.bus.accepted && m !in w.bus.gone && !w.bus.accepted[m].cleanupPending
    ensures var v := Do(w, CompleteMessage(t, m, Deleted));
            && m in v.bus.gone && v.bus.rows == w.bus.rows - {w.bus.accepted[m].hid}
            && (v.bus.lock.None? ==>
                  && May(v, BusEvent(Finalize(t)))
                  && m !in Do(v, BusEvent(Finalize(t))).bus.accepted
                  && w.bus.accepted[m].hid !in Do(v, BusEvent(Finalize(t))).bus.claimed)
  {
    assert w.bus.accepted[m].hid in w.bus.rows;
  }
}
