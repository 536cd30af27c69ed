/** Which turns get paid. The passive turn of a message is marked when the message is put on the queue, and
    from then on holds back its chat's non-passive sends until it is paid: exactly once or, for messages
    that the worker forsakes, never. */
module TurnPayments {
  import opened Delivery
  import opened Inbox
  import opened Wrappers

  // ---------------------------------------------------------------- which turns are paid

  /** How often a run pays the turn of this message. */
  function Payments(w: World, acts: seq<Act>, m: Mid): nat
    decreases |acts|
  {
    if acts == [] then 0
    else
      var v, a := Play(w, acts[..|acts| - 1]), acts[|acts| - 1];
      Payments(w, acts[..|acts| - 1], m) + if May(v, a) && TurnMove(v, a) == Pays(m) then 1 else 0
  }

  /** The message has been put on the queue. */
  predicate TakenIn(w: World, m: Mid) {
    m in w.bus.inbound || m in w.stages
  }

  lemma TakenInOnce(w: World, a: Act, m: Mid)
    requires Handled(w) && Inbox.Inv(w.bus) && May(w, a)
    ensures TakenIn(Do(w, a), m) <==> TakenIn(w, m) || TurnMove(w, a) == Marks(m)
    ensures TurnMove(w, a) == Marks(m) ==> !TakenIn(w, m)
  {
    match a
    case BusEvent(e) => BusTakesIn(w, e, m);
    case Take => assert w.bus.inbound == [w.bus.inbound[0]] + w.bus.inbound[1..];
    case _ => assert Do(w, a).bus.inbound == w.bus.inbound && Do(w, a).stages.Keys == w.stages.Keys;
  }

  lemma BusTakesIn(w: World, e: Event, m: Mid)
    requires Handled(w) && Inbox.Inv(w.bus) && May(w, BusEvent(e))
    ensures TakenIn(Do(w, BusEvent(e)), m) <==> TakenIn(w, m) || MoveOf(w.bus, e) == Marks(m)
    ensures MoveOf(w.bus, e) == Marks(m) ==> !TakenIn(w, m)
  {
    if e.Enqueue? {
      EnqueueTakesIn(w, e.t, m);
    } else if e.PublishPlain? {
      PlainTakesIn(w, m);
    } else {
      NothingQueued(w.bus, e);
    }
  }

  lemma NothingQueued(b: Bus, e: Event)
    requires Enabled(b, e) && !e.Enqueue? && !e.PublishPlain? && !e.Consume?
    ensures Step(b, e).inbound == b.inbound && !MoveOf(b, e).Marks?
  {
  }

  lemma PlainTakesIn(w: World, m: Mid)
    requires Handled(w) && Inbox.Inv(w.bus) && May(w, BusEvent(PublishPlain))
    ensures var k := w.bus.nextMid;
            !TakenIn(w, k) && (TakenIn(Do(w, BusEvent(PublishPlain)), m) <==> TakenIn(w, m) || m == k)
  {
    if w.bus.nextMid in w.bus.inbound {
      UncompletedIsOld(w.bus, w.bus.nextMid);
    }
  }

  lemma EnqueueTakesIn(w: World, t: Tid, m: Mid)
    requires Handled(w) && Inbox.Inv(w.bus) && May(w, BusEvent(Enqueue(t)))
    ensures var k := Registering(w.bus.procs[t]).value.0;
            !TakenIn(w, k) && (TakenIn(Do(w, BusEvent(Enqueue(t))), m) <==> TakenIn(w, m) || m == k)
  {
    var (k, h) := Registering(w.bus.procs[t]).value;
    assert Registers(w.bus, t, k) && Registered(w.bus, t, k, h);
    assert !Uncompleted(w.bus, k);
  }

  /** A message owes its turn from the moment it is put on the queue until its one payment, if that
      ever comes. */
  lemma {:induction false} PaymentsBalance(w: World, acts: seq<Act>, m: Mid)
    requires Handled(w) && Inbox.Inv(w.bus) && Tallied(w.bus) && !TakenIn(w, m) && m !in Owing(w.bus)
    ensures var v := Play(w, acts);
            Payments(w, acts, m) + (if m in Owing(v.bus) then 1 else 0) == if TakenIn(v, m) then 1 else 0
    decreases |acts|
  {
    if acts != [] {
      var front, a := acts[..|acts| - 1], acts[|acts| - 1];
      var v := Play(w, front);
      PaymentsBalance(w, front, m);
      PlayKeepsHandled(w, front);
      if May(v, a) {
        ActMovesOneTurn(v, a);
        TakenInOnce(v, a, m);
      }
    }
  }

  /** In every run a turn is paid at most once, by its own message, and only after it was marked: a
      message put on the queue has been paid for exactly once or still owes its turn. A chat's count is
      the number of those that owe: its messages whose row is not yet deleted, and those without a row
      that nobody has completed. Which of them will never pay is Unpaid, below. */
  lemma TurnsPaidOnce(chat: Mid -> Chat, rows: set<Hid>, nextHid: Hid, acts: seq<Act>, c: Chat, m: Mid)
    requires forall h :: h in rows ==> h < nextHid
    ensures var w := Start(chat, rows, nextHid);
            var v := Play(w, acts);
            && Turns(v.bus, c) == |UndeletedIn(v.bus, c)| + |Of(v.bus.plain, v.bus.chat, c)|
            && Payments(w, acts, m) + (if m in Owing(v.bus) then 1 else 0) == if TakenIn(v, m) then 1 else 0
  {
    StartsHandled(chat, rows, nextHid);
    PlayKeepsHandled(Start(chat, rows, nextHid), acts);
    OwingSplits(Play(Start(chat, rows, nextHid), acts).bus, c);
    PaymentsBalance(Start(chat, rows, nextHid), acts, m);
  }

  // ---------------------------------------------------------------- which turns are never paid

  /** Retried deletes belong to messages the worker is done with, and only messages with a row wait for
      a receipt. */
  ghost predicate Answered(w: World) {
    && Retrying(w.bus)
    && (forall m :: m in w.bus.accepted && w.bus.accepted[m].cleanupPending ==>
                      m in w.stages && w.stages[m].Done?)
    && (forall m :: m in w.stages && w.stages[m].Awaiting? ==> m !in w.bus.plain)
  }

  lemma NothingNewPending(b: Bus, e: Event, m: Mid)
    requires Enabled(b, e) && !e.Complete? && m in Step(b, e).accepted && Step(b, e).accepted[m].cleanupPending
    ensures m in b.accepted && b.accepted[m].cleanupPending
  {
  }

  lemma NoNewPlain(b: Bus, e: Event)
    requires Enabled(b, e) && !e.PublishPlain?
    ensures Step(b, e).plain <= b.plain
  {
  }

  lemma BusKeepsAnswered(w: World, e: Event)
    requires Answered(w) && Handled(w) && Inbox.Inv(w.bus) && May(w, BusEvent(e))
    ensures Answered(Do(w, BusEvent(e)))
  {
    RetriesKept(w.bus, e);
    var d := Step(w.bus, e);
    forall m | m in d.accepted && d.accepted[m].cleanupPending ensures m in w.stages && w.stages[m].Done? {
      NothingNewPending(w.bus, e, m);
    }
    if e.PublishPlain? {
      assert d.plain == w.bus.plain + {w.bus.nextMid};
    } else {
      NoNewPlain(w.bus, e);
    }
  }

  lemma CompletionKeepsAnswered(w: World, v: World, t: Tid, m: Mid, outcome: Outcome)
    requires Answered(w) && Handled(w) && Inbox.Inv(w.bus) && Enabled(w.bus, Complete(t, m, outcome))
    requires m in w.stages && !w.stages[m].Done?
    requires v.bus == Step(w.bus, Complete(t, m, outcome)) && v.stages == w.stages[m := Done]
    ensures Answered(v)
  {
    assert Uncompleted(w.bus, m);
    RetriesKept(w.bus, Complete(t, m, outcome));
  }

  lemma DoKeepsAnswered(w: World, a: Act)
    requires Answered(w) && Handled(w) && Inbox.Inv(w.bus) && May(w, a)
    ensures Answered(Do(w, a))
  {
    match a
    case BusEvent(e) => BusKeepsAnswered(w, e);
    case CompleteMessage(t, m, outcome) => CompletionKeepsAnswered(w, Do(w, a), t, m, outcome);
    case FinishPlain(t, m, outcome, _) => CompletionKeepsAnswered(w, Do(w, a), t, m, outcome);
    case Take => TakeKeepsAnswered(w);
    case _ => StagesKeepAnswered(w, Do(w, a));
  }

  lemma TakeKeepsAnswered(w: World)
    requires Answered(w) && Handled(w) && May(w, Take)
    ensures Answered(Do(w, Take))
  {
    assert w.bus.inbound[0] in w.bus.inbound;
  }

  lemma StagesKeepAnswered(w: World, v: World)
    requires Answered(w) && v.bus == w.bus && v.stages.Keys == w.stages.Keys
    requires forall m :: m in v.stages && w.stages[m].Done? ==> v.stages[m].Done?
    requires forall m :: m in v.stages && v.stages[m].Awaiting? && !w.stages[m].Awaiting? ==> m !in v.bus.plain
    ensures Answered(v)
  {
  }

  /** The worker is done with the message, no delete of its row is being retried, and it owes its turn. */
  predicate Unpaid(w: World, m: Mid) {
    m in w.stages && w.stages[m].Done? && m in Owing(w.bus) && m !in w.bus.retries
  }

  /** The act abandons a message that owes its turn: the worker gives it up, or the delete of its row
      fails for good, at once or when retried, or the retries are stopped. */
  predicate Forsakes(w: World, a: Act, m: Mid) {
    && May(w, a) && m in Owing(w.bus)
    && match a
       case GiveUp(k) => k == m && m !in w.bus.retries
       case CompleteMessage(_, k, outcome) =>
         k == m && m in w.bus.accepted && Deletion(w.bus, w.bus.accepted[m].hid, outcome) == Fatal
       case BusEvent(Retry(_, k, outcome)) =>
         k == m && m in w.bus.accepted && Deletion(w.bus, w.bus.accepted[m].hid, outcome) == Fatal
       case BusEvent(StopRetry(k)) => k == m
       case _ => false
  }

  lemma BusForsakes(w: World, e: Event, m: Mid)
    requires Answered(w) && Handled(w) && Inbox.Inv(w.bus) && May(w, BusEvent(e))
    ensures Unpaid(Do(w, BusEvent(e)), m) <==> Unpaid(w, m) || Forsakes(w, BusEvent(e), m)
  {
    MovesOneTurn(w.bus, e);
    if e.Retry? {
      RetryForsakes(w, e.t, e.mid, e.outcome, m);
    } else if e.StopRetry? {
      assert e.mid in w.bus.accepted && w.bus.accepted[e.mid].cleanupPending;
    } else {
      RetriesUntouched(w.bus, e);
      BusTakesIn(w, e, m);
    }
  }

  lemma RetriesUntouched(b: Bus, e: Event)
    requires Enabled(b, e) && !e.Retry? && !e.StopRetry? && !e.Complete?
    ensures Step(b, e).retries == b.retries && !MoveOf(b, e).Pays?
  {
  }

  lemma RetryForsakes(w: World, t: Tid, k: Mid, outcome: Outcome, m: Mid)
    requires Answered(w) && Handled(w) && Inbox.Inv(w.bus) && May(w, BusEvent(Retry(t, k, outcome)))
    ensures var a := BusEvent(Retry(t, k, outcome)); Unpaid(Do(w, a), m) <==> Unpaid(w, m) || Forsakes(w, a, m)
  {
    assert k in w.bus.accepted && w.bus.accepted[k].cleanupPending && k in Owing(w.bus);
    MovesOneTurn(w.bus, Retry(t, k, outcome));
  }

  lemma CompletionForsakes(w: World, t: Tid, k: Mid, outcome: Outcome, m: Mid)
    requires Answered(w) && Handled(w) && Inbox.Inv(w.bus) && May(w, CompleteMessage(t, k, outcome))
    ensures var a := CompleteMessage(t, k, outcome); Unpaid(Do(w, a), m) <==> Unpaid(w, m) || Forsakes(w, a, m)
  {
    assert Uncompleted(w.bus, k) && k in w.bus.accepted;
    assert k !in w.bus.retries;
    MovesOneTurn(w.bus, Complete(t, k, outcome));
  }

  lemma PlainForsakesNothing(w: World, t: Tid, k: Mid, outcome: Outcome, replies: bool, m: Mid)
    requires Answered(w) && Handled(w) && Inbox.Inv(w.bus) && May(w, FinishPlain(t, k, outcome, replies))
    ensures Unpaid(Do(w, FinishPlain(t, k, outcome, replies)), m) <==> Unpaid(w, m)
  {
    MovesOneTurn(w.bus, Complete(t, k, outcome));
  }

  lemma GivingUpForsakes(w: World, k: Mid, m: Mid)
    requires Answered(w) && Handled(w) && May(w, GiveUp(k))
    ensures Unpaid(Do(w, GiveUp(k)), m) <==> Unpaid(w, m) || Forsakes(w, GiveUp(k), m)
  {
  }

  /** A turn is lost when it is forsaken, and then for the rest of the process. */
  lemma ForsakenStaysUnpaid(w: World, a: Act, m: Mid)
    requires Answered(w) && Handled(w) && Inbox.Inv(w.bus) && May(w, a)
    ensures Unpaid(Do(w, a), m) <==> Unpaid(w, m) || Forsakes(w, a, m)
  {
    match a
    case BusEvent(e) => BusForsakes(w, e, m);
    case CompleteMessage(t, k, outcome) => CompletionForsakes(w, t, k, outcome, m);
    case FinishPlain(t, k, outcome, replies) => PlainForsakesNothing(w, t, k, outcome, replies, m);
    case GiveUp(k) => GivingUpForsakes(w, k, m);
    case _ => assert Do(w, a).bus == w.bus || a.Take?;
  }

  /** At position `i` of the run the message is forsaken. */
  ghost predicate ForsakenAt(w: World, acts: seq<Act>, i: nat, m: Mid) {
    i < |acts| && Forsakes(Play(w, acts[..i]), acts[i], m)
  }

  lemma {:induction false} PlayKeepsAnswered(w: World, acts: seq<Act>)
    requires Answered(w) && Handled(w) && Inbox.Inv(w.bus) && Tallied(w.bus)
    ensures Answered(Play(w, acts))
    decreases |acts|
  {
    if acts != [] {
      var front := acts[..|acts| - 1];
      PlayKeepsAnswered(w, front);
      PlayKeepsHandled(w, front);
      if May(Play(w, front), acts[|acts| - 1]) {
        DoKeepsAnswered(Play(w, front), acts[|acts| - 1]);
      }
    }
  }

  /** Forsaken in a run: before its last act, or by it. */
  lemma ForsakenGrows(w: World, acts: seq<Act>, m: Mid)
    requires acts != []
    ensures var front, a := acts[..|acts| - 1], acts[|acts| - 1];
            (exists i: nat :: ForsakenAt(w, acts, i, m)) <==>
              (exists i: nat :: ForsakenAt(w, front, i, m)) || Forsakes(Play(w, front), a, m)
  {
    var n := |acts| - 1;
    var front := acts[..n];
    assert ForsakenAt(w, acts, n, m) <==> Forsakes(Play(w, front), acts[n], m);
    forall i: nat | i < n ensures ForsakenAt(w, acts, i, m) <==> ForsakenAt(w, front, i, m) {
      assert front[..i] == acts[..i];
    }
    if i: nat :| ForsakenAt(w, front, i, m) {
      assert ForsakenAt(w, acts, i, m);
    }
  }

  lemma {:induction false} UnpaidSinceForsaken(w: World, acts: seq<Act>, m: Mid)
    requires Answered(w) && Handled(w) && Inbox.Inv(w.bus) && Tallied(w.bus) && !Unpaid(w, m)
    ensures Unpaid(Play(w, acts), m) <==> exists i: nat :: ForsakenAt(w, acts, i, m)
    decreases |acts|
  {
    if acts != [] {
      var front, a := acts[..|acts| - 1], acts[|acts| - 1];
      UnpaidSinceForsaken(w, front, m);
      PlayKeepsHandled(w, front);
      PlayKeepsAnswered(w, front);
      ForsakenGrows(w, acts, m);
      if May(Play(w, front), a) {
        ForsakenStaysUnpaid(Play(w, front), a, m);
      }
    }
  }

  /** Over every run: a message the worker is done with, and whose delete is not being retried, still
      owes its turn if and only if it was forsaken: given up, or its row could not be deleted. */
  lemma UnpaidIffForsaken(chat: Mid -> Chat, rows: set<Hid>, nextHid: Hid, acts: seq<Act>, m: Mid)
    requires forall h :: h in rows ==> h < nextHid
    ensures var w := Start(chat, rows, nextHid);
            Unpaid(Play(w, acts), m) <==> exists i: nat :: ForsakenAt(w, acts, i, m)
  {
    StartsHandled(chat, rows, nextHid);
    UnpaidSinceForsaken(Start(chat, rows, nextHid), acts, m);
  }

  lemma OwedInHand(w: World, m: Mid)
    requires Answered(w) && Handled(w) && Inbox.Inv(w.bus) && TakenIn(w, m)
    ensures m in Owing(w.bus) <==>
            m in w.bus.inbound || (m in w.stages && !w.stages[m].Done?) || m in w.bus.retries || Unpaid(w, m)
  {
    if m in w.bus.inbound || (m in w.stages && !w.stages[m].Done?) {
      assert Uncompleted(w.bus, m);
    }
  }

  /** Over every run: a message owes its turn exactly while it is queued, or with the worker, or the
      delete of its row is being retried; and for ever once it is forsaken. */
  lemma OwesIff(chat: Mid -> Chat, rows: set<Hid>, nextHid: Hid, acts: seq<Act>, m: Mid)
    requires forall h :: h in rows ==> h < nextHid
    ensures var w := Start(chat, rows, nextHid);
            var v := Play(w, acts);
            m in Owing(v.bus) <==>
              || m in v.bus.inbound
              || (m in v.stages && !v.stages[m].Done?)
              || m in v.bus.retries
              || exists i: nat :: ForsakenAt(w, acts, i, m)
  {
    var w := Start(chat, rows, nextHid);
    StartsHandled(chat, rows, nextHid);
    PlayKeepsHandled(w, acts);
    PlayKeepsAnswered(w, acts);
    PaymentsBalance(w, acts, m);
    UnpaidIffForsaken(chat, rows, nextHid, acts, m);
    var v := Play(w, acts);
    if TakenIn(v, m) {
      OwedInHand(v, m);
    }
  }

  /** For a message without a row, only giving it up does this. */
  lemma PlainUnpaidIffGivenUp(chat: Mid -> Chat, rows: set<Hid>, nextHid: Hid, acts: seq<Act>, m: Mid)
    requires forall h :: h in rows ==> h < nextHid
    requires m in Play(Start(chat, rows, nextHid), acts).bus.plain
    ensures var w := Start(chat, rows, nextHid);
            m in Play(w, acts).stages && Play(w, acts).stages[m].Done? <==>
            exists i: nat :: ForsakenAt(w, acts, i, m) && acts[i] == GiveUp(m)
  {
    var w := Start(chat, rows, nextHid);
    StartsHandled(chat, rows, nextHid);
    DoneIsUnpaid(w, acts, m);
    UnpaidIffForsaken(chat, rows, nextHid, acts, m);
    forall i: nat | ForsakenAt(w, acts, i, m) ensures acts[i] == GiveUp(m) {
      GivenUpWithoutRow(w, acts, i, m);
    }
  }

  lemma DoneIsUnpaid(w: World, acts: seq<Act>, m: Mid)
    requires Answered(w) && Handled(w) && Inbox.Inv(w.bus) && Tallied(w.bus)
    requires m in Play(w, acts).bus.plain
    ensures var v := Play(w, acts); Unpaid(v, m) <==> m in v.stages && v.stages[m].Done?
  {
    PlayKeepsHandled(w, acts);
    PlayKeepsAnswered(w, acts);
    assert m !in Play(w, acts).bus.accepted;
  }

  lemma GivenUpWithoutRow(w: World, acts: seq<Act>, i: nat, m: Mid)
    requires Answered(w) && Handled(w) && Inbox.Inv(w.bus) && Tallied(w.bus)
    requires ForsakenAt(w, acts, i, m) && m in Play(w, acts).bus.plain
    ensures acts[i] == GiveUp(m)
  {
    var v := Play(w, acts[..i]);
    PlayKeepsHandled(w, acts[..i]);
    PlayKeepsAnswered(w, acts[..i]);
    ForsakenIsTakenIn(v, acts[i], m);
    StaysWithoutRow(w, acts, i, m);
    assert m !in v.bus.accepted && m !in v.bus.retries;
  }

  lemma ForsakenIsTakenIn(w: World, a: Act, m: Mid)
    requires Answered(w) && Handled(w) && Inbox.Inv(w.bus) && Forsakes(w, a, m)
    ensures TakenIn(w, m)
  {
    if a.BusEvent? {
      assert m in w.bus.accepted && w.bus.accepted[m].cleanupPending by {
        assert m in w.bus.retries;
      }
    }
  }

  lemma PlainIsNew(w: World, a: Act, m: Mid)
    requires Handled(w) && Inbox.Inv(w.bus) && May(w, a) && TakenIn(w, m) && m in Do(w, a).bus.plain
    ensures m in w.bus.plain
  {
    match a
    case BusEvent(e) =>
      if e.PublishPlain? {
        PlainTakesIn(w, m);
      } else {
        NoNewPlain(w.bus, e);
      }
    case CompleteMessage(t, k, outcome) => NoNewPlain(w.bus, Complete(t, k, outcome));
    case FinishPlain(t, k, outcome, _) => NoNewPlain(w.bus, Complete(t, k, outcome));
    case Take => NoNewPlain(w.bus, Consume);
    case _ => assert Do(w, a).bus == w.bus;
  }

  /** A message that ends without a row never had one. */
  lemma {:induction false} StaysWithoutRow(w: World, acts: seq<Act>, i: nat, m: Mid)
    requires Handled(w) && Inbox.Inv(w.bus) && Tallied(w.bus) && i <= |acts| && TakenIn(Play(w, acts[..i]), m)
    ensures TakenIn(Play(w, acts), m)
    ensures m in Play(w, acts).bus.plain ==> m in Play(w, acts[..i]).bus.plain
    decreases |acts|
  {
    if i == |acts| {
      assert acts[..i] == acts;
    } else {
      var front, a := acts[..|acts| - 1], acts[|acts| - 1];
      assert front[..i] == acts[..i];
      StaysWithoutRow(w, front, i, m);
      PlayKeepsHandled(w, front);
      if May(Play(w, front), a) {
        TakenInOnce(Play(w, front), a, m);
        if m in Do(Play(w, front), a).bus.plain {
          PlainIsNew(Play(w, front), a, m);
        }
      }
    }
  }

  /** A message of a channel without rows is published, taken, and given up. */
  function Dropping(): seq<Act> {
    [BusEvent(PublishPlain), Take, GiveUp(0)]
  }

  /** Its turn is owed for good: nobody has it any more and nobody pays for it. */
  lemma GivenUpIsNeverPaid(chat: Mid -> Chat)
    ensures var w := Start(chat, {}, 0);
            var v := Play(w, Dropping());
            && Unpaid(v, 0) && v.bus.inbound == [] && Payments(w, Dropping(), 0) == 0
            && Turns(v.bus, chat(0)) == 1
  {
    var w, acts := Start(chat, {}, 0), Dropping();
    assert acts[..0] == [] && acts[..1][..0] == [] && acts[..2][..1] == acts[..1] && acts[..3] == acts;
    assert May(w, acts[0]);
    var one := Do(w, acts[0]);
    assert one.bus.inbound == [0] && one.bus.plain == {0} && May(one, acts[1]);
    var two := Do(one, acts[1]);
    assert two.stages == map[0 := Working] && two.bus.inbound == [] && May(two, acts[2]);
    var three := Do(two, acts[2]);
    assert Play(w, acts[..0]) == w && Play(w, acts[..1]) == one && Play(w, acts[..2]) == two && Play(w, acts) == three;
    assert TurnMove(w, acts[0]) == Marks(0) && TurnMove(one, acts[1]) == Stays && TurnMove(two, acts[2]) == Stays;
    assert Payments(w, acts[..1], 0) == 0 && Payments(w, acts[..2], 0) == 0;
  }
}
