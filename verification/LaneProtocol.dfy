/** Every interleaving of turns, queued sends, passive and non-passive sends and cancellations on one
    chat. `Next` runs them on a lane that is never dropped; its invariant gives mutual exclusion,
    exact counters, the ticket discipline and the absence of lost wakeups. */
module LaneProtocol {
  import opened LaneState

  type Tid = nat
  type Turn = nat

  /** Where a send is suspended; `notified`: the condition has been signalled since it last waited. */
  datatype Phase =
    | PassiveWaiting(notified: bool)
    | PassiveSending
    | Queueing(ticket: nat, notified: bool)
    | Speaking(ticket: nat)
  {
    predicate Passive() { PassiveWaiting? || PassiveSending? }
    predicate Sends() { PassiveSending? || Speaking? }
    predicate Holds() { Queueing? || Speaking? }
  }

  datatype Kind = Direct | Queued | NonPassive

  datatype Event =
    | PublishTurn(m: Turn) // publish_inbound marks the turn of message m
    | TurnDone(m: Turn)    // complete_inbound pays it, or somebody calls it while nothing is owed
    | PublishSend          // publish_outbound registers and enqueues a send
    | DrainSend            // shutdown takes a queued send and pays its registration
    | Start(t: Tid, kind: Kind)
    | Wake(t: Tid)         // a notified waiter re-enters its critical section
    | Finish(t: Tid)       // the send returned, failed or was cancelled
    | CancelWait(t: Tid)   // cancelled while waiting

  /** `owed`: the messages whose turn is marked and not yet paid; `queued`: registered sends in the
      outbound queue. LaneTraffic proves that these are the bus's own. */
  datatype Core = Core(lane: Lane, tasks: map<Tid, Phase>, owed: set<Turn>, queued: nat)

  predicate Enabled(c: Core, e: Event) {
    match e
    case PublishTurn(m) => m !in c.owed
    case TurnDone(m) => m in c.owed || c.owed == {}
    case DrainSend => c.queued > 0
    case Start(t, kind) => t !in c.tasks && (kind == Queued ==> c.queued > 0)
    case Wake(t) => t in c.tasks && ((c.tasks[t].PassiveWaiting? || c.tasks[t].Queueing?) && c.tasks[t].notified)
    case Finish(t) => t in c.tasks && c.tasks[t].Sends()
    case CancelWait(t) => t in c.tasks && !c.tasks[t].Sends()
    case _ => true
  }

  function Notified(p: Phase): Phase {
    match p
    case PassiveWaiting(_) => PassiveWaiting(true)
    case Queueing(k, _) => Queueing(k, true)
    case _ => p
  }

  function NotifyAll(tasks: map<Tid, Phase>): (n: map<Tid, Phase>)
    ensures n.Keys == tasks.Keys && forall t :: t in n ==> n[t] == Notified(tasks[t])
  {
    map t | t in tasks :: Notified(tasks[t])
  }

  /** A passive send enters or re-enters its critical section. */
  function EnterPassive(c: Core, t: Tid): Core {
    c.(lane := TryPassive(c.lane),
       tasks := c.tasks[t := if c.lane.sending then PassiveWaiting(false) else PassiveSending])
  }

  function EnterNonPassive(c: Core, t: Tid, ticket: nat): Core {
    c.(lane := TryNonPassive(c.lane, ticket),
       tasks := c.tasks[t := if Blocked(Skip(c.lane), ticket) then Queueing(ticket, false)
                             else Speaking(ticket)])
  }

  function Left(c: Core, t: Tid, l: Lane): Core
    requires t in c.tasks
  {
    c.(lane := if l.active > 0 then l.(active := l.active - 1) else l, tasks := NotifyAll(c.tasks - {t}))
  }

  function Next(c: Core, e: Event): Core
    requires Enabled(c, e)
  {
    var l := c.lane;
    match e
    case PublishTurn(m) => c.(lane := l.(turns := l.turns + 1), owed := c.owed + {m}, tasks := NotifyAll(c.tasks))
    case TurnDone(m) => c.(lane := LaneState.TurnDone(l), owed := c.owed - {m}, tasks := NotifyAll(c.tasks))
    case PublishSend => c.(lane := l.(sends := l.sends + 1), queued := c.queued + 1, tasks := NotifyAll(c.tasks))
    case DrainSend => c.(lane := SendDone(l), queued := c.queued - 1, tasks := NotifyAll(c.tasks))
    case Start(t, Direct) => EnterPassive(c.(lane := l.(active := l.active + 1, sends := l.sends + 1)), t)
    case Start(t, Queued) =>
      if l.sends == 0 then c.(queued := c.queued - 1)
      else EnterPassive(c.(lane := l.(active := l.active + 1), queued := c.queued - 1), t)
    case Start(t, NonPassive) =>
      EnterNonPassive(c.(lane := l.(active := l.active + 1, next := l.next + 1)), t, l.next)
    case Wake(t) =>
      if c.tasks[t].PassiveWaiting? then EnterPassive(c, t) else EnterNonPassive(c, t, c.tasks[t].ticket)
    case Finish(t) =>
      if c.tasks[t].PassiveSending? then Left(c, t, LeavePassive(l, true))
      else Left(c, t, LeaveNonPassive(l, c.tasks[t].ticket, true))
    case CancelWait(t) =>
      if c.tasks[t].PassiveWaiting? then Left(c, t, LeavePassive(l, false))
      else if c.tasks[t].Queueing? then Left(c, t, LeaveNonPassive(l, c.tasks[t].ticket, false))
      else c
  }

  // ---------------------------------------------------------------- the invariant

  function Passives(tasks: map<Tid, Phase>): set<Tid> {
    set t | t in tasks && tasks[t].Passive()
  }

  /** The waiter could start its send now. */
  predicate Ready(c: Core, t: Tid)
    requires t in c.tasks
  {
    match c.tasks[t]
    case PassiveWaiting(_) => !c.lane.sending
    case Queueing(ticket, _) => !Blocked(c.lane, ticket)
    case _ => false
  }

  /** Every counter is exactly what is outstanding. */
  ghost predicate Exact(c: Core) {
    && c.lane.active == |c.tasks.Keys|
    && c.lane.turns == |c.owed|
    && c.lane.sends == c.queued + |Passives(c.tasks)|
  }

  /** At most one send runs, and `sending` says whether one does. */
  ghost predicate Exclusive(c: Core) {
    && (forall t, u :: t in c.tasks && u in c.tasks && c.tasks[t].Sends() && c.tasks[u].Sends() ==> t == u)
    && (c.lane.sending <==> exists t :: t in c.tasks && c.tasks[t].Sends())
  }

  ghost predicate HeldBy(tasks: map<Tid, Phase>, k: nat, t: Tid) {
    t in tasks && tasks[t].Holds() && tasks[t].ticket == k
  }

  ghost predicate SpeaksAs(tasks: map<Tid, Phase>, k: nat, t: Tid) {
    t in tasks && tasks[t] == Speaking(k)
  }

  /** Issued tickets not yet served are either cancelled or held, by one task each, and only the
      holder of the served ticket speaks. */
  ghost predicate Accounted(l: Lane, tasks: map<Tid, Phase>) {
    && l.serving <= l.next
    && (forall k :: k in l.cancelled ==> l.serving <= k < l.next)
    && (forall k: nat, t :: HeldBy(tasks, k, t) ==> l.serving <= k < l.next && k !in l.cancelled)
    && (forall k: nat, t, u :: HeldBy(tasks, k, t) && HeldBy(tasks, k, u) ==> t == u)
    && (forall k: nat :: l.serving <= k < l.next && k !in l.cancelled ==> exists t :: HeldBy(tasks, k, t))
    && (forall k: nat, t :: SpeaksAs(tasks, k, t) ==> k == l.serving)
  }

  /** Between steps the served ticket is never a cancelled one: it is `next` or a live holder's. */
  ghost predicate Ticketed(c: Core) {
    Accounted(c.lane, c.tasks) && c.lane.serving !in c.lane.cancelled
  }

  /** No lost wakeup: a waiter that could start has been notified. */
  ghost predicate Awake(c: Core) {
    forall t :: t in c.tasks && Ready(c, t) ==>
                  (c.tasks[t].PassiveWaiting? || c.tasks[t].Queueing?) && c.tasks[t].notified
  }

  ghost predicate Inv(c: Core) {
    Exact(c) && Exclusive(c) && Ticketed(c) && Awake(c)
  }

  // ---------------------------------------------------------------- what skipping does to tickets

  lemma SkipRestores(l: Lane, tasks: map<Tid, Phase>)
    requires Accounted(l, tasks)
    ensures Accounted(Skip(l), tasks)
  {
    var s := Skip(l);
    SkipSpec(l);
    assert l.next !in l.cancelled;
    forall k: nat, t | HeldBy(tasks, k, t) ensures s.serving <= k {
      assert k !in l.cancelled;
    }
    forall k: nat, t | SpeaksAs(tasks, k, t) ensures k == s.serving {
      assert HeldBy(tasks, k, t);
    }
  }

  // ---------------------------------------------------------------- one step, one conjunct at a time

  lemma PassivesOf(tasks: map<Tid, Phase>, t: Tid, p: Phase)
    ensures Passives(tasks[t := p]) == if p.Passive() then Passives(tasks) + {t} else Passives(tasks) - {t}
  {
  }

  lemma PassivesWithout(tasks: map<Tid, Phase>, t: Tid)
    ensures Passives(NotifyAll(tasks)) == Passives(tasks)
    ensures Passives(NotifyAll(tasks - {t})) == Passives(tasks) - {t}
    ensures NotifyAll(tasks - {t}).Keys == tasks.Keys - {t}
  {
  }

  lemma NewTaskCounts(c: Core, d: Core, t: Tid)
    requires Exact(c) && t !in c.tasks && t in d.tasks && d.tasks == c.tasks[t := d.tasks[t]]
    requires d.lane.active == c.lane.active + 1 && d.lane.turns == c.lane.turns && d.owed == c.owed
    requires d.lane.sends - d.queued == c.lane.sends - c.queued + if d.tasks[t].Passive() then 1 else 0
    ensures Exact(d)
  {
    assert t !in Passives(c.tasks);
    PassivesOf(c.tasks, t, d.tasks[t]);
    assert d.tasks.Keys == c.tasks.Keys + {t};
  }

  lemma StartCounts(c: Core, t: Tid, kind: Kind)
    requires Exact(c) && Enabled(c, Start(t, kind))
    ensures Exact(Next(c, Start(t, kind)))
  {
    SkipSpec(c.lane.(active := c.lane.active + 1, next := c.lane.next + 1));
    NewTaskCounts(c, Next(c, Start(t, kind)), t);
  }

  lemma WakeCounts(c: Core, t: Tid)
    requires Exact(c) && Enabled(c, Wake(t))
    ensures Exact(Next(c, Wake(t)))
  {
    var d := Next(c, Wake(t));
    SkipSpec(c.lane);
    PassivesOf(c.tasks, t, d.tasks[t]);
    assert d.tasks == c.tasks[t := d.tasks[t]];
    assert Passives(d.tasks) == Passives(c.tasks);
    assert d.tasks.Keys == c.tasks.Keys;
  }

  lemma LeavingCounts(c: Core, t: Tid, l: Lane)
    requires Exact(c) && t in c.tasks
    requires l.active == c.lane.active && l.turns == c.lane.turns
    requires l.sends == c.lane.sends - if c.tasks[t].Passive() then 1 else 0
    ensures Exact(Left(c, t, l))
  {
    PassivesWithout(c.tasks, t);
    assert t in c.tasks.Keys;
    assert c.tasks[t].Passive() <==> t in Passives(c.tasks);
  }

  lemma FinishCounts(c: Core, t: Tid)
    requires Exact(c) && Enabled(c, Finish(t))
    ensures Exact(Next(c, Finish(t)))
  {
    if c.tasks[t].Passive() {
      SomePassive(c, t);
      LeavingCounts(c, t, LeavePassive(c.lane, true));
    } else {
      SkipSpec(c.lane.(serving := c.lane.serving + 1, sending := false));
      LeavingCounts(c, t, LeaveNonPassive(c.lane, c.tasks[t].ticket, true));
    }
  }

  lemma CancelCounts(c: Core, t: Tid)
    requires Exact(c) && Enabled(c, CancelWait(t))
    ensures Exact(Next(c, CancelWait(t)))
  {
    if c.tasks[t].Passive() {
      SomePassive(c, t);
      LeavingCounts(c, t, LeavePassive(c.lane, false));
    } else {
      SkipSpec(c.lane.(cancelled := c.lane.cancelled + {c.tasks[t].ticket}));
      LeavingCounts(c, t, LeaveNonPassive(c.lane, c.tasks[t].ticket, false));
    }
  }

  lemma CountsKept(c: Core, e: Event)
    requires Exact(c) && Enabled(c, e)
    ensures Exact(Next(c, e))
  {
    match e
    case Start(t, kind) => StartCounts(c, t, kind);
    case Wake(t) => WakeCounts(c, t);
    case Finish(t) => FinishCounts(c, t);
    case CancelWait(t) => CancelCounts(c, t);
    case _ => PassivesWithout(c.tasks, 0);
  }

  lemma SomePassive(c: Core, t: Tid)
    requires Exact(c) && t in c.tasks && c.tasks[t].Passive()
    ensures c.lane.sends > 0
  {
    assert t in Passives(c.tasks);
  }

  // Tickets.

  /** Steps that neither issue nor retire a ticket. */
  lemma SameHoldings(l: Lane, tasks: map<Tid, Phase>, m: Lane, after: map<Tid, Phase>)
    requires Accounted(l, tasks)
    requires m.serving == l.serving && m.next == l.next && m.cancelled == l.cancelled
    requires forall k: nat, t :: HeldBy(after, k, t) <==> HeldBy(tasks, k, t)
    requires forall k: nat, t :: SpeaksAs(after, k, t) ==> SpeaksAs(tasks, k, t) || k == l.serving
    ensures Accounted(m, after)
  {
  }

  lemma NotifyHoldings(tasks: map<Tid, Phase>)
    ensures forall k: nat, t :: HeldBy(NotifyAll(tasks), k, t) <==> HeldBy(tasks, k, t)
    ensures forall k: nat, t :: SpeaksAs(NotifyAll(tasks), k, t) <==> SpeaksAs(tasks, k, t)
  {
  }

  lemma StartTickets(c: Core, t: Tid, kind: Kind)
    requires Ticketed(c) && Enabled(c, Start(t, kind))
    ensures Ticketed(Next(c, Start(t, kind)))
  {
    var d := Next(c, Start(t, kind));
    if kind == NonPassive {
      var k := c.lane.next;
      assert HeldBy(d.tasks, k, t);
      forall j: nat, u ensures HeldBy(d.tasks, j, u) <==> HeldBy(c.tasks, j, u) || (j == k && u == t) {
      }
      forall j: nat, u | SpeaksAs(d.tasks, j, u) ensures j == c.lane.serving {
        assert u == t || SpeaksAs(c.tasks, j, u);
      }
      forall j: nat | d.lane.serving <= j < d.lane.next && j !in d.lane.cancelled
        ensures exists u :: HeldBy(d.tasks, j, u)
      {
        if j != k {
          var u :| HeldBy(c.tasks, j, u);
          assert HeldBy(d.tasks, j, u);
        }
      }
    } else {
      SameHoldings(c.lane, c.tasks, d.lane, d.tasks);
    }
  }

  lemma WakeTickets(c: Core, t: Tid)
    requires Ticketed(c) && Enabled(c, Wake(t))
    ensures Ticketed(Next(c, Wake(t)))
  {
    var d := Next(c, Wake(t));
    SameHoldings(c.lane, c.tasks, d.lane, d.tasks);
  }

  /** A holder leaves: its ticket is served, or joins the cancelled ones; then the lane skips. */
  lemma HolderLeaves(c: Core, t: Tid, sent: bool)
    requires Ticketed(c) && t in c.tasks && c.tasks[t].Holds() && c.tasks[t].Sends() == sent
    ensures Ticketed(Left(c, t, LeaveNonPassive(c.lane, c.tasks[t].ticket, sent)))
  {
    var k, after := c.tasks[t].ticket, NotifyAll(c.tasks - {t});
    assert HeldBy(c.tasks, k, t);
    assert sent ==> SpeaksAs(c.tasks, k, t);
    NotifyHoldings(c.tasks - {t});
    forall j: nat, u ensures HeldBy(after, j, u) <==> HeldBy(c.tasks, j, u) && u != t {
      assert HeldBy(c.tasks - {t}, j, u) <==> HeldBy(c.tasks, j, u) && u != t;
    }
    forall j: nat, u | SpeaksAs(after, j, u) ensures SpeaksAs(c.tasks, j, u) && u != t && HeldBy(after, j, u) {
      assert SpeaksAs(c.tasks - {t}, j, u);
    }
    var l := if sent then c.lane.(serving := c.lane.serving + 1, sending := false)
             else c.lane.(cancelled := c.lane.cancelled + {k});
    forall j: nat | l.serving <= j < l.next && j !in l.cancelled ensures exists u :: HeldBy(after, j, u) {
      var u :| HeldBy(c.tasks, j, u);
      assert HeldBy(after, j, u);
    }
    SkipRestores(l, after);
    SkipSpec(l);
  }

  lemma TicketsKept(c: Core, e: Event)
    requires Ticketed(c) && Enabled(c, e)
    ensures Ticketed(Next(c, e))
  {
    match e
    case Start(t, kind) => StartTickets(c, t, kind);
    case Wake(t) => WakeTickets(c, t);
    case Finish(t) => LeaverTickets(c, t, true);
    case CancelWait(t) => LeaverTickets(c, t, false);
    case _ =>
      NotifyHoldings(c.tasks);
      SameHoldings(c.lane, c.tasks, Next(c, e).lane, Next(c, e).tasks);
  }

  lemma LeaverTickets(c: Core, t: Tid, sent: bool)
    requires Ticketed(c) && t in c.tasks && c.tasks[t].Sends() == sent
    ensures Ticketed(Next(c, if sent then Finish(t) else CancelWait(t)))
  {
    if c.tasks[t].Holds() {
      HolderLeaves(c, t, sent);
    } else {
      var d := Next(c, if sent then Finish(t) else CancelWait(t));
      NotifyHoldings(c.tasks - {t});
      forall j: nat, u ensures HeldBy(d.tasks, j, u) <==> HeldBy(c.tasks, j, u) {
        assert HeldBy(c.tasks - {t}, j, u) <==> HeldBy(c.tasks, j, u);
      }
      forall j: nat, u ensures SpeaksAs(d.tasks, j, u) <==> SpeaksAs(c.tasks, j, u) {
        assert SpeaksAs(c.tasks - {t}, j, u) <==> SpeaksAs(c.tasks, j, u);
      }
      SameHoldings(c.lane, c.tasks, d.lane, d.tasks);
    }
  }

  // Exclusion.

  lemma EnteringExcludes(c: Core, d: Core, t: Tid)
    requires Exclusive(c) && (t in c.tasks ==> !c.tasks[t].Sends())
    requires t in d.tasks && d.tasks == c.tasks[t := d.tasks[t]]
    requires d.tasks[t].Sends() ==> !c.lane.sending
    requires d.lane.sending == (c.lane.sending || d.tasks[t].Sends())
    ensures Exclusive(d)
  {
    if c.lane.sending {
      var u :| u in c.tasks && c.tasks[u].Sends();
      assert u in d.tasks && d.tasks[u].Sends();
    }
  }

  lemma LeavingExcludes(c: Core, t: Tid, l: Lane)
    requires Exclusive(c) && t in c.tasks
    requires l.sending == (c.lane.sending && !c.tasks[t].Sends())
    ensures Exclusive(Left(c, t, l))
  {
    var d := Left(c, t, l);
    if l.sending {
      var u :| u in c.tasks && c.tasks[u].Sends();
      assert u in d.tasks && d.tasks[u].Sends();
    }
    forall u | u in d.tasks ensures d.tasks[u].Sends() == c.tasks[u].Sends() && u != t {
    }
  }

  lemma LeaverExcludes(c: Core, t: Tid, sent: bool)
    requires Exact(c) && Exclusive(c) && t in c.tasks && c.tasks[t].Sends() == sent
    ensures Exclusive(Next(c, if sent then Finish(t) else CancelWait(t)))
  {
    assert sent ==> c.lane.sending;
    if c.tasks[t].Passive() {
      SomePassive(c, t);
      LeavingExcludes(c, t, LeavePassive(c.lane, sent));
    } else {
      SkipSpec(if sent then c.lane.(serving := c.lane.serving + 1, sending := false)
               else c.lane.(cancelled := c.lane.cancelled + {c.tasks[t].ticket}));
      LeavingExcludes(c, t, LeaveNonPassive(c.lane, c.tasks[t].ticket, sent));
    }
  }

  lemma MarkingExcludes(c: Core, d: Core)
    requires Exclusive(c) && d.tasks == NotifyAll(c.tasks) && d.lane.sending == c.lane.sending
    ensures Exclusive(d)
  {
    assert forall u :: u in d.tasks ==> d.tasks[u].Sends() == c.tasks[u].Sends();
    if c.lane.sending {
      var u :| u in c.tasks && c.tasks[u].Sends();
      assert u in d.tasks && d.tasks[u].Sends();
    }
  }

  lemma ExclusionKept(c: Core, e: Event)
    requires Exact(c) && Exclusive(c) && Ticketed(c) && Enabled(c, e)
    ensures Exclusive(Next(c, e))
  {
    match e
    case Start(t, kind) => EnteringExcludes(c, Next(c, e), t);
    case Wake(t) => EnteringExcludes(c, Next(c, e), t);
    case Finish(t) => LeaverExcludes(c, t, true);
    case CancelWait(t) => LeaverExcludes(c, t, false);
    case _ => MarkingExcludes(c, Next(c, e));
  }

  // Wakeups.

  /** Entering never unblocks another waiter, and a task that goes back to waiting was blocked; every
      other event notifies all waiters. */
  lemma AwakeKept(c: Core, e: Event)
    requires Exact(c) && Ticketed(c) && Awake(c) && Enabled(c, e)
    ensures Awake(Next(c, e))
  {
    match e
    case Start(t, kind) => OthersStayBlocked(c, Next(c, e), t);
    case Wake(t) => OthersStayBlocked(c, Next(c, e), t);
    case Finish(t) => NotifiedAreAwake(Next(c, e), c.tasks - {t});
    case CancelWait(t) => NotifiedAreAwake(Next(c, e), c.tasks - {t});
    case _ => NotifiedAreAwake(Next(c, e), c.tasks);
  }

  lemma NotifiedAreAwake(d: Core, tasks: map<Tid, Phase>)
    requires d.tasks == NotifyAll(tasks)
    ensures Awake(d)
  {
  }

  lemma OthersStayBlocked(c: Core, d: Core, t: Tid)
    requires Awake(c) && t in d.tasks && d.tasks == c.tasks[t := d.tasks[t]]
    requires c.lane.serving == d.lane.serving
    requires c.lane.sending ==> d.lane.sending
    requires c.lane.turns <= d.lane.turns && c.lane.sends <= d.lane.sends
    requires !Ready(d, t)
    ensures Awake(d)
  {
    forall u | u in d.tasks && Ready(d, u)
      ensures (d.tasks[u].PassiveWaiting? || d.tasks[u].Queueing?) && d.tasks[u].notified
    {
      assert u != t && d.tasks[u] == c.tasks[u] && Ready(c, u);
    }
  }

  lemma StepKeepsInv(c: Core, e: Event)
    requires Inv(c) && Enabled(c, e)
    ensures Inv(Next(c, e))
  {
    CountsKept(c, e);
    TicketsKept(c, e);
    ExclusionKept(c, e);
    AwakeKept(c, e);
  }

  // ---------------------------------------------------------------- every run

  function Init(): Core {
    Core(FRESH, map[], {}, 0)
  }

  predicate Legal(c: Core, es: seq<Event>)
    decreases |es|
  {
    es == [] || (Enabled(c, es[0]) && Legal(Next(c, es[0]), es[1..]))
  }

  function Run(c: Core, es: seq<Event>): Core
    requires Legal(c, es)
    decreases |es|
  {
    if es == [] then c else Run(Next(c, es[0]), es[1..])
  }

  lemma {:induction false} RunKeepsInv(c: Core, es: seq<Event>)
    requires Inv(c) && Legal(c, es)
    ensures Inv(Run(c, es))
    decreases |es|
  {
    if es != [] {
      StepKeepsInv(c, es[0]);
      RunKeepsInv(Next(c, es[0]), es[1..]);
    }
  }

  /** The task begins its send in this step. */
  predicate Begins(c: Core, e: Event, t: Tid)
    requires Enabled(c, e)
  {
    && t in Next(c, e).tasks && Next(c, e).tasks[t].Sends()
    && (t in c.tasks ==> !c.tasks[t].Sends())
  }

  /** A send begins only when no other send runs; a non-passive one only when, besides, no passive
      turn is owed and no passive send is queued, waiting or running. */
  lemma BeginsOnlyWhenFree(c: Core, e: Event, t: Tid)
    requires Inv(c) && Enabled(c, e) && Begins(c, e, t)
    ensures forall u :: u in c.tasks ==> !c.tasks[u].Sends()
    ensures Next(c, e).tasks[t].Speaking? ==>
              c.owed == {} && c.queued == 0 && forall u :: u in c.tasks ==> !c.tasks[u].Passive()
  {
    var d := Next(c, e);
    assert !c.lane.sending;
    if d.tasks[t].Speaking? {
      assert c.lane.turns == 0 && c.lane.sends == 0;
      forall u | u in c.tasks ensures !c.tasks[u].Passive() {
        assert u !in Passives(c.tasks);
      }
    }
  }

  /** Progress on a free lane: a waiting passive send may start at once, whatever is owed or queued; and
      when nothing is, any waiting implies that some waiter may start. The waiter has been notified. */
  lemma SomeoneMayGo(c: Core, w: Tid) returns (t: Tid)
    requires Inv(c) && w in c.tasks && !c.lane.sending
    requires c.tasks[w].Passive() || (c.owed == {} && c.queued == 0)
    ensures t in c.tasks && Ready(c, t) && Enabled(c, Wake(t)) && Begins(c, Wake(t), t)
    ensures c.tasks[w].Passive() ==> t == w
  {
    if c.tasks[w].Passive() {
      t := w;
    } else if Passives(c.tasks) != {} {
      t :| t in Passives(c.tasks);
    } else {
      assert HeldBy(c.tasks, c.tasks[w].ticket, w);
      t :| HeldBy(c.tasks, c.lane.serving, t);
      assert t !in Passives(c.tasks);
    }
  }

  /** The ticket whose holder begins its send in this step, if there is one. */
  function Begun(c: Core, e: Event): (k: seq<nat>)
    requires Enabled(c, e)
  {
    if (e.Start? || e.Wake?) && e.t in Next(c, e).tasks && Next(c, e).tasks[e.t].Speaking?
    then [Next(c, e).tasks[e.t].ticket] else []
  }

  /** The tickets of the non-passive sends of a run, in the order in which they begin. */
  function Served(c: Core, es: seq<Event>): seq<nat>
    requires Legal(c, es)
    decreases |es|
  {
    if es == [] then [] else Begun(c, es[0]) + Served(Next(c, es[0]), es[1..])
  }

  /** No ticket below this one begins from here on. */
  ghost function Floor(c: Core): nat {
    if exists k: nat, t :: SpeaksAs(c.tasks, k, t) then c.lane.serving + 1 else c.lane.serving
  }

  lemma BeginRaisesFloor(c: Core, e: Event)
    requires Inv(c) && Enabled(c, e) && Begun(c, e) != []
    ensures Floor(c) <= Begun(c, e)[0] < Floor(Next(c, e))
  {
    var d := Next(c, e);
    StepKeepsInv(c, e);
    assert SpeaksAs(d.tasks, d.tasks[e.t].ticket, e.t);
    assert !c.lane.sending;
    forall k: nat, u ensures !SpeaksAs(c.tasks, k, u) {
      assert u in c.tasks ==> !c.tasks[u].Sends();
    }
  }

  lemma ServingAfterLeaving(c: Core, t: Tid, sent: bool)
    requires t in c.tasks && c.tasks[t].Sends() == sent
    ensures var d := Next(c, if sent then Finish(t) else CancelWait(t));
            && d.lane.serving >= c.lane.serving + (if c.tasks[t].Speaking? then 1 else 0)
            && forall k: nat, u :: u != t && SpeaksAs(c.tasks, k, u) ==> SpeaksAs(d.tasks, k, u)
  {
    if c.tasks[t].Holds() {
      SkipSpec(if sent then c.lane.(serving := c.lane.serving + 1, sending := false)
               else c.lane.(cancelled := c.lane.cancelled + {c.tasks[t].ticket}));
    }
  }

  lemma LeavingKeepsFloor(c: Core, t: Tid, sent: bool)
    requires Inv(c) && t in c.tasks && c.tasks[t].Sends() == sent
    ensures Floor(c) <= Floor(Next(c, if sent then Finish(t) else CancelWait(t)))
  {
    ServingAfterLeaving(c, t, sent);
    if k: nat, u :| SpeaksAs(c.tasks, k, u) && u != t {
      assert SpeaksAs(Next(c, if sent then Finish(t) else CancelWait(t)).tasks, k, u);
    }
  }

  lemma EnteringKeepsFloor(c: Core, d: Core)
    requires c.lane.serving == d.lane.serving
    requires forall k: nat, u :: SpeaksAs(c.tasks, k, u) ==> SpeaksAs(d.tasks, k, u)
    ensures Floor(c) <= Floor(d)
  {
  }

  lemma FloorKept(c: Core, e: Event)
    requires Inv(c) && Enabled(c, e)
    ensures Floor(c) <= Floor(Next(c, e))
  {
    match e
    case Finish(t) => LeavingKeepsFloor(c, t, true);
    case CancelWait(t) => LeavingKeepsFloor(c, t, false);
    case _ =>
      SkipSpec(c.lane);
      EnteringKeepsFloor(c, Next(c, e));
  }

  ghost predicate Increasing(ks: seq<nat>, from: nat) {
    && (forall i :: 0 <= i < |ks| ==> from <= ks[i])
    && (forall i, j :: 0 <= i < j < |ks| ==> ks[i] < ks[j])
  }

  /** One step's begun ticket comes before all that begin later. */
  lemma ServedStep(c: Core, e: Event, later: seq<nat>)
    requires Inv(c) && Enabled(c, e) && Increasing(later, Floor(Next(c, e)))
    ensures Increasing(Begun(c, e) + later, Floor(c))
  {
    FloorKept(c, e);
    if Begun(c, e) != [] {
      BeginRaisesFloor(c, e);
    }
  }

  /** Non-passive sends begin in ticket order, which is the order of their calls. */
  lemma {:induction false} ServedInOrder(c: Core, es: seq<Event>)
    requires Inv(c) && Legal(c, es)
    ensures Increasing(Served(c, es), Floor(c))
    decreases |es|
  {
    if es != [] {
      StepKeepsInv(c, es[0]);
      ServedInOrder(Next(c, es[0]), es[1..]);
      ServedStep(c, es[0], Served(Next(c, es[0]), es[1..]));
    }
  }
}
