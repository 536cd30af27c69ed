/** What each event does to the sends of a chat: who begins, who waits, and who goes. */
module LaneEffects {
  import opened LaneProtocol
  import opened LaneState

  lemma LeavesFree(c: Core, t: Tid)
    requires Inv(c) && t in c.tasks && c.tasks[t].Sends()
    ensures !Next(c, Finish(t)).lane.sending
  {
    if c.tasks[t].Passive() {
      SomePassive(c, t);
    } else {
      SkipSpec(c.lane.(serving := c.lane.serving + 1, sending := false));
    }
  }

  /** A task that ends its send, or gives up waiting, is gone; nobody else's place changes, all waiters are
      notified, and after a send the lane is free. */
  lemma Departs(c: Core, t: Tid, sent: bool)
    requires Inv(c) && t in c.tasks && c.tasks[t].Sends() == sent
    ensures var e := if sent then Finish(t) else CancelWait(t);
            && Enabled(c, e)
            && var d := Next(c, e);
               && d.tasks.Keys == c.tasks.Keys - {t} && d.owed == c.owed && d.queued == c.queued
               && (forall u :: u in d.tasks ==> d.tasks[u] == Notified(c.tasks[u]))
               && (sent ==> !d.lane.sending)
  {
    if sent {
      LeavesFree(c, t);
    }
    assert Next(c, if sent then Finish(t) else CancelWait(t)).tasks == NotifyAll(c.tasks - {t});
  }

  /** The ticket being served is the smallest one held. */
  lemma ServesSmallest(c: Core, k: nat)
    requires Ticketed(c) && (k == c.lane.next || exists t :: HeldBy(c.tasks, k, t))
    ensures k == c.lane.serving <==> forall t :: t in c.tasks && c.tasks[t].Holds() ==> k <= c.tasks[t].ticket
  {
    forall t | t in c.tasks && c.tasks[t].Holds() ensures c.lane.serving <= c.tasks[t].ticket {
      assert HeldBy(c.tasks, c.tasks[t].ticket, t);
    }
    if c.lane.serving < c.lane.next {
      var t :| HeldBy(c.tasks, c.lane.serving, t);
      assert c.tasks[t].ticket == c.lane.serving;
    }
  }

  /** Nothing stands in the way of a non-passive send with this ticket: nobody sends, nothing passive is owed,
      queued or waiting, and no other non-passive one came before. */
  ghost predicate Clear(c: Core, k: nat) {
    && (forall u :: u in c.tasks ==> !c.tasks[u].Sends())
    && c.owed == {} && c.queued == 0 && Passives(c.tasks) == {}
    && (forall u :: u in c.tasks && c.tasks[u].Holds() ==> k <= c.tasks[u].ticket)
  }

  lemma ClearIff(c: Core, k: nat)
    requires Inv(c) && (k == c.lane.next || exists t :: HeldBy(c.tasks, k, t))
    ensures Clear(c, k) <==> !Blocked(c.lane, k)
  {
    ServesSmallest(c, k);
  }

  /** Everybody else stays where it was. */
  ghost predicate OnlyMoves(c: Core, d: Core, t: Tid) {
    && d.tasks.Keys == c.tasks.Keys + {t}
    && forall u :: u in c.tasks && u != t ==> d.tasks[u] == c.tasks[u]
  }

  /** A passive send begins, on its call or when woken, if and only if nobody sends; otherwise it waits. */
  lemma PassiveBeginsIff(c: Core, e: Event)
    requires Inv(c) && Enabled(c, e)
    requires (e.Start? && e.kind != NonPassive) || (e.Wake? && c.tasks[e.t].Passive())
    ensures OnlyMoves(c, Next(c, e), e.t)
    ensures Next(c, e).tasks[e.t] ==
            if exists u :: u in c.tasks && c.tasks[u].Sends() then PassiveWaiting(false) else PassiveSending
  {
  }

  lemma NothingToSkip(c: Core)
    requires Ticketed(c)
    ensures Skip(c.lane) == c.lane
    ensures var l := c.lane.(active := c.lane.active + 1, next := c.lane.next + 1); Skip(l) == l
  {
  }

  /** A non-passive send begins if and only if nothing stands in its way; otherwise it waits with its ticket,
      which at its call is the next one. */
  lemma NonPassiveBeginsIff(c: Core, e: Event)
    requires Inv(c) && Enabled(c, e)
    requires (e.Start? && e.kind == NonPassive) || (e.Wake? && c.tasks[e.t].Queueing?)
    ensures OnlyMoves(c, Next(c, e), e.t)
    ensures var k := if e.Start? then c.lane.next else c.tasks[e.t].ticket;
            Next(c, e).tasks[e.t] == if Clear(c, k) then Speaking(k) else Queueing(k, false)
  {
    NothingToSkip(c);
    if e.Start? {
      ClearIff(c, c.lane.next);
    } else {
      assert HeldBy(c.tasks, c.tasks[e.t].ticket, e.t);
      ClearIff(c, c.tasks[e.t].ticket);
    }
  }

  /** In this run a non-passive send begins with this ticket. */
  predicate BeginsIn(c: Core, es: seq<Event>, k: nat)
    requires Legal(c, es)
    decreases |es|
  {
    es != [] &&
    var e, d := es[0], Next(c, es[0]);
    || ((e.Start? || e.Wake?) && e.t in d.tasks && d.tasks[e.t] == Speaking(k))
    || BeginsIn(d, es[1..], k)
  }

  /** The tickets served in a run are those of the sends that begin in it. */
  lemma {:induction false} ServedAreBegun(c: Core, es: seq<Event>, k: nat)
    requires Legal(c, es)
    ensures k in Served(c, es) <==> BeginsIn(c, es, k)
    decreases |es|
  {
    if es != [] {
      ServedAreBegun(Next(c, es[0]), es[1..], k);
      assert k in Begun(c, es[0]) + Served(Next(c, es[0]), es[1..]) <==>
             k in Begun(c, es[0]) || k in Served(Next(c, es[0]), es[1..]);
    }
  }
}
