/** What the inbox's events achieve: which rows a recovery takes, that the lock and the queue's order are
    kept, that a retried delete ends, and what a fatal error stops. */
module InboxEffects {
  import opened Inbox
  import opened Wrappers

  // ---------------------------------------------------------------- what a recovery takes

  /** A row of the page that somebody claimed was owned when the page was read. */
  lemma ClaimedWasOwned(b: Bus, t: Tid, h: Hid)
    requires Inv(b) && t in b.procs && b.procs[t].Recovering? && b.procs[t].current.None?
    requires h in b.procs[t].todo && h in b.claimed
    ensures h in b.procs[t].inFlight
  {
    assert Paging(b, t, b.procs[t]);
    assert forall u: Tid :: RecoversNow(b.procs, u, h) ==> b.lock == Some(u);
  }

  /** The next row of a page is claimed and goes on to the lane mark if and only if it was neither claimed
      nor owned when the page was read; under the invariant, if and only if it was not owned then. */
  lemma RecoversUnowned(b: Bus, t: Tid)
    requires Inv(b) && Enabled(b, RecoverRow(t))
    ensures var p, d := b.procs[t], Step(b, RecoverRow(t));
            var h := p.todo[0];
            && t in d.procs && d.procs[t].Recovering? && d.procs[t].todo == p.todo[1..]
            && (Registering(d.procs[t]) == Some((b.nextMid, h)) <==> h !in b.claimed && h !in p.inFlight)
            && (Registering(d.procs[t]) == Some((b.nextMid, h)) <==> h !in p.inFlight)
            && (h in p.inFlight ==> Registering(d.procs[t]) == None && d.claimed == b.claimed)
            && (h !in p.inFlight ==> h in d.claimed)
  {
    var h := b.procs[t].todo[0];
    if h in b.claimed {
      ClaimedWasOwned(b, t, h);
    }
  }

  /** The coroutine goes on reading one page all along. */
  predicate Reads(b: Bus, es: seq<Event>, t: Tid)
    requires Legal(b, es)
    decreases |es|
  {
    t in b.procs && b.procs[t].Recovering? && (es == [] || Reads(Step(b, es[0]), es[1..], t))
  }

  /** Where a page stands: `owned` are the ids owned at the read, `n` the ids queued by then. */
  ghost predicate Underway(d: Bus, t: Tid, page: seq<Hid>, owned: set<Hid>, n: nat) {
    && t in d.procs && d.procs[t].Recovering? && n <= |d.enqueued|
    && var p, taken := d.procs[t], d.enqueued[n..];
       && p.inFlight == owned
       && (forall h :: h in page ==>
             h in p.todo || h in owned || h in taken || (p.current.Some? && p.current.value.1 == h))
       && (forall h :: h in taken ==> h in page && h !in owned)
       && (forall h :: h in p.todo ==> h in page)
       && (p.current.Some? ==> p.current.value.1 in page && p.current.value.1 !in owned)
  }

  lemma RowKeepsUnderway(d: Bus, t: Tid, page: seq<Hid>, owned: set<Hid>, n: nat)
    requires Inv(d) && Enabled(d, RecoverRow(t)) && Underway(d, t, page, owned, n)
    ensures Underway(Step(d, RecoverRow(t)), t, page, owned, n)
  {
    RecoversUnowned(d, t);
    var todo := d.procs[t].todo;
    assert todo == [todo[0]] + todo[1..];
  }

  lemma EnqueueKeepsUnderway(d: Bus, t: Tid, page: seq<Hid>, owned: set<Hid>, n: nat)
    requires Inv(d) && Enabled(d, Enqueue(t)) && Underway(d, t, page, owned, n)
    ensures Underway(Step(d, Enqueue(t)), t, page, owned, n)
  {
    var e := Step(d, Enqueue(t));
    assert e.enqueued[n..] == d.enqueued[n..] + [Registering(d.procs[t]).value.1];
  }

  /** While it holds the lock nobody else reads or registers anything. */
  lemma OthersLeaveIt(d: Bus, e: Event, t: Tid)
    requires Inv(d) && Enabled(d, e) && t in d.procs && d.procs[t].Recovering?
    requires e != RecoverRow(t) && e != Enqueue(t)
    requires t in Step(d, e).procs && Step(d, e).procs[t].Recovering?
    ensures Step(d, e).enqueued == d.enqueued && Step(d, e).procs[t] == d.procs[t]
  {
    assert Paging(d, t, d.procs[t]);
    assert forall u: Tid :: u in d.procs && Registering(d.procs[u]).Some? ==> d.lock == Some(u);
  }

  lemma OthersKeepUnderway(d: Bus, v: Bus, t: Tid, page: seq<Hid>, owned: set<Hid>, n: nat)
    requires Underway(d, t, page, owned, n) && t in v.procs
    requires v.enqueued == d.enqueued && v.procs[t] == d.procs[t]
    ensures Underway(v, t, page, owned, n)
  {
  }

  lemma {:induction false} StaysUnderway(d: Bus, es: seq<Event>, t: Tid, page: seq<Hid>, owned: set<Hid>, n: nat)
    requires Inv(d) && Legal(d, es) && Reads(d, es, t) && Underway(d, t, page, owned, n)
    ensures Inv(Run(d, es)) && Underway(Run(d, es), t, page, owned, n)
    decreases |es|
  {
    if es != [] {
      StepKeepsInv(d, es[0]);
      if es[0] == RecoverRow(t) {
        RowKeepsUnderway(d, t, page, owned, n);
      } else if es[0] == Enqueue(t) {
        EnqueueKeepsUnderway(d, t, page, owned, n);
      } else {
        OthersLeaveIt(d, es[0], t);
        OthersKeepUnderway(d, Step(d, es[0]), t, page, owned, n);
      }
      StaysUnderway(Step(d, es[0]), es[1..], t, page, owned, n);
    }
  }

  /** A recovery that comes to the end of its page has put exactly those rows of it on the queue that nobody
      owned when it was read, whatever else happened meanwhile. */
  lemma PageTakesAll(b: Bus, t: Tid, page: seq<Hid>, es: seq<Event>)
    requires Inv(b) && Enabled(b, RecoverPage(t, page))
    requires Legal(Step(b, RecoverPage(t, page)), es) && Reads(Step(b, RecoverPage(t, page)), es, t)
    requires Enabled(Run(Step(b, RecoverPage(t, page)), es), EndPage(t))
    ensures var d := Run(Step(b, RecoverPage(t, page)), es);
            && |b.enqueued| <= |d.enqueued|
            && forall h :: h in d.enqueued[|b.enqueued|..] <==> h in page && h !in OwnedIds(b.accepted)
  {
    var first := Step(b, RecoverPage(t, page));
    StepKeepsInv(b, RecoverPage(t, page));
    assert Underway(first, t, page, OwnedIds(b.accepted), |b.enqueued|);
    StaysUnderway(first, es, t, page, OwnedIds(b.accepted), |b.enqueued|);
  }

  // ---------------------------------------------------------------- the lock

  /** The lock is held by a publish or a recovery that is still under way. */
  predicate LockLive(b: Bus) {
    b.lock.Some? ==> b.lock.value in b.procs && !b.procs[b.lock.value].Finalizing?
  }

  lemma LockStaysLive(b: Bus, e: Event)
    requires Inv(b) && LockLive(b) && Enabled(b, e)
    ensures LockLive(Step(b, e))
  {
    match e
    case Enqueue(t) => assert Registered(b, t, Registering(b.procs[t]).value.0, Registering(b.procs[t]).value.1);
    case _ =>
  }

  lemma {:induction false} RunKeepsLock(b: Bus, es: seq<Event>)
    requires Inv(b) && LockLive(b) && Legal(b, es)
    ensures Inv(Run(b, es)) && LockLive(Run(b, es))
    decreases |es|
  {
    if es != [] {
      StepKeepsInv(b, es[0]);
      LockStaysLive(b, es[0]);
      RunKeepsLock(Step(b, es[0]), es[1..]);
    }
  }

  /** In every run the lock is held exactly by a publish or recovery under way, and its holder can always
      go on: the lock is never lost. */
  lemma LockNeverLost(chat: Mid -> Chat, rows: set<Hid>, nextHid: Hid, es: seq<Event>, t: Tid)
    requires forall h :: h in rows ==> h < nextHid
    requires Legal(Init(chat, rows, nextHid), es)
    ensures var b := Run(Init(chat, rows, nextHid), es);
            && (b.lock == Some(t) <==> t in b.procs && !b.procs[t].Finalizing?)
            && (b.lock == Some(t) ==> Enabled(b, RecoverRow(t)) || Enabled(b, Enqueue(t)) || Enabled(b, EndPage(t)))
  {
    RunKeepsLock(Init(chat, rows, nextHid), es);
    var b := Run(Init(chat, rows, nextHid), es);
    if t in b.procs && !b.procs[t].Finalizing? {
      if b.procs[t].Recovering? {
        assert Paging(b, t, b.procs[t]);
      } else {
        assert Registered(b, t, b.procs[t].mid, b.procs[t].hid);
      }
    }
  }

  /** A registration that is given up, or a page that ends, leaves the lock to others, and a claim that came
      to nothing is given back. */
  lemma EndsReleaseLock(b: Bus, e: Event)
    requires Inv(b) && Enabled(b, e) && (e.Abort? || e.EndPage? || e.MalformedRow?)
    ensures var d := Step(b, e);
            && d.lock == None && e.t !in d.procs && d.inbound == b.inbound && d.accepted == b.accepted
            && (e.Abort? && b.procs[e.t].Recovering? ==> Registering(b.procs[e.t]).value.1 !in d.claimed)
  {
  }

  // ---------------------------------------------------------------- the queue

  function Puts(b: Bus, e: Event): seq<Mid>
    requires Enabled(b, e)
  {
    match e
    case Enqueue(t) => [Registering(b.procs[t]).value.0]
    case PublishPlain => [b.nextMid]
    case _ => []
  }

  /** The messages put on the queue in a run, in order. */
  function AllPut(b: Bus, es: seq<Event>): seq<Mid>
    requires Legal(b, es)
    decreases |es|
  {
    if es == [] then [] else Puts(b, es[0]) + AllPut(Step(b, es[0]), es[1..])
  }

  /** How many were taken from it. */
  function Takes(es: seq<Event>): nat {
    if es == [] then 0 else (if es[0].Consume? then 1 else 0) + Takes(es[1..])
  }

  /** First in, first out: what is queued is what was queued and put, without the first ones, as many as
      were taken. */
  lemma {:induction false} QueueInOrder(b: Bus, es: seq<Event>)
    requires Legal(b, es)
    ensures var all := b.inbound + AllPut(b, es);
            Takes(es) <= |all| && Run(b, es).inbound == all[Takes(es)..]
    decreases |es|
  {
    var all := b.inbound + AllPut(b, es);
    if es == [] {
      assert all == b.inbound;
    } else {
      var d := Step(b, es[0]);
      QueueInOrder(d, es[1..]);
      QueueMoves(b, es[0], AllPut(d, es[1..]));
    }
  }

  /** One event takes the first message, or puts messages at the end. */
  lemma QueueMoves(b: Bus, e: Event, rest: seq<Mid>)
    requires Enabled(b, e)
    ensures var all, left := b.inbound + (Puts(b, e) + rest), Step(b, e).inbound + rest;
            if e.Consume? then all == [b.inbound[0]] + left else all == left
  {
    if !e.Consume? {
      QueueGrows(b, e);
    }
  }

  lemma QueueGrows(b: Bus, e: Event)
    requires Enabled(b, e) && !e.Consume?
    ensures Step(b, e).inbound == b.inbound + Puts(b, e)
  {
  }

  // ---------------------------------------------------------------- deletes that fail

  /** A delete that failed with an operating system error is retried, and the first retry that the store
      answers deletes the row and pays; then the owner can be released. */
  lemma RetryLeadsToDeletion(b: Bus, t: Tid, m: Mid)
    requires Inv(b) && Retrying(b) && Enabled(b, Retry(t, m, Deleted))
    ensures var d := Step(b, Retry(t, m, Deleted));
            && m in d.gone && d.rows == b.rows - {b.accepted[m].hid} && d.rows != b.rows && m !in d.retries
            && Owing(d) == Owing(b) - {m}
            && (b.lock.None? ==>
                  && Enabled(d, Finalize(t)) && m !in Step(d, Finalize(t)).accepted
                  && b.accepted[m].hid !in Step(d, Finalize(t)).claimed)
  {
    assert b.accepted[m].hid in b.rows;
    MovesOneTurn(b, Retry(t, m, Deleted));
  }

  lemma FailedDeleteIsRetried(b: Bus, t: Tid, m: Mid)
    requires Inv(b) && Enabled(b, Complete(t, m, OsError)) && m in b.accepted && !b.accepted[m].cleanupPending
    ensures var d := Step(b, Complete(t, m, OsError));
            m in d.retries && d.accepted[m].cleanupPending && d.rows == b.rows && Owing(d) == Owing(b)
  {
    SameOwing(b, Step(b, Complete(t, m, OsError)));
  }

  /** The store refuses for good to delete this message's row, at its completion or at a retry. */
  predicate FailsForGood(b: Bus, e: Event) {
    match e
    case Complete(_, m, outcome) =>
      m in b.accepted && !b.accepted[m].cleanupPending && (outcome == Fatal || (outcome == Deleted && b.accepted[m].hid !in b.rows))
    case Retry(_, m, outcome) =>
      m !in b.accepted || !b.accepted[m].cleanupPending
      || outcome == Fatal || (outcome == Deleted && b.accepted[m].hid !in b.rows)
    case _ => false
  }

  /** The retries of this message end without a delete: they are cancelled at shutdown, or fail for good. */
  predicate GivesUp(b: Bus, e: Event, m: Mid) {
    e == StopRetry(m) || (e.Retry? && e.mid == m && FailsForGood(b, e))
  }

  /** Its row is stored and owned, and nobody will delete it. */
  ghost predicate Left(b: Bus, m: Mid) {
    m !in b.retries && m in b.accepted && b.accepted[m].cleanupPending && m !in b.gone
  }

  /** No coroutine is about to queue it or to release its owner. */
  lemma NobodyHandles(b: Bus, e: Event, m: Mid)
    requires Inv(b) && Enabled(b, e) && Left(b, m)
    ensures e.Enqueue? ==> Registering(b.procs[e.t]).value.0 != m
    ensures e.Finalize? ==> b.procs[e.t].mid != m
  {
    if e.Enqueue? {
      var r := Registering(b.procs[e.t]).value;
      assert Registered(b, e.t, r.0, r.1);
    }
  }

  lemma StaysLeft(b: Bus, e: Event, m: Mid)
    requires Enabled(b, e) && Left(b, m)
    requires e.Enqueue? ==> Registering(b.procs[e.t]).value.0 != m
    requires e.Finalize? ==> b.procs[e.t].mid != m
    ensures Left(Step(b, e), m) && Step(b, e).accepted[m] == b.accepted[m]
  {
  }

  lemma {:induction false} RunLeaves(b: Bus, es: seq<Event>, m: Mid)
    requires Inv(b) && Legal(b, es) && Left(b, m)
    ensures Inv(Run(b, es)) && Left(Run(b, es), m) && Run(b, es).accepted[m] == b.accepted[m]
    decreases |es|
  {
    if es != [] {
      StepKeepsInv(b, es[0]);
      NobodyHandles(b, es[0], m);
      StaysLeft(b, es[0], m);
      RunLeaves(Step(b, es[0]), es[1..], m);
    }
  }

  /** Retries that ended without a delete are never taken up again: whatever follows, the row stays stored and
      owned, for the next process to recover. */
  lemma GivenUpStays(b: Bus, e: Event, m: Mid, es: seq<Event>)
    requires Inv(b) && Retrying(b) && Enabled(b, e) && GivesUp(b, e, m) && Legal(Step(b, e), es)
    ensures m in b.accepted
    ensures var d := Run(Step(b, e), es);
            && m !in d.retries && m !in d.gone && m in d.accepted
            && d.accepted[m] == b.accepted[m] && b.accepted[m].hid in d.rows
  {
    StepKeepsInv(b, e);
    RunLeaves(Step(b, e), es, m);
  }

  /** A finalizer ends once; it lets its own owner and claim go, or nothing when it is cancelled before. */
  lemma FinalizerEnds(b: Bus, t: Tid, e: Event)
    requires Enabled(b, e) && (e == Finalize(t) || e == LoseFinalizer(t))
    ensures var m, d := b.procs[t].mid, Step(b, e);
            && d.procs == b.procs - {t}
            && d.accepted == (if e == Finalize(t) then b.accepted - {m} else b.accepted)
            && d.claimed == b.claimed - (if e == Finalize(t) && m in b.accepted then {b.accepted[m].hid} else {})
  {
  }

  predicate Failed(b: Bus, es: seq<Event>)
    requires Legal(b, es)
    decreases |es|
  {
    es != [] && (FailsForGood(b, es[0]) || Failed(Step(b, es[0]), es[1..]))
  }

  /** The bus refuses to complete messages and to take plain ones if and only if some delete has failed for
      good, and then for ever. */
  lemma {:induction false} RefusesIffFailed(b: Bus, es: seq<Event>)
    requires Legal(b, es)
    ensures Run(b, es).fatal <==> b.fatal || Failed(b, es)
    ensures Run(b, es).fatal <==> !Enabled(Run(b, es), PublishPlain)
    ensures Run(b, es).fatal ==> forall t, m, outcome :: !Enabled(Run(b, es), Complete(t, m, outcome))
    decreases |es|
  {
    if es != [] {
      RefusesIffFailed(Step(b, es[0]), es[1..]);
      assert Step(b, es[0]).fatal <==> b.fatal || FailsForGood(b, es[0]);
    }
  }
}
