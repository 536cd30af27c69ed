/** The durable mobile inbox of bus/queue.py (MessageBus): live publishes and paged recovery register
    handoff rows under one lock, completions delete rows outside it, failed deletes are retried.
    Every `await` is a suspension point; what lies between two of them is one event. */
module Inbox {
  import opened Wrappers

  type Mid = nat   // a message object
  type Hid = nat   // a handoff row's id
  type Tid = nat   // a coroutine
  type Chat = nat

  const PAGE := 256

  datatype Owner = Owner(hid: Hid, cleanupPending: bool)

  /** A coroutine suspended inside the bus. The first two hold the durable lock. */
  datatype Proc =
    | Publishing(mid: Mid, hid: Hid)
    | Recovering(todo: seq<Hid>, inFlight: set<Hid>, current: Option<(Mid, Hid)>)
    | Finalizing(mid: Mid)

  /** `chat` is where each message belongs, `turns` the lane's count of passive turns per chat. History:
      `enqueued`, the ids put on the queue; `gone`, the messages whose row the store has confirmed
      deleted; `plain`, the queued messages without a row that have not been completed. */
  datatype Bus = Bus(chat: Mid -> Chat, rows: set<Hid>, accepted: map<Mid, Owner>, inbound: seq<Mid>,
                     claimed: set<Hid>, fatal: bool, lock: Option<Tid>, procs: map<Tid, Proc>,
                     retries: set<Mid>, turns: map<Chat, nat>, nextMid: Mid, nextHid: Hid,
                     enqueued: seq<Hid>, gone: set<Mid>, plain: set<Mid>)

  datatype Outcome = Deleted | OsError | Fatal

  datatype Event =
    | Publish(t: Tid)                       // a live message, reserved under a fresh id
    | PublishKnown(existing: Hid)           // its dedupe key already has a row: nothing is queued
    | PublishPlain                          // a message of another channel: no row, no owner
    | RecoverPage(t: Tid, page: seq<Hid>)
    | RecoverRow(t: Tid)
    | Enqueue(t: Tid)                       // past the lane mark: put, then register the owner
    | Abort(t: Tid)                         // cancelled, or failed, at the lane mark; a mark is undone
    | MalformedRow(t: Tid)                  // the next row cannot be decoded: the page is given up
    | EndPage(t: Tid)
    | Consume
    | Complete(t: Tid, mid: Mid, outcome: Outcome)
    | Retry(t: Tid, mid: Mid, outcome: Outcome)
    | StopRetry(mid: Mid)                   // aclose cancels the retry task
    | Finalize(t: Tid)                      // lock taken: the owner is released
    | LoseFinalizer(t: Tid)                 // cancelled before it got the lock

  function Init(chat: Mid -> Chat, rows: set<Hid>, nextHid: Hid): Bus {
    Bus(chat, rows, map[], [], {}, false, None, map[], {}, map[], 0, nextHid, [], {}, {})
  }

  /** The lane's count of a chat. */
  function Turns(b: Bus, c: Chat): nat {
    Count(b.turns, c)
  }

  function Count(turns: map<Chat, nat>, c: Chat): nat {
    if c in turns then turns[c] else 0
  }

  /** mark_passive_pending. */
  function Marked(turns: map<Chat, nat>, c: Chat): map<Chat, nat> {
    turns[c := Count(turns, c) + 1]
  }

  /** mark_passive_done: the count never goes below zero. */
  function Paid(turns: map<Chat, nat>, c: Chat): map<Chat, nat> {
    turns[c := if Count(turns, c) > 0 then Count(turns, c) - 1 else 0]
  }

  function OwnedIds(accepted: map<Mid, Owner>): set<Hid> {
    set m | m in accepted :: accepted[m].hid
  }

  predicate Distinct(s: seq<Hid>) {
    forall i, j :: 0 <= i < j < |s| ==> s[i] != s[j]
  }

  /** The failure check of a publish or a recovery comes before it waits for the lock, so one that was
      already waiting goes on after a fatal error; only what does not wait is refused by it. */
  predicate Enabled(b: Bus, e: Event) {
    match e
    case Publish(t) => b.lock.None? && t !in b.procs
    case PublishKnown(existing) => b.lock.None? && existing in b.rows
    case RecoverPage(t, page) =>
      && b.lock.None? && t !in b.procs
      && |page| <= PAGE && Distinct(page) && forall h :: h in page ==> h in b.rows
    case RecoverRow(t) =>
      t in b.procs && b.procs[t].Recovering? && b.procs[t].current.None? && b.procs[t].todo != []
    case Enqueue(t) => t in b.procs && Registering(b.procs[t]).Some?
    case Abort(t) => t in b.procs && Registering(b.procs[t]).Some?
    case EndPage(t) =>
      t in b.procs && b.procs[t].Recovering? && b.procs[t].current.None? && b.procs[t].todo == []
    case MalformedRow(t) =>
      && t in b.procs && b.procs[t].Recovering? && b.procs[t].current.None? && b.procs[t].todo != []
      && !Skipped(b, b.procs[t], b.procs[t].todo[0])
    case Consume => b.inbound != []
    case Complete(t, mid, _) => !b.fatal && t !in b.procs && mid < b.nextMid
    case Retry(t, mid, _) => t !in b.procs && mid in b.retries
    case StopRetry(mid) => mid in b.retries
    case Finalize(t) => t in b.procs && b.procs[t].Finalizing? && b.lock.None?
    case LoseFinalizer(t) => t in b.procs && b.procs[t].Finalizing?
    case PublishPlain => !b.fatal
  }

  /** Recovery passes over a row that is claimed, or was owned when the page was read. */
  predicate Skipped(b: Bus, p: Proc, h: Hid)
    requires p.Recovering?
  {
    h in b.claimed || h in p.inFlight
  }

  /** The message a lock holder is about to put on the queue. */
  function Registering(p: Proc): Option<(Mid, Hid)> {
    match p
    case Publishing(m, h) => Some((m, h))
    case Recovering(_, _, current) => current
    case Finalizing(_) => None
  }

  /** store.complete_inbound_handoff: a row that is not there is a fatal error. */
  function Deletion(b: Bus, h: Hid, outcome: Outcome): Outcome {
    if outcome == Deleted && h !in b.rows then Fatal else outcome
  }

  function Step(b: Bus, e: Event): Bus
    requires Enabled(b, e)
  {
    match e
    case Publish(t) =>
      b.(lock := Some(t), procs := b.procs[t := Publishing(b.nextMid, b.nextHid)],
         rows := b.rows + {b.nextHid}, nextMid := b.nextMid + 1, nextHid := b.nextHid + 1)
    case PublishKnown(_) => b.(nextMid := b.nextMid + 1)
    case PublishPlain =>
      b.(turns := Marked(b.turns, b.chat(b.nextMid)), inbound := b.inbound + [b.nextMid],
         plain := b.plain + {b.nextMid}, nextMid := b.nextMid + 1)
    case RecoverPage(t, page) =>
      b.(lock := Some(t), procs := b.procs[t := Recovering(page, OwnedIds(b.accepted), None)])
    case RecoverRow(t) =>
      var p := b.procs[t];
      var h := p.todo[0];
      if Skipped(b, p, h) then b.(procs := b.procs[t := p.(todo := p.todo[1..])])
      else
        b.(claimed := b.claimed + {h}, rows := b.rows + {h}, nextMid := b.nextMid + 1,
           procs := b.procs[t := p.(todo := p.todo[1..], current := Some((b.nextMid, h)))])
    case Enqueue(t) =>
      var (m, h) := Registering(b.procs[t]).value;
      b.(turns := Marked(b.turns, b.chat(m)), inbound := b.inbound + [m], enqueued := b.enqueued + [h],
         accepted := b.accepted[m := Owner(h, false)],
         lock := if b.procs[t].Publishing? then None else b.lock,
         procs := if b.procs[t].Publishing? then b.procs - {t}
                  else b.procs[t := b.procs[t].(current := None)])
    case Abort(t) =>
      b.(claimed := if b.procs[t].Recovering? then b.claimed - {Registering(b.procs[t]).value.1} else b.claimed,
         lock := None, procs := b.procs - {t})
    case EndPage(t) => b.(lock := None, procs := b.procs - {t})
    case MalformedRow(t) => b.(lock := None, procs := b.procs - {t})
    case Consume => b.(inbound := b.inbound[1..])
    case Complete(t, mid, outcome) =>
      if mid !in b.accepted then b.(turns := Paid(b.turns, b.chat(mid)), plain := b.plain - {mid})
      else if b.accepted[mid].cleanupPending then b
      else
        (match Deletion(b, b.accepted[mid].hid, outcome)
         case Deleted => DeleteRow(b, t, mid)
         case OsError =>
           b.(accepted := b.accepted[mid := b.accepted[mid].(cleanupPending := true)], retries := b.retries + {mid})
         case Fatal => b.(fatal := true))
    case Retry(t, mid, outcome) =>
      if mid !in b.accepted || !b.accepted[mid].cleanupPending then b.(fatal := true, retries := b.retries - {mid})
      else
        (match Deletion(b, b.accepted[mid].hid, outcome)
         case Deleted => DeleteRow(b, t, mid).(retries := b.retries - {mid})
         case OsError => b
         case Fatal => b.(fatal := true, retries := b.retries - {mid}))
    case StopRetry(mid) => b.(retries := b.retries - {mid})
    case Finalize(t) =>
      var mid := b.procs[t].mid;
      if mid !in b.accepted then b.(procs := b.procs - {t})
      else
        b.(accepted := b.accepted - {mid}, claimed := b.claimed - {b.accepted[mid].hid}, procs := b.procs - {t})
    case LoseFinalizer(t) => b.(procs := b.procs - {t})
  }

  /** A confirmed delete pays the message's turn in the same stretch; its owner is released later. */
  function DeleteRow(b: Bus, t: Tid, mid: Mid): Bus
    requires mid in b.accepted
  {
    b.(turns := Paid(b.turns, b.chat(mid)), rows := b.rows - {b.accepted[mid].hid}, gone := b.gone + {mid},
       procs := b.procs[t := Finalizing(mid)])
  }

  // ---------------------------------------------------------------- the invariant

  /** Each accepted message owns a row id of its own, and its row is there until it deletes it. */
  ghost predicate Owned(b: Bus) {
    && (forall m :: m in b.accepted ==> m < b.nextMid && b.accepted[m].hid < b.nextHid)
    && OwnIds(b.accepted)
    && (forall m :: m in b.accepted ==> (b.accepted[m].hid in b.rows <==> m !in b.gone))
    && (forall m :: m in b.gone ==> m < b.nextMid)
    && (forall m :: m in b.plain ==> m < b.nextMid && m !in b.accepted && m !in b.gone)
    && (forall t :: t in b.procs && b.procs[t].Finalizing? ==> b.procs[t].mid in b.gone)
  }

  /** No id is queued twice, and a queued row that is still there has its owner. */
  ghost predicate QueuedOnce(b: Bus) {
    && (forall h :: h in b.rows ==> h < b.nextHid)
    && Distinct(b.enqueued)
    && (forall h :: h in b.enqueued ==> h < b.nextHid && (h in b.rows ==> h in OwnedIds(b.accepted)))
    && (forall m :: m in b.accepted ==> b.accepted[m].hid in b.enqueued)
  }

  /** A registration in progress holds the lock and a row that nobody owns. */
  ghost predicate Registered(b: Bus, t: Tid, m: Mid, h: Hid) {
    && b.lock == Some(t) && m < b.nextMid && m !in b.accepted && m !in b.gone && m !in b.plain
    && h in b.rows && h !in OwnedIds(b.accepted)
  }

  ghost predicate Paging(b: Bus, t: Tid, p: Proc)
    requires p.Recovering?
  {
    && b.lock == Some(t)
    && Distinct(p.todo)
    && (forall h :: h in p.todo ==> h in b.rows || h in p.inFlight)
    && (forall h :: h in p.todo && h in OwnedIds(b.accepted) ==> h in p.inFlight)
    && (forall h :: h in OwnedIds(b.accepted) ==> h in p.inFlight || h in b.claimed)
    && (p.current.Some? ==> p.current.value.1 in b.claimed && p.current.value.1 !in p.todo)
  }

  ghost predicate Locked(b: Bus) {
    forall t :: t in b.procs ==>
      && (Registering(b.procs[t]).Some? ==>
            Registered(b, t, Registering(b.procs[t]).value.0, Registering(b.procs[t]).value.1))
      && (b.procs[t].Recovering? ==> Paging(b, t, b.procs[t]))
  }

  ghost predicate RecoversNow(procs: map<Tid, Proc>, t: Tid, h: Hid) {
    t in procs && procs[t].Recovering? && procs[t].current.Some? && procs[t].current.value.1 == h
  }

  /** A claimed id is an owned one, or is being registered by a recovery. */
  ghost predicate Claimed(b: Bus) {
    forall h :: h in b.claimed ==> h in OwnedIds(b.accepted) || exists t :: RecoversNow(b.procs, t, h)
  }

  ghost predicate Inv(b: Bus) {
    Owned(b) && QueuedOnce(b) && Locked(b) && Claimed(b)
  }

  lemma StepKeepsInv(b: Bus, e: Event)
    requires Inv(b) && Enabled(b, e)
    ensures Inv(Step(b, e))
  {
    match e
    case Publish(t) => PublishKeeps(b, t);
    case PublishKnown(_) =>
    case PublishPlain => PlainKeeps(b, Step(b, e));
    case MalformedRow(t) => EndKeeps(b, t);
    case RecoverPage(t, page) => PageKeeps(b, t, page);
    case RecoverRow(t) => RowKeeps(b, t);
    case Enqueue(t) => EnqueueKeeps(b, t);
    case Abort(t) => AbortKeeps(b, t);
    case EndPage(t) => EndKeeps(b, t);
    case Consume =>
    case Complete(t, mid, outcome) => CompleteKeeps(b, t, mid, outcome);
    case Retry(t, mid, outcome) => RetryKeeps(b, t, mid, outcome);
    case StopRetry(mid) =>
    case Finalize(t) => FinalizeKeeps(b, t);
    case LoseFinalizer(t) => LoseKeeps(b, t);
  }

  lemma ProcsChange(b: Bus, d: Bus, t: Tid)
    requires Claimed(b) && d.claimed <= b.claimed
    requires forall u, h :: u != t && RecoversNow(b.procs, u, h) ==> RecoversNow(d.procs, u, h)
    requires forall h :: h in d.claimed && RecoversNow(b.procs, t, h) ==>
                           h in OwnedIds(d.accepted) || RecoversNow(d.procs, t, h)
    requires forall h :: h in d.claimed && h in OwnedIds(b.accepted) ==> h in OwnedIds(d.accepted)
    ensures Claimed(d)
  {
    forall h | h in d.claimed && h !in OwnedIds(d.accepted) ensures exists u :: RecoversNow(d.procs, u, h) {
      var u :| RecoversNow(b.procs, u, h);
      assert RecoversNow(d.procs, u, h);
    }
  }

  lemma OwnedIdsWith(accepted: map<Mid, Owner>, m: Mid, o: Owner)
    requires m in accepted ==> accepted[m].hid == o.hid
    ensures OwnedIds(accepted[m := o]) == OwnedIds(accepted) + {o.hid}
  {
    assert forall n :: n in accepted ==> accepted[m := o][n].hid == accepted[n].hid;
    forall h | h in OwnedIds(accepted) ensures h in OwnedIds(accepted[m := o]) {
      var n :| n in accepted && accepted[n].hid == h;
      assert n in accepted[m := o];
    }
    assert m in accepted[m := o];
  }

  lemma OwnedIdsWithout(accepted: map<Mid, Owner>, m: Mid)
    requires m in accepted
    requires forall n :: n in accepted && accepted[n].hid == accepted[m].hid ==> n == m
    ensures OwnedIds(accepted - {m}) == OwnedIds(accepted) - {accepted[m].hid}
  {
    forall h | h in OwnedIds(accepted) && h != accepted[m].hid ensures h in OwnedIds(accepted - {m}) {
      var n :| n in accepted && accepted[n].hid == h;
      assert n in accepted - {m};
    }
  }

  lemma LoseKeeps(b: Bus, t: Tid)
    requires Inv(b) && Enabled(b, LoseFinalizer(t))
    ensures Inv(Step(b, LoseFinalizer(t)))
  {
    ProcsChange(b, Step(b, LoseFinalizer(t)), t);
  }

  lemma PublishKeeps(b: Bus, t: Tid)
    requires Inv(b) && Enabled(b, Publish(t))
    ensures Inv(Step(b, Publish(t)))
  {
    ProcsChange(b, Step(b, Publish(t)), t);
  }

  lemma PageKeeps(b: Bus, t: Tid, page: seq<Hid>)
    requires Inv(b) && Enabled(b, RecoverPage(t, page))
    ensures Inv(Step(b, RecoverPage(t, page)))
  {
    ProcsChange(b, Step(b, RecoverPage(t, page)), t);
  }

  lemma RowKeeps(b: Bus, t: Tid)
    requires Inv(b) && Enabled(b, RecoverRow(t))
    ensures Inv(Step(b, RecoverRow(t)))
  {
    if Skipped(b, b.procs[t], b.procs[t].todo[0]) {
      ProcsChange(b, Step(b, RecoverRow(t)), t);
    } else {
      ClaimKeepsOwned(b, t);
      ClaimKeepsClaimed(b, t);
    }
  }

  lemma ClaimKeepsOwned(b: Bus, t: Tid)
    requires Inv(b) && Enabled(b, RecoverRow(t)) && !Skipped(b, b.procs[t], b.procs[t].todo[0])
    ensures var d := Step(b, RecoverRow(t)); Owned(d) && QueuedOnce(d) && Locked(d)
  {
    var d := Step(b, RecoverRow(t));
    assert Paging(b, t, b.procs[t]);
    assert d.rows == b.rows;
    forall u | u in d.procs && (d.procs[u].Recovering? || Registering(d.procs[u]).Some?) ensures u == t {
      assert b.lock == Some(t) && u in b.procs;
    }
  }

  lemma ClaimKeepsClaimed(b: Bus, t: Tid)
    requires Inv(b) && Enabled(b, RecoverRow(t)) && !Skipped(b, b.procs[t], b.procs[t].todo[0])
    ensures Claimed(Step(b, RecoverRow(t)))
  {
    var d := Step(b, RecoverRow(t));
    assert RecoversNow(d.procs, t, b.procs[t].todo[0]);
    ProcsChange(b, d.(claimed := b.claimed), t);
  }

  /** The registration point shared by publish and recovery. */
  lemma EnqueueKeeps(b: Bus, t: Tid)
    requires Inv(b) && Enabled(b, Enqueue(t))
    ensures Inv(Step(b, Enqueue(t)))
  {
    var d := Step(b, Enqueue(t));
    var (m, h) := Registering(b.procs[t]).value;
    assert Registered(b, t, m, h);
    OwnedIdsWith(b.accepted, m, Owner(h, false));
    assert h !in b.enqueued;
    EnqueueKeepsOwned(b, t);
    EnqueueKeepsLocked(b, t);
    ProcsChange(b, d, t);
  }

  ghost predicate OwnIds(accepted: map<Mid, Owner>) {
    forall m, n :: m in accepted && n in accepted && accepted[m].hid == accepted[n].hid ==> m == n
  }

  lemma OwnIdsWith(accepted: map<Mid, Owner>, m: Mid, o: Owner)
    requires OwnIds(accepted) && o.hid !in OwnedIds(accepted)
    ensures OwnIds(accepted[m := o])
  {
    assert forall n :: n in accepted ==> accepted[n].hid in OwnedIds(accepted);
  }

  lemma EnqueueKeepsOwned(b: Bus, t: Tid)
    requires Inv(b) && Enabled(b, Enqueue(t))
    ensures Owned(Step(b, Enqueue(t)))
  {
    var (m, h) := Registering(b.procs[t]).value;
    assert Registered(b, t, m, h);
    OwnIdsWith(b.accepted, m, Owner(h, false));
  }

  lemma EnqueueKeepsLocked(b: Bus, t: Tid)
    requires Inv(b) && Enabled(b, Enqueue(t))
    ensures Locked(Step(b, Enqueue(t)))
  {
    var d := Step(b, Enqueue(t));
    var (m, h) := Registering(b.procs[t]).value;
    OwnedIdsWith(b.accepted, m, Owner(h, false));
    forall u | u in d.procs && (d.procs[u].Recovering? || Registering(d.procs[u]).Some?) ensures u == t {
      assert b.lock == Some(t) && u in b.procs;
    }
  }

  lemma AbortKeeps(b: Bus, t: Tid)
    requires Inv(b) && Enabled(b, Abort(t))
    ensures Inv(Step(b, Abort(t)))
  {
    ProcsChange(b, Step(b, Abort(t)), t);
  }

  lemma EndKeeps(b: Bus, t: Tid)
    requires Inv(b) && t in b.procs && b.procs[t].Recovering? && b.procs[t].current.None?
    ensures Inv(b.(lock := None, procs := b.procs - {t}))
  {
    ProcsChange(b, b.(lock := None, procs := b.procs - {t}), t);
  }

  /** A message without a row concerns neither rows, owners nor registrations. */
  lemma PlainKeeps(b: Bus, d: Bus)
    requires Inv(b)
    requires d == b.(inbound := d.inbound, plain := d.plain, turns := d.turns, nextMid := d.nextMid)
    requires b.nextMid <= d.nextMid
    requires forall m :: m in d.plain ==> m in b.plain || b.nextMid <= m < d.nextMid
    ensures Inv(d)
  {
    forall u | u in d.procs && d.procs[u].Recovering? ensures Paging(d, u, d.procs[u]) {
      assert Paging(b, u, b.procs[u]);
    }
  }

  /** Deleting an owned row touches no row that is being registered or still to be recovered. */
  lemma DeleteKeeps(b: Bus, t: Tid, mid: Mid)
    requires Inv(b) && t !in b.procs && mid in b.accepted && b.accepted[mid].hid in b.rows
    ensures Inv(DeleteRow(b, t, mid))
  {
    var d := DeleteRow(b, t, mid);
    var h := b.accepted[mid].hid;
    assert h in OwnedIds(b.accepted);
    forall u | u in d.procs && d.procs[u].Recovering? ensures Paging(d, u, d.procs[u]) {
      assert Paging(b, u, b.procs[u]);
    }
    ProcsChange(b, d, t);
  }

  lemma PendingKeeps(b: Bus, mid: Mid, pending: bool)
    requires Inv(b) && mid in b.accepted
    ensures Inv(b.(accepted := b.accepted[mid := Owner(b.accepted[mid].hid, pending)]))
  {
    var d := b.(accepted := b.accepted[mid := Owner(b.accepted[mid].hid, pending)]);
    OwnedIdsWith(b.accepted, mid, Owner(b.accepted[mid].hid, pending));
    assert OwnedIds(d.accepted) == OwnedIds(b.accepted) by {
      assert b.accepted[mid].hid in OwnedIds(b.accepted);
    }
    forall u | u in d.procs && d.procs[u].Recovering? ensures Paging(d, u, d.procs[u]) {
      assert Paging(b, u, b.procs[u]);
    }
  }

  lemma CompleteKeeps(b: Bus, t: Tid, mid: Mid, outcome: Outcome)
    requires Inv(b) && Enabled(b, Complete(t, mid, outcome))
    ensures Inv(Step(b, Complete(t, mid, outcome)))
  {
    var d := Step(b, Complete(t, mid, outcome));
    if mid !in b.accepted {
      PlainKeeps(b, d);
    } else if !b.accepted[mid].cleanupPending {
      match Deletion(b, b.accepted[mid].hid, outcome)
      case Deleted => DeleteKeeps(b, t, mid);
      case OsError =>
        PendingKeeps(b, mid, true);
        OutsideRetries(b.(accepted := d.accepted), d);
      case Fatal => OutsideRetries(b, d);
    }
  }

  lemma RetryKeeps(b: Bus, t: Tid, mid: Mid, outcome: Outcome)
    requires Inv(b) && Enabled(b, Retry(t, mid, outcome))
    ensures Inv(Step(b, Retry(t, mid, outcome)))
  {
    var d := Step(b, Retry(t, mid, outcome));
    if mid in b.accepted && b.accepted[mid].cleanupPending
       && Deletion(b, b.accepted[mid].hid, outcome) == Deleted
    {
      DeleteKeeps(b, t, mid);
      OutsideRetries(DeleteRow(b, t, mid), d);
    } else {
      OutsideRetries(b, d);
    }
  }

  /** The invariant does not mention the fatal flag or the retry tasks. */
  lemma OutsideRetries(b: Bus, d: Bus)
    requires Inv(b) && d == b.(fatal := d.fatal, retries := d.retries)
    ensures Inv(d)
  {
    forall u | u in d.procs && d.procs[u].Recovering? ensures Paging(d, u, d.procs[u]) {
      assert Paging(b, u, b.procs[u]);
    }
  }

  lemma FinalizeKeeps(b: Bus, t: Tid)
    requires Inv(b) && Enabled(b, Finalize(t))
    ensures Inv(Step(b, Finalize(t)))
  {
    var d := Step(b, Finalize(t));
    var mid := b.procs[t].mid;
    if mid in b.accepted {
      OwnedIdsWithout(b.accepted, mid);
    }
    ProcsChange(b, d, t);
  }

  // ---------------------------------------------------------------- the turns

  /** The messages whose turn is marked and not paid: owned ones whose row is still there, and queued
      ones without a row that have not been completed. */
  function Owing(b: Bus): set<Mid> {
    (set m | m in b.accepted && m !in b.gone) + b.plain
  }

  function Of(ms: set<Mid>, chat: Mid -> Chat, c: Chat): set<Mid> {
    set m | m in ms && chat(m) == c
  }

  function OwingIn(b: Bus, c: Chat): set<Mid> {
    Of(Owing(b), b.chat, c)
  }

  /** The lane's count of every chat is the number of its messages still owing a turn. */
  ghost predicate Tallied(b: Bus) {
    forall c :: Turns(b, c) == |OwingIn(b, c)|
  }

  /** No message that owes nothing is completed: a message without an owner only the first time. */
  predicate Proper(b: Bus, e: Event) {
    e.Complete? ==> e.mid in b.accepted || e.mid in b.plain
  }

  /** What an event does to the messages that owe a turn. */
  datatype Move = Stays | Marks(m: Mid) | Pays(m: Mid)

  function MoveOf(b: Bus, e: Event): Move
    requires Enabled(b, e)
  {
    match e
    case Enqueue(t) => Marks(Registering(b.procs[t]).value.0)
    case PublishPlain => Marks(b.nextMid)
    case Complete(_, m, _) =>
      if m !in b.accepted then Pays(m)
      else if m in Step(b, e).gone && m !in b.gone then Pays(m)
      else Stays
    case Retry(_, m, _) => if m in Step(b, e).gone && m !in b.gone then Pays(m) else Stays
    case _ => Stays
  }

  ghost predicate Moved(b: Bus, d: Bus, v: Move) {
    && d.chat == b.chat
    && match v
       case Stays => Owing(d) == Owing(b) && d.turns == b.turns
       case Marks(m) => m !in Owing(b) && Owing(d) == Owing(b) + {m} && d.turns == Marked(b.turns, b.chat(m))
       case Pays(m) => m in Owing(b) && Owing(d) == Owing(b) - {m} && d.turns == Paid(b.turns, b.chat(m))
  }

  /** Each event marks or pays the turn of one message and touches no other: a message is marked while it
      owes nothing, and pays only while it owes. */
  lemma MovesOneTurn(b: Bus, e: Event)
    requires Inv(b) && Enabled(b, e) && Proper(b, e)
    ensures Moved(b, Step(b, e), MoveOf(b, e))
  {
    match e
    case Enqueue(t) => EnqueueMarks(b, t);
    case Complete(t, m, outcome) => CompletePays(b, t, m, outcome);
    case Retry(t, m, outcome) => RetryPays(b, t, m, outcome);
    case Finalize(t) => assert Owing(Step(b, e)) == Owing(b);
    case PublishPlain => assert Owing(Step(b, e)) == Owing(b) + {b.nextMid};
    case _ => assert Owing(Step(b, e)) == Owing(b);
  }

  lemma EnqueueMarks(b: Bus, t: Tid)
    requires Inv(b) && Enabled(b, Enqueue(t))
    ensures Moved(b, Step(b, Enqueue(t)), Marks(Registering(b.procs[t]).value.0))
  {
    var (m, h) := Registering(b.procs[t]).value;
    assert Registered(b, t, m, h);
    assert Owing(Step(b, Enqueue(t))) == Owing(b) + {m};
  }

  lemma DeletePays(b: Bus, t: Tid, m: Mid)
    requires m in b.accepted && m !in b.gone && m !in b.plain
    ensures Owing(DeleteRow(b, t, m)) == Owing(b) - {m}
  {
  }

  lemma CompletePays(b: Bus, t: Tid, m: Mid, outcome: Outcome)
    requires Inv(b) && Enabled(b, Complete(t, m, outcome)) && Proper(b, Complete(t, m, outcome))
    ensures Moved(b, Step(b, Complete(t, m, outcome)), MoveOf(b, Complete(t, m, outcome)))
  {
    if m !in b.accepted {
      assert Owing(Step(b, Complete(t, m, outcome))) == Owing(b) - {m};
    } else {
      OwnedCompletePays(b, t, m, outcome);
    }
  }

  lemma OwnedCompletePays(b: Bus, t: Tid, m: Mid, outcome: Outcome)
    requires Inv(b) && Enabled(b, Complete(t, m, outcome)) && m in b.accepted
    ensures Moved(b, Step(b, Complete(t, m, outcome)), MoveOf(b, Complete(t, m, outcome)))
  {
    var d := Step(b, Complete(t, m, outcome));
    if m in d.gone && m !in b.gone {
      assert d == DeleteRow(b, t, m);
      DeletePays(b, t, m);
    } else {
      SameOwing(b, d);
    }
  }

  lemma SameOwing(b: Bus, d: Bus)
    requires d.accepted.Keys == b.accepted.Keys && d.gone == b.gone && d.plain == b.plain
    ensures Owing(d) == Owing(b)
  {
    assert forall m :: m in d.accepted <==> m in d.accepted.Keys;
    assert forall m :: m in b.accepted <==> m in b.accepted.Keys;
  }

  lemma RetryPays(b: Bus, t: Tid, m: Mid, outcome: Outcome)
    requires Inv(b) && Enabled(b, Retry(t, m, outcome))
    ensures Moved(b, Step(b, Retry(t, m, outcome)), MoveOf(b, Retry(t, m, outcome)))
  {
    var d := Step(b, Retry(t, m, outcome));
    if m in d.gone && m !in b.gone {
      assert d == DeleteRow(b, t, m).(retries := d.retries);
      DeletePays(b, t, m);
    } else {
      SameOwing(b, d);
    }
  }

  lemma OneMore(ms: set<Mid>, chat: Mid -> Chat, m: Mid, c: Chat)
    requires m !in ms
    ensures |Of(ms + {m}, chat, c)| == |Of(ms, chat, c)| + if chat(m) == c then 1 else 0
  {
    assert Of(ms + {m}, chat, c) == if chat(m) == c then Of(ms, chat, c) + {m} else Of(ms, chat, c);
  }

  lemma OneLess(ms: set<Mid>, chat: Mid -> Chat, m: Mid, c: Chat)
    requires m in ms
    ensures |Of(ms, chat, c)| == |Of(ms - {m}, chat, c)| + if chat(m) == c then 1 else 0
  {
    assert (ms - {m}) + {m} == ms;
    OneMore(ms - {m}, chat, m, c);
  }

  lemma TallyKept(b: Bus, d: Bus, v: Move)
    requires Tallied(b) && Moved(b, d, v)
    ensures Tallied(d)
  {
    forall c ensures Turns(d, c) == |OwingIn(d, c)| {
      assert Turns(b, c) == |OwingIn(b, c)|;
      match v
      case Stays =>
      case Marks(m) => OneMore(Owing(b), b.chat, m, c);
      case Pays(m) => OneLess(Owing(b), b.chat, m, c);
    }
  }

  /** What completing a message without an owner takes: the counts stay exact if and only if it owes a
      turn, or its chat has none to lose. */
  lemma CompletionTakes(b: Bus, t: Tid, m: Mid, outcome: Outcome)
    requires Inv(b) && Tallied(b) && Enabled(b, Complete(t, m, outcome)) && m !in b.accepted
    ensures Tallied(Step(b, Complete(t, m, outcome))) <==> m in b.plain || Turns(b, b.chat(m)) == 0
  {
    var d, c := Step(b, Complete(t, m, outcome)), b.chat(m);
    if m in b.plain {
      MovesOneTurn(b, Complete(t, m, outcome));
      TallyKept(b, d, Pays(m));
    } else {
      assert Owing(d) == Owing(b);
      assert Tallied(d) <==> forall k :: Turns(d, k) == Turns(b, k) by {
        assert forall k :: Turns(b, k) == |OwingIn(b, k)|;
      }
      assert Turns(d, c) == if Turns(b, c) > 0 then Turns(b, c) - 1 else 0;
    }
  }

  /** A retry task belongs to an owner whose delete has failed and whose row is not gone. Kept as long as
      no message is completed again after its row is gone: then no retry finds its owner lost. */
  ghost predicate Retrying(b: Bus) {
    forall m :: m in b.retries ==> m in b.accepted && b.accepted[m].cleanupPending && m !in b.gone
  }

  lemma RetriesKept(b: Bus, e: Event)
    requires Inv(b) && Retrying(b) && Enabled(b, e) && (e.Complete? ==> e.mid !in b.gone)
    ensures Retrying(Step(b, e))
  {
    match e
    case Enqueue(t) =>
      assert Registered(b, t, Registering(b.procs[t]).value.0, Registering(b.procs[t]).value.1);
    case Complete(t, m, outcome) => CompleteKeepsRetries(b, t, m, outcome);
    case Retry(t, m, outcome) => RetryKeepsRetries(b, t, m, outcome);
    case Finalize(t) => assert b.procs[t].mid in b.gone;
    case _ =>
  }

  lemma CompleteKeepsRetries(b: Bus, t: Tid, m: Mid, outcome: Outcome)
    requires Inv(b) && Retrying(b) && Enabled(b, Complete(t, m, outcome)) && m !in b.gone
    ensures Retrying(Step(b, Complete(t, m, outcome)))
  {
  }

  lemma RetryKeepsRetries(b: Bus, t: Tid, m: Mid, outcome: Outcome)
    requires Inv(b) && Retrying(b) && Enabled(b, Retry(t, m, outcome))
    ensures Retrying(Step(b, Retry(t, m, outcome)))
  {
  }

  // ---------------------------------------------------------------- every run

  predicate Legal(b: Bus, es: seq<Event>)
    decreases |es|
  {
    es == [] || (Enabled(b, es[0]) && Legal(Step(b, es[0]), es[1..]))
  }

  function Run(b: Bus, es: seq<Event>): Bus
    requires Legal(b, es)
    decreases |es|
  {
    if es == [] then b else Run(Step(b, es[0]), es[1..])
  }

  predicate AllProper(b: Bus, es: seq<Event>)
    requires Legal(b, es)
    decreases |es|
  {
    es == [] || (Proper(b, es[0]) && AllProper(Step(b, es[0]), es[1..]))
  }

  lemma {:induction false} RunKeepsTally(b: Bus, es: seq<Event>)
    requires Inv(b) && Tallied(b) && Legal(b, es) && AllProper(b, es)
    ensures Inv(Run(b, es)) && Tallied(Run(b, es))
    decreases |es|
  {
    if es != [] {
      StepKeepsInv(b, es[0]);
      MovesOneTurn(b, es[0]);
      TallyKept(b, Step(b, es[0]), MoveOf(b, es[0]));
      RunKeepsTally(Step(b, es[0]), es[1..]);
    }
  }

  /** The owned messages of a chat whose row is still there. */
  function UndeletedIn(b: Bus, c: Chat): set<Mid> {
    set m | m in b.accepted && m !in b.gone && b.chat(m) == c
  }

  lemma OwingSplits(b: Bus, c: Chat)
    requires Inv(b)
    ensures |OwingIn(b, c)| == |UndeletedIn(b, c)| + |Of(b.plain, b.chat, c)|
  {
    assert OwingIn(b, c) == UndeletedIn(b, c) + Of(b.plain, b.chat, c);
    assert UndeletedIn(b, c) !! Of(b.plain, b.chat, c);
  }

  lemma TalliedAtFirst(chat: Mid -> Chat, rows: set<Hid>, nextHid: Hid)
    ensures Tallied(Init(chat, rows, nextHid))
  {
    forall c ensures Of({}, chat, c) == {} {
    }
    assert Owing(Init(chat, rows, nextHid)) == {};
  }

  /** No turn is paid twice or by another message: at every moment the lane's count of a chat is the number of its
      messages whose row is not yet deleted, plus those without a row that are not yet completed. */
  lemma TurnsAreExact(chat: Mid -> Chat, rows: set<Hid>, nextHid: Hid, es: seq<Event>, c: Chat)
    requires forall h :: h in rows ==> h < nextHid
    requires Legal(Init(chat, rows, nextHid), es) && AllProper(Init(chat, rows, nextHid), es)
    ensures var b := Run(Init(chat, rows, nextHid), es);
            Turns(b, c) == |UndeletedIn(b, c)| + |Of(b.plain, b.chat, c)|
  {
    TalliedAtFirst(chat, rows, nextHid);
    RunKeepsTally(Init(chat, rows, nextHid), es);
    OwingSplits(Run(Init(chat, rows, nextHid), es), c);
  }

  lemma {:induction false} RunKeepsInv(b: Bus, es: seq<Event>)
    requires Inv(b) && Legal(b, es)
    ensures Inv(Run(b, es))
    decreases |es|
  {
    if es != [] {
      StepKeepsInv(b, es[0]);
      RunKeepsInv(Step(b, es[0]), es[1..]);
    }
  }

  /** Whatever the interleaving, starting from the rows an earlier process left: a handoff has at most
      one accepted owner; no handoff is queued twice in the process; a row that was queued and is still
      stored is owned; and while nobody registers, the claimed ids are owned ones. */
  lemma OneOwnerPerHandoff(chat: Mid -> Chat, rows: set<Hid>, nextHid: Hid, es: seq<Event>)
    requires forall h :: h in rows ==> h < nextHid
    requires Legal(Init(chat, rows, nextHid), es)
    ensures var b := Run(Init(chat, rows, nextHid), es);
            && (forall m, n :: m in b.accepted && n in b.accepted && b.accepted[m].hid == b.accepted[n].hid
                  ==> m == n)
            && Distinct(b.enqueued)
            && (forall h :: h in b.enqueued && h in b.rows ==> h in OwnedIds(b.accepted))
            && (b.lock.None? ==> b.claimed <= OwnedIds(b.accepted))
  {
    RunKeepsInv(Init(chat, rows, nextHid), es);
    IdleClaims(Run(Init(chat, rows, nextHid), es));
  }

  lemma IdleClaims(b: Bus)
    requires Inv(b)
    ensures b.lock.None? ==> b.claimed <= OwnedIds(b.accepted)
  {
    forall h, t | RecoversNow(b.procs, t, h) ensures b.lock == Some(t) {
      assert Paging(b, t, b.procs[t]);
    }
  }

  /** A row leaves the store only when its own accepted owner deletes it, and a row the store has is
      never lost by any other event. */
  lemma OnlyOwnersDelete(b: Bus, e: Event, h: Hid)
    requires Inv(b) && Enabled(b, e) && h in b.rows && h !in Step(b, e).rows
    ensures (e.Complete? || e.Retry?) && e.outcome == Deleted
    ensures e.mid in b.accepted && b.accepted[e.mid].hid == h && e.mid in Step(b, e).gone
  {
  }

  /** A live owner is released only after its row is gone; the row outlives every failed delete. */
  lemma ReleasedAfterDeletion(b: Bus, e: Event, m: Mid)
    requires Inv(b) && Enabled(b, e) && m in b.accepted && m !in Step(b, e).accepted
    ensures e.Finalize? && m in b.gone && b.accepted[m].hid !in b.rows
  {
  }

  lemma RunFirst(b: Bus, e: Event, es: seq<Event>)
    requires Enabled(b, e) && Legal(Step(b, e), es)
    ensures Legal(b, [e] + es) && Run(b, [e] + es) == Run(Step(b, e), es)
  {
    assert ([e] + es)[1..] == es;
  }

  /** Two messages of one chat are queued and the first is completed twice. */
  lemma SecondCompletionOverpays() returns (es: seq<Event>)
    ensures es == [PublishPlain] + ([PublishPlain] + ([Complete(0, 0, Deleted)] + ([Complete(0, 0, Deleted)] + [])))
    ensures Legal(Init(m => 0, {}, 0), es)
    ensures var b := Run(Init(m => 0, {}, 0), es);
            Turns(b, 0) == 0 && 1 in Owing(b)
  {
    var s := Init(m => 0, {}, 0);
    var one := s.(turns := map[0 := 1], inbound := [0], plain := {0}, nextMid := 1);
    var two := one.(turns := map[0 := 2], inbound := [0, 1], plain := {0, 1}, nextMid := 2);
    var three := two.(turns := map[0 := 1], plain := {1});
    var four := three.(turns := map[0 := 0]);
    assert Step(s, PublishPlain) == one;
    assert Step(one, PublishPlain) == two;
    assert Step(two, Complete(0, 0, Deleted)) == three by {
      assert {0, 1} - {0} == {1};
    }
    assert Step(three, Complete(0, 0, Deleted)) == four by {
      assert {1} - {0} == {1};
    }
    RunFirst(three, Complete(0, 0, Deleted), []);
    RunFirst(two, Complete(0, 0, Deleted), [Complete(0, 0, Deleted)] + []);
    RunFirst(one, PublishPlain, [Complete(0, 0, Deleted)] + ([Complete(0, 0, Deleted)] + []));
    es := [PublishPlain] + ([PublishPlain] + ([Complete(0, 0, Deleted)] + ([Complete(0, 0, Deleted)] + [])));
    RunFirst(s, PublishPlain, es[1..]);
    assert es == [PublishPlain] + es[1..];
  }
}
