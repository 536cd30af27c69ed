/** The in-place form of the durable inbox (bus/queue.py, MessageBus): one method per stretch of code
    between two awaits, each proved to be the corresponding step of Inbox. */
module MessageBus {
  import opened Inbox
  import opened Wrappers

  /** A client message's deduplication key. */
  type Key = string

  /** What the store says to a reservation: a new row, one that is there already and says the same, or an
      error because what is there is another message. */
  datatype Reservation = Created | Existing(hid: Hid) | Conflict

  /** A recovered row's reservation fails: another row has its key, or the fields differ. */
  predicate Clashes(known: Option<Hid>, hid: Hid, agrees: Hid -> bool) {
    (known.Some? && known != Some(hid)) || !agrees(hid)
  }

  class DurableInbox {
    const chat: Mid -> Chat
    var rows: set<Hid>              // the handoff store
    var keyed: map<Key, Hid>        // its deduplication keys; one whose row is gone counts as absent
    var accepted: map<Mid, Owner>
    var inbound: seq<Mid>
    var claimed: set<Hid>
    var cleanupError: bool
    var lock: Option<Tid>
    var procs: map<Tid, Proc>
    var cleanupTasks: set<Mid>
    var turns: map<Chat, nat>       // the lane's counts
    var nextMid: Mid
    var nextHid: Hid
    ghost var enqueued: seq<Hid>
    ghost var gone: set<Mid>
    ghost var plain: set<Mid>

    ghost function State(): Bus
      reads this
    {
      Bus(chat, rows, accepted, inbound, claimed, cleanupError, lock, procs, cleanupTasks, turns, nextMid,
          nextHid, enqueued, gone, plain)
    }

    constructor (chat: Mid -> Chat, rows: set<Hid>, keyed: map<Key, Hid>, nextHid: Hid)
      ensures State() == Init(chat, rows, nextHid) && this.keyed == keyed
    {
      this.chat, this.rows, this.keyed, this.nextHid := chat, rows, keyed, nextHid;
      accepted, inbound, claimed, cleanupError, lock := map[], [], {}, false, None;
      procs, cleanupTasks, turns, nextMid, enqueued, gone, plain := map[], {}, map[], 0, [], {}, {};
    }

    /** The row a deduplication key already has, if any. */
    function Known(key: Option<Key>): Option<Hid>
      reads this
    {
      if key.Some? && key.value in keyed && keyed[key.value] in rows then Some(keyed[key.value]) else None
    }

    /** store.reserve_inbound_handoff: a row with this id, or else with this key, is returned as such if its
        fields agree with the message's; otherwise the row is inserted. */
    method Reserve(hid: Hid, key: Option<Key>, agrees: Hid -> bool) returns (r: Reservation)
      modifies this`rows, this`keyed
      ensures r.Created? <==> hid !in old(rows) && old(Known(key)) == None
      ensures r.Conflict? <==>
                || (hid in old(rows) && (!agrees(hid) || (old(Known(key)).Some? && old(Known(key)) != Some(hid))))
                || (hid !in old(rows) && old(Known(key)).Some? && !agrees(old(Known(key)).value))
      ensures r.Existing? ==> r.hid == if hid in old(rows) then hid else old(Known(key)).value
      ensures rows == if r.Created? then old(rows) + {hid} else old(rows)
      ensures keyed == if r.Created? && key.Some? then old(keyed)[key.value := hid] else old(keyed)
    {
      var byKey := if key.Some? && key.value in keyed && keyed[key.value] in rows then Some(keyed[key.value])
                   else None;
      if hid in rows {
        return if agrees(hid) && (byKey.None? || byKey == Some(hid)) then Existing(hid) else Conflict;
      }
      if byKey.Some? {
        return if agrees(byKey.value) then Existing(byKey.value) else Conflict;
      }
      rows := rows + {hid};
      if key.Some? {
        keyed := keyed[key.value := hid];
      }
      return Created;
    }

    /** A live mobile message under a new id: queued only if its key had no row, whether the message with
        that row is the same or another one, which is an error. */
    method PublishInbound(t: Tid, key: Option<Key>, agrees: Hid -> bool) returns (r: Reservation)
      requires Enabled(State(), Publish(t)) && nextHid !in rows
      modifies this
      ensures r.Created? <==> old(Known(key)) == None
      ensures r.Conflict? <==> old(Known(key)).Some? && !agrees(old(Known(key)).value)
      ensures r.Existing? ==> Some(r.hid) == old(Known(key))
      ensures r.Created? ==> State() == Step(old(State()), Publish(t))
      ensures !r.Created? ==> State() == Step(old(State()), PublishKnown(old(Known(key)).value))
      ensures r.Created? && key.Some? ==> keyed == old(keyed)[key.value := old(nextHid)]
    {
      r := Reserve(nextHid, key, agrees);
      assert State() == old(State()).(rows := rows);
      var mid := nextMid;
      nextMid := nextMid + 1;
      if r.Created? {
        Register(t, mid, nextHid);
      }
    }

    /** The lock is held while the message goes on to the lane mark. */
    method Register(t: Tid, mid: Mid, hid: Hid)
      modifies `lock, `procs, `nextHid
      ensures lock == Some(t) && procs == old(procs)[t := Publishing(mid, hid)] && nextHid == old(nextHid) + 1
    {
      nextHid := nextHid + 1;
      lock, procs := Some(t), procs[t := Publishing(mid, hid)];
    }

    /** A message of another channel is marked and queued in one stretch. */
    method PublishPlainMessage()
      requires Enabled(State(), PublishPlain)
      modifies `turns, `inbound, `plain, `nextMid
      ensures State() == Step(old(State()), PublishPlain)
    {
      var mid := nextMid;
      turns := Marked(turns, chat(mid));
      inbound, plain, nextMid := inbound + [mid], plain + {mid}, mid + 1;
    }

    /** The start of recover_durable_inbounds: the lock, one page of rows, and the ids in flight. */
    method ReadPage(t: Tid, page: seq<Hid>)
      requires Enabled(State(), RecoverPage(t, page))
      modifies this
      ensures State() == Step(old(State()), RecoverPage(t, page))
    {
      lock := Some(t);
      var inFlight: set<Hid> := {};
      var left := accepted.Keys;
      while left != {}
        invariant left <= accepted.Keys
        invariant inFlight == set m | m in accepted && m !in left :: accepted[m].hid
        invariant State() == old(State()).(lock := Some(t))
        decreases |left|
      {
        var m :| m in left;
        ghost var before := inFlight;
        inFlight := inFlight + {accepted[m].hid};
        left := left - {m};
        forall h | h in inFlight ensures h in set n | n in accepted && n !in left :: accepted[n].hid {
          if h == accepted[m].hid {
            assert m in accepted && m !in left;
          } else {
            var n :| n in accepted && n !in left + {m} && accepted[n].hid == h;
          }
        }
      }
      assert inFlight == OwnedIds(accepted);
      procs := procs[t := Recovering(page, inFlight, None)];
    }

    /** One row of the page, up to the lane mark. A row that does not decode, or whose message does not
        agree with the store, ends the page. The row is there: Inbox keeps that in Paging. */
    method RecoverNextRow(t: Tid, decodes: bool, key: Option<Key>, agrees: Hid -> bool)
      requires Enabled(State(), RecoverRow(t))
      requires procs[t].todo[0] in rows || procs[t].todo[0] in procs[t].inFlight
      modifies `lock, `procs, `claimed, `rows, `keyed, `nextMid
      ensures var p := old(procs)[t];
              var hid := p.todo[0];
              var recovers := decodes && !Clashes(old(Known(key)), hid, agrees);
              var passes := hid in old(claimed) || hid in p.inFlight;
              && State() == Step(old(State()), if passes || recovers then RecoverRow(t) else MalformedRow(t))
              && (!passes && recovers ==>
                    t in procs && Registering(procs[t]) == Some((old(nextMid), hid)) && hid in claimed)
              && (passes ==> procs == old(procs)[t := p.(todo := p.todo[1..])])
    {
      var p := procs[t];
      var hid := p.todo[0];
      if hid in claimed || hid in p.inFlight {
        procs := procs[t := p.(todo := p.todo[1..])];
      } else if !decodes {
        lock, procs := None, procs - {t};
      } else {
        ClaimRow(t, hid, key, agrees);
      }
    }

    /** The id is claimed, and given back when the reservation fails. */
    method ClaimRow(t: Tid, hid: Hid, key: Option<Key>, agrees: Hid -> bool)
      requires t in procs && procs[t].Recovering? && procs[t].todo != [] && hid == procs[t].todo[0]
      requires hid in rows && hid !in claimed
      modifies `lock, `procs, `claimed, `rows, `keyed, `nextMid
      ensures rows == old(rows)
      ensures var clash := Clashes(old(Known(key)), hid, agrees);
              && claimed == (if clash then old(claimed) else old(claimed) + {hid})
              && lock == (if clash then None else old(lock))
              && nextMid == (if clash then old(nextMid) else old(nextMid) + 1)
              && procs == if clash then old(procs) - {t}
                          else old(procs)[t := old(procs)[t].(todo := old(procs)[t].todo[1..],
                                                              current := Some((old(nextMid), hid)))]
    {
      claimed := claimed + {hid};
      var r := Reserve(hid, key, agrees);
      if r.Conflict? {
        claimed := claimed - {hid};
        lock, procs := None, procs - {t};
      } else {
        procs := procs[t := procs[t].(todo := procs[t].todo[1..], current := Some((nextMid, hid)))];
        nextMid := nextMid + 1;
      }
    }

    /** Past the lane mark: put the message and register its owner in one stretch. */
    method QueueAndAccept(t: Tid)
      requires Enabled(State(), Enqueue(t))
      modifies `turns, `inbound, `enqueued, `accepted, `lock, `procs
      ensures State() == Step(old(State()), Enqueue(t))
    {
      var p := procs[t];
      PutAndOwn(Registering(p).value.0, Registering(p).value.1);
      if p.Publishing? {
        lock, procs := None, procs - {t};
      } else {
        procs := procs[t := p.(current := None)];
      }
    }

    method PutAndOwn(mid: Mid, hid: Hid)
      modifies `turns, `inbound, `enqueued, `accepted
      ensures turns == Marked(old(turns), chat(mid)) && accepted == old(accepted)[mid := Owner(hid, false)]
      ensures inbound == old(inbound) + [mid] && enqueued == old(enqueued) + [hid]
    {
      turns := Marked(turns, chat(mid));
      inbound := inbound + [mid];
      enqueued := enqueued + [hid];
      accepted := accepted[mid := Owner(hid, false)];
    }

    method AbortRegistration(t: Tid)
      requires Enabled(State(), Abort(t))
      modifies this
      ensures State() == Step(old(State()), Abort(t))
    {
      if procs[t].Recovering? {
        claimed := claimed - {Registering(procs[t]).value.1};
      }
      lock, procs := None, procs - {t};
    }

    /** A message without an owner pays its turn at once. */
    method CompleteInbound(t: Tid, mid: Mid, outcome: Outcome)
      requires Enabled(State(), Complete(t, mid, outcome))
      modifies `turns, `plain, `rows, `gone, `procs, `accepted, `cleanupTasks, `cleanupError
      ensures State() == Step(old(State()), Complete(t, mid, outcome))
    {
      if mid !in accepted {
        turns, plain := Paid(turns, chat(mid)), plain - {mid};
      } else if !accepted[mid].cleanupPending {
        CompleteOwned(t, mid, outcome);
      }
    }

    method CompleteOwned(t: Tid, mid: Mid, outcome: Outcome)
      requires Enabled(State(), Complete(t, mid, outcome))
      requires mid in accepted && !accepted[mid].cleanupPending
      modifies `turns, `rows, `gone, `procs, `accepted, `cleanupTasks, `cleanupError
      ensures State() == Step(old(State()), Complete(t, mid, outcome))
    {
      var answer := CompleteHandoff(mid, outcome);
      assert State() == old(State()).(rows := rows, gone := gone);
      match answer {
        case Deleted =>
          turns, procs := Paid(turns, chat(mid)), procs[t := Finalizing(mid)];
        case OsError =>
          accepted := accepted[mid := accepted[mid].(cleanupPending := true)];
          cleanupTasks := cleanupTasks + {mid};
        case Fatal => cleanupError := true;
      }
    }

    /** store.complete_inbound_handoff for an accepted message. */
    method CompleteHandoff(mid: Mid, outcome: Outcome) returns (answer: Outcome)
      requires mid in accepted
      modifies this`rows, this`gone
      ensures answer == Deletion(old(State()), accepted[mid].hid, outcome)
      ensures rows == if answer == Deleted then old(rows) - {accepted[mid].hid} else old(rows)
      ensures gone == if answer == Deleted then old(gone) + {mid} else old(gone)
    {
      answer := outcome;
      if outcome == Deleted {
        if accepted[mid].hid !in rows { return Fatal; }
        rows, gone := rows - {accepted[mid].hid}, gone + {mid};
      }
    }

    /** One round of the delete-only retry task. */
    method RetryInboundCleanup(t: Tid, mid: Mid, outcome: Outcome)
      requires Enabled(State(), Retry(t, mid, outcome))
      modifies `turns, `rows, `gone, `procs, `cleanupTasks, `cleanupError
      ensures State() == Step(old(State()), Retry(t, mid, outcome))
    {
      if mid !in accepted || !accepted[mid].cleanupPending {
        cleanupError, cleanupTasks := true, cleanupTasks - {mid};
        return;
      }
      var answer := CompleteHandoff(mid, outcome);
      assert State() == old(State()).(rows := rows, gone := gone);
      match answer {
        case Deleted =>
          turns := Paid(turns, chat(mid));
          procs, cleanupTasks := procs[t := Finalizing(mid)], cleanupTasks - {mid};
        case OsError =>
        case Fatal => cleanupError, cleanupTasks := true, cleanupTasks - {mid};
      }
    }

    method FinalizeInboundOwner(t: Tid)
      requires Enabled(State(), Finalize(t))
      modifies this
      ensures State() == Step(old(State()), Finalize(t))
    {
      var mid := procs[t].mid;
      if mid in accepted {
        var hid := accepted[mid].hid;
        accepted := accepted - {mid};
        claimed := claimed - {hid};
      }
      procs := procs - {t};
    }
  }
}
