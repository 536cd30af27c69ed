/** The per-chat send lane of bus/queue.py (ChatLane). Every critical section is one atomic step: its
    only suspension point is Condition.wait, which frees the condition's lock, so entering a section
    never waits. `Lane` carries the sections as functions; the classes run them in place. */
module LaneState {

  datatype Lane = Lane(active: nat, turns: nat, sends: nat, next: nat, serving: nat,
                       cancelled: set<nat>, sending: bool)

  const FRESH := Lane(0, 0, 0, 0, 0, {}, false)

  /** Nothing is owed: the state object may be dropped. */
  predicate Idle(l: Lane) {
    l.active == 0 && l.turns == 0 && l.sends == 0 && !l.sending && l.next == l.serving && l.cancelled == {}
  }

  function Skip(l: Lane): Lane
    decreases l.cancelled
  {
    if l.serving in l.cancelled
    then Skip(l.(cancelled := l.cancelled - {l.serving}, serving := l.serving + 1))
    else l
  }

  /** Skipping passes over cancelled tickets only, forgets exactly those, and stops at another one. */
  lemma {:induction false} SkipSpec(l: Lane)
    ensures var s := Skip(l);
            && s == l.(serving := s.serving, cancelled := s.cancelled)
            && l.serving <= s.serving && s.serving !in s.cancelled
            && (forall k :: l.serving <= k < s.serving ==> k in l.cancelled)
            && (forall k :: k in s.cancelled <==> k in l.cancelled && !(l.serving <= k < s.serving))
    decreases l.cancelled
  {
    if l.serving in l.cancelled {
      SkipSpec(l.(cancelled := l.cancelled - {l.serving}, serving := l.serving + 1));
    }
  }

  /** The guard run_non_passive waits on. */
  predicate Blocked(l: Lane, ticket: nat) {
    l.sending || l.turns > 0 || l.sends > 0 || ticket != l.serving
  }

  function TurnDone(l: Lane): Lane {
    if l.turns > 0 then l.(turns := l.turns - 1) else l
  }

  function SendDone(l: Lane): Lane {
    if l.sends > 0 then l.(sends := l.sends - 1) else l
  }

  /** Start sending if the guard allows it, otherwise wait. */
  function TryPassive(l: Lane): Lane {
    if l.sending then l else l.(sending := true)
  }

  function TryNonPassive(l: Lane, ticket: nat): Lane {
    var s := Skip(l);
    if Blocked(s, ticket) then s else s.(sending := true)
  }

  /** The `finally` of run_passive; `sent`: it had started its send. */
  function LeavePassive(l: Lane, sent: bool): Lane {
    if l.sends == 0 then l
    else l.(sends := l.sends - 1, sending := if sent then false else l.sending)
  }

  /** The `finally` of run_non_passive. */
  function LeaveNonPassive(l: Lane, ticket: nat, sent: bool): Lane {
    Skip(if sent then l.(serving := l.serving + 1, sending := false)
         else l.(cancelled := l.cancelled + {ticket}))
  }

  class ChatLaneState {
    var active: nat
    var turns: nat
    var sends: nat
    var next: nat
    var serving: nat
    var cancelled: set<nat>
    var sending: bool

    ghost function Value(): Lane
      reads this
    {
      Lane(active, turns, sends, next, serving, cancelled, sending)
    }

    constructor ()
      ensures Value() == FRESH
    {
      active, turns, sends, next, serving, cancelled, sending := 0, 0, 0, 0, 0, {}, false;
    }

    method SkipCancelled()
      modifies this
      ensures Value() == Skip(old(Value()))
    {
      while serving in cancelled
        invariant Skip(Value()) == Skip(old(Value()))
        decreases cancelled
      {
        cancelled := cancelled - {serving};
        serving := serving + 1;
      }
    }

    method TryStartPassive() returns (started: bool)
      modifies this
      ensures started == !old(sending) && Value() == TryPassive(old(Value()))
    {
      started := !sending;
      if started { sending := true; }
    }

    method TryStartNonPassive(ticket: nat) returns (started: bool)
      modifies this
      ensures started == !Blocked(Skip(old(Value())), ticket)
      ensures Value() == TryNonPassive(old(Value()), ticket)
    {
      SkipCancelled();
      if sending || turns > 0 || sends > 0 || ticket != serving { return false; }
      sending := true;
      return true;
    }
  }

  class ChatLane<Key(==)> {
    var states: map<Key, ChatLaneState>

    /** One object per key. */
    ghost predicate Valid()
      reads this
    {
      forall k1, k2 :: k1 in states && k2 in states && states[k1] == states[k2] ==> k1 == k2
    }

    /** The object of `key`, if it has one. */
    ghost function Mine(key: Key): set<ChatLaneState>
      reads this
    {
      if key in states then {states[key]} else {}
    }

    /** The lane of `key`; an absent one is a fresh one. */
    ghost function At(key: Key): Lane
      reads this, Mine(key)
    {
      if key in states then states[key].Value() else FRESH
    }

    /** The lane of `key` is `l`, and it is stored exactly when something is owed on it. */
    ghost predicate Stores(key: Key, l: Lane)
      reads this, Mine(key)
    {
      if Idle(l) then key !in states else key in states && states[key].Value() == l
    }

    constructor ()
      ensures Valid() && states == map[]
    {
      states := map[];
    }

    method AcquireState(key: Key) returns (state: ChatLaneState)
      requires Valid()
      modifies this, Mine(key)
      ensures Valid() && key in states && states[key] == state
      ensures states == if key in old(states) then old(states) else old(states)[key := state]
      ensures key !in old(states) ==> fresh(state)
      ensures state.Value() == old(At(key)).(active := old(At(key)).active + 1)
    {
      if key in states {
        state := states[key];
      } else {
        state := new ChatLaneState();
        states := states[key := state];
      }
      state.active := state.active + 1;
    }

    /** The object leaves the map only if it is the one mapped there and nothing is owed on it. */
    method ReleaseState(key: Key, state: ChatLaneState)
      requires Valid() && state.active > 0
      modifies this, state
      ensures Valid()
      ensures state.Value() == old(state.Value()).(active := old(state.active) - 1)
      ensures states == if Idle(state.Value()) && key in old(states) && old(states[key]) == state
                        then old(states) - {key} else old(states)
    {
      state.active := state.active - 1;
      if state.active > 0 || state.turns > 0 || state.sends > 0 || state.sending
         || state.next != state.serving || state.cancelled != {}
      {
        return;
      }
      if key in states && states[key] == state {
        states := states - {key};
      }
    }

    method MarkPassivePending(key: Key)
      requires Valid()
      modifies this, Mine(key)
      ensures Valid() && states - {key} == old(states) - {key}
      ensures Stores(key, old(At(key)).(turns := old(At(key)).turns + 1))
    {
      var state := AcquireState(key);
      state.turns := state.turns + 1;
      ReleaseState(key, state);
    }

    method MarkPassiveDone(key: Key)
      requires Valid()
      modifies this, Mine(key)
      ensures Valid() && states - {key} == old(states) - {key}
      ensures Stores(key, TurnDone(old(At(key))))
    {
      var state := AcquireState(key);
      if state.turns > 0 { state.turns := state.turns - 1; }
      ReleaseState(key, state);
    }

    method MarkPassiveSendPending(key: Key)
      requires Valid()
      modifies this, Mine(key)
      ensures Valid() && states - {key} == old(states) - {key}
      ensures Stores(key, old(At(key)).(sends := old(At(key)).sends + 1))
    {
      var state := AcquireState(key);
      state.sends := state.sends + 1;
      ReleaseState(key, state);
    }

    method MarkPassiveSendDone(key: Key)
      requires Valid()
      modifies this, Mine(key)
      ensures Valid() && states - {key} == old(states) - {key}
      ensures Stores(key, SendDone(old(At(key))))
    {
      var state := AcquireState(key);
      if state.sends > 0 { state.sends := state.sends - 1; }
      ReleaseState(key, state);
    }

    /** run_passive up to its first suspension; `ok` is false for an unbalanced registration. */
    method BeginPassive(key: Key, registered: bool) returns (ok: bool, started: bool, state: ChatLaneState)
      requires Valid()
      modifies this, Mine(key)
      ensures Valid() && states - {key} == old(states) - {key}
      ensures ok == (!registered || old(At(key)).sends > 0)
      ensures started == (ok && !old(At(key)).sending)
      ensures ok ==> key in states && states[key] == state
      ensures var l := old(At(key));
              Stores(key, if !ok then l
                          else TryPassive(l.(active := l.active + 1,
                                             sends := l.sends + if registered then 0 else 1)))
    {
      state := AcquireState(key);
      if registered {
        if state.sends <= 0 {
          ReleaseState(key, state);
          return false, false, state;
        }
      } else {
        state.sends := state.sends + 1;
      }
      ok := true;
      started := state.TryStartPassive();
    }

    /** run_non_passive up to its first suspension. */
    method BeginNonPassive(key: Key) returns (ticket: nat, started: bool, state: ChatLaneState)
      requires Valid()
      modifies this, Mine(key)
      ensures Valid() && states - {key} == old(states) - {key}
      ensures key in states && states[key] == state && ticket == old(At(key)).next
      ensures var entered := old(At(key)).(active := old(At(key)).active + 1, next := ticket + 1);
              && started == !Blocked(Skip(entered), ticket)
              && state.Value() == TryNonPassive(entered, ticket)
    {
      state := AcquireState(key);
      ticket := state.next;
      state.next := state.next + 1;
      started := state.TryStartNonPassive(ticket);
    }

    /** The end of run_passive, however it ends; `ok` is false for an unbalanced counter. */
    method EndPassive(key: Key, state: ChatLaneState, sent: bool) returns (ok: bool)
      requires Valid() && key in states && states[key] == state && state.active > 0
      modifies this, state
      ensures Valid() && states - {key} == old(states) - {key}
      ensures ok == (old(state.sends) > 0)
      ensures var l := LeavePassive(old(state.Value()), sent);
              Stores(key, l.(active := l.active - 1))
    {
      ok := state.sends > 0;
      if ok {
        state.sends := state.sends - 1;
        if sent { state.sending := false; }
      }
      ReleaseState(key, state);
    }

    method EndNonPassive(key: Key, state: ChatLaneState, ticket: nat, sent: bool)
      requires Valid() && key in states && states[key] == state && state.active > 0
      modifies this, state
      ensures Valid() && states - {key} == old(states) - {key}
      ensures LeaveNonPassive(old(state.Value()), ticket, sent).active == old(state.active)
      ensures var l := LeaveNonPassive(old(state.Value()), ticket, sent);
              Stores(key, l.(active := old(state.active) - 1))
    {
      if sent {
        state.serving := state.serving + 1;
        state.sending := false;
      } else {
        state.cancelled := state.cancelled + {ticket};
      }
      SkipSpec(state.Value());
      state.SkipCancelled();
      ReleaseState(key, state);
    }
  }
}
