/** What becomes of a restart request, by the events alone: when one is accepted, and which events commit it
    or give it up. */
module RestartFate {
  import opened Restart
  import opened Wrappers

  /** A request is accepted if and only if the gateway is supervised, none is pending, and the call is complete
      and admission could be frozen; admission is then frozen for its turn, and a watchdog of its own runs. */
  lemma AcceptedIff(supervised: bool, es: seq<Event>, call: ArmCall, quiesceOk: bool)
    ensures var c := Run(Init(supervised, true), es);
            var d := Step(c, Arm(call, quiesceOk));
            if c.pending.None? && supervised && call.turn != "" && call.context && 1 <= call.reason <= 300 && quiesceOk
            then && d.pending == Some(Request(c.nextId, call.turn)) && d.state == Armed
                 && d.admissions == c.admissions + [Quiesce(call.turn)] && c.nextId in d.watchdogs
                 && ArmOutcome(c, call, quiesceOk) == Accepted(d.pending.value)
            else d == c
  {
    RunKeepsInv(supervised, es);
    StaysConfigured(supervised, es);
  }

  lemma {:induction false} StaysConfigured(supervised: bool, es: seq<Event>)
    ensures var c := Run(Init(supervised, true), es); c.supervised == supervised && c.bound
  {
    if es != [] {
      StaysConfigured(supervised, es[..|es| - 1]);
    }
  }

  /** The event is about the request's own turn and brings its completion or its delivery. */
  predicate Brings(e: Event, turn: string) {
    (e.TurnTerminal? && e.turn == turn && e.completed) || (e.Delivered? && e.turn == turn)
  }

  /** The request's turn does not complete, its delivery fails, or its own watchdog fires. */
  predicate Breaks(e: Event, r: Request) {
    || (e.TurnTerminal? && e.turn == r.turn && !e.completed)
    || (e.DeliveryFailed? && e.turn == r.turn)
    || e == WatchdogFires(r.id)
  }

  /** With the event at `i` the turn has, since the request was armed at `a`, completed and been delivered. */
  predicate ReadyAt(es: seq<Event>, a: nat, i: nat, r: Request) {
    && a < i < |es| && Brings(es[i], r.turn)
    && CompletedSince(es[..i + 1], a, r.turn) && DeliveredSince(es[..i + 1], a, r.turn)
  }

  predicate CommitsAt(es: seq<Event>, a: nat, i: nat, r: Request) {
    ReadyAt(es, a, i, r) && es[i].commitOk
  }

  /** The event at `i` ends the request: it breaks it, or the supervisor refuses the commit. */
  predicate FailsAt(es: seq<Event>, a: nat, i: nat, r: Request) {
    (a < i < |es| && Breaks(es[i], r)) || (ReadyAt(es, a, i, r) && !es[i].commitOk)
  }

  /** What one event does to a request that waits. */
  lemma WaitingMeets(c: Coord, e: Event, r: Request)
    requires Inv(c) && c.pending == Some(r) && c.state != Committed
    ensures var d := Step(c, e);
            var ready := Brings(e, r.turn) && (c.turnCompleted || e.TurnTerminal?) && (c.delivered || e.Delivered?);
            if Breaks(e, r) || (ready && !e.commitOk) then
              && d.pending == None && d.state == Cancelled && d.watchdogs == {} && d.commits == c.commits
              && d.admissions == c.admissions + [Resume(r.turn)]
            else if ready then
              && d.pending == Some(r) && d.state == Committed && d.watchdogs == {} && d.commits == c.commits + [r]
              && d.admissions == c.admissions
            else
              && d.pending == Some(r) && d.state != Committed && d.watchdogs == c.watchdogs && d.commits == c.commits
              && d.admissions == c.admissions
  {
  }

  /** Nothing has decided about the request yet. */
  ghost predicate Undecided(es: seq<Event>, a: nat, r: Request) {
    forall i: nat :: i < |es| ==> !CommitsAt(es, a, i, r) && !FailsAt(es, a, i, r)
  }

  lemma PrefixDecides(es: seq<Event>, n: nat, a: nat, i: nat, r: Request)
    requires i < n <= |es|
    ensures CommitsAt(es[..n], a, i, r) <==> CommitsAt(es, a, i, r)
    ensures FailsAt(es[..n], a, i, r) <==> FailsAt(es, a, i, r)
  {
    assert es[..n][..i + 1] == es[..i + 1];
  }

  /** The state a run is in while its request is undecided. */
  ghost predicate Waits(c: Coord, es: seq<Event>, a: nat, r: Request) {
    && c.pending == Some(r) && c.state != Committed
    && (c.turnCompleted <==> CompletedSince(es, a, r.turn))
    && (c.delivered <==> DeliveredSince(es, a, r.turn))
  }

  lemma {:induction false} UndecidedWaits(supervised: bool, es: seq<Event>, a: nat, r: Request)
    requires ArmedAt(supervised, es, a, r) && Undecided(es, a, r)
    ensures Waits(Run(Init(supervised, true), es), es, a, r)
    decreases |es|
  {
    var n := |es| - 1;
    var front := es[..n];
    RunKeepsInv(supervised, es);
    if a == n {
      assert es[..a + 1] == es;
    } else {
      assert front[..a] == es[..a] && front[..a + 1] == es[..a + 1];
      forall i: nat | i < n ensures !CommitsAt(front, a, i, r) && !FailsAt(front, a, i, r) {
        PrefixDecides(es, n, a, i, r);
      }
      UndecidedWaits(supervised, front, a, r);
      RunKeepsInv(supervised, front);
      assert front + [es[n]] == es;
      WaitsOn(supervised, front, es[n], a, r);
    }
  }

  /** An event that decides nothing leaves it waiting, with what it brought noted. */
  lemma StillWaits(c: Coord, e: Event, r: Request)
    requires Inv(c) && c.pending == Some(r) && c.state != Committed && !Breaks(e, r)
    requires !(Brings(e, r.turn) && (c.turnCompleted || e.TurnTerminal?) && (c.delivered || e.Delivered?))
    ensures var d := Step(c, e);
            && d.pending == Some(r) && d.state != Committed
            && (d.turnCompleted <==> c.turnCompleted || (Brings(e, r.turn) && e.TurnTerminal?))
            && (d.delivered <==> c.delivered || (Brings(e, r.turn) && e.Delivered?))
  {
    WaitingMeets(c, e, r);
    FlagsFollowEvents(c, e);
  }

  lemma RunMore(c: Coord, front: seq<Event>, e: Event)
    ensures Run(c, front + [e]) == Step(Run(c, front), e)
  {
    assert (front + [e])[..|front + [e]| - 1] == front;
  }

  lemma LastReady(front: seq<Event>, e: Event, a: nat, r: Request)
    requires a < |front|
    ensures ReadyAt(front + [e], a, |front|, r) <==>
              && Brings(e, r.turn) && (CompletedSince(front, a, r.turn) || e.TurnTerminal?)
              && (DeliveredSince(front, a, r.turn) || e.Delivered?)
  {
    assert (front + [e])[..|front| + 1] == front + [e];
    SinceGrows(front, e, a, r.turn);
  }

  lemma WaitsOn(supervised: bool, front: seq<Event>, e: Event, a: nat, r: Request)
    requires a < |front| && Inv(Run(Init(supervised, true), front))
    requires Waits(Run(Init(supervised, true), front), front, a, r)
    requires !CommitsAt(front + [e], a, |front|, r) && !FailsAt(front + [e], a, |front|, r)
    ensures Waits(Run(Init(supervised, true), front + [e]), front + [e], a, r)
  {
    RunMore(Init(supervised, true), front, e);
    LastReady(front, e, a, r);
    StillWaits(Run(Init(supervised, true), front), e, r);
    SinceGrows(front, e, a, r.turn);
  }

  /** The first event that decides about a request decides at once: committed, or given up and admission
      resumed for its turn. */
  lemma FirstDecides(supervised: bool, es: seq<Event>, a: nat, i: nat, r: Request)
    requires ArmedAt(supervised, es, a, r) && i < |es| && Undecided(es[..i], a, r)
    requires CommitsAt(es, a, i, r) || FailsAt(es, a, i, r)
    ensures var before, after := Run(Init(supervised, true), es[..i]), Run(Init(supervised, true), es[..i + 1]);
            if FailsAt(es, a, i, r)
            then after.pending == None && after.admissions == before.admissions + [Resume(r.turn)]
            else after.pending == Some(r) && after.state == Committed
    ensures !(CommitsAt(es, a, i, r) && FailsAt(es, a, i, r))
  {
    assert es[..i][..a] == es[..a] && es[..i][..a + 1] == es[..a + 1];
    assert ArmedAt(supervised, es[..i], a, r);
    UndecidedWaits(supervised, es[..i], a, r);
    RunKeepsInv(supervised, es[..i]);
    assert es[..i + 1] == es[..i] + [es[i]];
    SinceGrows(es[..i], es[i], a, r.turn);
    WaitingMeets(Run(Init(supervised, true), es[..i]), es[i], r);
  }

  /** An event that makes another request pending gives it a new id. */
  lemma IdsMove(c: Coord, e: Event)
    ensures c.nextId <= Step(c, e).nextId
    ensures Step(c, e).pending in {c.pending, None} || Step(c, e).pending.value.id == c.nextId
  {
  }

  /** An id that is not pending any more, or not yet given out to `r`, never becomes `r`'s again. */
  lemma {:induction false} NeverAgain(supervised: bool, es: seq<Event>, n: nat, r: Request)
    requires n <= |es|
    requires var c := Run(Init(supervised, true), es[..n]); r.id < c.nextId && c.pending != Some(r)
    ensures Run(Init(supervised, true), es).pending != Some(r) && r.id < Run(Init(supervised, true), es).nextId
    decreases |es|
  {
    if n == |es| {
      assert es[..n] == es;
    } else {
      var front := es[..|es| - 1];
      assert front[..n] == es[..n];
      NeverAgain(supervised, front, n, r);
      IdsMove(Run(Init(supervised, true), front), es[|es| - 1]);
    }
  }

  lemma ArmedIsOld(supervised: bool, es: seq<Event>, a: nat, n: nat, r: Request)
    requires ArmedAt(supervised, es, a, r) && a < n <= |es|
    ensures r.id < Run(Init(supervised, true), es[..n]).nextId
  {
    RunKeepsInv(supervised, es[..a + 1]);
    IdsGrow(supervised, es[..n], a + 1);
    assert es[..n][..a + 1] == es[..a + 1];
  }

  lemma {:induction false} IdsGrow(supervised: bool, es: seq<Event>, n: nat)
    requires n <= |es|
    ensures Run(Init(supervised, true), es[..n]).nextId <= Run(Init(supervised, true), es).nextId
    decreases |es|
  {
    if n == |es| {
      assert es[..n] == es;
    } else {
      assert es[..|es| - 1][..n] == es[..n];
      IdsGrow(supervised, es[..|es| - 1], n);
      IdsMove(Run(Init(supervised, true), es[..|es| - 1]), es[|es| - 1]);
    }
  }

  /** The first decision, if there is one. */
  lemma {:induction false} FindFirst(es: seq<Event>, n: nat, a: nat, r: Request) returns (i: nat)
    requires n <= |es|
    ensures i <= n && forall j: nat :: j < i ==> !CommitsAt(es, a, j, r) && !FailsAt(es, a, j, r)
    ensures i < n ==> CommitsAt(es, a, i, r) || FailsAt(es, a, i, r)
    decreases n
  {
    if n == 0 {
      return 0;
    }
    i := FindFirst(es, n - 1, a, r);
    if i == n - 1 && !CommitsAt(es, a, n - 1, r) && !FailsAt(es, a, n - 1, r) {
      i := n;
    }
  }

  lemma UndecidedBefore(es: seq<Event>, i: nat, a: nat, r: Request)
    requires i <= |es| && forall j: nat :: j < i ==> !CommitsAt(es, a, j, r) && !FailsAt(es, a, j, r)
    ensures Undecided(es[..i], a, r)
  {
    forall j: nat | j < i ensures !CommitsAt(es[..i], a, j, r) && !FailsAt(es[..i], a, j, r) {
      PrefixDecides(es, i, a, j, r);
    }
  }

  /** What has become of a request by the end of the run, given the first decision about it. */
  lemma CommittedStays(supervised: bool, es: seq<Event>, n: nat)
    requires n <= |es| && Run(Init(supervised, true), es[..n]).state == Committed
    ensures Run(Init(supervised, true), es) == Run(Init(supervised, true), es[..n])
  {
    assert es[..n] + es[n..] == es;
    CommittedIsAbsorbing(supervised, es[..n], es[n..]);
  }

  lemma FateFrom(supervised: bool, es: seq<Event>, a: nat, i: nat, r: Request)
    requires ArmedAt(supervised, es, a, r) && i < |es| && Undecided(es[..i], a, r)
    requires CommitsAt(es, a, i, r) || FailsAt(es, a, i, r)
    ensures var c := Run(Init(supervised, true), es);
            if FailsAt(es, a, i, r) then c.pending != Some(r) else c.pending == Some(r) && c.state == Committed
  {
    FirstDecides(supervised, es, a, i, r);
    if FailsAt(es, a, i, r) {
      ArmedIsOld(supervised, es, a, i + 1, r);
      NeverAgain(supervised, es, i + 1, r);
    } else {
      CommittedStays(supervised, es, i + 1);
    }
  }

  /** Over every run, by the events alone: a request armed at `a` is still pending if and only if it was
      committed before anything ended it, or nothing has: no failed or interrupted turn of its own, no failed
      delivery, no watchdog of its own, no refused commit. */
  lemma PendingIff(supervised: bool, es: seq<Event>, a: nat, r: Request)
    requires ArmedAt(supervised, es, a, r)
    ensures Run(Init(supervised, true), es).pending == Some(r) <==>
              || (forall i: nat :: !FailsAt(es, a, i, r))
              || (exists k: nat :: CommitsAt(es, a, k, r) && forall i: nat :: i < k ==> !FailsAt(es, a, i, r))
  {
    var i := FindFirst(es, |es|, a, r);
    UndecidedBefore(es, i, a, r);
    if i == |es| {
      assert es[..i] == es;
      UndecidedWaits(supervised, es, a, r);
    } else {
      FateFrom(supervised, es, a, i, r);
      FirstDecides(supervised, es, a, i, r);
    }
  }

  /** The answers to a call that arms nothing: the turn that has already asked gets its own request again, and
      nobody else gets one while it is pending; before admission is bound nobody does. */
  lemma AnswersOtherwise(c: Coord, call: ArmCall, quiesceOk: bool)
    requires c.supervised && call.turn != "" && call.context && 1 <= call.reason <= 300
    ensures !c.bound ==> ArmOutcome(c, call, quiesceOk) == Failed
    ensures c.bound && c.pending.Some? ==>
              ArmOutcome(c, call, quiesceOk) == if c.pending.value.turn == call.turn then Accepted(c.pending.value)
                                                else Rejected
    ensures c.bound && c.pending.None? && !quiesceOk ==> ArmOutcome(c, call, quiesceOk) == Failed
    ensures !c.bound || c.pending.Some? || !quiesceOk ==> Step(c, Arm(call, quiesceOk)) == c
  {
  }

  /** The plain course of things: armed, completed, delivered, committed; frozen to the end. */
  lemma CommitHappens(turn: string)
    requires turn != ""
    ensures var es := [Arm(ArmCall(turn, true, 1), true), TurnTerminal(turn, true, true), Delivered(turn, true)];
            var c := Run(Init(true, true), es);
            c.state == Committed && c.commits == [Request(0, turn)] && c.admissions == [Quiesce(turn)]
  {
    var es := [Arm(ArmCall(turn, true, 1), true), TurnTerminal(turn, true, true), Delivered(turn, true)];
    assert es[..2][..1] == es[..1] && es[..1][..0] == [];
    assert Run(Init(true, true), es[..1]) == Step(Init(true, true), es[0]);
    assert Run(Init(true, true), es[..2]) == Step(Step(Init(true, true), es[0]), es[1]);
  }
}
