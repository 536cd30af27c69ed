/** The restart coordinator of agent/restart.py: it freezes admission when a turn asks for a restart
    and commits only when that turn has completed and its answer has been delivered. */
module Restart {
  import opened Wrappers

  datatype Phase = Idle | Armed | WaitingDelivery | Committed | Cancelled

  /** `id` stands for the fresh uuid of one arm. */
  datatype Request = Request(id: nat, turn: string)

  datatype Admission = Quiesce(turn: string) | Resume(turn: string)

  /** `context`: session, channel and chat are all present; `reason`: the stripped reason's length. */
  datatype ArmCall = ArmCall(turn: string, context: bool, reason: nat)

  datatype ArmResult = Accepted(request: Request) | Rejected | Invalid | Failed

  datatype Event =
    | Arm(call: ArmCall, quiesceOk: bool)
    | TurnTerminal(turn: string, completed: bool, commitOk: bool)
    | Delivered(turn: string, commitOk: bool)
    | DeliveryFailed(turn: string)
    | WatchdogFires(id: nat)

  /** The coordinator's fields, the live watchdog tasks, and what it has told the outside world. */
  datatype Coord = Coord(
    supervised: bool, bound: bool,
    state: Phase, pending: Option<Request>, turnCompleted: bool, delivered: bool,
    timeoutTask: Option<nat>, watchdogs: set<nat>, nextId: nat,
    admissions: seq<Admission>, commits: seq<Request>)

  function Init(supervised: bool, bound: bool): Coord {
    Coord(supervised, bound, Idle, None, false, false, None, {}, 0, [], [])
  }

  // ---------------------------------------------------------------- transitions

  function ArmOutcome(c: Coord, call: ArmCall, quiesceOk: bool): ArmResult {
    if !c.supervised then Rejected
    else if !c.bound then Failed
    else if !(1 <= call.reason <= 300) then Invalid
    else if call.turn == "" || !call.context then Rejected
    else if c.pending.Some? then
      (if c.pending.value.turn == call.turn then Accepted(c.pending.value) else Rejected)
    else if !quiesceOk then Failed
    else Accepted(Request(c.nextId, call.turn))
  }

  function AfterArm(c: Coord, call: ArmCall, quiesceOk: bool): Coord {
    var outcome := ArmOutcome(c, call, quiesceOk);
    if !outcome.Accepted? || c.pending.Some? then c
    else
      c.(state := Armed, pending := Some(outcome.request), turnCompleted := false, delivered := false,
         timeoutTask := Some(c.nextId), watchdogs := c.watchdogs + {c.nextId}, nextId := c.nextId + 1,
         admissions := c.admissions + [Quiesce(call.turn)])
  }

  function StopWatchdog(c: Coord): Coord {
    c.(timeoutTask := None,
       watchdogs := if c.timeoutTask.Some? then c.watchdogs - {c.timeoutTask.value} else c.watchdogs)
  }

  function Cancel(c: Coord): Coord {
    if c.pending.None? then c
    else
      StopWatchdog(c).(state := Cancelled, pending := None, turnCompleted := false, delivered := false,
                       admissions := c.admissions + [Resume(c.pending.value.turn)])
  }

  function CommitIfReady(c: Coord, commitOk: bool): Coord {
    if c.state == Committed || !c.turnCompleted || !c.delivered || c.pending.None? then c
    else if !commitOk then Cancel(c)
    else StopWatchdog(c).(state := Committed, commits := c.commits + [c.pending.value])
  }

  predicate Concerns(c: Coord, turn: string) {
    c.state != Committed && c.pending.Some? && c.pending.value.turn == turn
  }

  function Step(c: Coord, e: Event): Coord {
    match e
    case Arm(call, quiesceOk) => AfterArm(c, call, quiesceOk)
    case TurnTerminal(turn, completed, commitOk) =>
      if !Concerns(c, turn) then c
      else if !completed then Cancel(c)
      else CommitIfReady(c.(turnCompleted := true, state := WaitingDelivery), commitOk)
    case Delivered(turn, commitOk) =>
      if !Concerns(c, turn) then c else CommitIfReady(c.(delivered := true), commitOk)
    case DeliveryFailed(turn) =>
      if !Concerns(c, turn) then c else Cancel(c)
    case WatchdogFires(id) =>
      // a cancelled or finished watchdog never runs again
      if id !in c.watchdogs then c
      else
        var d := c.(watchdogs := c.watchdogs - {id});
        if d.pending.None? || d.pending.value.id != id then d else Cancel(d)
  }

  function Run(c: Coord, es: seq<Event>): Coord {
    if es == [] then c else Step(Run(c, es[..|es| - 1]), es[|es| - 1])
  }

  // ---------------------------------------------------------------- the class

  class RestartCoordinator {
    const supervised: bool
    var bound: bool
    var state: Phase
    var pending: Option<Request>
    var turnCompleted: bool
    var delivered: bool
    var timeoutTask: Option<nat>
    var liveWatchdogs: set<nat>
    var nextId: nat
    ghost var admissions: seq<Admission>
    ghost var commits: seq<Request>

    ghost function Model(): Coord
      reads this
    {
      Coord(supervised, bound, state, pending, turnCompleted, delivered, timeoutTask, liveWatchdogs,
            nextId, admissions, commits)
    }

    constructor (supervised: bool)
      ensures Model() == Init(supervised, false)
    {
      this.supervised := supervised;
      bound, state, pending := false, Idle, None;
      turnCompleted, delivered, timeoutTask, liveWatchdogs, nextId := false, false, None, {}, 0;
      admissions, commits := [], [];
    }

    /** Binding twice is refused. */
    method BindAdmission() returns (ok: bool)
      modifies this`bound
      ensures ok == !old(bound) && bound
    {
      ok, bound := !bound, true;
    }

    method ArmRestart(call: ArmCall, quiesceOk: bool) returns (r: ArmResult)
      modifies this
      ensures r == ArmOutcome(old(Model()), call, quiesceOk)
      ensures Model() == Step(old(Model()), Arm(call, quiesceOk))
    {
      if !supervised { return Rejected; }
      if !bound { return Failed; }
      if call.reason < 1 || call.reason > 300 { return Invalid; }
      if call.turn == "" || !call.context { return Rejected; }
      if pending.Some? {
        if pending.value.turn == call.turn { return Accepted(pending.value); }
        return Rejected;
      }
      if !quiesceOk { return Failed; }
      admissions := admissions + [Quiesce(call.turn)];
      var request := Request(nextId, call.turn);
      pending, state := Some(request), Armed;
      turnCompleted, delivered := false, false;
      timeoutTask, liveWatchdogs, nextId := Some(nextId), liveWatchdogs + {nextId}, nextId + 1;
      return Accepted(request);
    }

    method MarkTurnTerminal(turn: string, completed: bool, commitOk: bool)
      modifies this
      ensures Model() == Step(old(Model()), TurnTerminal(turn, completed, commitOk))
    {
      if state == Committed || pending.None? || pending.value.turn != turn { return; }
      if !completed {
        CancelRequest();
        return;
      }
      turnCompleted, state := true, WaitingDelivery;
      CommitWhenReady(commitOk);
    }

    method MarkDelivered(turn: string, commitOk: bool)
      modifies this
      ensures Model() == Step(old(Model()), Delivered(turn, commitOk))
    {
      if state == Committed || pending.None? || pending.value.turn != turn { return; }
      delivered := true;
      CommitWhenReady(commitOk);
    }

    method MarkDeliveryFailed(turn: string)
      modifies this
      ensures Model() == Step(old(Model()), DeliveryFailed(turn))
    {
      if state == Committed || pending.None? || pending.value.turn != turn { return; }
      CancelRequest();
    }

    /** The watchdog task `id` wakes up; it is still alive. */
    method DeliveryWatchdog(id: nat)
      requires id in liveWatchdogs
      modifies this
      ensures Model() == Step(old(Model()), WatchdogFires(id))
    {
      liveWatchdogs := liveWatchdogs - {id};
      if pending.None? || pending.value.id != id { return; }
      CancelRequest();
    }

    method CommitWhenReady(commitOk: bool)
      modifies this
      ensures Model() == CommitIfReady(old(Model()), commitOk)
    {
      if state == Committed || !turnCompleted || !delivered || pending.None? { return; }
      if !commitOk {
        CancelRequest();
        return;
      }
      commits := commits + [pending.value];
      state := Committed;
      if timeoutTask.Some? {
        liveWatchdogs := liveWatchdogs - {timeoutTask.value};
      }
      timeoutTask := None;
    }

    method CancelRequest()
      modifies this
      ensures Model() == Cancel(old(Model()))
    {
      if pending.None? { return; }
      if timeoutTask.Some? {
        liveWatchdogs := liveWatchdogs - {timeoutTask.value};
      }
      timeoutTask, state := None, Cancelled;
      admissions := admissions + [Resume(pending.value.turn)];
      pending, turnCompleted, delivered := None, false, false;
    }
  }

  // ---------------------------------------------------------------- every run

  /** Freezes and resumes alternate, each resume naming the turn of the freeze before it. */
  ghost predicate Alternates(calls: seq<Admission>) {
    forall i :: 0 <= i < |calls| ==> InTurn(calls, i)
  }

  predicate InTurn(calls: seq<Admission>, i: nat)
    requires i < |calls|
  {
    if i % 2 == 0 then calls[i].Quiesce? else calls[i] == Resume(calls[i - 1].turn)
  }

  lemma AlternatesGrows(calls: seq<Admission>, call: Admission)
    requires Alternates(calls) && InTurn(calls + [call], |calls|)
    ensures Alternates(calls + [call])
  {
    forall i | 0 <= i < |calls| ensures InTurn(calls + [call], i) {
      assert InTurn(calls, i);
    }
  }

  ghost predicate Frozen(calls: seq<Admission>) {
    calls != [] && calls[|calls| - 1].Quiesce?
  }

  ghost predicate Balanced(c: Coord) {
    && Alternates(c.admissions)
    && (c.pending.Some? <==> |c.admissions| % 2 == 1)
    && (c.pending.Some? ==> c.admissions[|c.admissions| - 1] == Quiesce(c.pending.value.turn))
  }

  ghost predicate Inv(c: Coord) {
    && Balanced(c)
    && (c.state == Committed ==> c.pending.Some? && c.turnCompleted && c.delivered)
    && c.commits == (if c.state == Committed then [c.pending.value] else [])
    && (c.pending.None? ==> c.state in {Idle, Cancelled} && !c.turnCompleted && !c.delivered)
    && (c.pending.Some? && c.state != Committed ==>
          && !(c.turnCompleted && c.delivered)
          && c.state == (if c.turnCompleted then WaitingDelivery else Armed))
    // exactly the request that still waits has a watchdog
    && c.timeoutTask == (if c.pending.Some? && c.state != Committed then Some(c.pending.value.id) else None)
    && c.watchdogs == (if c.timeoutTask.Some? then {c.timeoutTask.value} else {})
    && (c.pending.Some? ==> c.pending.value.id < c.nextId)
  }

  lemma CancelKeepsBalance(c: Coord)
    requires Balanced(c)
    ensures Balanced(Cancel(c))
  {
    if c.pending.Some? {
      AlternatesGrows(c.admissions, Resume(c.pending.value.turn));
    }
  }

  lemma ArmKeepsBalance(c: Coord, call: ArmCall, quiesceOk: bool)
    requires Balanced(c)
    ensures Balanced(AfterArm(c, call, quiesceOk))
  {
    var after := AfterArm(c, call, quiesceOk);
    if after != c {
      AlternatesGrows(c.admissions, Quiesce(call.turn));
    }
  }

  lemma StepKeepsBalance(c: Coord, e: Event)
    requires Balanced(c)
    ensures Balanced(Step(c, e))
  {
    match e
    case Arm(call, quiesceOk) => ArmKeepsBalance(c, call, quiesceOk);
    case TurnTerminal(turn, completed, commitOk) =>
      CancelKeepsBalance(c);
      CancelKeepsBalance(c.(turnCompleted := true, state := WaitingDelivery));
    case Delivered(turn, commitOk) => CancelKeepsBalance(c.(delivered := true));
    case DeliveryFailed(turn) => CancelKeepsBalance(c);
    case WatchdogFires(id) => CancelKeepsBalance(c.(watchdogs := c.watchdogs - {id}));
  }

  lemma StepKeepsInv(c: Coord, e: Event)
    requires Inv(c)
    ensures Inv(Step(c, e))
  {
    StepKeepsBalance(c, e);
  }

  lemma {:induction false} RunKeepsInv(supervised: bool, es: seq<Event>)
    ensures Inv(Run(Init(supervised, true), es))
  {
    if es != [] {
      RunKeepsInv(supervised, es[..|es| - 1]);
      StepKeepsInv(Run(Init(supervised, true), es[..|es| - 1]), es[|es| - 1]);
    }
  }

  lemma FrozenIffPending(c: Coord)
    requires Inv(c)
    ensures Frozen(c.admissions) <==> c.pending.Some?
  {
    if c.admissions != [] {
      assert InTurn(c.admissions, |c.admissions| - 1);
    }
  }

  /** In every run freezes and resumes alternate with matching turns, admission is frozen exactly
      while a request is pending, and at most one commit is ever sent, for the pending request. */
  lemma AdmissionDiscipline(supervised: bool, es: seq<Event>)
    ensures var c := Run(Init(supervised, true), es);
            && Alternates(c.admissions)
            && (Frozen(c.admissions) <==> c.pending.Some?)
            && |c.commits| <= 1
            && (c.commits != [] <==> c.state == Committed)
            && (c.commits != [] ==> c.pending == Some(c.commits[0]))
  {
    RunKeepsInv(supervised, es);
    FrozenIffPending(Run(Init(supervised, true), es));
  }

  /** Once committed, no event changes anything: not a late failure, a new arm or any watchdog. */
  lemma CommittedIsAbsorbing(supervised: bool, es: seq<Event>, later: seq<Event>)
    requires Run(Init(supervised, true), es).state == Committed
    ensures Run(Init(supervised, true), es + later) == Run(Init(supervised, true), es)
  {
    if later == [] {
      assert es + later == es;
    } else {
      var front := later[..|later| - 1];
      CommittedIsAbsorbing(supervised, es, front);
      RunKeepsInv(supervised, es);
      assert (es + later)[..|es + later| - 1] == es + front;
    }
  }

  /** A live watchdog always belongs to the request that is waiting now, so none outlives its own
      request, and a waiting request always has one. */
  lemma WatchdogMatchesPending(supervised: bool, es: seq<Event>, id: nat)
    ensures var c := Run(Init(supervised, true), es);
            id in c.watchdogs <==>
              c.state != Committed && c.pending.Some? && c.pending.value.id == id
  {
    RunKeepsInv(supervised, es);
  }

  // What a commit rests on, in terms of the events themselves.

  ghost predicate ArmedAt(supervised: bool, es: seq<Event>, a: nat, r: Request) {
    && a < |es|
    && Run(Init(supervised, true), es[..a]).pending.None?
    && es[a].Arm? && Run(Init(supervised, true), es[..a + 1]).pending == Some(r)
  }

  predicate CompletedSince(es: seq<Event>, a: nat, turn: string) {
    exists i :: a < i < |es| && es[i].TurnTerminal? && es[i].turn == turn && es[i].completed
  }

  predicate DeliveredSince(es: seq<Event>, a: nat, turn: string) {
    exists i :: a < i < |es| && es[i].Delivered? && es[i].turn == turn
  }

  ghost predicate History(supervised: bool, es: seq<Event>, a: nat) {
    var c := Run(Init(supervised, true), es);
    c.pending.Some? ==>
      && ArmedAt(supervised, es, a, c.pending.value)
      && (c.turnCompleted <==> CompletedSince(es, a, c.pending.value.turn))
      && (c.delivered <==> DeliveredSince(es, a, c.pending.value.turn))
  }

  /** One more event: what was seen since `a` before it, or is it. */
  lemma SinceGrows(front: seq<Event>, e: Event, a: nat, turn: string)
    ensures CompletedSince(front + [e], a, turn) <==>
              CompletedSince(front, a, turn)
              || (a < |front| && e.TurnTerminal? && e.turn == turn && e.completed)
    ensures DeliveredSince(front + [e], a, turn) <==>
              DeliveredSince(front, a, turn) || (a < |front| && e.Delivered? && e.turn == turn)
  {
    var es := front + [e];
    assert es[|front|] == e;
    assert forall i :: 0 <= i < |front| ==> es[i] == front[i];
  }

  /** How one event changes a request that survives it. */
  lemma FlagsFollowEvents(c: Coord, e: Event)
    requires Inv(c) && c.pending.Some? && Step(c, e).pending.Some?
    ensures Step(c, e).pending == c.pending
    ensures Step(c, e).turnCompleted <==>
              c.turnCompleted || (e.TurnTerminal? && e.turn == c.pending.value.turn && e.completed)
    ensures Step(c, e).delivered <==>
              c.delivered || (e.Delivered? && e.turn == c.pending.value.turn)
  {
  }

  lemma {:induction false} HistoryOf(supervised: bool, es: seq<Event>) returns (a: nat)
    ensures History(supervised, es, a)
  {
    if es == [] {
      return 0;
    }
    var front, e := es[..|es| - 1], es[|es| - 1];
    assert es == front + [e];
    a := HistoryOf(supervised, front);
    RunKeepsInv(supervised, front);
    var before := Run(Init(supervised, true), front);
    if Step(before, e).pending.Some? {
      if before.pending.None? {
        a := |front|;
        assert es[..a] == front && es[..a + 1] == es;
      } else {
        assert es[..a] == front[..a] && es[..a + 1] == front[..a + 1];
        FlagsFollowEvents(before, e);
        SinceGrows(front, e, a, before.pending.value.turn);
      }
    }
  }

  /** A pending request is committed exactly when, since it was armed, its own turn has both
      completed and been delivered. */
  lemma CommittedExactlyWhenBothSeen(supervised: bool, es: seq<Event>) returns (a: nat)
    ensures var c := Run(Init(supervised, true), es);
            c.pending.Some? ==>
              && ArmedAt(supervised, es, a, c.pending.value)
              && (c.state == Committed <==>
                    && CompletedSince(es, a, c.pending.value.turn)
                    && DeliveredSince(es, a, c.pending.value.turn))
  {
    a := HistoryOf(supervised, es);
    RunKeepsInv(supervised, es);
  }
}
