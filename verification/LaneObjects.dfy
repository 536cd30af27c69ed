/** The self-cleaning map of bus/queue.py: a lane's state object is dropped from the map when nothing is
    owed on it, and its tickets start again from zero in the next object. Every run is, event by event,
    a run of the lane that is never dropped (LaneProtocol), up to a shift of the ticket numbers. */
module LaneObjects {
  import opened LaneState
  import opened LaneProtocol
  import opened Wrappers

  type Oid = nat

  /** One key: the object mapped there, all objects ever made for it, and for each suspended send the
      object whose condition it waits on or will release. */
  datatype World = World(cur: Option<Oid>, heap: map<Oid, Lane>, made: Oid, tasks: map<Tid, Phase>,
                         objs: map<Tid, Oid>, owed: set<Turn>, queued: nat)

  function Empty(): World {
    World(None, map[], 0, map[], map[], {}, 0)
  }

  /** A running send uses the object it holds; every other call looks the key up, or makes an object. */
  function ObjectFor(w: World, e: Event): Oid {
    if (e.Wake? || e.Finish? || e.CancelWait?) && e.t in w.objs then w.objs[e.t]
    else if w.cur.Some? then w.cur.value else w.made
  }

  function ViewOf(w: World, o: Oid): Core {
    Core(if o in w.heap then w.heap[o] else FRESH,
         map t | t in w.tasks && t in w.objs && w.objs[t] == o :: w.tasks[t],
         w.owed, w.queued)
  }

  predicate Possible(w: World, e: Event) {
    && (e.Start? ==> e.t !in w.tasks && e.t !in w.objs)
    && Enabled(ViewOf(w, ObjectFor(w, e)), e)
  }

  function Act(w: World, e: Event): World
    requires Possible(w, e)
  {
    var o := ObjectFor(w, e);
    var before := ViewOf(w, o);
    var after := Next(before, e);
    var found := if e.Wake? || e.Finish? || e.CancelWait? then w.cur else Some(o);
    World(if Idle(after.lane) && found == Some(o) then None else found,
          w.heap[o := after.lane],
          if o == w.made then w.made + 1 else w.made,
          (w.tasks - before.tasks.Keys) + after.tasks,
          (w.objs - before.tasks.Keys) + (map t | t in after.tasks :: o),
          after.owed, after.queued)
  }

  predicate Happens(w: World, es: seq<Event>)
    decreases |es|
  {
    es == [] || (Possible(w, es[0]) && Happens(Act(w, es[0]), es[1..]))
  }

  function Play(w: World, es: seq<Event>): World
    requires Happens(w, es)
    decreases |es|
  {
    if es == [] then w else Play(Act(w, es[0]), es[1..])
  }

  // ---------------------------------------------------------------- shifting tickets

  function ShiftSet(s: set<nat>, b: nat): (r: set<nat>)
    ensures forall k: nat :: k in r <==> k >= b && k - b in s
  {
    set k | k in s :: k + b
  }

  function ShiftLane(l: Lane, b: nat): Lane {
    l.(next := l.next + b, serving := l.serving + b, cancelled := ShiftSet(l.cancelled, b))
  }

  function ShiftPhase(p: Phase, b: nat): Phase {
    match p
    case Queueing(k, n) => Queueing(k + b, n)
    case Speaking(k) => Speaking(k + b)
    case _ => p
  }

  function ShiftTasks(tasks: map<Tid, Phase>, b: nat): (r: map<Tid, Phase>)
    ensures r.Keys == tasks.Keys && forall t :: t in r ==> r[t] == ShiftPhase(tasks[t], b)
  {
    map t | t in tasks :: ShiftPhase(tasks[t], b)
  }

  function Shift(c: Core, b: nat): Core {
    c.(lane := ShiftLane(c.lane, b), tasks := ShiftTasks(c.tasks, b))
  }

  lemma {:induction false} SkipShifts(l: Lane, b: nat)
    ensures Skip(ShiftLane(l, b)) == ShiftLane(Skip(l), b)
    decreases l.cancelled
  {
    if l.serving in l.cancelled {
      var m := l.(cancelled := l.cancelled - {l.serving}, serving := l.serving + 1);
      assert ShiftSet(l.cancelled, b) - {l.serving + b} == ShiftSet(m.cancelled, b);
      SkipShifts(m, b);
    }
  }

  lemma LeaveShifts(l: Lane, ticket: nat, sent: bool, b: nat)
    ensures LeaveNonPassive(ShiftLane(l, b), ticket + b, sent) == ShiftLane(LeaveNonPassive(l, ticket, sent), b)
  {
    if sent {
      SkipShifts(l.(serving := l.serving + 1, sending := false), b);
    } else {
      assert ShiftSet(l.cancelled, b) + {ticket + b} == ShiftSet(l.cancelled + {ticket}, b);
      SkipShifts(l.(cancelled := l.cancelled + {ticket}), b);
    }
  }

  lemma TasksShift(tasks: map<Tid, Phase>, t: Tid, p: Phase, b: nat)
    ensures ShiftTasks(tasks[t := p], b) == ShiftTasks(tasks, b)[t := ShiftPhase(p, b)]
  {
  }

  lemma NotifyShift(tasks: map<Tid, Phase>, b: nat)
    ensures ShiftTasks(NotifyAll(tasks), b) == NotifyAll(ShiftTasks(tasks, b))
  {
  }

  lemma RemoveShift(tasks: map<Tid, Phase>, t: Tid, b: nat)
    ensures ShiftTasks(tasks - {t}, b) == ShiftTasks(tasks, b) - {t}
  {
  }

  lemma EnterPassiveShifts(c: Core, t: Tid, b: nat)
    ensures EnterPassive(Shift(c, b), t) == Shift(EnterPassive(c, t), b)
  {
    SkipShifts(c.lane, b);
    TasksShift(c.tasks, t, EnterPassive(c, t).tasks[t], b);
  }

  lemma EnterNonPassiveShifts(c: Core, t: Tid, ticket: nat, b: nat)
    ensures EnterNonPassive(Shift(c, b), t, ticket + b) == Shift(EnterNonPassive(c, t, ticket), b)
  {
    SkipShifts(c.lane, b);
    TasksShift(c.tasks, t, EnterNonPassive(c, t, ticket).tasks[t], b);
  }

  lemma LeftShifts(c: Core, t: Tid, l: Lane, b: nat)
    requires t in c.tasks
    ensures Left(Shift(c, b), t, ShiftLane(l, b)) == Shift(Left(c, t, l), b)
  {
    RemoveShift(c.tasks, t, b);
    NotifyShift(c.tasks - {t}, b);
  }

  /** A lane whose tickets are shifted behaves like the lane. */
  lemma NextShifts(c: Core, e: Event, b: nat)
    requires Enabled(c, e)
    ensures Enabled(Shift(c, b), e) && Next(Shift(c, b), e) == Shift(Next(c, e), b)
  {
    match e
    case Start(t, kind) => StartShifts(c, t, kind, b);
    case Wake(t) =>
      EnterPassiveShifts(c, t, b);
      if c.tasks[t].Queueing? {
        EnterNonPassiveShifts(c, t, c.tasks[t].ticket, b);
      }
    case Finish(t) => LeaverShifts(c, t, true, b);
    case CancelWait(t) => LeaverShifts(c, t, false, b);
    case _ => NotifyShift(c.tasks, b);
  }

  lemma StartShifts(c: Core, t: Tid, kind: Kind, b: nat)
    requires Enabled(c, Start(t, kind))
    ensures Next(Shift(c, b), Start(t, kind)) == Shift(Next(c, Start(t, kind)), b)
  {
    var l := c.lane;
    match kind
    case Direct => EnterPassiveShifts(c.(lane := l.(active := l.active + 1, sends := l.sends + 1)), t, b);
    case Queued =>
      if l.sends > 0 {
        EnterPassiveShifts(c.(lane := l.(active := l.active + 1), queued := c.queued - 1), t, b);
      }
    case NonPassive =>
      EnterNonPassiveShifts(c.(lane := l.(active := l.active + 1, next := l.next + 1)), t, l.next, b);
  }

  lemma LeaverShifts(c: Core, t: Tid, sent: bool, b: nat)
    requires t in c.tasks && c.tasks[t].Sends() == sent
    ensures var e := if sent then Finish(t) else CancelWait(t);
            Next(Shift(c, b), e) == Shift(Next(c, e), b)
  {
    if c.tasks[t].Holds() {
      LeaveShifts(c.lane, c.tasks[t].ticket, sent, b);
      LeftShifts(c, t, LeaveNonPassive(c.lane, c.tasks[t].ticket, sent), b);
    } else {
      LeftShifts(c, t, LeavePassive(c.lane, sent), b);
    }
  }

  // ---------------------------------------------------------------- refinement

  /** The object a lookup of the key would use. */
  function Current(w: World): Oid {
    if w.cur.Some? then w.cur.value else w.made
  }

  /** `w` is `a` with its tickets shifted down by `base`: every send holds the mapped object, an
      unmapped key has nothing outstanding, and a mapped object is one on which something is owed. */
  ghost predicate Refines(w: World, a: Core, base: nat) {
    && a == Shift(ViewOf(w, Current(w)), base)
    && w.objs.Keys == w.tasks.Keys
    && (forall t :: t in w.objs ==> w.cur == Some(w.objs[t]))
    && (forall o :: o in w.heap ==> o < w.made)
    && (w.cur.Some? ==> w.cur.value in w.heap && !Idle(w.heap[w.cur.value]))
    && (w.cur.None? ==> w.owed == {} && w.queued == 0)
  }

  /** An idle lane with exact counters has no tasks and no debts. */
  lemma IdleOwesNothing(c: Core)
    requires Exact(c) && Idle(c.lane)
    ensures c.tasks == map[] && c.owed == {} && c.queued == 0
  {
    assert c.tasks.Keys == {};
  }

  lemma ShiftKeepsExact(c: Core, b: nat)
    ensures Exact(Shift(c, b)) <==> Exact(c)
    ensures Idle(Shift(c, b).lane) <==> Idle(c.lane)
  {
    assert Passives(ShiftTasks(c.tasks, b)) == Passives(c.tasks);
    if c.lane.cancelled != {} {
      var k :| k in c.lane.cancelled;
      assert k + b in ShiftSet(c.lane.cancelled, b);
    }
  }

  lemma OneObject(w: World, a: Core, base: nat, e: Event)
    requires Refines(w, a, base) && Possible(w, e)
    ensures ObjectFor(w, e) == Current(w)
    ensures ViewOf(w, Current(w)).tasks == w.tasks
  {
  }

  lemma Replaced<V>(m: map<Tid, V>, keys: set<Tid>, n: map<Tid, V>)
    requires m.Keys == keys
    ensures (m - keys) + n == n
  {
  }

  lemma ActShape(w: World, a: Core, base: nat, e: Event)
    requires Refines(w, a, base) && Possible(w, e)
    ensures Shaped(w, Act(w, e), Next(ViewOf(w, Current(w)), e))
  {
    OneObject(w, a, base, e);
    var after := Next(ViewOf(w, Current(w)), e);
    Replaced(w.tasks, w.tasks.Keys, after.tasks);
    Replaced(w.objs, w.tasks.Keys, map t | t in after.tasks :: Current(w));
    assert e.Wake? || e.Finish? || e.CancelWait? ==> w.cur == Some(Current(w));
  }

  /** `v` is `w` with the current object's view replaced by `after`. */
  ghost predicate Shaped(w: World, v: World, after: Core) {
    var o := Current(w);
    && v.tasks == after.tasks && v.objs == (map t | t in after.tasks :: o)
    && v.heap == w.heap[o := after.lane] && o < v.made && w.made <= v.made
    && v.owed == after.owed && v.queued == after.queued
    && v.cur == if Idle(after.lane) then None else Some(o)
  }

  lemma StillStored(v: World, o: Oid, after: Core)
    requires v.cur == Some(o) && o in v.heap && v.heap[o] == after.lane
    requires v.tasks == after.tasks && v.objs == map t | t in after.tasks :: o
    requires v.owed == after.owed && v.queued == after.queued
    ensures ViewOf(v, Current(v)) == after
  {
  }

  lemma NoLongerStored(v: World, after: Core, b: nat)
    requires Idle(after.lane) && after.tasks == map[] && after.owed == {} && after.queued == 0
    requires v.cur == None && v.made !in v.heap && v.tasks == map[] && v.objs == map[]
    requires v.owed == {} && v.queued == 0
    ensures Shift(ViewOf(v, Current(v)), b + after.lane.next) == Shift(after, b)
  {
    assert ShiftSet({}, b) == {} == ShiftSet({}, b + after.lane.next);
    assert ViewOf(v, v.made).tasks == map[];
    assert ShiftTasks(map[], b) == map[] == ShiftTasks(map[], b + after.lane.next);
  }

  lemma Assemble(w: World, v: World, after: Core, base: nat) returns (base': nat)
    requires Shaped(w, v, after) && Exact(after)
    requires (forall o :: o in w.heap ==> o < w.made)
    ensures Refines(v, Shift(after, base), base')
  {
    if Idle(after.lane) {
      IdleOwesNothing(after);
      base' := base + after.lane.next;
      NoLongerStored(v, after, base);
    } else {
      base' := base;
      StillStored(v, Current(w), after);
    }
  }

  lemma RefineStep(w: World, a: Core, base: nat, e: Event) returns (base': nat)
    requires Refines(w, a, base) && Inv(a) && Possible(w, e)
    ensures Enabled(a, e) && Inv(Next(a, e)) && Refines(Act(w, e), Next(a, e), base')
  {
    OneObject(w, a, base, e);
    var before := ViewOf(w, Current(w));
    var after := Next(before, e);
    NextShifts(before, e, base);
    StepKeepsInv(a, e);
    ShiftKeepsExact(after, base);
    ActShape(w, a, base, e);
    base' := Assemble(w, Act(w, e), after, base);
  }

  /** The run of the never-dropped lane with the same events. */
  lemma {:induction false} SelfCleaningRefines(w: World, a: Core, base: nat, es: seq<Event>)
      returns (base': nat)
    requires Refines(w, a, base) && Inv(a) && Happens(w, es)
    ensures Legal(a, es) && Inv(Run(a, es)) && Refines(Play(w, es), Run(a, es), base')
    decreases |es|
  {
    if es == [] {
      return base;
    }
    base' := RefineStep(w, a, base, es[0]);
    base' := SelfCleaningRefines(Act(w, es[0]), Next(a, es[0]), base', es[1..]);
  }

  lemma StartsRefined()
    ensures Inv(Init()) && Refines(Empty(), Init(), 0)
  {
    assert ShiftSet({}, 0) == {};
    assert ViewOf(Empty(), 0).tasks == map[];
    assert Passives(map[]) == {};
  }

  /** The lane of a key with something owed is not idle. */
  lemma OwedIsNotIdle(c: Core)
    requires Inv(c)
    ensures Idle(c.lane) <==> c.tasks == map[] && c.owed == {} && c.queued == 0
  {
    if c.tasks == map[] && c.owed == {} && c.queued == 0 {
      assert Passives(c.tasks) == {};
      assert forall k: nat, t :: !HeldBy(c.tasks, k, t);
      assert c.lane.serving == c.lane.next;
    }
    if Idle(c.lane) {
      IdleOwesNothing(c);
    }
  }

  /** What the map promises: all suspended sends share the one mapped object; an object is mapped exactly
      while something is outstanding; its counters are exact; at most one send runs, and the object's
      `sending` says so. */
  ghost predicate Promised(w: World) {
    && (w.cur.Some? <==> w.tasks != map[] || w.owed != {} || w.queued > 0)
    && (forall t :: t in w.tasks ==> t in w.objs && w.cur == Some(w.objs[t]))
    && (w.cur.Some? ==>
          && w.cur.value in w.heap
          && Exact(Core(w.heap[w.cur.value], w.tasks, w.owed, w.queued))
          && Exclusive(Core(w.heap[w.cur.value], w.tasks, w.owed, w.queued)))
  }

  lemma RefinementPromises(w: World, a: Core, base: nat)
    requires Refines(w, a, base) && Inv(a)
    ensures Promised(w)
  {
    var c := ViewOf(w, Current(w));
    assert c.tasks == w.tasks;
    ShiftKeepsExact(c, base);
    OwedIsNotIdle(a);
    assert w.tasks == map[] <==> a.tasks == map[] by {
      assert a.tasks.Keys == w.tasks.Keys;
      if a.tasks == map[] { assert w.tasks.Keys == {}; }
    }
    if w.cur.Some? {
      ShiftKeepsExclusive(c, base);
    }
  }

  /** After any run of the self-cleaning map. */
  lemma LaneMapPromises(es: seq<Event>)
    requires Happens(Empty(), es)
    ensures Promised(Play(Empty(), es))
  {
    StartsRefined();
    var base := SelfCleaningRefines(Empty(), Init(), 0, es);
    RefinementPromises(Play(Empty(), es), Run(Init(), es), base);
  }

  lemma ShiftKeepsExclusive(c: Core, b: nat)
    requires Exclusive(Shift(c, b))
    ensures Exclusive(c)
  {
    var d := Shift(c, b);
    assert forall t :: t in c.tasks ==> d.tasks[t].Sends() == c.tasks[t].Sends();
    if c.lane.sending {
      var t :| t in d.tasks && d.tasks[t].Sends();
      assert t in c.tasks && c.tasks[t].Sends();
    }
  }
}
