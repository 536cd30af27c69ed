/** The per-session lanes of bootstrap/passive_worker.py: one queue and one task per session, both
    dropped when the queue runs empty. A step is the code between two awaits. */
module SessionLanes {
  import opened Wrappers

  type Key = nat
  type Item = nat
  type Qid = nat
  type Tid = nat

  /** A live lane task: the queue object it was given, and the message it is working on. */
  datatype LaneTask = LaneTask(key: Key, queue: Qid, current: Option<Item>)

  /** `queues` and `tasks` are the two dictionaries; `contents` the queue objects; a task not in `live`
      is done; `closing`: the worker's loop has ended and its lane tasks are being cancelled. History,
      since the worker started: what arrived for and was started by each session, and the sessions
      whose task was cancelled and that have received nothing since. */
  datatype Lanes = Lanes(queues: map<Key, Qid>, contents: map<Qid, seq<Item>>, tasks: map<Key, Tid>,
                         live: map<Tid, LaneTask>, made: nat, closing: bool,
                         arrived: map<Key, seq<Item>>, started: map<Key, seq<Item>>, stranded: set<Key>)

  datatype Event =
    | Arrive(key: Key, item: Item)
    | Get(t: Tid)       // the task takes the head of its queue
    | Retain(t: Tid)    // the terminal was not delivered: sleep, then the same message again
    | Settle(t: Tid)    // the message is over, well or badly
    | Kill(t: Tid)      // the task is cancelled
    | Close             // the worker's loop ends; from here on it cancels its lane tasks
    | Clear             // all of them are done: both dictionaries are emptied

  function Empty(): Lanes {
    Lanes(map[], map[], map[], map[], 0, false, map[], map[], {})
  }

  function Of(m: map<Key, seq<Item>>, key: Key): seq<Item> {
    if key in m then m[key] else []
  }

  predicate Enabled(s: Lanes, e: Event) {
    match e
    case Arrive(_, _) => !s.closing
    case Get(t) => t in s.live && s.live[t].current.None? && Queue(s, s.live[t].queue) != []
    case Retain(t) => t in s.live && s.live[t].current.Some?
    case Settle(t) => t in s.live && s.live[t].current.Some?
    case Kill(t) => t in s.live
    case Close => true
    case Clear => s.closing && s.live == map[]
  }

  function Queue(s: Lanes, q: Qid): seq<Item> {
    if q in s.contents then s.contents[q] else []
  }

  function Step(s: Lanes, e: Event): Lanes
    requires Enabled(s, e)
  {
    match e
    case Arrive(key, item) =>
      var q := if key in s.queues then s.queues[key] else s.made;
      var running := key in s.tasks && s.tasks[key] in s.live;
      s.(queues := s.queues[key := q], contents := s.contents[q := Queue(s, q) + [item]],
         tasks := if running then s.tasks else s.tasks[key := s.made],
         live := if running then s.live else s.live[s.made := LaneTask(key, q, None)],
         made := s.made + 1, arrived := s.arrived[key := Of(s.arrived, key) + [item]],
         stranded := s.stranded - {key})
    case Get(t) =>
      var r := s.live[t];
      var items := Queue(s, r.queue);
      s.(contents := s.contents[r.queue := items[1..]], live := s.live[t := r.(current := Some(items[0]))],
         started := s.started[r.key := Of(s.started, r.key) + [items[0]]])
    case Retain(_) => s
    case Settle(t) =>
      var r := s.live[t];
      if Queue(s, r.queue) != [] then s.(live := s.live[t := r.(current := None)])
      else if r.key in s.tasks && s.tasks[r.key] == t
      then s.(live := s.live - {t}, tasks := s.tasks - {r.key}, queues := s.queues - {r.key})
      else s.(live := s.live - {t})
    case Kill(t) => s.(live := s.live - {t}, stranded := s.stranded + {s.live[t].key})
    case Close => s.(closing := true)
    case Clear =>
      s.(queues := map[], tasks := map[], closing := false, arrived := map[], started := map[], stranded := {})
  }

  // ---------------------------------------------------------------- the worker

  class PassiveLanes {
    var queues: map<Key, Qid>
    var contents: map<Qid, seq<Item>>
    var tasks: map<Key, Tid>
    var live: map<Tid, LaneTask>
    var made: nat
    var closing: bool
    ghost var arrived: map<Key, seq<Item>>
    ghost var started: map<Key, seq<Item>>
    ghost var stranded: set<Key>

    ghost function State(): Lanes
      reads this
    {
      Lanes(queues, contents, tasks, live, made, closing, arrived, started, stranded)
    }

    constructor ()
      ensures State() == Empty()
    {
      queues, contents, tasks, live, made, closing := map[], map[], map[], map[], 0, false;
      arrived, started, stranded := map[], map[], {};
    }

    method Enqueue(key: Key, item: Item)
      requires !closing
      modifies this
      ensures State() == Step(old(State()), Arrive(key, item))
    {
      var q := Put(key, item);
      EnsureTask(key, q);
      made := made + 1;
    }

    /** The session's queue, made if it has none, gets the message. */
    method Put(key: Key, item: Item) returns (q: Qid)
      modifies `queues, `contents, `arrived, `stranded
      ensures q == if key in old(queues) then old(queues)[key] else made
      ensures queues == old(queues)[key := q]
      ensures contents == old(contents)[q := Queue(old(State()), q) + [item]]
      ensures arrived == old(arrived)[key := Of(old(arrived), key) + [item]] && stranded == old(stranded) - {key}
    {
      q := if key in queues then queues[key] else made;
      queues := queues[key := q];
      contents := contents[q := (if q in contents then contents[q] else []) + [item]];
      arrived, stranded := arrived[key := Of(arrived, key) + [item]], stranded - {key};
    }

    method EnsureTask(key: Key, q: Qid)
      modifies `tasks, `live
      ensures var running := key in old(tasks) && old(tasks)[key] in old(live);
              && tasks == (if running then old(tasks) else old(tasks)[key := made])
              && live == if running then old(live) else old(live)[made := LaneTask(key, q, None)]
    {
      if key !in tasks || tasks[key] !in live {
        tasks := tasks[key := made];
        live := live[made := LaneTask(key, q, None)];
      }
    }

    /** The head of _run_lane's loop. */
    method TakeNext(t: Tid)
      requires Enabled(State(), Get(t))
      modifies this
      ensures State() == Step(old(State()), Get(t))
    {
      var r := live[t];
      var item := contents[r.queue][0];
      contents := contents[r.queue := contents[r.queue][1..]];
      live := live[t := r.(current := Some(item))];
      started := started[r.key := Of(started, r.key) + [item]];
    }

    /** The tail of _run_lane's loop: go on, or leave both dictionaries and return. */
    method FinishCurrent(t: Tid)
      requires Enabled(State(), Settle(t))
      modifies this
      ensures State() == Step(old(State()), Settle(t))
    {
      var r := live[t];
      if r.queue in contents && contents[r.queue] != [] {
        live := live[t := r.(current := None)];
        return;
      }
      if r.key in tasks && tasks[r.key] == t {
        tasks := tasks - {r.key};
        queues := queues - {r.key};
      }
      live := live - {t};
    }

    /** The `finally` of run: cancel every lane task, wait until all are done, empty both dictionaries. */
    method Shutdown()
      modifies this
      ensures State() == Step(old(State()).(live := map[], closing := true), Clear)
    {
      closing := true;
      var left := live.Keys;
      while left != {}
        invariant closing && live.Keys == left && contents == old(contents) && made == old(made)
        decreases |left|
      {
        var t :| t in left;
        left := left - {t};
        CancelTask(t);
      }
      assert live == map[];
      ClearAll();
    }

    method CancelTask(t: Tid)
      requires Enabled(State(), Kill(t))
      modifies `live, `stranded
      ensures State() == Step(old(State()), Kill(t))
    {
      stranded := stranded + {live[t].key};
      live := live - {t};
    }

    method ClearAll()
      requires Enabled(State(), Clear)
      modifies `queues, `tasks, `closing, `arrived, `started, `stranded
      ensures State() == Step(old(State()), Clear)
    {
      tasks, queues, closing := map[], map[], false;
      arrived, started, stranded := map[], map[], {};
    }
  }

  // ---------------------------------------------------------------- every run

  /** A registered session has a queue object of its own; it lacks a live task exactly when stranded;
      what arrived is what was started followed by what is queued. */
  ghost predicate SessionOk(s: Lanes, k: Key) {
    && (k in s.queues <==> k in s.tasks)
    && (k in s.queues ==>
          && s.queues[k] < s.made && s.queues[k] in s.contents && s.tasks[k] < s.made
          && (s.tasks[k] in s.live ==> s.live[s.tasks[k]].key == k))
    && (k in s.stranded <==> k in s.tasks && s.tasks[k] !in s.live)
    && Of(s.arrived, k) == Of(s.started, k) + Waiting(s, k)
  }

  function Waiting(s: Lanes, k: Key): seq<Item> {
    if k in s.queues then Queue(s, s.queues[k]) else []
  }

  /** A live task is the registered one of its session, on the registered queue object, and never
      waits on an empty queue. */
  ghost predicate TaskOk(s: Lanes, t: Tid)
    requires t in s.live
  {
    var r := s.live[t];
    && t < s.made && r.key in s.tasks && s.tasks[r.key] == t
    && r.key in s.queues && s.queues[r.key] == r.queue
    && (r.current.None? ==> Queue(s, r.queue) != [])
  }

  ghost predicate Inv(s: Lanes) {
    && (forall k :: SessionOk(s, k))
    && (forall t :: t in s.live ==> TaskOk(s, t))
    && (forall q :: q in s.contents ==> q < s.made)
    && (forall j, k :: j in s.queues && k in s.queues && s.queues[j] == s.queues[k] ==> j == k)
  }

  /** Appending to one queue and taking from another leave the other sessions' queues alone. */
  lemma OtherSession(s: Lanes, d: Lanes, key: Key, k: Key)
    requires SessionOk(s, k) && k != key
    requires k in s.queues <==> k in d.queues
    requires k in s.queues ==> d.queues[k] == s.queues[k] && Queue(d, s.queues[k]) == Queue(s, s.queues[k])
    requires k in s.queues ==> s.queues[k] in d.contents
    requires k in s.tasks <==> k in d.tasks
    requires k in s.tasks ==> d.tasks[k] == s.tasks[k] && (s.tasks[k] in d.live <==> s.tasks[k] in s.live)
    requires k in s.tasks && s.tasks[k] in s.live ==> d.live[s.tasks[k]].key == s.live[s.tasks[k]].key
    requires k in d.stranded <==> k in s.stranded
    requires Of(d.arrived, k) == Of(s.arrived, k) && Of(d.started, k) == Of(s.started, k)
    requires d.made >= s.made
    ensures SessionOk(d, k)
  {
  }

  lemma ArriveHere(s: Lanes, key: Key, item: Item)
    requires Inv(s) && Enabled(s, Arrive(key, item))
    ensures SessionOk(Step(s, Arrive(key, item)), key)
  {
    assert SessionOk(s, key);
    assert Of(Step(s, Arrive(key, item)).arrived, key) == Of(s.started, key) + (Waiting(s, key) + [item]);
  }

  lemma ArriveTasks(s: Lanes, key: Key, item: Item, t: Tid)
    requires Inv(s) && Enabled(s, Arrive(key, item)) && t in Step(s, Arrive(key, item)).live
    ensures TaskOk(Step(s, Arrive(key, item)), t)
  {
    assert SessionOk(s, key);
    if t in s.live {
      assert TaskOk(s, t) && SessionOk(s, s.live[t].key);
    }
  }

  lemma ArriveKeeps(s: Lanes, key: Key, item: Item)
    requires Inv(s) && Enabled(s, Arrive(key, item))
    ensures Inv(Step(s, Arrive(key, item)))
  {
    var d := Step(s, Arrive(key, item));
    assert s.made !in s.contents;
    ArriveHere(s, key, item);
    forall k | k != key ensures SessionOk(d, k) {
      assert SessionOk(s, k) && SessionOk(s, key);
      OtherSession(s, d, key, k);
    }
    forall t | t in d.live ensures TaskOk(d, t) {
      ArriveTasks(s, key, item, t);
    }
    forall j, k | j in d.queues && k in d.queues && d.queues[j] == d.queues[k] ensures j == k {
      assert SessionOk(s, j) && SessionOk(s, k);
    }
  }

  lemma GetKeeps(s: Lanes, t: Tid)
    requires Inv(s) && Enabled(s, Get(t))
    ensures Inv(Step(s, Get(t)))
  {
    var d, r := Step(s, Get(t)), s.live[t];
    var items := Queue(s, r.queue);
    assert TaskOk(s, t);
    assert items == [items[0]] + items[1..];
    forall k ensures SessionOk(d, k) {
      assert SessionOk(s, k) && SessionOk(s, r.key);
      if k == r.key {
        assert Of(d.started, k) + items[1..] == Of(s.started, k) + items;
      } else {
        OtherSession(s, d, r.key, k);
      }
    }
    forall u | u in d.live ensures TaskOk(d, u) {
      assert TaskOk(s, u) && SessionOk(s, s.live[u].key);
    }
  }

  lemma SettleKeeps(s: Lanes, t: Tid)
    requires Inv(s) && Enabled(s, Settle(t))
    ensures Inv(Step(s, Settle(t)))
  {
    var d, r := Step(s, Settle(t)), s.live[t];
    assert TaskOk(s, t);
    forall k ensures SessionOk(d, k) {
      assert SessionOk(s, k) && SessionOk(s, r.key);
      if k != r.key {
        OtherSession(s, d, r.key, k);
      }
    }
    forall u | u in d.live ensures TaskOk(d, u) {
      assert TaskOk(s, u);
    }
  }

  lemma KillKeeps(s: Lanes, t: Tid)
    requires Inv(s) && Enabled(s, Kill(t))
    ensures Inv(Step(s, Kill(t)))
  {
    var d, r := Step(s, Kill(t)), s.live[t];
    assert TaskOk(s, t);
    forall k ensures SessionOk(d, k) {
      assert SessionOk(s, k) && SessionOk(s, r.key);
      if k != r.key {
        OtherSession(s, d, r.key, k);
      }
    }
    forall u | u in d.live ensures TaskOk(d, u) {
      assert TaskOk(s, u);
    }
  }

  lemma StepKeepsInv(s: Lanes, e: Event)
    requires Inv(s) && Enabled(s, e)
    ensures Inv(Step(s, e))
  {
    match e
    case Arrive(key, item) => ArriveKeeps(s, key, item);
    case Get(t) => GetKeeps(s, t);
    case Retain(_) =>
    case Settle(t) => SettleKeeps(s, t);
    case Kill(t) => KillKeeps(s, t);
    case Close => CloseKeeps(s);
    case Clear =>
  }

  lemma CloseKeeps(s: Lanes)
    requires Inv(s)
    ensures Inv(Step(s, Close))
  {
    forall k ensures SessionOk(Step(s, Close), k) {
      assert SessionOk(s, k);
    }
    forall t | t in s.live ensures TaskOk(Step(s, Close), t) {
      assert TaskOk(s, t);
    }
  }

  predicate Legal(s: Lanes, es: seq<Event>)
    decreases |es|
  {
    es == [] || (Enabled(s, es[0]) && Legal(Step(s, es[0]), es[1..]))
  }

  function Run(s: Lanes, es: seq<Event>): Lanes
    requires Legal(s, es)
    decreases |es|
  {
    if es == [] then s else Run(Step(s, es[0]), es[1..])
  }

  lemma {:induction false} RunKeepsInv(s: Lanes, es: seq<Event>)
    requires Inv(s) && Legal(s, es)
    ensures Inv(Run(s, es))
    decreases |es|
  {
    if es != [] {
      StepKeepsInv(s, es[0]);
      RunKeepsInv(Step(s, es[0]), es[1..]);
    }
  }

  /** After any run: the messages of a session are started in arrival order, none lost or doubled; a
      session has at most one live task; and a registered queue lacks a live task exactly when that
      task was killed and nothing has arrived since. */
  lemma LanePromises(es: seq<Event>, k: Key)
    requires Legal(Empty(), es)
    ensures var s := Run(Empty(), es);
            && Of(s.started, k) <= Of(s.arrived, k)
            && Of(s.arrived, k) == Of(s.started, k) + Waiting(s, k)
            && (forall t, u :: t in s.live && u in s.live && s.live[t].key == s.live[u].key ==> t == u)
            && (k in s.queues && k !in s.stranded <==> exists t :: t in s.live && s.live[t].key == k)
  {
    RunKeepsInv(Empty(), es);
    var s := Run(Empty(), es);
    assert SessionOk(s, k);
    forall t, u | t in s.live && u in s.live && s.live[t].key == s.live[u].key ensures t == u {
      assert TaskOk(s, t) && TaskOk(s, u);
    }
    if t :| t in s.live && s.live[t].key == k {
      assert TaskOk(s, t);
    }
    if k in s.queues && k !in s.stranded {
      assert s.tasks[k] in s.live && s.live[s.tasks[k]].key == k;
    }
  }

  /** Lane tasks are cancelled only by the worker's shutdown. */
  predicate Orderly(s: Lanes, es: seq<Event>)
    requires Legal(s, es)
    decreases |es|
  {
    es == [] || ((es[0].Kill? ==> s.closing) && Orderly(Step(s, es[0]), es[1..]))
  }

  lemma {:induction false} NobodyStranded(s: Lanes, es: seq<Event>)
    requires (s.stranded == {} || s.closing) && Legal(s, es) && Orderly(s, es)
    ensures Run(s, es).stranded == {} || Run(s, es).closing
    decreases |es|
  {
    if es != [] {
      NobodyStranded(Step(s, es[0]), es[1..]);
    }
  }

  /** No lost wakeup: as long as the worker is not shutting down, also after earlier shutdowns, every
      registered queue has its live task, and that task either has a message in hand or finds one in the
      queue. */
  lemma NoLostWakeup(es: seq<Event>, k: Key) returns (t: Tid)
    requires Legal(Empty(), es) && Orderly(Empty(), es)
    requires !Run(Empty(), es).closing && k in Run(Empty(), es).queues
    ensures var s := Run(Empty(), es);
            && t in s.live && s.live[t].key == k && s.live[t].queue == s.queues[k]
            && (Enabled(s, Get(t)) || Enabled(s, Settle(t)))
  {
    NobodyStranded(Empty(), es);
    RunKeepsInv(Empty(), es);
    assert SessionOk(Run(Empty(), es), k);
    t := Run(Empty(), es).tasks[k];
    assert TaskOk(Run(Empty(), es), t);
  }

  lemma RetainedStep(s: Lanes, t: Tid, e: Event)
    requires Inv(s) && t in s.live && s.live[t].current.Some? && Enabled(s, e)
    requires e != Settle(t) && e != Kill(t)
    ensures var k, d := s.live[t].key, Step(s, e);
            && t in d.live && d.live[t] == s.live[t]
            && Of(d.started, k) == Of(s.started, k)
            && k in s.queues && k in d.queues && d.queues[k] == s.queues[k]
            && Queue(s, s.queues[k]) <= Queue(d, s.queues[k])
  {
    assert TaskOk(s, t);
    assert SessionOk(s, s.live[t].key);
    if e.Get? || e.Settle? || e.Kill? {
      assert TaskOk(s, e.t);
      assert SessionOk(s, s.live[e.t].key);
    }
    if e.Arrive? && e.key != s.live[t].key {
      assert SessionOk(s, e.key);
    }
  }

  /** While a task holds on to a retained message, nothing else of its session is started, and what
      arrives meanwhile stays queued behind it in order. */
  lemma {:induction false} RetainedBlocks(s: Lanes, t: Tid, es: seq<Event>)
    requires Inv(s) && t in s.live && s.live[t].current.Some? && Legal(s, es)
    requires Settle(t) !in es && Kill(t) !in es
    ensures var k, d := s.live[t].key, Run(s, es);
            && t in d.live && d.live[t] == s.live[t]
            && Of(d.started, k) == Of(s.started, k)
            && k in s.queues && Queue(s, s.queues[k]) <= Queue(d, s.queues[k])
    decreases |es|
  {
    assert TaskOk(s, t);
    if es != [] {
      StepKeepsInv(s, es[0]);
      RetainedStep(s, t, es[0]);
      RetainedBlocks(Step(s, es[0]), t, es[1..]);
    }
  }

  /** Only the shutdown leaves a registered queue without its task, between cancelling the tasks and
      emptying the dictionaries: a run in which a message is queued that nobody is coming for, and which is
      dropped with its queue. */
  lemma KillStrands(k: Key, first: Item, second: Item)
    ensures var es := [Arrive(k, first), Arrive(k, second), Get(0), Close, Kill(0)];
            && Legal(Empty(), es) && Orderly(Empty(), es)
            && var s := Run(Empty(), es);
               && k in s.queues && Queue(s, s.queues[k]) == [second] && s.live == map[]
               && Enabled(s, Clear) && Step(s, Clear).queues == map[]
  {
    var s0 := Empty();
    var s1 := Step(s0, Arrive(k, first));
    var s2 := Step(s1, Arrive(k, second));
    var s3 := Step(s2, Get(0));
    var s4 := Step(s3, Close);
    var s5 := Step(s4, Kill(0));
    var es := [Arrive(k, first), Arrive(k, second), Get(0), Close, Kill(0)];
    assert es[1..] == [Arrive(k, second), Get(0), Close, Kill(0)];
    assert es[1..][1..] == [Get(0), Close, Kill(0)] && es[1..][1..][1..] == [Close, Kill(0)];
    assert [Close, Kill(0)][1..] == [Kill(0)];
    LastStep(s4, Kill(0));
    assert Legal(s3, [Close, Kill(0)]) && Run(s3, [Close, Kill(0)]) == s5;
    assert Legal(s2, [Get(0), Close, Kill(0)]) && Run(s2, [Get(0), Close, Kill(0)]) == s5;
    assert Legal(s1, es[1..]) && Run(s1, es[1..]) == s5;
  }

  lemma LastStep(s: Lanes, e: Event)
    requires Enabled(s, e) && (e.Kill? ==> s.closing)
    ensures Legal(s, [e]) && Run(s, [e]) == Step(s, e) && Orderly(s, [e])
  {
    var d := Step(s, e);
    assert [e][1..] == [];
    assert Legal(d, []) && Run(d, []) == d && Orderly(d, []);
  }

  // ---------------------------------------------------------------- what the single steps achieve

  /** A task takes the message at the head of its queue, and has it in hand. */
  lemma TakesHead(s: Lanes, t: Tid)
    requires Enabled(s, Get(t))
    ensures var q, d := s.live[t].queue, Step(s, Get(t));
            && d.live[t].current == Some(Queue(s, q)[0]) && Queue(s, q) == [Queue(s, q)[0]] + Queue(d, q)
            && Enabled(d, Settle(t)) && Enabled(d, Retain(t))
            && d.queues == s.queues && d.tasks == s.tasks && d.live.Keys == s.live.Keys
  {
  }

  /** When a message is over, the task goes on with the next one if its queue has any, free to take it; if not
      it ends, and its session leaves both dictionaries. */
  lemma GoesOnOrLeaves(s: Lanes, t: Tid)
    requires Inv(s) && Enabled(s, Settle(t))
    ensures var r, d := s.live[t], Step(s, Settle(t));
            && d.contents == s.contents
            && (if Queue(s, r.queue) != []
                then && t in d.live && d.live[t].current == None && Enabled(d, Get(t))
                     && d.queues == s.queues && d.tasks == s.tasks
                else && d.live == s.live - {t} && d.queues == s.queues - {r.key} && d.tasks == s.tasks - {r.key}
                     && r.key in s.queues && r.key in s.tasks)
  {
    assert TaskOk(s, t) && SessionOk(s, s.live[t].key);
  }

  /** After a shutdown the worker can start again from nothing. */
  lemma StartsAgain(s: Lanes, key: Key, item: Item)
    requires Enabled(s, Clear)
    ensures var d := Step(s, Clear);
            d.queues == map[] && d.tasks == map[] && d.live == map[] && Enabled(d, Arrive(key, item))
  {
  }
}
