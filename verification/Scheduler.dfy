/** The scheduler service of agent/scheduler.py: the saved file, the persisted map, the runtime map and
    the runs in flight, under any interleaving of ticks, additions, cancellations, finished runs and
    failed saves. */
module Scheduler {
  import opened Recurrence
  import opened Wrappers

  type Id = nat

  type Positive = x: int | x > 0 witness 1

  const MAX_ACTIVE := 10

  datatype Trigger = Once | Interval(us: Positive) | Cron(expr: nat)

  datatype Tier = Instant | Soft

  datatype Spec = Spec(trigger: Trigger, tier: Tier, fireAt: int, enabled: bool, name: Option<string>,
                       runCount: nat)

  /** A job object: `ref` stands for the object's identity. */
  datatype Job = Job(id: Id, ref: nat, spec: Spec)

  /** `cron` is the cron library. History, since each id was last added, also across reloads: the nominal
      boundaries at which its runs were started, and those whose run ended without a saved successor. */
  datatype Svc = Svc(cron: (nat, int) -> int,
                     jobs: map<Id, Job>, persisted: Option<map<Id, Job>>, file: map<Id, Spec>,
                     inFlight: set<Id>, runs: seq<Job>, stopping: bool, made: nat,
                     boundaries: map<Id, seq<int>>, slipped: set<(Id, int)>)

  datatype Event =
    | Load(now: int, saveOk: bool)
    | Add(id: Id, spec: Spec, saveOk: bool)
    | Cancel(id: Id, saveOk: bool)
    | CancelName(name: string, saveOk: bool)
    | Fire(id: Id, now: int, lead: int)     // one round of the tick loop
    | Finish(i: nat, succeeded: bool, cancelled: bool, now: int, saveOk: bool)
    | Stop

  // ---------------------------------------------------------------- the maps

  function EnabledOf(jobs: map<Id, Job>): map<Id, Job> {
    map id | id in jobs && jobs[id].spec.enabled :: jobs[id]
  }

  function Specs(jobs: map<Id, Job>): map<Id, Spec> {
    map id | id in jobs :: jobs[id].spec
  }

  function ActiveIds(jobs: map<Id, Job>): set<Id> {
    set id | id in jobs && jobs[id].spec.enabled
  }

  function Known(s: Svc): map<Id, Job> {
    if s.persisted.Some? then s.persisted.value else s.jobs
  }

  /** _commit_jobs: save first, then publish both maps; a failed save changes nothing. */
  function Commit(s: Svc, jobs: map<Id, Job>, saveOk: bool): Svc {
    if !saveOk then s
    else s.(file := Specs(jobs), persisted := Some(jobs), jobs := EnabledOf(jobs))
  }

  function NextFire(cron: (nat, int) -> int, spec: Spec, after: int): int
    requires !spec.trigger.Once?
  {
    match spec.trigger
    case Interval(us) => Advance(spec.fireAt, us, after)
    case Cron(expr) => cron(expr, after)
  }

  /** What load_and_recover makes of one stored job. */
  function Recovered(cron: (nat, int) -> int, spec: Spec, now: int): Spec {
    if !spec.enabled || spec.fireAt > now then spec
    else if !spec.trigger.Once? then spec.(fireAt := NextFire(cron, spec, now))
    else if now - spec.fireAt <= GRACE then spec
    else spec.(enabled := false)
  }

  function LoadedJobs(s: Svc, now: int): map<Id, Job> {
    map id | id in s.file :: Job(id, s.made, Recovered(s.cron, s.file[id], now))
  }

  function ActualTrigger(spec: Spec, lead: int): int {
    if spec.tier.Instant? then spec.fireAt else spec.fireAt - lead
  }

  predicate IsCurrent(s: Svc, job: Job) {
    job.id in s.jobs && s.jobs[job.id].ref == job.ref
  }

  /** The replacement a finished run commits, if any. */
  function Successor(s: Svc, job: Job, succeeded: bool, cancelled: bool, now: int): Option<Job> {
    var count := job.spec.runCount + if succeeded then 1 else 0;
    if cancelled || !IsCurrent(s, job) then None
    else if job.spec.trigger.Once? then Some(Job(job.id, s.made, job.spec.(enabled := false, runCount := count)))
    else if s.stopping then None
    else
      var next := NextFire(s.cron, job.spec, RescheduleAfter(now, job.spec.fireAt));
      Some(Job(job.id, s.made, job.spec.(fireAt := next, runCount := count)))
  }

  function Named(jobs: map<Id, Job>, name: string): set<Id> {
    set id | id in jobs && jobs[id].spec.name == Some(name)
  }

  function Others(slipped: set<(Id, int)>, id: Id): set<(Id, int)> {
    set p | p in slipped && p.0 != id
  }

  function Started(s: Svc, id: Id): seq<int> {
    if id in s.boundaries then s.boundaries[id] else []
  }

  predicate Possible(s: Svc, e: Event) {
    match e
    case Load(_, _) => s.runs == []
    case Fire(id, _, _) => id in s.jobs
    case Finish(i, _, _, _, _) => i < |s.runs|
    case _ => true
  }

  predicate Due(s: Svc, id: Id, now: int, lead: int)
    requires id in s.jobs
  {
    s.jobs[id].spec.enabled && id !in s.inFlight && ActualTrigger(s.jobs[id].spec, lead) <= now
  }

  function Step(s: Svc, e: Event): Svc
    requires Possible(s, e)
  {
    match e
    case Load(now, saveOk) =>
      var loaded := LoadedJobs(s, now);
      if Specs(loaded) != s.file && !saveOk then s
      else
        s.(file := Specs(loaded), persisted := Some(loaded), jobs := EnabledOf(loaded), stopping := false,
           made := s.made + 1)
    case Add(id, spec, saveOk) =>
      var candidate := Known(s)[id := Job(id, s.made, spec)];
      if |ActiveIds(candidate)| > MAX_ACTIVE || !saveOk then s
      else
        Commit(s, candidate, true).(made := s.made + 1, boundaries := s.boundaries - {id},
                                    slipped := Others(s.slipped, id))
    case Cancel(id, saveOk) => if id !in Known(s) then s else Commit(s, Known(s) - {id}, saveOk)
    case CancelName(name, saveOk) =>
      var found := Named(Known(s), name);
      if found == {} then s else Commit(s, Known(s) - found, saveOk)
    case Fire(id, now, lead) =>
      if !Due(s, id, now, lead) then s
      else
        s.(inFlight := s.inFlight + {id}, runs := s.runs + [s.jobs[id]],
           boundaries := s.boundaries[id := Started(s, id) + [s.jobs[id].spec.fireAt]])
    case Finish(i, succeeded, cancelled, now, saveOk) =>
      var job := s.runs[i];
      var next := Successor(s, job, succeeded, cancelled, now);
      var candidate := if next.Some? then Known(s)[job.id := next.value] else Known(s);
      Commit(s, candidate, saveOk)
      .(inFlight := s.inFlight - {job.id}, runs := s.runs[..i] + s.runs[i + 1..], made := s.made + 1,
        slipped := if IsCurrent(s, job) && (next.None? || !saveOk) then s.slipped + {(job.id, job.spec.fireAt)}
                   else s.slipped)
    case Stop => s.(stopping := true)
  }

  function Init(cron: (nat, int) -> int, file: map<Id, Spec>): Svc {
    Svc(cron, map[], None, file, {}, [], false, 0, map[], {})
  }

  predicate Legal(s: Svc, es: seq<Event>)
    decreases |es|
  {
    es == [] || (Possible(s, es[0]) && Legal(Step(s, es[0]), es[1..]))
  }

  function Run(s: Svc, es: seq<Event>): Svc
    requires Legal(s, es)
    decreases |es|
  {
    if es == [] then s else Run(Step(s, es[0]), es[1..])
  }

  // ---------------------------------------------------------------- the invariant

  /** From the first load (or commit) on, the runtime map is the enabled part of the persisted map and
      the persisted map is what the file says. */
  ghost predicate Synced(s: Svc) {
    match s.persisted
    case None => s.jobs == map[]
    case Some(p) =>
      && s.jobs == EnabledOf(p) && s.file == Specs(p)
      && forall id :: id in p ==> p[id].id == id && p[id].ref < s.made
  }

  /** Ids in flight are those of the live runs, and no id has two. */
  ghost predicate RunsOnce(s: Svc) {
    && (forall i, j :: 0 <= i < j < |s.runs| ==> s.runs[i].id != s.runs[j].id)
    && (forall id :: id in s.inFlight <==> exists i :: 0 <= i < |s.runs| && s.runs[i].id == id)
    && (forall i :: 0 <= i < |s.runs| ==>
          s.runs[i].ref < s.made && (IsCurrent(s, s.runs[i]) ==> s.jobs[s.runs[i].id] == s.runs[i]))
  }

  /** Boundaries rise, except where one whose run ended without a successor is executed again. */
  ghost predicate Climbing(ts: seq<int>, slipped: set<(Id, int)>, id: Id) {
    forall i, j :: 0 <= i < j < |ts| ==> ts[i] < ts[j] || (ts[i] == ts[j] && (id, ts[i]) in slipped)
  }

  /** The executed boundaries of an id climb, lie on its job's grid, and stay below the next one, which
      they reach only while that very job is running or after its run has slipped. */
  ghost predicate Ahead(s: Svc, id: Id) {
    id in s.jobs ==>
      var fire := s.jobs[id].spec.fireAt;
      && Climbing(Started(s, id), s.slipped, id)
      && (forall b :: b in Started(s, id) ==>
            || b < fire
            || (b == fire && (s.jobs[id] in s.runs || (id, b) in s.slipped)))
      && (s.jobs[id].spec.trigger.Interval? ==>
            forall b :: b in Started(s, id) ==> OnGrid(b, s.jobs[id].spec.trigger.us, fire))
  }

  /** Before the first load or addition nothing has run. */
  predicate Unstarted(s: Svc) {
    s.persisted.None? ==> s.boundaries == map[]
  }

  ghost predicate CronLater(s: Svc) {
    forall expr, after :: s.cron(expr, after) > after
  }

  ghost predicate Inv(s: Svc) {
    && CronLater(s) && Synced(s) && RunsOnce(s) && Unstarted(s)
    && (forall id :: Ahead(s, id))
  }

  // ---------------------------------------------------------------- one step

  ghost predicate WellKeyed(jobs: map<Id, Job>, made: nat) {
    forall id :: id in jobs ==> jobs[id].id == id && jobs[id].ref < made
  }

  lemma KnownKeyed(s: Svc)
    requires Synced(s)
    ensures WellKeyed(Known(s), s.made)
  {
  }

  /** Publishing a well-keyed candidate, or failing to, keeps the three maps in step. */
  lemma CommitSyncs(s: Svc, jobs: map<Id, Job>, saveOk: bool, made: nat)
    requires Synced(s) && WellKeyed(jobs, made) && s.made <= made
    ensures Synced(Commit(s, jobs, saveOk).(made := made))
  {
  }

  /** Synced mentions only the maps and the counter. */
  lemma SameMaps(s: Svc, d: Svc)
    requires Synced(s) && d.persisted == s.persisted && d.jobs == s.jobs && d.file == s.file && d.made == s.made
    ensures Synced(d)
  {
  }

  /** A step that publishes `jobs`, or fails to, and then changes other things only. */
  lemma PublishSyncs(s: Svc, d: Svc, jobs: map<Id, Job>, saveOk: bool)
    requires Synced(s) && WellKeyed(jobs, d.made) && s.made <= d.made
    requires var c := Commit(s, jobs, saveOk);
             d.persisted == c.persisted && d.jobs == c.jobs && d.file == c.file
    ensures Synced(d)
  {
    CommitSyncs(s, jobs, saveOk, d.made);
    SameMaps(Commit(s, jobs, saveOk).(made := d.made), d);
  }

  lemma StepKeepsSync(s: Svc, e: Event)
    requires Synced(s) && Possible(s, e)
    ensures Synced(Step(s, e))
  {
    KnownKeyed(s);
    var d := Step(s, e);
    if d != s {
      match e
      case Load(now, saveOk) => PublishSyncs(s, d, LoadedJobs(s, now), true);
      case Add(id, spec, saveOk) => PublishSyncs(s, d, Known(s)[id := Job(id, s.made, spec)], true);
      case Cancel(id, saveOk) => PublishSyncs(s, d, Known(s) - {id}, saveOk);
      case CancelName(name, saveOk) => PublishSyncs(s, d, Known(s) - Named(Known(s), name), saveOk);
      case Finish(_, _, _, _, _) => FinishKeepsSync(s, e);
      case _ => SameMaps(s, d);
    }
  }

  lemma FinishKeepsSync(s: Svc, e: Event)
    requires Synced(s) && Possible(s, e) && e.Finish?
    ensures Synced(Step(s, e))
  {
    KnownKeyed(s);
    var job := s.runs[e.i];
    var next := Successor(s, job, e.succeeded, e.cancelled, e.now);
    var candidate := if next.Some? then Known(s)[job.id := next.value] else Known(s);
    PublishSyncs(s, Step(s, e), candidate, e.saveOk);
  }

  /** Only Fire starts a run, and only Finish ends one; nothing gives a running object another value. */
  lemma StepKeepsRuns(s: Svc, e: Event)
    requires Inv(s) && Possible(s, e)
    ensures RunsOnce(Step(s, e))
  {
    match e
    case Fire(id, now, lead) => FireKeepsRuns(s, id, now, lead);
    case Finish(i, succeeded, cancelled, now, saveOk) => FinishKeepsRuns(s, i, succeeded, cancelled, now, saveOk);
    case _ => SameRuns(s, Step(s, e));
  }

  lemma SameRuns(s: Svc, d: Svc)
    requires RunsOnce(s) && d.runs == s.runs && d.inFlight == s.inFlight && d.made >= s.made
    requires forall id :: id in d.jobs ==>
                            (id in s.jobs && d.jobs[id] == s.jobs[id]) || d.jobs[id].ref >= s.made
    ensures RunsOnce(d)
  {
    forall i | 0 <= i < |d.runs| ensures IsCurrent(d, d.runs[i]) ==> d.jobs[d.runs[i].id] == d.runs[i] {
      assert IsCurrent(d, d.runs[i]) ==> IsCurrent(s, s.runs[i]);
    }
  }

  lemma FireKeepsRuns(s: Svc, id: Id, now: int, lead: int)
    requires Inv(s) && Possible(s, Fire(id, now, lead))
    ensures RunsOnce(Step(s, Fire(id, now, lead)))
  {
    var d := Step(s, Fire(id, now, lead));
    if Due(s, id, now, lead) {
      var n := |s.runs|;
      assert d.runs[n] == s.jobs[id];
      forall k ensures k in d.inFlight <==> exists i :: 0 <= i < |d.runs| && d.runs[i].id == k {
        if k in s.inFlight {
          var i :| 0 <= i < |s.runs| && s.runs[i].id == k;
          assert d.runs[i].id == k;
        } else if k == id {
          assert d.runs[n].id == k;
        }
      }
    }
  }

  lemma FinishKeepsRuns(s: Svc, i: nat, succeeded: bool, cancelled: bool, now: int, saveOk: bool)
    requires Inv(s) && i < |s.runs|
    ensures RunsOnce(Step(s, Finish(i, succeeded, cancelled, now, saveOk)))
  {
    var d := Step(s, Finish(i, succeeded, cancelled, now, saveOk));
    forall j | 0 <= j < |d.runs| ensures d.runs[j] == s.runs[if j < i then j else j + 1] {
    }
    forall k ensures k in d.inFlight <==> exists j :: 0 <= j < |d.runs| && d.runs[j].id == k {
      if k in d.inFlight {
        var j :| 0 <= j < |s.runs| && s.runs[j].id == k;
        assert d.runs[if j < i then j else j - 1].id == k;
      }
    }
    forall j | 0 <= j < |d.runs|
      ensures d.runs[j].ref < d.made && (IsCurrent(d, d.runs[j]) ==> d.jobs[d.runs[j].id] == d.runs[j])
    {
      assert d.runs[j].id != s.runs[i].id;
      assert IsCurrent(d, d.runs[j]) ==> IsCurrent(s, d.runs[j]);
    }
  }

  /** The committed successor of a run is strictly later, on the same grid. */
  lemma SuccessorLater(s: Svc, job: Job, succeeded: bool, now: int)
    requires CronLater(s) && IsCurrent(s, job) && !job.spec.trigger.Once? && !s.stopping
    ensures var next := Successor(s, job, succeeded, false, now);
            && next.Some? && next.value.spec.trigger == job.spec.trigger
            && next.value.spec.fireAt > job.spec.fireAt && next.value.spec.fireAt > now
            && (job.spec.trigger.Interval? ==>
                  FirstAfter(job.spec.fireAt, job.spec.trigger.us, RescheduleAfter(now, job.spec.fireAt),
                             next.value.spec.fireAt))
  {
    if job.spec.trigger.Interval? {
      Rescheduled(job.spec.fireAt, job.spec.trigger.us, now);
    } else {
      assert s.cron(job.spec.trigger.expr, RescheduleAfter(now, job.spec.fireAt)) >
             RescheduleAfter(now, job.spec.fireAt);
    }
  }

  lemma FinishKeepsAhead(s: Svc, i: nat, succeeded: bool, cancelled: bool, now: int, saveOk: bool, id: Id)
    requires Inv(s) && i < |s.runs|
    ensures Ahead(Step(s, Finish(i, succeeded, cancelled, now, saveOk)), id)
  {
    var d := Step(s, Finish(i, succeeded, cancelled, now, saveOk));
    var job := s.runs[i];
    assert Ahead(s, id);
    if id != job.id {
      StillRunning(s, d, i, id);
    } else if IsCurrent(s, job) {
      assert s.jobs[id] == job;
      var next := Successor(s, job, succeeded, cancelled, now);
      if next.Some? && saveOk && id in d.jobs {
        SuccessorLater(s, job, succeeded, now);
        assert d.jobs[id] == next.value;
        if job.spec.trigger.Interval? {
          forall b | b in Started(s, id) ensures OnGrid(b, job.spec.trigger.us, d.jobs[id].spec.fireAt) {
            SameGrid(b, job.spec.fireAt, d.jobs[id].spec.fireAt, job.spec.trigger.us);
          }
        }
      }
    } else if id in s.jobs {
      assert s.jobs[id] != job;
      StillRunning(s, d, i, id);
    }
  }

  /** Ending one run leaves every other running object among the runs, and their jobs alone. */
  lemma StillRunning(s: Svc, d: Svc, i: nat, id: Id)
    requires Ahead(s, id) && i < |s.runs| && d.runs == s.runs[..i] + s.runs[i + 1..]
    requires id in d.jobs <==> id in s.jobs
    requires id in s.jobs ==> d.jobs[id] == s.jobs[id] && s.jobs[id] != s.runs[i]
    requires Started(d, id) == Started(s, id) && s.slipped <= d.slipped
    ensures Ahead(d, id)
  {
    if id in s.jobs && s.jobs[id] in s.runs {
      var k :| 0 <= k < |s.runs| && s.runs[k] == s.jobs[id];
      assert d.runs[if k < i then k else k - 1] == s.jobs[id];
    }
  }

  lemma ClimbsOn(ts: seq<int>, t: int, slipped: set<(Id, int)>, id: Id)
    requires Climbing(ts, slipped, id) && forall b :: b in ts ==> b < t || (b == t && (id, b) in slipped)
    ensures Climbing(ts + [t], slipped, id)
  {
    var more := ts + [t];
    forall i, j | 0 <= i < j < |more|
      ensures more[i] < more[j] || (more[i] == more[j] && (id, more[i]) in slipped)
    {
      if j == |ts| {
        assert ts[i] in ts;
      }
    }
  }

  lemma FireKeepsAhead(s: Svc, key: Id, now: int, lead: int, id: Id)
    requires Inv(s) && Possible(s, Fire(key, now, lead))
    ensures Ahead(Step(s, Fire(key, now, lead)), id)
  {
    var d := Step(s, Fire(key, now, lead));
    assert Ahead(s, id);
    if Due(s, key, now, lead) {
      var job := s.jobs[key];
      assert d.runs[|s.runs|] == job;
      if id == key {
        assert job.id == key && job !in s.runs;
        ClimbsOn(Started(s, id), job.spec.fireAt, s.slipped, id);
        if job.spec.trigger.Interval? {
          assert job.spec.fireAt == Point(job.spec.fireAt, job.spec.trigger.us, 0);
        }
      }
    }
  }

  /** Recovery moves a job to a later boundary of the same grid, or leaves it where it was. */
  lemma RecoveredLater(s: Svc, spec: Spec, now: int)
    requires CronLater(s)
    ensures var r := Recovered(s.cron, spec, now);
            && (r.fireAt == spec.fireAt || r.fireAt > spec.fireAt) && r.trigger == spec.trigger
            && (r.enabled ==> spec.enabled)
            && (spec.trigger.Interval? ==> OnGrid(spec.fireAt, spec.trigger.us, r.fireAt))
  {
    if spec.trigger.Interval? {
      assert spec.fireAt == Point(spec.fireAt, spec.trigger.us, 0);
      if spec.fireAt <= now {
        AdvanceIsFirst(spec.fireAt, spec.trigger.us, now);
      }
    }
  }

  lemma LoadKeepsAhead(s: Svc, now: int, saveOk: bool, id: Id)
    requires Inv(s) && Possible(s, Load(now, saveOk))
    ensures Ahead(Step(s, Load(now, saveOk)), id)
  {
    var d := Step(s, Load(now, saveOk));
    assert Ahead(s, id);
    if d != s && id in d.jobs {
      RecoveredLater(s, s.file[id], now);
      if s.persisted.Some? {
        var was, later := s.jobs[id].spec, d.jobs[id].spec;
        assert s.file[id] == was && later == Recovered(s.cron, was, now);
        if was.trigger.Interval? {
          forall b | b in Started(s, id) ensures OnGrid(b, was.trigger.us, later.fireAt) {
            SameGrid(b, was.fireAt, later.fireAt, was.trigger.us);
          }
        }
      }
    }
  }

  lemma AddKeepsAhead(s: Svc, key: Id, spec: Spec, saveOk: bool, id: Id)
    requires Inv(s)
    ensures Ahead(Step(s, Add(key, spec, saveOk)), id)
  {
    assert Ahead(s, id);
  }

  lemma StepKeepsAhead(s: Svc, e: Event, id: Id)
    requires Inv(s) && Possible(s, e)
    ensures Ahead(Step(s, e), id)
  {
    match e
    case Load(now, saveOk) => LoadKeepsAhead(s, now, saveOk, id);
    case Add(key, spec, saveOk) => AddKeepsAhead(s, key, spec, saveOk, id);
    case Fire(key, now, lead) => FireKeepsAhead(s, key, now, lead, id);
    case Finish(i, succeeded, cancelled, now, saveOk) =>
      FinishKeepsAhead(s, i, succeeded, cancelled, now, saveOk, id);
    case _ => assert Ahead(s, id);
  }

  lemma StepKeepsInv(s: Svc, e: Event)
    requires Inv(s) && Possible(s, e)
    ensures Inv(Step(s, e))
  {
    StepKeepsSync(s, e);
    StepKeepsRuns(s, e);
    forall id ensures Ahead(Step(s, e), id) {
      StepKeepsAhead(s, e, id);
    }
  }

  // ---------------------------------------------------------------- every run

  lemma {:induction false} RunKeepsInv(s: Svc, es: seq<Event>)
    requires Inv(s) && Legal(s, es)
    ensures Inv(Run(s, es))
    decreases |es|
  {
    if es != [] {
      StepKeepsInv(s, es[0]);
      RunKeepsInv(Step(s, es[0]), es[1..]);
    }
  }

  lemma StartsWell(cron: (nat, int) -> int, file: map<Id, Spec>)
    requires forall expr, after :: cron(expr, after) > after
    ensures Inv(Init(cron, file))
  {
  }

  /** From the first successful load on, whatever happens: the runtime map is exactly the enabled part
      of the persisted map, the persisted map is exactly what the file holds, and no id runs twice. */
  lemma MapsAgree(cron: (nat, int) -> int, file: map<Id, Spec>, es: seq<Event>)
    requires forall expr, after :: cron(expr, after) > after
    requires Legal(Init(cron, file), es)
    ensures var s := Run(Init(cron, file), es);
            && (s.persisted.Some? ==> s.jobs == EnabledOf(s.persisted.value) && s.file == Specs(s.persisted.value))
            && (forall i, j :: 0 <= i < j < |s.runs| ==> s.runs[i].id != s.runs[j].id)
  {
    StartsWell(cron, file);
    RunKeepsInv(Init(cron, file), es);
  }

  /** The event ends the run of the id's current job at this boundary without saving a successor: the save
      fails, the run is cancelled, or the service is stopping. */
  predicate Slips(s: Svc, e: Event, id: Id, b: int)
    requires Possible(s, e)
  {
    && e.Finish? && s.runs[e.i].id == id && s.runs[e.i].spec.fireAt == b && IsCurrent(s, s.runs[e.i])
    && (!e.saveOk || e.cancelled || (s.stopping && !s.runs[e.i].spec.trigger.Once?))
  }

  /** It does so at some point of this run. */
  predicate SlipsIn(s: Svc, es: seq<Event>, id: Id, b: int)
    requires Legal(s, es)
    decreases |es|
  {
    es != [] && (Slips(s, es[0], id, b) || SlipsIn(Step(s, es[0]), es[1..], id, b))
  }

  lemma {:induction false} SlippedThen(s: Svc, es: seq<Event>, id: Id, b: int)
    requires Legal(s, es) && (id, b) in Run(s, es).slipped
    ensures (id, b) in s.slipped || SlipsIn(s, es, id, b)
    decreases |es|
  {
    if es != [] {
      SlippedThen(Step(s, es[0]), es[1..], id, b);
    }
  }

  /** Over every run, reloads and failed saves included, the nominal boundaries at which one job is
      executed strictly increase on a single grid, except that one may be executed again after its own
      run ended without a saved successor. Early triggers included. */
  lemma NoBoundaryTwice(cron: (nat, int) -> int, file: map<Id, Spec>, es: seq<Event>, id: Id, i: nat, j: nat)
    requires forall expr, after :: cron(expr, after) > after
    requires Legal(Init(cron, file), es) && id in Run(Init(cron, file), es).jobs
    requires i < j < |Started(Run(Init(cron, file), es), id)|
    ensures var s := Run(Init(cron, file), es);
            var ts, spec := Started(s, id), s.jobs[id].spec;
            && (ts[i] < ts[j] || (ts[i] == ts[j] && SlipsIn(Init(cron, file), es, id, ts[i])))
            && (spec.trigger.Interval? ==> forall b :: b in ts ==> OnGrid(b, spec.trigger.us, spec.fireAt))
  {
    StartsWell(cron, file);
    RunKeepsInv(Init(cron, file), es);
    var s := Run(Init(cron, file), es);
    assert Ahead(s, id);
    var ts := Started(s, id);
    if ts[i] >= ts[j] {
      SlippedThen(Init(cron, file), es, id, ts[i]);
    }
  }

  /** The run slips before the boundary is executed again. */
  lemma RepeatNeedsSlip(cron: (nat, int) -> int, file: map<Id, Spec>, es: seq<Event>, id: Id, now: int, lead: int)
    requires forall expr, after :: cron(expr, after) > after
    requires Legal(Init(cron, file), es) && id in Run(Init(cron, file), es).jobs
    requires var s := Run(Init(cron, file), es);
             Due(s, id, now, lead) && s.jobs[id].spec.fireAt in Started(s, id)
    ensures SlipsIn(Init(cron, file), es, id, Run(Init(cron, file), es).jobs[id].spec.fireAt)
  {
    StartsWell(cron, file);
    RunKeepsInv(Init(cron, file), es);
    var s := Run(Init(cron, file), es);
    assert Ahead(s, id) && s.jobs[id].id == id;
    SlippedThen(Init(cron, file), es, id, s.jobs[id].spec.fireAt);
  }

  /** And whenever it slips, the boundary stays: after a run of the current job ends, the job still waits at
      the same boundary if and only if the run slipped, and it is then due again as soon as it was. */
  lemma StaysIffSlips(s: Svc, e: Event, now: int, lead: int)
    requires Inv(s) && Possible(s, e) && e.Finish? && IsCurrent(s, s.runs[e.i])
    ensures var job, d := s.runs[e.i], Step(s, e);
            && (job.id in d.jobs && d.jobs[job.id].spec.fireAt == job.spec.fireAt
                <==> Slips(s, e, job.id, job.spec.fireAt))
            && (Slips(s, e, job.id, job.spec.fireAt) ==>
                  (Due(d, job.id, now, lead) <==> ActualTrigger(job.spec, lead) <= now))
  {
    var job, d := s.runs[e.i], Step(s, e);
    assert s.jobs[job.id] == job && job.spec.enabled;
    if !Slips(s, e, job.id, job.spec.fireAt) && !job.spec.trigger.Once? {
      SuccessorLater(s, job, e.succeeded, e.now);
    }
  }

  predicate SavesWell(e: Event) {
    e.Finish? ==> e.saveOk && !e.cancelled
  }

  /** A run slips only through a failed save, a cancellation or a shutdown. */
  lemma {:induction false} SettledWhileSaving(s: Svc, es: seq<Event>)
    requires Inv(s) && s.slipped == {} && !s.stopping && Legal(s, es)
    requires forall e :: e in es ==> SavesWell(e) && !e.Stop?
    ensures Run(s, es).slipped == {}
    decreases |es|
  {
    if es != [] {
      assert SavesWell(es[0]) && !es[0].Stop?;
      StepKeepsInv(s, es[0]);
      if es[0].Finish? && IsCurrent(s, s.runs[es[0].i]) && !s.runs[es[0].i].spec.trigger.Once? {
        SuccessorLater(s, s.runs[es[0].i], es[0].succeeded, es[0].now);
      }
      SettledWhileSaving(Step(s, es[0]), es[1..]);
    }
  }

  /** A job removed from the persisted map stays out of it, of the runtime map and of the file, also
      when a run of it that was in flight ends, until the id is added again. */
  lemma {:induction false} NeverResurrected(s: Svc, es: seq<Event>, id: Id)
    requires Inv(s) && s.persisted.Some? && id !in s.persisted.value && Legal(s, es)
    requires forall e :: e in es && e.Add? ==> e.id != id
    ensures var t := Run(s, es);
            t.persisted.Some? && id !in t.persisted.value && id !in t.jobs && id !in t.file
    decreases |es|
  {
    if es != [] {
      StepKeepsInv(s, es[0]);
      assert es[0].Add? ==> es[0].id != id;
      NeverResurrected(Step(s, es[0]), es[1..], id);
    }
  }

  /** A run that ends after its job was cancelled or replaced changes none of the three maps; one that
      ends as the current job changes its own entry only. */
  lemma FinishTouchesOwnJob(s: Svc, i: nat, succeeded: bool, cancelled: bool, now: int, saveOk: bool)
    requires Inv(s) && s.persisted.Some? && i < |s.runs|
    ensures var d, job := Step(s, Finish(i, succeeded, cancelled, now, saveOk)), s.runs[i];
            && d.persisted.Some?
            && (!IsCurrent(s, job) ==>
                  d.persisted == s.persisted && d.jobs == s.jobs && d.file == s.file)
            && d.persisted.value - {job.id} == s.persisted.value - {job.id}
            && d.jobs - {job.id} == s.jobs - {job.id}
  {
  }

  // Capacity.

  function ActiveSpecs(file: map<Id, Spec>): set<Id> {
    set id | id in file && file[id].enabled
  }

  ghost predicate Within(s: Svc, n: nat) {
    |ActiveIds(Known(s))| <= n && |ActiveSpecs(s.file)| <= n
  }

  lemma SubsetSize<T>(a: set<T>, b: set<T>)
    requires a <= b
    ensures |a| <= |b|
  {
    if a != {} {
      var x :| x in a;
      SubsetSize(a - {x}, b - {x});
    }
  }

  lemma CommitWithin(s: Svc, jobs: map<Id, Job>, saveOk: bool, n: nat)
    requires Within(s, n) && |ActiveIds(jobs)| <= n
    ensures Within(Commit(s, jobs, saveOk), n)
  {
    assert ActiveSpecs(Specs(jobs)) == ActiveIds(jobs);
  }

  lemma StepKeepsCapacity(s: Svc, e: Event, n: nat)
    requires Inv(s) && Possible(s, e) && n >= MAX_ACTIVE && Within(s, n)
    ensures Within(Step(s, e), n)
  {
    match e
    case Load(now, saveOk) =>
      SubsetSize(ActiveIds(LoadedJobs(s, now)), ActiveSpecs(s.file));
      CommitWithin(s, LoadedJobs(s, now), true, n);
    case Add(id, spec, saveOk) =>
      var candidate := Known(s)[id := Job(id, s.made, spec)];
      if |ActiveIds(candidate)| <= MAX_ACTIVE {
        CommitWithin(s, candidate, true, n);
      }
    case Cancel(id, saveOk) =>
      SubsetSize(ActiveIds(Known(s) - {id}), ActiveIds(Known(s)));
      CommitWithin(s, Known(s) - {id}, saveOk, n);
    case CancelName(name, saveOk) =>
      var left := Known(s) - Named(Known(s), name);
      SubsetSize(ActiveIds(left), ActiveIds(Known(s)));
      CommitWithin(s, left, saveOk, n);
    case Finish(i, succeeded, cancelled, now, saveOk) =>
      var next := Successor(s, s.runs[i], succeeded, cancelled, now);
      var candidate := if next.Some? then Known(s)[s.runs[i].id := next.value] else Known(s);
      SubsetSize(ActiveIds(candidate), ActiveIds(Known(s)));
      CommitWithin(s, candidate, saveOk, n);
    case _ =>
  }

  /** The number of active jobs never exceeds the larger of the limit and what was loaded. */
  lemma {:induction false} CapacityHolds(s: Svc, es: seq<Event>, n: nat)
    requires Inv(s) && Legal(s, es) && n >= MAX_ACTIVE && Within(s, n)
    ensures Within(Run(s, es), n)
    decreases |es|
  {
    if es != [] {
      StepKeepsInv(s, es[0]);
      StepKeepsCapacity(s, es[0], n);
      CapacityHolds(Step(s, es[0]), es[1..], n);
    }
  }

  // Recovery.

  /** Loading puts every overdue interval job on the first boundary of its own grid after now, keeps a
      one-shot within the grace period, and retires an older one. */
  lemma RecoveryLands(cron: (nat, int) -> int, spec: Spec, now: int)
    requires spec.enabled && spec.fireAt <= now
    ensures var r := Recovered(cron, spec, now);
            && (spec.trigger.Interval? ==> FirstAfter(spec.fireAt, spec.trigger.us, now, r.fireAt) && r.enabled)
            && (spec.trigger.Once? ==> r.fireAt == spec.fireAt && (r.enabled <==> now - spec.fireAt <= GRACE))
  {
    if spec.trigger.Interval? {
      AdvanceIsFirst(spec.fireAt, spec.trigger.us, now);
    }
  }
}
