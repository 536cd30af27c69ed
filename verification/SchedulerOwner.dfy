/** SchedulerService itself: the methods that change its maps in place, each tied to the step of the
    Scheduler machine it carries out. The outcome of a save is the parameter `saveOk`. */
module SchedulerOwner {
  import opened Recurrence
  import opened Scheduler
  import opened Wrappers

  datatype AddResult = Added | AtCapacity | NotSaved

  function Ticks(order: seq<Id>, now: int, lead: int): (es: seq<Event>)
    ensures |es| == |order| && forall i :: 0 <= i < |es| ==> es[i] == Fire(order[i], now, lead)
  {
    seq(|order|, i requires 0 <= i < |order| => Fire(order[i], now, lead))
  }

  /** One round of the tick loop leaves the job map alone, so every round after it is possible. */
  lemma {:induction false} TicksLegal(s: Svc, order: seq<Id>, now: int, lead: int)
    requires forall id :: id in order ==> id in s.jobs
    ensures Legal(s, Ticks(order, now, lead))
    decreases |order|
  {
    if order != [] {
      TicksLegal(Step(s, Fire(order[0], now, lead)), order[1..], now, lead);
      assert Ticks(order, now, lead)[1..] == Ticks(order[1..], now, lead);
    }
  }

  lemma {:induction false} RunAppend(s: Svc, es: seq<Event>, e: Event)
    requires Legal(s, es) && Possible(Run(s, es), e)
    ensures Legal(s, es + [e]) && Run(s, es + [e]) == Step(Run(s, es), e)
    decreases |es|
  {
    if es == [] {
      assert es + [e] == [e];
    } else {
      assert (es + [e])[1..] == es[1..] + [e];
      RunAppend(Step(s, es[0]), es[1..], e);
    }
  }

  ghost predicate OneOfEach(order: seq<Id>) {
    forall i, j :: 0 <= i < j < |order| ==> order[i] != order[j]
  }

  ghost predicate RunOfDue(s: Svc, order: seq<Id>, now: int, lead: int, job: Job) {
    exists id :: id in order && id in s.jobs && Due(s, id, now, lead) && job == s.jobs[id]
  }

  /** What is due after the first round was due before it. */
  lemma DueLater(s: Svc, order: seq<Id>, now: int, lead: int, job: Job)
    requires order != [] && OneOfEach(order) && forall id :: id in order ==> id in s.jobs
    requires RunOfDue(Step(s, Fire(order[0], now, lead)), order[1..], now, lead, job)
    ensures RunOfDue(s, order, now, lead, job)
  {
    var d := Step(s, Fire(order[0], now, lead));
    var id :| id in order[1..] && id in d.jobs && Due(d, id, now, lead) && job == d.jobs[id];
    assert id in order && Due(s, id, now, lead);
  }

  /** A tick over any listing of the runtime map starts a run of exactly the jobs that are due, each
      once, and changes no map. */
  lemma {:induction false} TickFiresDue(s: Svc, order: seq<Id>, now: int, lead: int)
    requires OneOfEach(order) && forall id :: id in order ==> id in s.jobs
    ensures Legal(s, Ticks(order, now, lead))
    ensures var t := Run(s, Ticks(order, now, lead));
            && t.jobs == s.jobs && t.persisted == s.persisted && t.file == s.file
            && (forall id :: id in t.inFlight <==> id in s.inFlight || (id in order && Due(s, id, now, lead)))
            && |s.runs| <= |t.runs| && t.runs[..|s.runs|] == s.runs
            && (forall k :: |s.runs| <= k < |t.runs| ==> RunOfDue(s, order, now, lead, t.runs[k]))
    decreases |order|
  {
    TicksLegal(s, order, now, lead);
    if order != [] {
      var d := Step(s, Fire(order[0], now, lead));
      var rest := order[1..];
      forall id | id in rest ensures id != order[0] && id in order {
        var k :| 0 <= k < |rest| && rest[k] == id;
        assert order[k + 1] == id;
      }
      TickFiresDue(d, rest, now, lead);
      assert Ticks(order, now, lead)[1..] == Ticks(rest, now, lead);
      var t := Run(d, Ticks(rest, now, lead));
      assert t == Run(s, Ticks(order, now, lead));
      assert d.runs[..|s.runs|] == s.runs;
      assert t.runs[..|s.runs|] == t.runs[..|d.runs|][..|s.runs|];
      forall id ensures id in t.inFlight <==> id in s.inFlight || (id in order && Due(s, id, now, lead)) {
        assert id in order <==> id == order[0] || id in rest;
      }
      forall k | |s.runs| <= k < |t.runs| ensures RunOfDue(s, order, now, lead, t.runs[k]) {
        if k < |d.runs| {
          assert t.runs[k] == t.runs[..|d.runs|][k] == d.runs[k] == s.jobs[order[0]];
        } else {
          DueLater(s, order, now, lead, t.runs[k]);
        }
      }
    }
  }

  class SchedulerService {
    const cron: (nat, int) -> int
    var jobs: map<Id, Job>
    var persisted: Option<map<Id, Job>>
    var file: map<Id, Spec>
    var inFlight: set<Id>
    var runs: seq<Job>
    var stopping: bool
    var made: nat
    ghost var boundaries: map<Id, seq<int>>
    ghost var slipped: set<(Id, int)>

    ghost function State(): Svc
      reads this
    {
      Svc(cron, jobs, persisted, file, inFlight, runs, stopping, made, boundaries, slipped)
    }

    constructor (cron: (nat, int) -> int, file: map<Id, Spec>)
      ensures State() == Init(cron, file)
    {
      this.cron, this.file := cron, file;
      jobs, persisted, inFlight, runs, stopping, made := map[], None, {}, [], false, 0;
      boundaries, slipped := map[], {};
    }

    method CommitJobs(candidate: map<Id, Job>, saveOk: bool)
      modifies `jobs, `persisted, `file
      ensures State() == Commit(old(State()), candidate, saveOk)
    {
      if saveOk {
        file := Specs(candidate);
        persisted := Some(candidate);
        jobs := EnabledOf(candidate);
      }
    }

    method CurrentPersistedJobs() returns (current: map<Id, Job>)
      ensures current == Known(State())
    {
      match persisted
      case Some(p) => current := p;
      case None => current := jobs;
    }

    method AddJob(id: Id, spec: Spec, saveOk: bool) returns (r: AddResult)
      modifies this
      ensures State() == Step(old(State()), Add(id, spec, saveOk))
      ensures r.AtCapacity? <==> |ActiveIds(Known(old(State()))[id := Job(id, old(made), spec)])| > MAX_ACTIVE
      ensures r.Added? ==> saveOk && id in file && file[id] == spec
      ensures !r.Added? ==> State() == old(State())
    {
      var current := CurrentPersistedJobs();
      var candidate := current[id := Job(id, made, spec)];
      var active := CountActive(candidate);
      if active > MAX_ACTIVE {
        return AtCapacity;
      }
      CommitJobs(candidate, saveOk);
      if !saveOk {
        return NotSaved;
      }
      made := made + 1;
      boundaries, slipped := boundaries - {id}, Others(slipped, id);
      return Added;
    }

    method CancelJob(id: Id, saveOk: bool) returns (found: bool)
      modifies this
      ensures State() == Step(old(State()), Cancel(id, saveOk))
      ensures found <==> id in Known(old(State()))
      ensures found && saveOk ==> id !in file && id !in jobs && file == Specs(Known(old(State()))) - {id}
    {
      var candidate := CurrentPersistedJobs();
      if id !in candidate {
        return false;
      }
      CommitJobs(candidate - {id}, saveOk);
      return true;
    }

    /** Every job of that name goes in one save. */
    method CancelJobByName(name: string, saveOk: bool) returns (cancelled: set<Id>)
      modifies this
      ensures State() == Step(old(State()), CancelName(name, saveOk))
      ensures cancelled == Named(Known(old(State())), name)
      ensures saveOk && cancelled != {} ==> file == Specs(Known(old(State()))) - cancelled
    {
      var candidate := CurrentPersistedJobs();
      cancelled := Named(candidate, name);
      if cancelled != {} {
        var left, todo := candidate, cancelled;
        while todo != {}
          invariant todo <= cancelled && left == candidate - (cancelled - todo)
          decreases |todo|
        {
          var id :| id in todo;
          left, todo := left - {id}, todo - {id};
        }
        assert left == candidate - cancelled;
        CommitJobs(left, saveOk);
      }
    }

    /** Reads the file, moves every overdue recurring job on, retires a stale one-shot, and saves again
        only if something changed; returns false when that save failed. */
    method LoadAndRecover(now: int, saveOk: bool) returns (loaded: bool)
      requires runs == []
      modifies this
      ensures State() == Step(old(State()), Load(now, saveOk))
      ensures loaded <==> saveOk || Specs(LoadedJobs(old(State()), now)) == old(file)
    {
      var kept, recovered, changed := RecoverAll(cron, file, made, now);
      assert kept == LoadedJobs(State(), now);
      if changed {
        if !saveOk {
          return false;
        }
        file := Specs(kept);
      }
      persisted, jobs, stopping, made := Some(kept), recovered, false, made + 1;
      return true;
    }

    /** `order` is the listing of the runtime map that the loop walks. */
    method Tick(order: seq<Id>, now: int, lead: int)
      requires forall id :: id in order ==> id in jobs
      modifies `inFlight, `runs, `boundaries
      ensures Legal(old(State()), Ticks(order, now, lead))
      ensures State() == Run(old(State()), Ticks(order, now, lead))
    {
      ghost var start := State();
      var i := 0;
      while i < |order|
        invariant 0 <= i <= |order|
        invariant jobs == old(jobs) && start == old(State())
        invariant Legal(start, Ticks(order[..i], now, lead)) && State() == Run(start, Ticks(order[..i], now, lead))
        invariant unchanged(`jobs, `persisted, `file, `stopping, `made, `slipped)
      {
        var id := order[i];
        assert Ticks(order[..i + 1], now, lead) == Ticks(order[..i], now, lead) + [Fire(id, now, lead)];
        RunAppend(start, Ticks(order[..i], now, lead), Fire(id, now, lead));
        var job := jobs[id];
        if job.spec.enabled && id !in inFlight {
          if ActualTrigger(job.spec, lead) <= now {
            boundaries := boundaries[id := (if id in boundaries then boundaries[id] else []) + [job.spec.fireAt]];
            inFlight := inFlight + {id};
            runs := runs + [job];
          }
        }
        i := i + 1;
      }
      assert order[..i] == order;
    }

    /** The persisted map with the job's replacement in it, if the run may still replace its job. */
    method Reschedule(job: Job, succeeded: bool, cancelled: bool, now: int)
      returns (candidate: map<Id, Job>, replaced: bool)
      ensures var next := Successor(State(), job, succeeded, cancelled, now);
              && replaced == next.Some?
              && candidate == if next.Some? then Known(State())[job.id := next.value] else Known(State())
    {
      candidate := CurrentPersistedJobs();
      replaced := false;
      var mine := job.id in jobs && jobs[job.id].ref == job.ref;
      var count := job.spec.runCount + if succeeded then 1 else 0;
      if !cancelled && !job.spec.trigger.Once? {
        if !stopping && mine {
          var next := NextFire(cron, job.spec, RescheduleAfter(now, job.spec.fireAt));
          candidate := candidate[job.id := Job(job.id, made, job.spec.(fireAt := next, runCount := count))];
          replaced := true;
        }
      } else if !cancelled && mine {
        candidate := candidate[job.id := Job(job.id, made, job.spec.(enabled := false, runCount := count))];
        replaced := true;
      }
    }

    /** What a run does when its execution ends, however it ends. */
    method FinishRun(i: nat, succeeded: bool, cancelled: bool, now: int, saveOk: bool)
      requires i < |runs|
      modifies this
      ensures State() == Step(old(State()), Finish(i, succeeded, cancelled, now, saveOk))
    {
      var job := runs[i];
      var candidate, replaced := Reschedule(job, succeeded, cancelled, now);
      if job.id in jobs && jobs[job.id].ref == job.ref && !(replaced && saveOk) {
        slipped := slipped + {(job.id, job.spec.fireAt)};
      }
      runs := runs[..i] + runs[i + 1..];
      inFlight := inFlight - {job.id};
      CommitJobs(candidate, saveOk);
      made := made + 1;
    }

    method StopRunning()
      modifies `stopping
      ensures State() == Step(old(State()), Stop)
    {
      stopping := true;
    }
  }

  method CountActive(jobs: map<Id, Job>) returns (n: nat)
    ensures n == |ActiveIds(jobs)|
  {
    n := 0;
    var seen: set<Id> := {};
    while seen != jobs.Keys
      invariant seen <= jobs.Keys && n == |ActiveIds(jobs) * seen|
      decreases |jobs.Keys - seen|
    {
      var id :| id in jobs.Keys - seen;
      if jobs[id].spec.enabled {
        assert ActiveIds(jobs) * (seen + {id}) == ActiveIds(jobs) * seen + {id};
        n := n + 1;
      } else {
        assert ActiveIds(jobs) * (seen + {id}) == ActiveIds(jobs) * seen;
      }
      seen := seen + {id};
    }
    assert ActiveIds(jobs) * seen == ActiveIds(jobs);
  }

  /** The loop of load_and_recover over the stored jobs. */
  method RecoverAll(cron: (nat, int) -> int, file: map<Id, Spec>, made: nat, now: int)
    returns (kept: map<Id, Job>, recovered: map<Id, Job>, changed: bool)
    ensures kept == map id | id in file :: Job(id, made, Recovered(cron, file[id], now))
    ensures recovered == EnabledOf(kept)
    ensures changed <==> Specs(kept) != file
  {
    kept, recovered, changed := map[], map[], false;
    var todo := file.Keys;
    while todo != {}
      invariant todo <= file.Keys && kept.Keys == file.Keys - todo
      invariant forall id :: id in kept ==> kept[id] == Job(id, made, Recovered(cron, file[id], now))
      invariant forall id :: id in recovered <==> id in kept && kept[id].spec.enabled
      invariant forall id :: id in recovered ==> recovered[id] == kept[id]
      invariant changed <==> exists id :: id in kept && kept[id].spec != file[id]
      decreases |todo|
    {
      var id :| id in todo;
      todo := todo - {id};
      var spec := Recovered(cron, file[id], now);
      changed := changed || spec != file[id];
      kept := kept[id := Job(id, made, spec)];
      if spec.enabled {
        recovered := recovered[id := Job(id, made, spec)];
      }
    }
    if id :| id in kept && kept[id].spec != file[id] {
      assert Specs(kept)[id] != file[id];
    }
  }
}
