/** What the scheduler's operations achieve: which jobs are there afterwards, with which next boundary, and
    when a job starts. */
module SchedulerEffects {
  import opened Recurrence
  import opened Scheduler
  import opened Wrappers

  /** The runtime map holds exactly the enabled jobs of the persisted map, as they are there; the file holds
      exactly what they are made of. */
  lemma EnabledExactly(s: Svc, id: Id)
    requires Inv(s) && s.persisted.Some?
    ensures id in s.jobs <==> id in s.persisted.value && s.persisted.value[id].spec.enabled
    ensures id in s.jobs ==> s.jobs[id] == s.persisted.value[id]
    ensures id in s.file <==> id in s.persisted.value
    ensures id in s.file ==> s.file[id] == s.persisted.value[id].spec
  {
  }

  // ---------------------------------------------------------------- removal

  /** A cancelled job leaves the file and both maps, and no other one does; nothing changes when the id is
      unknown or the save fails. */
  lemma CancelRemoves(s: Svc, id: Id, saveOk: bool)
    requires Inv(s)
    ensures var d := Step(s, Cancel(id, saveOk));
            if s.persisted.Some? && id in s.persisted.value && saveOk then
              && d.persisted.Some? && d.persisted.value == s.persisted.value - {id}
              && d.jobs == s.jobs - {id} && d.file == s.file - {id}
              && id !in d.persisted.value && id !in d.jobs && id !in d.file
            else d == s
  {
  }

  /** It stays away, whatever happens, until the id is added again. */
  lemma CancelledStaysAway(s: Svc, id: Id, es: seq<Event>)
    requires Inv(s) && s.persisted.Some? && id in s.persisted.value
    requires Legal(Step(s, Cancel(id, true)), es) && forall e :: e in es && e.Add? ==> e.id != id
    ensures var t := Run(Step(s, Cancel(id, true)), es);
            t.persisted.Some? && id !in t.persisted.value && id !in t.jobs && id !in t.file
  {
    CancelRemoves(s, id, true);
    StepKeepsInv(s, Cancel(id, true));
    NeverResurrected(Step(s, Cancel(id, true)), es, id);
  }

  /** Cancelling a name removes exactly the jobs of that name, in one save. */
  lemma CancelNameRemoves(s: Svc, name: string, saveOk: bool)
    requires Inv(s) && s.persisted.Some?
    ensures var d := Step(s, CancelName(name, saveOk));
            && d.persisted.Some?
            && (saveOk ==>
                  forall id :: id in d.persisted.value <==>
                                 id in s.persisted.value && s.persisted.value[id].spec.name != Some(name))
            && (forall id :: id in d.persisted.value ==> d.persisted.value[id] == s.persisted.value[id])
            && (forall id :: id in d.jobs <==> id in s.jobs && id in d.persisted.value)
            && (forall id :: id in d.file <==> id in d.persisted.value)
            && (!saveOk ==> d == s)
  {
    StepKeepsInv(s, CancelName(name, saveOk));
    var p := s.persisted.value;
    assert forall id :: id in Named(p, name) <==> id in p && p[id].spec.name == Some(name);
  }

  lemma NamedStayAway(s: Svc, name: string, es: seq<Event>, id: Id)
    requires Inv(s) && s.persisted.Some? && id in s.persisted.value && s.persisted.value[id].spec.name == Some(name)
    requires Legal(Step(s, CancelName(name, true)), es) && forall e :: e in es && e.Add? ==> e.id != id
    ensures var t := Run(Step(s, CancelName(name, true)), es);
            t.persisted.Some? && id !in t.persisted.value && id !in t.jobs && id !in t.file
  {
    CancelNameRemoves(s, name, true);
    StepKeepsInv(s, CancelName(name, true));
    NeverResurrected(Step(s, CancelName(name, true)), es, id);
  }

  // ---------------------------------------------------------------- addition and loading

  lemma MapsWith(jobs: map<Id, Job>, id: Id, job: Job)
    ensures ActiveIds(jobs[id := job]) == ActiveIds(jobs) - {id} + if job.spec.enabled then {id} else {}
    ensures Specs(jobs[id := job]) == Specs(jobs)[id := job.spec]
    ensures EnabledOf(jobs[id := job]) ==
            if job.spec.enabled then EnabledOf(jobs)[id := job] else EnabledOf(jobs) - {id}
  {
  }

  lemma AddCommits(s: Svc, id: Id, spec: Spec)
    requires Synced(s) && s.persisted.Some?
    requires |ActiveIds(s.persisted.value[id := Job(id, s.made, spec)])| <= MAX_ACTIVE
    ensures var d, job := Step(s, Add(id, spec, true)), Job(id, s.made, spec);
            && d.persisted == Some(s.persisted.value[id := job])
            && d.file == Specs(s.persisted.value[id := job])
            && d.jobs == EnabledOf(s.persisted.value[id := job])
  {
  }

  lemma AddRefuses(s: Svc, id: Id, spec: Spec, saveOk: bool)
    requires s.persisted.Some?
    requires |ActiveIds(s.persisted.value[id := Job(id, s.made, spec)])| > MAX_ACTIVE || !saveOk
    ensures Step(s, Add(id, spec, saveOk)) == s
  {
  }

  /** The active jobs once this one is added. */
  function ActiveWith(s: Svc, id: Id, spec: Spec): set<Id>
    requires s.persisted.Some?
  {
    ActiveIds(s.persisted.value) - {id} + if spec.enabled then {id} else {}
  }

  /** An added job is in the file and, if enabled, in the runtime map, and every other job is as before; it is
      refused only over the limit or by a failed save, and then nothing changes. */
  lemma AddPuts(s: Svc, id: Id, spec: Spec, saveOk: bool)
    requires Inv(s) && s.persisted.Some?
    ensures var d := Step(s, Add(id, spec, saveOk));
            if |ActiveWith(s, id, spec)| <= MAX_ACTIVE && saveOk then
              && d.persisted == Some(s.persisted.value[id := Job(id, s.made, spec)])
              && d.file == s.file[id := spec]
              && d.jobs == if spec.enabled then s.jobs[id := Job(id, s.made, spec)] else s.jobs - {id}
            else d == s
  {
    MapsWith(s.persisted.value, id, Job(id, s.made, spec));
    if |ActiveWith(s, id, spec)| <= MAX_ACTIVE && saveOk {
      AddCommits(s, id, spec);
    } else {
      AddRefuses(s, id, spec, saveOk);
    }
  }

  /** What loading makes of a stored job: disabled ones and those whose time has not come stay as they are. */
  predicate Lands(was: Spec, spec: Spec, now: int) {
    && spec.trigger == was.trigger && spec.tier == was.tier && spec.name == was.name
    && spec.runCount == was.runCount && (spec.enabled ==> was.enabled)
    && (!was.enabled || was.fireAt > now ==> spec == was)
    && (was.enabled && was.fireAt <= now ==>
          if was.trigger.Once? then spec.fireAt == was.fireAt && (spec.enabled <==> now - was.fireAt <= GRACE)
          else spec.enabled && spec.fireAt > now)
  }

  /** Loading loses no stored job and invents none, and each lands where recovery puts it. */
  lemma LoadKeepsJobs(s: Svc, now: int, saveOk: bool, id: Id)
    requires Inv(s) && Possible(s, Load(now, saveOk)) && Step(s, Load(now, saveOk)) != s
    ensures var d := Step(s, Load(now, saveOk));
            && d.persisted.Some? && d.file.Keys == s.file.Keys && d.persisted.value.Keys == s.file.Keys
            && (id in s.file ==>
                  && Lands(s.file[id], d.file[id], now) && d.persisted.value[id].spec == d.file[id]
                  && (id in d.jobs <==> d.file[id].enabled)
                  && (s.file[id].enabled && s.file[id].fireAt <= now && s.file[id].trigger.Interval? ==>
                        FirstAfter(s.file[id].fireAt, s.file[id].trigger.us, now, d.file[id].fireAt))
                  && (s.file[id].enabled && s.file[id].fireAt <= now && s.file[id].trigger.Cron? ==>
                        d.file[id].fireAt == s.cron(s.file[id].trigger.expr, now)))
  {
    if id in s.file {
      LandsRecovered(s, s.file[id], now);
    }
  }

  lemma LandsRecovered(s: Svc, was: Spec, now: int)
    requires CronLater(s)
    ensures Lands(was, Recovered(s.cron, was, now), now)
    ensures was.enabled && was.fireAt <= now && was.trigger.Interval? ==>
              FirstAfter(was.fireAt, was.trigger.us, now, Recovered(s.cron, was, now).fireAt)
  {
    if was.enabled && was.fireAt <= now {
      RecoveryLands(s.cron, was, now);
    }
  }

  /** Loading fails, and changes nothing, if and only if some stored job had to be changed and the save
      failed; otherwise the service is running again. */
  lemma LoadFailsIffUnsaved(s: Svc, now: int, saveOk: bool)
    requires Inv(s) && Possible(s, Load(now, saveOk))
    ensures var d := Step(s, Load(now, saveOk));
            if saveOk || (forall id :: id in s.file ==> Recovered(s.cron, s.file[id], now) == s.file[id])
            then d.made == s.made + 1 && !d.stopping else d == s
  {
    var specs := Specs(LoadedJobs(s, now));
    if forall id :: id in s.file ==> Recovered(s.cron, s.file[id], now) == s.file[id] {
      assert specs == s.file;
    } else {
      var id :| id in s.file && Recovered(s.cron, s.file[id], now) != s.file[id];
      assert specs[id] != s.file[id];
    }
  }

  /** The service is stopping from a stop on until it is loaded again. */
  lemma StopsUntilLoaded(s: Svc, e: Event)
    requires Possible(s, e)
    ensures Step(s, e).stopping <==> e.Stop? || (s.stopping && (e.Load? ==> Step(s, e) == s))
  {
  }

  // ---------------------------------------------------------------- runs

  /** A job that is enabled and not running starts as soon as its time has come: an instant one never before
      its boundary, a soft one up to `lead` before it; the run is of that very job. */
  lemma StartsInTime(s: Svc, id: Id, now: int, lead: int)
    requires Inv(s) && id in s.jobs
    ensures var d, job := Step(s, Fire(id, now, lead)), s.jobs[id];
            var early := if job.spec.tier.Soft? then lead else 0;
            if id !in s.inFlight && now >= job.spec.fireAt - early
            then d.runs == s.runs + [job] && d.inFlight == s.inFlight + {id}
                 && Started(d, id) == Started(s, id) + [job.spec.fireAt]
            else d == s
  {
  }

  /** One microsecond past both. */
  function After(now: int, boundary: int): (t: int)
    ensures t > now && t > boundary && (t == now + 1 || t == boundary + 1)
  {
    if now > boundary then now + 1 else boundary + 1
  }

  /** How the run of a current job leaves its job, unless it slips: a one-shot is kept but disabled; another is
      enabled at the first boundary after now and the old one; a success counts. Its id may run again. */
  lemma FinishLeaves(s: Svc, e: Event)
    requires Inv(s) && Possible(s, e) && e.Finish? && IsCurrent(s, s.runs[e.i])
    requires !Slips(s, e, s.runs[e.i].id, s.runs[e.i].spec.fireAt)
    ensures var job, d := s.runs[e.i], Step(s, e);
            var id, was := job.id, job.spec;
            && d.persisted.Some? && id in d.persisted.value && id in d.file && id !in d.inFlight
            && var spec := d.persisted.value[id].spec;
               && d.file[id] == spec && (id in d.jobs <==> spec.enabled)
               && spec.runCount == was.runCount + (if e.succeeded then 1 else 0)
               && spec.trigger == was.trigger && spec.tier == was.tier && spec.name == was.name
               && (was.trigger.Once? ==> !spec.enabled && spec.fireAt == was.fireAt)
               && (!was.trigger.Once? ==> spec.enabled && spec.fireAt > was.fireAt && spec.fireAt > e.now)
               && (was.trigger.Interval? ==>
                     FirstAfter(was.fireAt, was.trigger.us, After(e.now, was.fireAt), spec.fireAt))
               && (was.trigger.Cron? ==> spec.fireAt == s.cron(was.trigger.expr, After(e.now, was.fireAt)))
  {
    var job := s.runs[e.i];
    assert s.jobs[job.id] == job;
    if !job.spec.trigger.Once? {
      SuccessorLater(s, job, e.succeeded, e.now);
    }
    StepKeepsInv(s, e);
    assert forall j :: 0 <= j < |Step(s, e).runs| ==> Step(s, e).runs[j].id != job.id;
  }

  /** A run that ends in any way frees its id and no other. */
  lemma FinishFrees(s: Svc, e: Event)
    requires Inv(s) && Possible(s, e) && e.Finish?
    ensures Step(s, e).inFlight == s.inFlight - {s.runs[e.i].id} && s.runs[e.i].id in s.inFlight
    ensures Step(s, e).runs == s.runs[..e.i] + s.runs[e.i + 1..]
  {
  }
}
