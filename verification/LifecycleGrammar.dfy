/** Which streams the supervisor accepts: the declarative frame grammar
    stage* (ready settings* (commit settings*)?)?, proved equivalent to the reader of Lifecycle. */
module LifecycleGrammar {
  import opened Lifecycle
  import opened Wrappers

  /** What one frame says, before the automaton looks at it. */
  datatype Meaning = Stage(name: string, elapsed: int) | Ready(pid: int) | Commit
                   | Settings(success: bool, detail: string) | Junk

  function Meant(boot: Boot, raw: seq<Byte>): Meaning {
    var d := boot.decode(raw);
    if |raw| > MAX_FRAME || !d.Object? || Get(d.fields, "bootId") != Str(boot.bootId) then Junk
    else
      var f := d.fields;
      var kind := Get(f, "type");
      if kind == Str("stage") && Get(f, "stage").Str? && boot.strip(Get(f, "stage").s) != ""
         && AsInt(Get(f, "elapsedMs")).Some?
      then Stage(Get(f, "stage").s, AsInt(Get(f, "elapsedMs")).value)
      else if kind == Str("ready") && AsInt(Get(f, "pid")).Some? && AsInt(Get(f, "pid")).value > 0
      then Ready(AsInt(Get(f, "pid")).value)
      else if kind == Str("commit") && RestartId(Get(f, "requestId"))
              && boot.text(Get(f, "nonce")) == boot.nonce
      then Commit
      else if kind == Str("settings_reloaded") && Get(f, "success").Bool?
              && ("detail" in f ==> f["detail"].Str? && Utf8Len(f["detail"].s) <= 2048)
      then Settings(Get(f, "success").b, if "detail" in f then f["detail"].s else "")
      else Junk
  }

  /** The meanings of the non-empty frames, in order. */
  function Meanings(boot: Boot, frames: seq<seq<Byte>>): seq<Meaning> {
    if frames == [] then []
    else
      var ms, raw := Meanings(boot, frames[..|frames| - 1]), frames[|frames| - 1];
      if raw == [] then ms else ms + [Meant(boot, raw)]
  }

  /** How many stage frames come first. */
  function Stages(ms: seq<Meaning>): (n: nat)
    ensures n <= |ms| && forall i :: 0 <= i < n ==> ms[i].Stage?
    ensures n < |ms| ==> !ms[n].Stage?
  {
    if ms == [] then 0
    else
      var n := Stages(ms[..|ms| - 1]);
      if n == |ms| - 1 && ms[n].Stage? then n + 1 else n
  }

  function Commits(ms: seq<Meaning>): nat {
    if ms == [] then 0 else Commits(ms[..|ms| - 1]) + if ms[|ms| - 1].Commit? then 1 else 0
  }

  function Reloads(ms: seq<Meaning>): seq<(bool, string)> {
    if ms == [] then []
    else
      var m := ms[|ms| - 1];
      Reloads(ms[..|ms| - 1]) + if m.Settings? then [(m.success, m.detail)] else []
  }

  /** stage* (ready settings* (commit settings*)?)? with non-decreasing elapsed times from -1 on. */
  ghost predicate WellFormed(ms: seq<Meaning>) {
    Rising(ms, Stages(ms)) && Serving(ms, Stages(ms))
  }

  ghost predicate Rising(ms: seq<Meaning>, n: nat)
    requires n <= |ms| && forall i :: 0 <= i < n ==> ms[i].Stage?
  {
    forall i :: 0 <= i < n ==> Elapsed(ms, i) <= ms[i].elapsed
  }

  ghost predicate Serving(ms: seq<Meaning>, n: nat)
    requires n <= |ms|
  {
    n < |ms| ==>
      && ms[n].Ready?
      && (forall j :: n < j < |ms| ==> ms[j].Settings? || ms[j].Commit?)
      && Commits(ms) <= 1
  }

  /** The elapsed time before frame `i`. */
  function Elapsed(ms: seq<Meaning>, i: nat): int
    requires i <= |ms| && forall j :: 0 <= j < i ==> ms[j].Stage?
  {
    if i == 0 then -1 else ms[i - 1].elapsed
  }

  /** The view a well-formed sequence of frames leaves. */
  ghost predicate Reflects(v: View, ms: seq<Meaning>) {
    var n := Stages(ms);
    && v.error == NoError
    && v.elapsed == Elapsed(ms, n)
    && v.stage == (if n == 0 then "guardian.spawn" else ms[n - 1].name)
    && v.ready == (n < |ms|)
    && v.pid == (if n < |ms| && ms[n].Ready? then Some(ms[n].pid) else None)
    && v.commitValid == (Commits(ms) == 1)
    && v.settings == Reloads(ms)
  }

  lemma NoCommitInStages(ms: seq<Meaning>)
    requires Stages(ms) == |ms|
    ensures Commits(ms) == 0
  {
    if ms != [] {
      assert ms[|ms| - 1].Stage?;
      NoCommitInStages(ms[..|ms| - 1]);
    }
  }

  /** What an error-free view becomes when a frame of this meaning is taken, if it may be. */
  function Advance(v: View, m: Meaning): Option<View> {
    match m
    case Stage(name, elapsed) =>
      if v.ready || elapsed < v.elapsed then None else Some(v.(stage := name, elapsed := elapsed))
    case Ready(pid) => if v.ready then None else Some(v.(ready := true, pid := Some(pid)))
    case Commit => if !v.ready || v.commitValid then None else Some(v.(commitValid := true))
    case Settings(success, detail) =>
      if !v.ready then None else Some(v.(settings := v.settings + [(success, detail)]))
    case Junk => None
  }

  lemma TakeAdvances(boot: Boot, v: View, raw: seq<Byte>)
    requires raw != [] && v.error == NoError
    ensures var next := Advance(v, Meant(boot, raw));
            if next.Some? then Take(boot, v, raw) == next.value else Take(boot, v, raw).error != NoError
  {
  }

  lemma Snoc(ms: seq<Meaning>, m: Meaning)
    ensures var next := ms + [m];
            && Stages(next) == Stages(ms) + (if Stages(ms) == |ms| && m.Stage? then 1 else 0)
            && Commits(next) == Commits(ms) + (if m.Commit? then 1 else 0)
            && Reloads(next) == Reloads(ms) + (if m.Settings? then [(m.success, m.detail)] else [])
  {
    assert (ms + [m])[..|ms|] == ms;
  }

  lemma SameElapsed(ms: seq<Meaning>, m: Meaning, i: nat)
    requires i <= Stages(ms)
    ensures i < Stages(ms) ==> (ms + [m])[i] == ms[i]
    ensures Stages(ms) <= |ms| && (forall j :: 0 <= j < i ==> (ms + [m])[j].Stage? && (ms + [m])[j] == ms[j])
    ensures Elapsed(ms + [m], i) == Elapsed(ms, i)
  {
    assert forall j :: 0 <= j < i ==> (ms + [m])[j] == ms[j];
  }

  /** The stages already there are in order after a frame exactly when they were before. */
  lemma SnocRising(ms: seq<Meaning>, m: Meaning)
    ensures forall i :: 0 <= i < Stages(ms) ==> (ms + [m])[i].Stage?
    ensures Rising(ms + [m], Stages(ms)) <==> Rising(ms, Stages(ms))
  {
    var next, n := ms + [m], Stages(ms);
    forall i | 0 <= i < n ensures next[i] == ms[i] && Elapsed(next, i) == Elapsed(ms, i) {
      SameElapsed(ms, m, i);
    }
    if Rising(next, n) {
      forall i | 0 <= i < n ensures Elapsed(ms, i) <= ms[i].elapsed {
        assert Elapsed(next, i) <= next[i].elapsed;
      }
    } else {
      var i :| 0 <= i < n && !(Elapsed(next, i) <= next[i].elapsed);
      assert !(Elapsed(ms, i) <= ms[i].elapsed);
    }
  }

  /** A further stage is in order exactly when it is not earlier than the last. */
  lemma SnocStage(ms: seq<Meaning>, m: Meaning)
    requires Stages(ms) == |ms| && m.Stage?
    ensures Rising(ms + [m], |ms| + 1) <==> Rising(ms, |ms|) && Elapsed(ms, |ms|) <= m.elapsed
  {
    var next, n := ms + [m], |ms|;
    SnocRising(ms, m);
    SameElapsed(ms, m, n);
    if Rising(next, n + 1) {
      forall i | 0 <= i < n ensures Elapsed(next, i) <= next[i].elapsed {
      }
      assert Elapsed(next, n) <= next[n].elapsed;
    }
  }

  lemma SnocServing(ms: seq<Meaning>, m: Meaning)
    requires Stages(ms) < |ms|
    ensures Serving(ms + [m], Stages(ms)) <==>
              Serving(ms, Stages(ms)) && (m.Settings? || (m.Commit? && Commits(ms) == 0))
  {
    Snoc(ms, m);
    var next, n := ms + [m], Stages(ms);
    assert next[n] == ms[n] && next[|ms|] == m;
    assert forall j :: n < j < |ms| ==> next[j] == ms[j];
  }

  /** One more frame: the automaton moves exactly when the grammar allows it. */
  lemma AutomatonStep(v: View, ms: seq<Meaning>, m: Meaning)
    requires WellFormed(ms) && Reflects(v, ms)
    ensures WellFormed(ms + [m]) <==> Advance(v, m).Some?
    ensures Advance(v, m).Some? ==> Reflects(Advance(v, m).value, ms + [m])
  {
    if Stages(ms) == |ms| {
      NoCommitInStages(ms);
      StepAmongStages(v, ms, m);
    } else {
      StepAfterReady(v, ms, m);
    }
  }

  lemma FormAfterReady(v: View, ms: seq<Meaning>, m: Meaning)
    requires WellFormed(ms) && Reflects(v, ms) && Stages(ms) < |ms|
    ensures WellFormed(ms + [m]) <==> Advance(v, m).Some?
  {
    Snoc(ms, m);
    SnocRising(ms, m);
    SnocServing(ms, m);
  }

  /** The view depends on the frames only through their number, the stages, and what they add up to. */
  lemma SameReflection(v: View, d: View, ms: seq<Meaning>, next: seq<Meaning>)
    requires Reflects(v, ms) && Stages(ms) == Stages(next) && Stages(ms) < |ms| && Stages(ms) < |next|
    requires next[Stages(ms)] == ms[Stages(ms)] && (Stages(ms) > 0 ==> next[Stages(ms) - 1] == ms[Stages(ms) - 1])
    requires d == v.(commitValid := d.commitValid, settings := d.settings)
    requires d.commitValid == (Commits(next) == 1) && d.settings == Reloads(next)
    ensures Reflects(d, next)
  {
  }

  lemma ViewAfterReady(v: View, ms: seq<Meaning>, m: Meaning)
    requires Commits(ms) <= 1 && Reflects(v, ms) && Stages(ms) < |ms| && Advance(v, m).Some?
    ensures Reflects(Advance(v, m).value, ms + [m])
  {
    Snoc(ms, m);
    SameReflection(v, Advance(v, m).value, ms, ms + [m]);
  }

  lemma StepAfterReady(v: View, ms: seq<Meaning>, m: Meaning)
    requires WellFormed(ms) && Reflects(v, ms) && Stages(ms) < |ms|
    ensures WellFormed(ms + [m]) <==> Advance(v, m).Some?
    ensures Advance(v, m).Some? ==> Reflects(Advance(v, m).value, ms + [m])
  {
    FormAfterReady(v, ms, m);
    if Advance(v, m).Some? {
      ViewAfterReady(v, ms, m);
    }
  }

  /** A stage after stages only. */
  lemma AnotherStage(v: View, ms: seq<Meaning>, m: Meaning)
    requires WellFormed(ms) && Reflects(v, ms) && Stages(ms) == |ms| && Commits(ms) == 0 && m.Stage?
    ensures WellFormed(ms + [m]) <==> Advance(v, m).Some?
    ensures Advance(v, m).Some? ==> Reflects(Advance(v, m).value, ms + [m])
  {
    Snoc(ms, m);
    SnocStage(ms, m);
    assert (ms + [m])[|ms|] == m;
  }

  /** The first frame that is not a stage. */
  lemma FirstOther(v: View, ms: seq<Meaning>, m: Meaning)
    requires WellFormed(ms) && Reflects(v, ms) && Stages(ms) == |ms| && Commits(ms) == 0 && !m.Stage?
    ensures WellFormed(ms + [m]) <==> Advance(v, m).Some?
    ensures Advance(v, m).Some? ==> Reflects(Advance(v, m).value, ms + [m])
  {
    var next, n := ms + [m], |ms|;
    Snoc(ms, m);
    SnocRising(ms, m);
    assert next[n] == m && (n > 0 ==> next[n - 1] == ms[n - 1]);
    assert Elapsed(next, n) == Elapsed(ms, n);
  }

  lemma StepAmongStages(v: View, ms: seq<Meaning>, m: Meaning)
    requires WellFormed(ms) && Reflects(v, ms) && Stages(ms) == |ms| && Commits(ms) == 0
    ensures WellFormed(ms + [m]) <==> Advance(v, m).Some?
    ensures Advance(v, m).Some? ==> Reflects(Advance(v, m).value, ms + [m])
  {
    if m.Stage? {
      AnotherStage(v, ms, m);
    } else {
      FirstOther(v, ms, m);
    }
  }

  /** A malformed sequence cannot be repaired by what follows. */
  lemma StaysMalformed(ms: seq<Meaning>, m: Meaning)
    requires WellFormed(ms + [m])
    ensures WellFormed(ms)
  {
    Snoc(ms, m);
    SnocRising(ms, m);
    if Stages(ms) < |ms| {
      SnocServing(ms, m);
    }
  }

  lemma {:induction false} ErrorStays(boot: Boot, v: View, frames: seq<seq<Byte>>)
    requires v.error != NoError
    ensures Consume(boot, v, frames).error != NoError
  {
    if frames != [] {
      ErrorStays(boot, v, frames[..|frames| - 1]);
    }
  }

  ghost predicate Agrees(v: View, ms: seq<Meaning>) {
    if WellFormed(ms) then Reflects(v, ms) else v.error != NoError
  }

  lemma FrameAgrees(boot: Boot, v: View, ms: seq<Meaning>, raw: seq<Byte>)
    requires raw != [] && Agrees(v, ms)
    ensures Agrees(Take(boot, v, raw), ms + [Meant(boot, raw)])
  {
    if WellFormed(ms) {
      TakeAdvances(boot, v, raw);
      AutomatonStep(v, ms, Meant(boot, raw));
    } else if WellFormed(ms + [Meant(boot, raw)]) {
      StaysMalformed(ms, Meant(boot, raw));
    }
  }

  /** The reader and the grammar agree on every list of frames. */
  lemma {:induction false} FramesAccepted(boot: Boot, frames: seq<seq<Byte>>)
    ensures Agrees(Consume(boot, Initial(), frames), Meanings(boot, frames))
  {
    if frames != [] {
      var front, raw := frames[..|frames| - 1], frames[|frames| - 1];
      FramesAccepted(boot, front);
      if raw != [] {
        FrameAgrees(boot, Consume(boot, Initial(), front), Meanings(boot, front), raw);
      }
    }
  }

  ghost predicate Acceptable(boot: Boot, stream: seq<Byte>, eof: bool) {
    && WellFormed(Meanings(boot, Cut(stream).frames))
    && |Cut(stream).rest| <= MAX_FRAME && (eof ==> Cut(stream).rest == [])
  }

  /** A stream is read without error exactly when its frames form the grammar and its unfinished tail
      is short (empty, at the end of file); the view then is what the frames say. Otherwise the
      commit is void. */
  lemma StreamAccepted(boot: Boot, stream: seq<Byte>, eof: bool)
    ensures var v, ms := Ref(boot, stream, eof), Meanings(boot, Cut(stream).frames);
            && (v.error == NoError <==> Acceptable(boot, stream, eof))
            && (v.error == NoError ==> Reflects(v, ms))
            && (v.commitValid <==> Acceptable(boot, stream, eof) && Commits(ms) == 1)
  {
    FramesAccepted(boot, Cut(stream).frames);
    ConsumeSettled(boot, Initial(), Cut(stream).frames);
  }

  /** An error, once set, is permanent, and no later frame makes the commit valid. */
  lemma ErrorIsPermanent(boot: Boot, past: seq<Byte>, more: seq<Byte>, eof: bool)
    requires Ref(boot, past, false).error != NoError
    ensures Ref(boot, past + more, eof).error != NoError && !Ref(boot, past + more, eof).commitValid
  {
    if Ref(boot, past, false).error == TooLong {
      TooLongIsFinal(boot, past, more, eof);
    } else {
      var l := Cut(past);
      CutConcat(past, more);
      ConsumeConcat(boot, Initial(), l.frames, Cut(l.rest + more).frames);
      ErrorStays(boot, Consume(boot, Initial(), l.frames), Cut(l.rest + more).frames);
    }
    StreamAccepted(boot, past + more, eof);
  }

  // ---------------------------------------------------------------- which error it is

  /** The error names its cause: size, JSON, identity, or the kind of frame that was not in order. */
  lemma ErrorNamesCause(boot: Boot, v: View, raw: seq<Byte>)
    requires raw != [] && v.error == NoError
    ensures var e, d := Take(boot, v, raw).error, boot.decode(raw);
            if |raw| > 4096 then e == TooLong
            else if d.NotJson? then e == BadJson
            else if d.NotObject? || Get(d.fields, "bootId") != Str(boot.bootId) then e == BadIdentity
            else if Get(d.fields, "type") == Str("stage") then e in {NoError, BadStage}
            else if Get(d.fields, "type") == Str("ready") then e in {NoError, BadReady}
            else if Get(d.fields, "type") == Str("commit") then e in {NoError, BadCommit}
            else if Get(d.fields, "type") == Str("settings_reloaded") then e in {NoError, BadSettings}
            else e == UnknownType
    ensures Take(boot, v, raw).error == NoError <==> Advance(v, Meant(boot, raw)).Some?
  {
    TakeAdvances(boot, v, raw);
  }

  /** The first error stays the one reported, unless a later frame is over-long. */
  lemma FirstErrorStands(boot: Boot, v: View, raw: seq<Byte>)
    requires v.error != NoError
    ensures Take(boot, v, raw).error == if |raw| > 4096 then TooLong else v.error
    ensures Take(boot, v, raw).settings == v.settings && Take(boot, v, raw).pid == v.pid
  {
  }

  /** At the end of a feed: an unfinished frame may not be over-long, and at the end of the file there may be
      none. */
  lemma EndNamesCause(v: View, rest: seq<Byte>, eof: bool)
    requires v.error == NoError
    ensures AtEnd(v, rest, eof).error ==
            if |rest| > 4096 then TooLong else if eof && rest != [] then Incomplete else NoError
  {
  }

  /** Python's booleans are integers, so `true` passes for a process id, of 1, and `false` does not. */
  lemma BooleansAreNumbers(v: View, fields: map<string, Json>, b: bool)
    requires !v.ready && v.error == NoError && "pid" in fields && fields["pid"] == Bool(b)
    ensures AcceptReady(v, fields) == if b then v.(ready := true, pid := Some(1)) else v.(error := BadReady)
  {
  }
}
