/** How a channel swap ends, as a condition on the outside world: for every outcome of every start and
    stop, which verdict it is and whether the host comes out as it was. */
module ChannelEndings {
  import opened ChannelSwap

  /** The outside world confirms all of `count` calls, the first having number `from`. */
  predicate AllDone(world: nat -> Outcome, from: nat, count: nat) {
    forall n: nat :: from <= n < from + count ==> world(n).Done?
  }

  /** How many of these calls are confirmed before the first that is not. */
  function Confirmed(world: nat -> Outcome, from: nat, count: nat): (k: nat)
    ensures k <= count && AllDone(world, from, k)
    ensures k < count ==> !world(from + k).Done?
    decreases count
  {
    if count == 0 || !world(from).Done? then 0 else 1 + Confirmed(world, from + 1, count - 1)
  }

  /** If one of the clean-up stops is interrupted, all of them after it are confirmed. */
  predicate CleansUp(world: nat -> Outcome, from: nat, count: nat) {
    forall i: nat, j: nat :: from <= i < j < from + count && world(i).Cancelled? ==> world(j).Done?
  }

  lemma AllDoneHead(world: nat -> Outcome, from: nat, count: nat)
    requires count > 0
    ensures AllDone(world, from, count) <==> world(from).Done? && AllDone(world, from + 1, count - 1)
  {
  }

  lemma {:induction false} StopsByWorld(h: Host, cs: seq<Channel>)
    ensures var (d, stopped, ok) := StopEach(h, cs);
            && d.world == h.world && |stopped| == Confirmed(h.world, |h.log|, |cs|)
            && (ok <==> AllDone(h.world, |h.log|, |cs|))
            && |d.log| == |h.log| + |stopped| + if ok then 0 else 1
    decreases |cs|
  {
    if cs != [] && Next(h).Done? {
      StopsByWorld(StopOne(h, cs[0]), cs[1..]);
      AllDoneHead(h.world, |h.log|, |cs|);
    }
  }

  lemma {:induction false} StartsByWorld(h: Host, cs: seq<Channel>)
    ensures var (d, tried, ok) := StartEach(h, cs);
            var f := Confirmed(h.world, |h.log|, |cs|);
            && d.world == h.world && (ok <==> f == |cs|)
            && |tried| == (if ok then f else f + 1)
            && |d.log| == |h.log| + f + if ok then 0 else 2
    decreases |cs|
  {
    if cs != [] && Next(h).Done? {
      StartsByWorld(StartOne(h, cs[0]), cs[1..]);
    }
  }

  lemma {:induction false} RestoresByWorld(h: Host, cs: seq<Channel>)
    ensures var (d, errors, cancelled) := RestoreEach(h, cs);
            errors == 0 && !cancelled <==> AllDone(h.world, |h.log|, |cs|)
    decreases |cs|
  {
    if cs != [] {
      AllDoneHead(h.world, |h.log|, |cs|);
      if Next(h).Done? {
        RestoresByWorld(StartOne(h, cs[0]), cs[1..]);
      }
    }
  }

  lemma {:induction false} ClearSkips(h: Host, a: seq<Channel>, b: seq<Channel>, strict: bool)
    requires forall c :: c in a ==> c !in h.started
    ensures ClearEach(h, a + b, strict) == ClearEach(h, b, strict)
    decreases |a|
  {
    if a == [] {
      assert a + b == b;
    } else {
      assert (a + b)[1..] == a[1..] + b;
      ClearSkips(h, a[1..], b, strict);
    }
  }

  /** A strict clean-up of running channels takes one confirmed call each. */
  lemma {:induction false} StrictByWorld(h: Host, cs: seq<Channel>)
    requires Distinct(cs) && forall c :: c in cs ==> c in h.started
    ensures var (d, ok) := ClearEach(h, cs, true);
            && d.world == h.world && (ok <==> AllDone(h.world, |h.log|, |cs|))
            && (ok ==> |d.log| == |h.log| + |cs|)
    decreases |cs|
  {
    if cs != [] {
      AllDoneHead(h.world, |h.log|, |cs|);
      assert forall c :: c in cs[1..] ==> c != cs[0];
      if Next(h).Done? {
        StrictByWorld(StopOne(h, cs[0]), cs[1..]);
      }
    }
  }

  /** How many of these calls come before the first interrupted one. */
  function Uninterrupted(world: nat -> Outcome, from: nat, count: nat): (k: nat)
    ensures k <= count && forall n: nat :: from <= n < from + k ==> !world(n).Cancelled?
    ensures k < count ==> world(from + k).Cancelled?
    decreases count
  {
    if count == 0 || world(from).Cancelled? then 0 else 1 + Uninterrupted(world, from + 1, count - 1)
  }

  /** The first clean-up goes on until a call is interrupted. */
  lemma {:induction false} LenientByWorld(h: Host, cs: seq<Channel>)
    requires Distinct(cs) && forall c :: c in cs ==> c in h.started
    ensures var (d, ok) := ClearEach(h, cs, false);
            var k := Uninterrupted(h.world, |h.log|, |cs|);
            && d.world == h.world && (ok <==> k == |cs|)
            && |d.log| == |h.log| + if ok then |cs| else k + 1
    decreases |cs|
  {
    if cs != [] && !Next(h).Cancelled? {
      assert forall c :: c in cs[1..] ==> c != cs[0];
      LenientByWorld(StopOne(h, cs[0]), cs[1..]);
    }
  }

  /** What it has called has stopped, what it has not called yet still runs. */
  lemma {:induction false} LenientStops(h: Host, cs: seq<Channel>)
    requires Distinct(cs) && forall c :: c in cs ==> c in h.started
    ensures var (d, ok) := ClearEach(h, cs, false);
            var k := Uninterrupted(h.world, |h.log|, |cs|);
            && d.started <= h.started
            && forall i :: 0 <= i < |cs| ==> (cs[i] in d.started <==> i > k)
    decreases |cs|
  {
    if cs != [] {
      var one, rest := StopOne(h, cs[0]), cs[1..];
      assert forall i :: 0 <= i < |rest| ==> rest[i] == cs[i + 1] && rest[i] != cs[0];
      if !Next(h).Cancelled? {
        LenientStops(one, rest);
        var d := ClearEach(h, cs, false).0;
        var k := Uninterrupted(h.world, |h.log|, |cs|);
        forall i | 0 < i < |cs| ensures cs[i] in d.started <==> i > k {
          assert rest[i - 1] in d.started <==> i - 1 > k - 1;
        }
      }
    }
  }

  /** The second round, after the first was interrupted at its call number `k`. */
  lemma RoundTwo(h: Host, d: Host, cs: seq<Channel>, k: nat)
    requires Distinct(cs) && k < |cs| && forall i :: 0 <= i < |cs| ==> (cs[i] in d.started <==> i > k)
    requires d.world == h.world && |d.log| == |h.log| + k + 1
    ensures var (e, again) := ClearEach(d, cs, true);
            && e.world == h.world && (again <==> AllDone(h.world, |h.log| + k + 1, |cs| - k - 1))
            && (again ==> |e.log| == |h.log| + |cs|)
  {
    var a, b := cs[..k + 1], cs[k + 1..];
    assert cs == a + b;
    assert forall i :: 0 <= i < |a| ==> a[i] == cs[i];
    assert forall i :: 0 <= i < |b| ==> b[i] == cs[k + 1 + i];
    ClearSkips(d, a, b, true);
    StrictByWorld(d, b);
  }

  /** Both rounds of clean-up together succeed exactly when, after an interrupted stop, all later ones
      are confirmed; each running channel takes one call. */
  lemma BothRounds(h: Host, cs: seq<Channel>)
    requires Distinct(cs) && forall c :: c in cs ==> c in h.started
    ensures var (d, ok) := ClearEach(h, cs, false);
            var (e, again) := if ok then (d, true) else ClearEach(d, cs, true);
            && e.world == h.world && (again <==> CleansUp(h.world, |h.log|, |cs|))
            && (again ==> |e.log| == |h.log| + |cs|)
  {
    var (d, ok) := ClearEach(h, cs, false);
    var k := Uninterrupted(h.world, |h.log|, |cs|);
    LenientByWorld(h, cs);
    LenientStops(h, cs);
    if !ok {
      RoundTwo(h, d, cs, k);
      SecondRound(h.world, |h.log|, |cs|, k);
    }
  }

  lemma SecondRound(world: nat -> Outcome, from: nat, count: nat, k: nat)
    requires k < count && world(from + k).Cancelled? && forall n: nat :: from <= n < from + k ==> !world(n).Cancelled?
    ensures CleansUp(world, from, count) <==> AllDone(world, from + k + 1, count - k - 1)
  {
  }

  lemma RevSplits(tried: seq<Channel>)
    requires tried != []
    ensures Rev(tried) == [tried[|tried| - 1]] + Rev(tried[..|tried| - 1])
  {
  }

  /** After a failed start the channels before the failing one run and it does not. */
  lemma FailedStartRuns(h: Host, entering: seq<Channel>)
    requires Tidy(h) && Distinct(entering) && forall c :: c in entering ==> c !in h.started
    requires !StartEach(h, entering).2
    ensures var (d, tried, _) := StartEach(h, entering);
            && tried != [] && Tidy(d) && tried[|tried| - 1] !in d.started
            && RunsInReverse(d, Rev(tried[..|tried| - 1]))
  {
    StartEachTries(h, entering);
    StartEachEffect(h, entering);
    var (d, tried, _) := StartEach(h, entering);
    var f := |tried| - 1;
    assert forall i :: 0 <= i < |tried| ==> tried[i] == entering[i];
    RevFacts(tried[..f]);
    forall c | c in Rev(tried[..f]) ensures c in d.started {
      assert c in SetOf(Rev(tried[..f]));
    }
  }

  /** The undo, given how the clean-up of the running channels `ran` goes. */
  lemma UndoAfterClear(d: Host, tried: seq<Channel>, ran: seq<Channel>, stopped: seq<Channel>)
    requires Tidy(d) && tried != [] && tried[|tried| - 1] !in d.started
    requires Rev(tried) == [tried[|tried| - 1]] + ran
    ensures var (e, ok) := ClearEach(d, ran, false);
            var (g, again) := if ok then (e, true) else ClearEach(e, ran, true);
            && ClearEach(d, Rev(tried), false) == (e, ok)
            && (RestorePhase(e, if ok then [] else tried, stopped).3.Nothing? <==>
                again && AllDone(g.world, |g.log|, |stopped|))
  {
    ClearSkips(d, [tried[|tried| - 1]], ran, false);
    ClearEachEffect(d, ran, false);
    var (e, ok) := ClearEach(d, ran, false);
    assert Rev<Channel>([]) == [];
    if !ok {
      ClearSkips(e, [tried[|tried| - 1]], ran, true);
    }
    var (g, again) := if ok then (e, true) else ClearEach(e, ran, true);
    RestoresByWorld(g, Rev(stopped));
  }

  /** The undo of a failed start, call by call: the clean-up, then the restarts. */
  lemma UndoByWorld(h: Host, entering: seq<Channel>, stopped: seq<Channel>, e: Host, left: seq<Channel>, f: nat)
    requires Tidy(h) && Distinct(entering) && forall c :: c in entering ==> c !in h.started
    requires f == Confirmed(h.world, |h.log|, |entering|) < |entering|
    requires StartPhase(h, entering).0 == e && StartPhase(h, entering).1 == left
    ensures !StartPhase(h, entering).2.Nothing?
    ensures RestorePhase(e, left, stopped).3.Nothing? <==> Cleared(h.world, |h.log| + f + 2, f, |stopped|)
  {
    var d, tried := FailedStart(h, entering);
    FailedStartIs(h, entering);
    ClearedByWorld(d, tried, Rev(tried[..f]), stopped);
  }

  /** The state a failed start leaves. */
  lemma FailedStart(h: Host, entering: seq<Channel>) returns (d: Host, tried: seq<Channel>)
    requires Tidy(h) && Distinct(entering) && forall c :: c in entering ==> c !in h.started
    requires Confirmed(h.world, |h.log|, |entering|) < |entering|
    ensures var f := Confirmed(h.world, |h.log|, |entering|);
            && StartEach(h, entering) == (d, tried, false)
            && |tried| == f + 1 && Tidy(d) && d.world == h.world && |d.log| == |h.log| + f + 2
            && RunsInReverse(d, Rev(tried[..f]))
            && tried[f] !in d.started && Rev(tried) == [tried[f]] + Rev(tried[..f])
  {
    StartsByWorld(h, entering);
    FailedStartRuns(h, entering);
    d, tried := StartEach(h, entering).0, StartEach(h, entering).1;
    RevSplits(tried);
  }

  ghost predicate RunsInReverse(d: Host, ran: seq<Channel>) {
    Distinct(ran) && forall c :: c in ran ==> c in d.started
  }

  lemma FailedStartIs(h: Host, entering: seq<Channel>)
    requires !StartEach(h, entering).2
    ensures var (d, tried, _) := StartEach(h, entering);
            var (e, ok) := ClearEach(d, Rev(tried), false);
            StartPhase(h, entering) == (e, if ok then [] else tried, if ok then Original else Further)
  {
  }

  /** Two rounds of clean-up over `f` channels from call `from` on, then `k` restarts. */
  predicate Cleared(world: nat -> Outcome, from: nat, f: nat, k: nat) {
    CleansUp(world, from, f) && AllDone(world, from + f, k)
  }

  lemma ClearedByWorld(d: Host, tried: seq<Channel>, ran: seq<Channel>, stopped: seq<Channel>)
    requires Tidy(d) && tried != [] && tried[|tried| - 1] !in d.started
    requires Rev(tried) == [tried[|tried| - 1]] + ran
    requires RunsInReverse(d, ran)
    ensures var (e, ok) := ClearEach(d, Rev(tried), false);
            RestorePhase(e, if ok then [] else tried, stopped).3.Nothing? <==>
            Cleared(d.world, |d.log|, |ran|, |stopped|)
  {
    UndoAfterClear(d, tried, ran, stopped);
    BothRounds(d, ran);
  }

  // The endings, by the outcomes of the calls alone. The stops are calls |log|, |log| + 1, ...

  /** Every old channel confirms its stop. */
  predicate StopsConfirmed(h: Host, leaving: seq<Channel>) {
    AllDone(h.world, |h.log|, |leaving|)
  }

  /** Number of new channels that start before the first that does not. */
  function Starts(h: Host, leaving: seq<Channel>, entering: seq<Channel>): nat {
    Confirmed(h.world, |h.log| + |leaving|, |entering|)
  }

  /** After `f` starts and a failed one, whose clean-up takes one more call: the `f` running new channels
      are stopped, and every old channel restarts. */
  predicate UndoWorks(h: Host, leaving: seq<Channel>, f: nat) {
    Cleared(h.world, |h.log| + |leaving| + f + 2, f, |leaving|)
  }

  /** After `g` confirmed stops and one that is not, the `g` channels restart. */
  predicate RestartsWork(h: Host, g: nat) {
    AllDone(h.world, |h.log| + g + 1, g)
  }

  lemma StopsFailByWorld(h: Host, leaving: seq<Channel>)
    ensures StopsFail(h, leaving) <==> !StopsConfirmed(h, leaving)
    ensures StopsFail(h, leaving) <==> exists n: nat :: |h.log| <= n < |h.log| + |leaving| && !h.world(n).Done?
  {
    StopsByWorld(h, Rev(leaving));
  }

  lemma StopPhaseByWorld(h: Host, leaving: seq<Channel>)
    ensures var (d, stopped, raised) := StopPhase(h, leaving);
            var g := Confirmed(h.world, |h.log|, |leaving|);
            && (raised.Nothing? <==> StopsConfirmed(h, leaving))
            && (raised.Nothing? ==> d.world == h.world && |d.log| == |h.log| + |leaving| && |stopped| == |leaving|)
            && (raised.Original? <==> !StopsConfirmed(h, leaving) && RestartsWork(h, g))
  {
    StopsByWorld(h, Rev(leaving));
    var (d, stopped, ok) := StopEach(h, Rev(leaving));
    if !ok {
      RestoresByWorld(d, Rev(stopped));
    }
  }

  /** How an accepted swap ends, for every outcome of every call: which verdict, as a condition on the
      outside world. */
  lemma EndingByWorld(h: Host, plugin: Plugin, leaving: seq<Channel>, entering: seq<Channel>)
    requires Ready(h, leaving) && Accepts(h, plugin, leaving, entering)
    ensures var v, f := Swap(h, plugin, leaving, entering).1, Starts(h, leaving, entering);
            && (v.Swapped? <==> StopsConfirmed(h, leaving) && f == |entering|)
            && (v.StopFailed? <==> !StopsConfirmed(h, leaving)
                                   && RestartsWork(h, Confirmed(h.world, |h.log|, |leaving|)))
            && (v.RolledBack? <==> StopsConfirmed(h, leaving) && f < |entering| && UndoWorks(h, leaving, f))
  {
    StopPhaseByWorld(h, leaving);
    if StopsConfirmed(h, leaving) {
      StartAndUndoByWorld(h, plugin, leaving, entering);
    }
  }

  lemma StartAndUndoByWorld(h: Host, plugin: Plugin, leaving: seq<Channel>, entering: seq<Channel>)
    requires Ready(h, leaving) && Accepts(h, plugin, leaving, entering) && StopsConfirmed(h, leaving)
    ensures var (d, stopped, _) := StopPhase(h, leaving);
            var (e, tried, start) := StartPhase(d, entering);
            var f := Starts(h, leaving, entering);
            && (start.Nothing? <==> f == |entering|)
            && (f < |entering| ==> (RestorePhase(e, tried, stopped).3.Nothing? <==> UndoWorks(h, leaving, f)))
  {
    NewAreFresh(h, plugin, leaving, entering);
    StopPhaseByWorld(h, leaving);
    StopPhaseEffect(h, leaving);
    var (d, stopped, _) := StopPhase(h, leaving);
    forall c | c in entering ensures c !in d.started {
      assert c in SetOf(entering);
    }
    StartsByWorld(d, entering);
    if Starts(h, leaving, entering) < |entering| {
      var (e, tried, _) := StartPhase(d, entering);
      UndoByWorld(d, entering, stopped, e, tried, Starts(h, leaving, entering));
    }
  }

  // ---------------------------------------------------------------- when a failed swap changes nothing

  /** An old channel that is not among the new ones is down after an incomplete undo. */
  lemma UndoneOrDown(h: Host, base: set<Channel>, tried: seq<Channel>, stopped: seq<Channel>, c: Channel)
    requires Tidy(h) && Distinct(stopped) && base <= h.started <= base + SetOf(tried)
    requires base !! SetOf(tried) && base !! SetOf(stopped) && c in stopped && c !in tried
    ensures var (d, _, _, raised) := RestorePhase(h, tried, stopped);
            !raised.Nothing? ==> d.started != base + SetOf(stopped)
  {
    RevFacts(tried);
    RevFacts(stopped);
    ClearEachEffect(h, Rev(tried), true);
    var (d, cleared) := ClearEach(h, Rev(tried), true);
    if cleared {
      assert d.started == base;
      RestoreEachEffect(d, Rev(stopped));
    } else {
      assert c in SetOf(stopped) && c !in d.started;
    }
  }

  /** When a swap that fails leaves the host as it was: always when every old channel confirms its stop
      and the undo works; and if an old channel is really replaced, only then. Any other ending, an
      incomplete undo included, leaves an old channel down. */
  lemma RestoredIffUndone(h: Host, plugin: Plugin, leaving: seq<Channel>, entering: seq<Channel>)
    requires Ready(h, leaving) && Accepts(h, plugin, leaving, entering)
    ensures var (d, v) := Swap(h, plugin, leaving, entering);
            var good := StopsConfirmed(h, leaving) && UndoWorks(h, leaving, Starts(h, leaving, entering));
            !v.Swapped? ==>
              && (good ==> d == h.(log := d.log))
              && ((exists c :: c in leaving && c !in entering) ==> (d.started == h.started <==> good))
  {
    EndingByWorld(h, plugin, leaving, entering);
    AllOrNothing(h, plugin, leaving, entering);
    if StopsConfirmed(h, leaving) {
      if c :| c in leaving && c !in entering {
        DownAfterStart(h, plugin, leaving, entering, c);
      }
    } else {
      StopPhaseByWorld(h, leaving);
      StopPhaseEffect(h, leaving);
      assert Unconfirmed(h, leaving) in SetOf(leaving);
    }
  }

  /** Among the endings that report a complete undo, the one that changes something is the stop that is
      not confirmed. */
  lemma RestoredIffStopsConfirmed(h: Host, plugin: Plugin, leaving: seq<Channel>, entering: seq<Channel>)
    requires Ready(h, leaving)
    ensures var (d, v) := Swap(h, plugin, leaving, entering);
            v.StopFailed? || v.RolledBack? ==> (d.started == h.started <==> StopsConfirmed(h, leaving))
  {
    AllOrNothing(h, plugin, leaving, entering);
    StopPhaseByWorld(h, leaving);
    StopsFailByWorld(h, leaving);
    if StopsFail(h, leaving) {
      assert Unconfirmed(h, leaving) in SetOf(leaving);
    }
  }

  lemma DownAfterStart(h: Host, plugin: Plugin, leaving: seq<Channel>, entering: seq<Channel>, c: Channel)
    requires Ready(h, leaving) && Accepts(h, plugin, leaving, entering) && StopsConfirmed(h, leaving)
    requires c in leaving && c !in entering
    ensures var (d, v) := Swap(h, plugin, leaving, entering); v.Unrestored? ==> d.started != h.started
  {
    NewAreFresh(h, plugin, leaving, entering);
    StopPhaseByWorld(h, leaving);
    StopPhaseEffect(h, leaving);
    RevFacts(leaving);
    var (d, stopped, _) := StopPhase(h, leaving);
    forall x | x in entering ensures x !in d.started {
      assert x in SetOf(entering);
    }
    StartPhaseEffect(d, entering);
    var (e, tried, start) := StartPhase(d, entering);
    if !start.Nothing? {
      assert forall x :: x in tried ==> x in entering;
      assert c in SetOf(leaving) && c in SetOf(stopped);
      UndoneOrDown(e, d.started, tried, stopped, c);
      assert d.started + SetOf(stopped) == h.started;
    }
  }

  /** One running channel that does not confirm its stop, in a world where no call ever succeeds. */
  function Stubborn(): Host {
    Host(c => "chat", n => Failed, [0], map["p" := [0]], {0}, {0}, [])
  }

  /** The swap is refused at the stop, and the channel is down. */
  lemma StubbornGoesDown()
    ensures Ready(Stubborn(), [0]) && Accepts(Stubborn(), "p", [0], [1])
    ensures var (d, v) := Swap(Stubborn(), "p", [0], [1]);
            v == StopFailed && d.started == {} && d.channels == [0]
  {
    var h := Stubborn();
    assert Rev([0]) == [0] && h.world(0) == Failed && Next(h) == Failed;
    assert StopEach(h, [0]) == (StopOne(h, 0), [], false);
    assert Rev<Channel>([]) == [];
  }
}
