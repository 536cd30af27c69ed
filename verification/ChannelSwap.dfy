/** Swapping a plugin's channels for new ones (bootstrap/channel_host.py): stop the old, start the new,
    and undo on failure. Whether a channel starts or stops is decided by the world outside. */
module ChannelSwap {

  /** A channel object. */
  type Channel = nat
  type Plugin = string

  datatype Outcome = Done | Failed | Cancelled

  datatype Call = Start(channel: Channel, outcome: Outcome) | Stop(channel: Channel, outcome: Outcome)

  /** `world(n)` is the outcome of the n-th call made on a channel; `log` lists the calls made. */
  datatype Host = Host(name: Channel -> string, world: nat -> Outcome,
                       channels: seq<Channel>, plugins: map<Plugin, seq<Channel>>,
                       resources: set<Channel>, started: set<Channel>, log: seq<Call>)

  /** How a swap ends. RolledBack: the start error is raised again after a complete restore.
      Unrestored: undoing failed as well, or was interrupted. */
  datatype Verdict = Swapped | Conflict | StopFailed | RolledBack | Unrestored

  /** How one phase of it ends. */
  datatype Raised = Nothing | Original | Further

  function Rev<T>(xs: seq<T>): (r: seq<T>)
    ensures |r| == |xs| && forall i :: 0 <= i < |r| ==> r[i] == xs[|xs| - 1 - i]
  {
    seq(|xs|, i requires 0 <= i < |xs| => xs[|xs| - 1 - i])
  }

  function SetOf(xs: seq<Channel>): (s: set<Channel>)
    ensures forall c :: c in s <==> c in xs
  {
    set c | c in xs
  }

  function Next(h: Host): Outcome {
    h.world(|h.log|)
  }

  /** _stop_channel: its bookkeeping is dropped even when the channel does not confirm the stop. */
  function StopOne(h: Host, c: Channel): Host {
    h.(resources := h.resources - {c}, started := h.started - {c}, log := h.log + [Stop(c, Next(h))])
  }

  /** _start_channel: a start that fails is followed by a stop whose outcome is ignored. */
  function StartOne(h: Host, c: Channel): Host {
    var o := Next(h);
    if o.Done? then
      h.(resources := h.resources + {c}, started := h.started + {c}, log := h.log + [Start(c, o)])
    else
      h.(resources := h.resources - {c}, log := h.log + [Start(c, o), Stop(c, h.world(|h.log| + 1))])
  }

  /** Stops channels in order up to the first failure; returns the confirmed ones. */
  function StopEach(h: Host, cs: seq<Channel>): (Host, seq<Channel>, bool)
    decreases |cs|
  {
    if cs == [] then (h, [], true)
    else if !Next(h).Done? then (StopOne(h, cs[0]), [], false)
    else
      var (d, stopped, ok) := StopEach(StopOne(h, cs[0]), cs[1..]);
      (d, [cs[0]] + stopped, ok)
  }

  /** Starts channels in order up to the first failure; returns the ones tried. */
  function StartEach(h: Host, cs: seq<Channel>): (Host, seq<Channel>, bool)
    decreases |cs|
  {
    if cs == [] then (h, [], true)
    else if !Next(h).Done? then (StartOne(h, cs[0]), [cs[0]], false)
    else
      var (d, tried, ok) := StartEach(StartOne(h, cs[0]), cs[1..]);
      (d, [cs[0]] + tried, ok)
  }

  /** _restore_channels: goes on after an error, not after a cancellation. */
  function RestoreEach(h: Host, cs: seq<Channel>): (Host, nat, bool)
    decreases |cs|
  {
    if cs == [] then (h, 0, false)
    else if Next(h).Cancelled? then (StartOne(h, cs[0]), 0, true)
    else
      var (d, errors, cancelled) := RestoreEach(StartOne(h, cs[0]), cs[1..]);
      (d, errors + (if Next(h).Failed? then 1 else 0), cancelled)
  }

  /** Stops those that are started; with `strict` any failure ends it, otherwise only a cancellation. */
  function ClearEach(h: Host, cs: seq<Channel>, strict: bool): (Host, bool)
    decreases |cs|
  {
    if cs == [] then (h, true)
    else if cs[0] !in h.started then ClearEach(h, cs[1..], strict)
    else if Next(h).Cancelled? || (strict && Next(h).Failed?) then (StopOne(h, cs[0]), false)
    else ClearEach(StopOne(h, cs[0]), cs[1..], strict)
  }

  // ---------------------------------------------------------------- the phases

  predicate Distinct<T(==)>(xs: seq<T>) {
    forall i, j :: 0 <= i < j < |xs| ==> xs[i] != xs[j]
  }

  function NamesOf(name: Channel -> string, cs: seq<Channel>): (r: seq<string>)
    ensures |r| == |cs| && forall i :: 0 <= i < |r| ==> r[i] == name(cs[i])
  {
    seq(|cs|, i requires 0 <= i < |cs| => name(cs[i]))
  }

  function Bound(h: Host, plugin: Plugin): seq<Channel> {
    if plugin in h.plugins then h.plugins[plugin] else []
  }

  predicate Accepts(h: Host, plugin: Plugin, leaving: seq<Channel>, entering: seq<Channel>) {
    && Bound(h, plugin) == leaving
    && Distinct(NamesOf(h.name, entering))
    && forall c, d :: c in h.channels && c !in leaving && d in entering ==> h.name(c) != h.name(d)
  }

  function StopPhase(h: Host, leaving: seq<Channel>): (Host, seq<Channel>, Raised) {
    var (d, stopped, ok) := StopEach(h, Rev(leaving));
    if ok then (d, stopped, Nothing)
    else
      var (e, errors, cancelled) := RestoreEach(d, Rev(stopped));
      if cancelled then (e, stopped, Further)
      else (e, [], if errors > 0 then Further else Original)
  }

  function StartPhase(h: Host, entering: seq<Channel>): (Host, seq<Channel>, Raised) {
    var (d, tried, ok) := StartEach(h, entering);
    if ok then (d, tried, Nothing)
    else
      var (e, cleared) := ClearEach(d, Rev(tried), false);
      if cleared then (e, [], Original) else (e, tried, Further)
  }

  function RestorePhase(h: Host, tried: seq<Channel>, stopped: seq<Channel>):
    (Host, seq<Channel>, seq<Channel>, Raised)
  {
    var (d, cleared) := ClearEach(h, Rev(tried), true);
    if !cleared then (d, tried, stopped, Original)
    else
      var (e, errors, cancelled) := RestoreEach(d, Rev(stopped));
      if cancelled then (e, [], stopped, Further)
      else (e, [], [], if errors > 0 then Further else Nothing)
  }

  function Without(cs: seq<Channel>, gone: set<Channel>): seq<Channel> {
    if cs == [] then []
    else if cs[0] in gone then Without(cs[1..], gone)
    else [cs[0]] + Without(cs[1..], gone)
  }

  /** The index of the first old channel, or the length when there is none. */
  function FirstAt(cs: seq<Channel>, gone: set<Channel>): (m: nat)
    ensures m <= |cs| && (m < |cs| ==> cs[m] in gone)
    ensures forall i :: 0 <= i < m ==> cs[i] !in gone
  {
    if cs == [] || cs[0] in gone then 0 else 1 + FirstAt(cs[1..], gone)
  }

  /** list.remove guarded by a membership test: drops the first occurrence. */
  function RemoveFirst(cs: seq<Channel>, c: Channel): seq<Channel> {
    if cs == [] then [] else if cs[0] == c then cs[1..] else [cs[0]] + RemoveFirst(cs[1..], c)
  }

  function RemoveEach(cs: seq<Channel>, leaving: seq<Channel>): seq<Channel>
    decreases |leaving|
  {
    if leaving == [] then cs else RemoveEach(RemoveFirst(cs, leaving[0]), leaving[1..])
  }

  /** commit_plugin_swap: the old channels are removed one by one, and the new block is inserted where
      the first of them stood. */
  function Layout(cs: seq<Channel>, leaving: seq<Channel>, entering: seq<Channel>): seq<Channel> {
    var m, kept := FirstAt(cs, SetOf(leaving)), RemoveEach(cs, leaving);
    if m <= |kept| then kept[..m] + entering + kept[m..] else kept + entering
  }

  function CommitSwap(h: Host, plugin: Plugin, leaving: seq<Channel>, entering: seq<Channel>): Host {
    h.(channels := Layout(h.channels, leaving, entering), plugins := h.plugins[plugin := entering])
  }

  function Swap(h: Host, plugin: Plugin, leaving: seq<Channel>, entering: seq<Channel>): (Host, Verdict) {
    if !Accepts(h, plugin, leaving, entering) then (h, Conflict)
    else
      var (d, stopped, stop) := StopPhase(h, leaving);
      if stop.Original? then (d, StopFailed)
      else if stop.Further? then (d, Unrestored)
      else
        var (e, tried, start) := StartPhase(d, entering);
        if start.Nothing? then (CommitSwap(e, plugin, leaving, entering), Swapped)
        else
          var (f, _, _, undo) := RestorePhase(e, tried, stopped);
          (f, if undo.Nothing? then RolledBack else Unrestored)
  }

  // ---------------------------------------------------------------- what each loop does

  /** Everything but the running channels and the log. */
  ghost predicate SameLists(h: Host, d: Host) {
    d.name == h.name && d.world == h.world && d.channels == h.channels && d.plugins == h.plugins
  }

  /** What the loops keep: the list, the bindings, and one resource record per running channel. */
  predicate Tidy(h: Host) {
    h.resources == h.started
  }

  lemma {:induction false} StopEachEffect(h: Host, cs: seq<Channel>)
    requires Tidy(h)
    ensures var (d, stopped, ok) := StopEach(h, cs);
            && SameLists(h, d) && Tidy(d)
            && stopped <= cs && (ok <==> stopped == cs)
            && d.started == h.started - SetOf(if ok then cs else cs[..|stopped| + 1])
    decreases |cs|
  {
    if cs != [] {
      if Next(h).Done? {
        StopEachEffect(StopOne(h, cs[0]), cs[1..]);
        var (d, stopped, ok) := StopEach(StopOne(h, cs[0]), cs[1..]);
        assert cs == [cs[0]] + cs[1..];
        if !ok {
          assert cs[..|stopped| + 2] == [cs[0]] + cs[1..][..|stopped| + 1];
        }
      } else {
        assert cs[..1] == [cs[0]];
      }
    }
  }

  lemma {:induction false} RestoreEachEffect(h: Host, cs: seq<Channel>)
    requires Tidy(h) && Distinct(cs) && forall c :: c in cs ==> c !in h.started
    ensures var (d, errors, cancelled) := RestoreEach(h, cs);
            && SameLists(h, d) && Tidy(d)
            && h.started <= d.started <= h.started + SetOf(cs)
            && (errors == 0 && !cancelled <==> d.started == h.started + SetOf(cs))
    decreases |cs|
  {
    if cs != [] {
      assert cs == [cs[0]] + cs[1..];
      var d := StartOne(h, cs[0]);
      assert forall c :: c in cs[1..] ==> c != cs[0];
      RestoreEachEffect(d, cs[1..]);
      assert cs[0] in SetOf(cs);
    }
  }

  lemma SetOfCons(c: Channel, cs: seq<Channel>)
    ensures SetOf([c] + cs) == {c} + SetOf(cs)
  {
  }

  lemma {:induction false} StartEachTries(h: Host, cs: seq<Channel>)
    ensures var (d, tried, ok) := StartEach(h, cs);
            SameLists(h, d) && tried <= cs && (ok ==> tried == cs) && (!ok ==> |tried| > 0)
    decreases |cs|
  {
    if cs != [] {
      StartEachTries(StartOne(h, cs[0]), cs[1..]);
      assert cs == [cs[0]] + cs[1..];
    }
  }

  lemma {:induction false} StartEachEffect(h: Host, cs: seq<Channel>)
    requires Tidy(h) && Distinct(cs) && forall c :: c in cs ==> c !in h.started
    ensures var (d, tried, ok) := StartEach(h, cs);
            && Tidy(d) && (!ok ==> |tried| > 0)
            && d.started == h.started + SetOf(if ok then cs else tried[..|tried| - 1])
    decreases |cs|
  {
    StartEachTries(h, cs);
    if cs != [] && Next(h).Done? {
      var d := StartOne(h, cs[0]);
      assert forall c :: c in cs[1..] ==> c != cs[0];
      StartEachTries(d, cs[1..]);
      StartEachEffect(d, cs[1..]);
      var (e, tried, ok) := StartEach(d, cs[1..]);
      if ok {
        assert cs == [cs[0]] + cs[1..];
        SetOfCons(cs[0], cs[1..]);
      } else {
        assert ([cs[0]] + tried)[..|tried|] == [cs[0]] + tried[..|tried| - 1];
        SetOfCons(cs[0], tried[..|tried| - 1]);
      }
    }
  }

  lemma {:induction false} ClearEachEffect(h: Host, cs: seq<Channel>, strict: bool)
    requires Tidy(h)
    ensures var (d, ok) := ClearEach(h, cs, strict);
            && SameLists(h, d) && Tidy(d)
            && h.started - SetOf(cs) <= d.started <= h.started
            && (ok ==> d.started == h.started - SetOf(cs))
    decreases |cs|
  {
    if cs != [] {
      assert cs == [cs[0]] + cs[1..];
      ClearEachEffect(if cs[0] in h.started then StopOne(h, cs[0]) else h, cs[1..], strict);
    }
  }

  lemma RevFacts(xs: seq<Channel>)
    ensures SetOf(Rev(xs)) == SetOf(xs)
    ensures Distinct(xs) ==> Distinct(Rev(xs))
  {
    forall c ensures c in Rev(xs) <==> c in xs {
      if c in xs {
        var i :| 0 <= i < |xs| && xs[i] == c;
        assert Rev(xs)[|xs| - 1 - i] == c;
      }
    }
  }

  /** A plugin's channels may be swapped when they run and no channel is running outside the list. */
  ghost predicate Ready(h: Host, leaving: seq<Channel>) {
    && Tidy(h)
    && Distinct(leaving) && SetOf(leaving) <= h.started <= SetOf(h.channels)
  }

  /** The old channels whose stops were confirmed, and the one whose stop was not. */
  predicate StopsFail(h: Host, leaving: seq<Channel>) {
    !StopEach(h, Rev(leaving)).2
  }

  function Unconfirmed(h: Host, leaving: seq<Channel>): (c: Channel)
    requires Tidy(h) && StopsFail(h, leaving)
    ensures c in leaving
  {
    StopEachEffect(h, Rev(leaving));
    RevFacts(leaving);
    var c := Rev(leaving)[|StopEach(h, Rev(leaving)).1|];
    assert c in SetOf(Rev(leaving));
    c
  }

  lemma UnconfirmedIsNext(h: Host, leaving: seq<Channel>)
    requires Ready(h, leaving) && StopsFail(h, leaving)
    ensures var stopped := StopEach(h, Rev(leaving)).1;
            && |stopped| < |Rev(leaving)| && Rev(leaving)[..|stopped| + 1] == stopped + [Unconfirmed(h, leaving)]
            && Distinct(stopped + [Unconfirmed(h, leaving)])
  {
    RevFacts(leaving);
    StopEachEffect(h, Rev(leaving));
  }

  /** When a stop is not confirmed, only what was stopped before it is started again. */
  lemma RestartsStopped(h: Host, leaving: seq<Channel>)
    requires Ready(h, leaving) && StopsFail(h, leaving)
    ensures var (d, stopped, _) := StopEach(h, Rev(leaving));
            && SameLists(h, d) && Tidy(d) && Distinct(Rev(stopped))
            && (forall c :: c in Rev(stopped) ==> c !in d.started)
            && d.started + SetOf(Rev(stopped)) == h.started - {Unconfirmed(h, leaving)}
  {
    RevFacts(leaving);
    StopEachEffect(h, Rev(leaving));
    UnconfirmedIsNext(h, leaving);
    var (d, stopped, ok) := StopEach(h, Rev(leaving));
    LastApart(stopped, Unconfirmed(h, leaving));
    RevFacts(stopped);
    assert forall c :: c in stopped + [Unconfirmed(h, leaving)] ==> c in Rev(leaving);
    assert forall c :: c in Rev(stopped) ==> c in SetOf(Rev(stopped));
  }

  lemma LastApart(front: seq<Channel>, last: Channel)
    requires Distinct(front + [last])
    ensures Distinct(front) && last !in SetOf(front) && SetOf(front + [last]) == SetOf(front) + {last}
  {
    var all := front + [last];
    assert forall i :: 0 <= i < |front| ==> front[i] == all[i] && all[i] != all[|front|];
  }

  lemma StopPhaseEffect(h: Host, leaving: seq<Channel>)
    requires Ready(h, leaving)
    ensures var (d, stopped, raised) := StopPhase(h, leaving);
            && SameLists(h, d) && Tidy(d)
            && (raised.Nothing? <==> !StopsFail(h, leaving))
            && (raised.Nothing? ==> stopped == Rev(leaving) && d.started == h.started - SetOf(leaving))
            && (raised.Original? ==> d.started == h.started - {Unconfirmed(h, leaving)})
            && (raised.Further? ==> d.started < h.started - {Unconfirmed(h, leaving)})
  {
    if StopsFail(h, leaving) {
      RestartsStopped(h, leaving);
      var (d, stopped, ok) := StopEach(h, Rev(leaving));
      RestoreEachEffect(d, Rev(stopped));
    } else {
      StopEachEffect(h, Rev(leaving));
      RevFacts(leaving);
    }
  }

  lemma StartPhaseEffect(h: Host, entering: seq<Channel>)
    requires Tidy(h) && Distinct(entering) && forall c :: c in entering ==> c !in h.started
    ensures var (d, tried, raised) := StartPhase(h, entering);
            && SameLists(h, d) && Tidy(d)
            && (raised.Nothing? ==> d.started == h.started + SetOf(entering))
            && (raised.Original? ==> d.started == h.started && tried == [])
            && (raised.Further? ==> h.started <= d.started <= h.started + SetOf(tried) && tried <= entering)
  {
    StartEachTries(h, entering);
    StartEachEffect(h, entering);
    var (d, tried, ok) := StartEach(h, entering);
    if !ok {
      RevFacts(tried);
      ClearEachEffect(d, Rev(tried), false);
      assert forall c :: c in tried ==> c in entering;
    }
  }

  lemma RestorePhaseEffect(h: Host, base: set<Channel>, tried: seq<Channel>, stopped: seq<Channel>)
    requires Tidy(h) && Distinct(stopped) && base <= h.started <= base + SetOf(tried)
    requires base !! SetOf(tried) && base !! SetOf(stopped)
    ensures var (d, _, _, raised) := RestorePhase(h, tried, stopped);
            && SameLists(h, d) && Tidy(d)
            && (raised.Nothing? ==> d.started == base + SetOf(stopped))
            && (!raised.Nothing? ==> d.started <= base + SetOf(stopped) + SetOf(tried))
  {
    RevFacts(tried);
    RevFacts(stopped);
    ClearEachEffect(h, Rev(tried), true);
    var (d, cleared) := ClearEach(h, Rev(tried), true);
    if cleared {
      assert d.started == base;
      RestoreEachEffect(d, Rev(stopped));
    }
  }

  lemma NewAreFresh(h: Host, plugin: Plugin, leaving: seq<Channel>, entering: seq<Channel>)
    requires Ready(h, leaving) && Accepts(h, plugin, leaving, entering)
    ensures Distinct(entering)
    ensures SetOf(entering) !! h.started - SetOf(leaving)
  {
    assert forall i, j :: 0 <= i < j < |entering| ==> NamesOf(h.name, entering)[i] != NamesOf(h.name, entering)[j];
  }

  /** All or nothing. Swapped: exactly the new channels replaced the old. Raised again after a rollback:
      nothing but the log differs from before. A failed stop leaves exactly that one channel down;
      and after any failure the list and the bindings are untouched, and nothing new runs beyond what
      could not be stopped. */
  lemma AllOrNothing(h: Host, plugin: Plugin, leaving: seq<Channel>, entering: seq<Channel>)
    requires Ready(h, leaving)
    ensures var (d, v) := Swap(h, plugin, leaving, entering);
            && (v.Conflict? <==> !Accepts(h, plugin, leaving, entering)) && (v.Conflict? ==> d == h)
            && Tidy(d)
            && (v.Swapped? ==>
                  && d.started == h.started - SetOf(leaving) + SetOf(entering)
                  && d.channels == Layout(h.channels, leaving, entering) && d.plugins == h.plugins[plugin := entering])
            && (v.RolledBack? ==> d == h.(log := d.log))
            && (v.StopFailed? ==>
                  && StopsFail(h, leaving) && SameLists(h, d)
                  && d.started == h.started - {Unconfirmed(h, leaving)})
            && (v.Unrestored? ==> SameLists(h, d) && d.started <= h.started + SetOf(entering))
  {
    if Accepts(h, plugin, leaving, entering) {
      NewAreFresh(h, plugin, leaving, entering);
      StopPhaseEffect(h, leaving);
      RevFacts(leaving);
      var (d, stopped, stop) := StopPhase(h, leaving);
      if stop.Nothing? {
        assert forall c :: c in entering ==> c !in d.started by {
          assert forall c :: c in entering ==> c in SetOf(entering);
        }
        StartPhaseEffect(d, entering);
        var (e, tried, start) := StartPhase(d, entering);
        if !start.Nothing? {
          assert forall c :: c in tried ==> c in entering;
          RestorePhaseEffect(e, d.started, tried, stopped);
          assert d.started + SetOf(stopped) == h.started;
        }
      }
    }
  }

  // ---------------------------------------------------------------- the list

  lemma {:induction false} WithoutJoins(a: seq<Channel>, b: seq<Channel>, gone: set<Channel>)
    ensures Without(a + b, gone) == Without(a, gone) + Without(b, gone)
  {
    if a == [] {
      assert a + b == b;
    } else {
      assert (a + b)[1..] == a[1..] + b;
      WithoutJoins(a[1..], b, gone);
    }
  }

  lemma {:induction false} WithoutNone(cs: seq<Channel>, gone: set<Channel>)
    requires forall c :: c in cs ==> c !in gone
    ensures Without(cs, gone) == cs
  {
    if cs != [] {
      WithoutNone(cs[1..], gone);
    }
  }

  lemma {:induction false} WithoutAll(cs: seq<Channel>, gone: set<Channel>)
    requires forall c :: c in cs ==> c in gone
    ensures Without(cs, gone) == []
  {
    if cs != [] {
      WithoutAll(cs[1..], gone);
    }
  }

  lemma {:induction false} WithoutMembers(cs: seq<Channel>, gone: set<Channel>, c: Channel)
    ensures c in Without(cs, gone) <==> c in cs && c !in gone
  {
    if cs != [] {
      WithoutMembers(cs[1..], gone, c);
    }
  }

  lemma {:induction false} RemoveFirstIsWithout(cs: seq<Channel>, c: Channel)
    requires Distinct(cs)
    ensures RemoveFirst(cs, c) == Without(cs, {c})
  {
    if cs != [] {
      if cs[0] == c {
        WithoutNone(cs[1..], {c});
      } else {
        RemoveFirstIsWithout(cs[1..], c);
      }
    }
  }

  lemma {:induction false} WithoutTwice(cs: seq<Channel>, a: set<Channel>, b: set<Channel>)
    ensures Without(Without(cs, a), b) == Without(cs, a + b)
  {
    if cs != [] {
      WithoutTwice(cs[1..], a, b);
    }
  }

  lemma {:induction false} WithoutDistinct(cs: seq<Channel>, gone: set<Channel>)
    requires Distinct(cs)
    ensures Distinct(Without(cs, gone))
  {
    if cs != [] {
      WithoutDistinct(cs[1..], gone);
      WithoutMembers(cs[1..], gone, cs[0]);
    }
  }

  lemma {:induction false} RemoveEachIsWithout(cs: seq<Channel>, leaving: seq<Channel>)
    requires Distinct(cs)
    ensures RemoveEach(cs, leaving) == Without(cs, SetOf(leaving))
    decreases |leaving|
  {
    if leaving == [] {
      WithoutNone(cs, SetOf(leaving));
    } else {
      RemoveFirstIsWithout(cs, leaving[0]);
      WithoutDistinct(cs, {leaving[0]});
      RemoveEachIsWithout(Without(cs, {leaving[0]}), leaving[1..]);
      WithoutTwice(cs, {leaving[0]}, SetOf(leaving[1..]));
      assert leaving == [leaving[0]] + leaving[1..];
      SetOfCons(leaving[0], leaving[1..]);
    }
  }

  ghost predicate NamesApart(name: Channel -> string, cs: seq<Channel>) {
    forall i, j :: 0 <= i < j < |cs| ==> name(cs[i]) != name(cs[j])
  }

  lemma NamesApartJoin(name: Channel -> string, a: seq<Channel>, b: seq<Channel>)
    requires NamesApart(name, a) && NamesApart(name, b)
    requires forall c, d :: c in a && d in b ==> name(c) != name(d)
    ensures NamesApart(name, a + b)
  {
    var cs := a + b;
    forall i, j | 0 <= i < j < |cs| ensures name(cs[i]) != name(cs[j]) {
      if i < |a| <= j {
        assert cs[i] in a && cs[j] in b;
      }
    }
  }

  lemma {:induction false} NamesApartWithout(name: Channel -> string, cs: seq<Channel>, gone: set<Channel>)
    requires NamesApart(name, cs)
    ensures NamesApart(name, Without(cs, gone))
  {
    if cs != [] {
      NamesApartWithout(name, cs[1..], gone);
      var rest := Without(cs[1..], gone);
      forall j | 0 <= j < |rest| ensures name(cs[0]) != name(rest[j]) {
        WithoutMembers(cs[1..], gone, rest[j]);
        var k :| 0 <= k < |cs[1..]| && cs[1..][k] == rest[j];
        assert cs[k + 1] == rest[j];
      }
    }
  }

  lemma KeptParts(cs: seq<Channel>, gone: set<Channel>)
    ensures var m := FirstAt(cs, gone);
            Without(cs, gone) == cs[..m] + Without(cs[m..], gone)
  {
    var m := FirstAt(cs, gone);
    assert cs == cs[..m] + cs[m..];
    WithoutJoins(cs[..m], cs[m..], gone);
    WithoutNone(cs[..m], gone);
  }

  lemma Spliced(front: seq<Channel>, rest: seq<Channel>, block: seq<Channel>)
    ensures (front + rest)[..|front|] + block + (front + rest)[|front|..] == front + block + rest
  {
  }

  lemma LayoutParts(cs: seq<Channel>, leaving: seq<Channel>, entering: seq<Channel>)
    requires Distinct(cs)
    ensures var gone, m := SetOf(leaving), FirstAt(cs, SetOf(leaving));
            && Without(cs, gone) == cs[..m] + Without(cs[m..], gone)
            && Layout(cs, leaving, entering) == cs[..m] + entering + Without(cs[m..], gone)
  {
    var m, gone := FirstAt(cs, SetOf(leaving)), SetOf(leaving);
    RemoveEachIsWithout(cs, leaving);
    KeptParts(cs, gone);
    Spliced(cs[..m], Without(cs[m..], gone), entering);
  }

  lemma WithoutBlock(before: seq<Channel>, block: seq<Channel>, rest: seq<Channel>)
    requires forall c :: c in before + rest ==> c !in block
    ensures Without(before + block + rest, SetOf(block)) == before + rest
  {
    var gone := SetOf(block);
    WithoutJoins(before + block, rest, gone);
    WithoutJoins(before, block, gone);
    assert forall c :: c in before || c in rest ==> c in before + rest;
    WithoutNone(before, gone);
    WithoutNone(rest, gone);
    WithoutAll(block, gone);
  }

  lemma LayoutOrder(cs: seq<Channel>, leaving: seq<Channel>, entering: seq<Channel>)
    requires Distinct(cs) && forall c :: c in cs && c !in leaving ==> c !in entering
    ensures var out, m := Layout(cs, leaving, entering), FirstAt(cs, SetOf(leaving));
            && m + |entering| <= |out|
            && out[..m] == cs[..m] && out[m..m + |entering|] == entering
            && Without(out, SetOf(entering)) == Without(cs, SetOf(leaving))
  {
    var m, gone := FirstAt(cs, SetOf(leaving)), SetOf(leaving);
    LayoutParts(cs, leaving, entering);
    var before, rest := cs[..m], Without(cs[m..], gone);
    forall c | c in before + rest ensures c !in entering {
      WithoutMembers(cs, gone, c);
    }
    WithoutBlock(before, entering, rest);
  }

  lemma LayoutNames(h: Host, plugin: Plugin, leaving: seq<Channel>, entering: seq<Channel>)
    requires NamesApart(h.name, h.channels) && Accepts(h, plugin, leaving, entering)
    ensures NamesApart(h.name, Layout(h.channels, leaving, entering))
  {
    var m, gone := FirstAt(h.channels, SetOf(leaving)), SetOf(leaving);
    LayoutParts(h.channels, leaving, entering);
    var before, rest := h.channels[..m], Without(h.channels[m..], gone);
    NamesApartWithout(h.name, h.channels, gone);
    forall c | c in before || c in rest ensures c in h.channels && c !in leaving {
      assert c in before + rest;
      WithoutMembers(h.channels, gone, c);
    }
    NamesStillApart(h.name, before, entering, rest, NamesOf(h.name, entering));
  }

  /** After a swap the new block stands at the place of the first old channel, or at the end when there
      was none; what stood before it has not moved, all other channels are in their old order, and
      the names are still distinct. */
  lemma LayoutShape(h: Host, plugin: Plugin, leaving: seq<Channel>, entering: seq<Channel>)
    requires NamesApart(h.name, h.channels) && Accepts(h, plugin, leaving, entering)
    ensures var cs, m := Layout(h.channels, leaving, entering), FirstAt(h.channels, SetOf(leaving));
            && m + |entering| <= |cs|
            && cs[..m] == h.channels[..m] && cs[m..m + |entering|] == entering
            && Without(cs, SetOf(entering)) == Without(h.channels, SetOf(leaving))
            && NamesApart(h.name, cs)
  {
    LayoutOrder(h.channels, leaving, entering);
    LayoutNames(h, plugin, leaving, entering);
  }

  lemma NamesStillApart(name: Channel -> string, before: seq<Channel>, entering: seq<Channel>, rest: seq<Channel>,
                        names: seq<string>)
    requires NamesApart(name, before + rest) && names == NamesOf(name, entering) && Distinct(names)
    requires forall c, d :: (c in before || c in rest) && d in entering ==> name(c) != name(d)
    ensures NamesApart(name, before + entering + rest)
  {
    var kept := before + rest;
    forall i, j | 0 <= i < j < |before| ensures name(before[i]) != name(before[j]) {
      assert kept[i] == before[i] && kept[j] == before[j];
    }
    forall i, j | 0 <= i < j < |rest| ensures name(rest[i]) != name(rest[j]) {
      assert kept[|before| + i] == rest[i] && kept[|before| + j] == rest[j];
    }
    forall i, j | 0 <= i < j < |entering| ensures name(entering[i]) != name(entering[j]) {
      assert names[i] != names[j];
    }
    NamesApartJoin(name, before, entering);
    forall c, d | c in before + entering && d in rest ensures name(c) != name(d) {
      if c in before {
        var i :| 0 <= i < |before| && before[i] == c;
        var j :| 0 <= j < |rest| && rest[j] == d;
        assert kept[i] == c && kept[|before| + j] == d;
      }
    }
    NamesApartJoin(name, before + entering, rest);
  }
}
