/** ChannelHost of bootstrap/channel_host.py, as methods that change the host in place; each is tied to the
    functions of ChannelSwap. */
module ChannelHosting {
  import opened ChannelSwap

  /** The record of one swap: which old channels have been stopped, which new ones tried. */
  class PluginSwap {
    const plugin: Plugin
    const oldChannels: seq<Channel>
    const newChannels: seq<Channel>
    const oldPositions: seq<nat>
    var stoppedOld: seq<Channel>
    var startedNew: seq<Channel>

    constructor (plugin: Plugin, oldChannels: seq<Channel>, newChannels: seq<Channel>, oldPositions: seq<nat>)
      ensures this.plugin == plugin && this.oldChannels == oldChannels && this.newChannels == newChannels
      ensures this.oldPositions == oldPositions && stoppedOld == [] && startedNew == []
    {
      this.plugin, this.oldChannels, this.newChannels := plugin, oldChannels, newChannels;
      this.oldPositions := oldPositions;
      stoppedOld, startedNew := [], [];
    }
  }

  /** The positions a swap notes down name the first old channel. */
  ghost predicate Positions(cs: seq<Channel>, leaving: seq<Channel>, at: seq<nat>) {
    && (at == [] <==> FirstAt(cs, SetOf(leaving)) == |cs|)
    && (at != [] ==> FirstAt(cs, SetOf(leaving)) in at)
    && forall p :: p in at ==> FirstAt(cs, SetOf(leaving)) <= p
  }

  class ChannelHost {
    const name: Channel -> string
    const world: nat -> Outcome
    var channels: seq<Channel>
    var plugins: map<Plugin, seq<Channel>>
    var resources: set<Channel>
    var started: set<Channel>
    var log: seq<Call>

    constructor (name: Channel -> string, world: nat -> Outcome)
      ensures State() == Host(name, world, [], map[], {}, {}, [])
    {
      this.name, this.world := name, world;
      channels, plugins, resources, started, log := [], map[], {}, {}, [];
    }

    ghost function State(): Host
      reads this
    {
      Host(name, world, channels, plugins, resources, started, log)
    }

    method StopChannel(c: Channel) returns (o: Outcome)
      modifies `resources, `started, `log
      ensures o == Next(old(State())) && State() == StopOne(old(State()), c)
    {
      o := world(|log|);
      log := log + [Stop(c, o)];
      resources := resources - {c};
      started := started - {c};
    }

    method StartChannel(c: Channel) returns (o: Outcome)
      modifies `resources, `started, `log
      ensures o == Next(old(State())) && State() == StartOne(old(State()), c)
    {
      resources := resources + {c};
      o := world(|log|);
      log := log + [Start(c, o)];
      if !o.Done? {
        log := log + [Stop(c, world(|log|))];
        resources := resources - {c};
        assert resources == old(resources) - {c};
        return;
      }
      started := started + {c};
    }

    method RestoreChannels(cs: seq<Channel>) returns (errors: nat, cancelled: bool)
      modifies `resources, `started, `log
      ensures (State(), errors, cancelled) == RestoreEach(old(State()), cs)
    {
      errors, cancelled := 0, false;
      ghost var rest := cs;
      for i := 0 to |cs|
        invariant rest == cs[i..] && !cancelled
        invariant var (d, more, stop) := RestoreEach(State(), rest);
                  RestoreEach(old(State()), cs) == (d, errors + more, stop)
      {
        var o := StartChannel(cs[i]);
        rest := rest[1..];
        if o.Cancelled? {
          return errors, true;
        }
        if o.Failed? {
          errors := errors + 1;
        }
      }
    }

    method PreparePluginSwap(plugin: Plugin, oldChannels: seq<Channel>, newChannels: seq<Channel>)
      returns (swap: PluginSwap?)
      ensures swap == null <==> !Accepts(State(), plugin, oldChannels, newChannels)
      ensures swap != null ==>
                && fresh(swap)
                && swap.plugin == plugin && swap.oldChannels == oldChannels && swap.newChannels == newChannels
                && swap.stoppedOld == [] && swap.startedNew == []
                && Positions(channels, oldChannels, swap.oldPositions)
    {
      var current := if plugin in plugins then plugins[plugin] else [];
      if current != oldChannels {
        return null;
      }
      var newNames := NamesOf(name, newChannels);
      var retained := set c | c in channels && c !in oldChannels :: name(c);
      var taken := set d | d in newChannels :: name(d);
      NoClash(State(), oldChannels, newChannels);
      if !Distinct(newNames) || retained * taken != {} {
        return null;
      }
      var at := Index(channels, oldChannels);
      swap := new PluginSwap(plugin, oldChannels, newChannels, at);
    }

    method StopPluginSwap(swap: PluginSwap) returns (raised: Raised)
      requires swap.stoppedOld == []
      modifies `resources, `started, `log, swap`stoppedOld
      ensures (State(), swap.stoppedOld, raised) == StopPhase(old(State()), swap.oldChannels)
    {
      var order := Rev(swap.oldChannels);
      ghost var rest := order;
      ghost var whole := StopEach(State(), order);
      raised := Nothing;
      for i := 0 to |order|
        invariant rest == order[i..]
        invariant StopEach(State(), rest).0 == whole.0 && StopEach(State(), rest).2 == whole.2
        invariant swap.stoppedOld + StopEach(State(), rest).1 == whole.1
      {
        ghost var more := StopEach(StopOne(State(), order[i]), rest[1..]).1;
        assert (swap.stoppedOld + [order[i]]) + more == swap.stoppedOld + ([order[i]] + more);
        var o := StopChannel(order[i]);
        rest := rest[1..];
        if !o.Done? {
          assert swap.stoppedOld == whole.1;
          var errors, cancelled := RestoreChannels(Rev(swap.stoppedOld));
          if cancelled {
            return Further;
          }
          swap.stoppedOld := [];
          return if errors > 0 then Further else Original;
        }
        swap.stoppedOld := swap.stoppedOld + [order[i]];
      }
      assert swap.stoppedOld == whole.1;
    }

    method ClearStarted(swap: PluginSwap, strict: bool) returns (cleared: bool)
      modifies `resources, `started, `log
      ensures (State(), cleared) == ClearEach(old(State()), Rev(swap.startedNew), strict)
    {
      var order := Rev(swap.startedNew);
      ghost var rest := order;
      for i := 0 to |order|
        invariant rest == order[i..]
        invariant ClearEach(State(), rest, strict) == ClearEach(old(State()), order, strict)
      {
        rest := rest[1..];
        if order[i] in started {
          var o := StopChannel(order[i]);
          if o.Cancelled? || (strict && o.Failed?) {
            return false;
          }
        }
      }
      return true;
    }

    /** The loop of start_plugin_swap: notes each new channel down before starting it. */
    method StartNew(swap: PluginSwap) returns (ok: bool)
      requires swap.startedNew == []
      modifies `resources, `started, `log, swap`startedNew
      ensures (State(), swap.startedNew, ok) == StartEach(old(State()), swap.newChannels)
    {
      ghost var rest := swap.newChannels;
      ghost var whole := StartEach(State(), rest);
      for i := 0 to |swap.newChannels|
        invariant rest == swap.newChannels[i..]
        invariant StartEach(State(), rest).0 == whole.0 && StartEach(State(), rest).2 == whole.2
        invariant swap.startedNew + StartEach(State(), rest).1 == whole.1
      {
        ghost var more := StartEach(StartOne(State(), rest[0]), rest[1..]).1;
        assert (swap.startedNew + [rest[0]]) + more == swap.startedNew + ([rest[0]] + more);
        swap.startedNew := swap.startedNew + [swap.newChannels[i]];
        var o := StartChannel(swap.newChannels[i]);
        rest := rest[1..];
        if !o.Done? {
          return false;
        }
      }
      assert swap.startedNew == whole.1;
      return true;
    }

    method StartPluginSwap(swap: PluginSwap) returns (raised: Raised)
      requires swap.startedNew == []
      modifies `resources, `started, `log, swap`startedNew
      ensures (State(), swap.startedNew, raised) == StartPhase(old(State()), swap.newChannels)
    {
      var ok := StartNew(swap);
      if ok {
        return Nothing;
      }
      var cleared := ClearStarted(swap, false);
      if !cleared {
        return Further;
      }
      swap.startedNew := [];
      return Original;
    }

    method RestorePluginSwap(swap: PluginSwap) returns (raised: Raised)
      modifies `resources, `started, `log, swap`startedNew, swap`stoppedOld
      ensures (State(), swap.startedNew, swap.stoppedOld, raised) ==
              RestorePhase(old(State()), old(swap.startedNew), old(swap.stoppedOld))
    {
      var cleared := ClearStarted(swap, true);
      if !cleared {
        return Original;
      }
      swap.startedNew := [];
      var errors, cancelled := RestoreChannels(Rev(swap.stoppedOld));
      if cancelled {
        return Further;
      }
      swap.stoppedOld := [];
      return if errors > 0 then Further else Nothing;
    }

    method RemoveOld(swap: PluginSwap)
      modifies `channels
      ensures channels == RemoveEach(old(channels), swap.oldChannels)
    {
      ghost var rest := swap.oldChannels;
      for i := 0 to |swap.oldChannels|
        invariant rest == swap.oldChannels[i..]
        invariant RemoveEach(channels, rest) == RemoveEach(old(channels), swap.oldChannels)
      {
        rest := rest[1..];
        channels := RemoveFirst(channels, swap.oldChannels[i]);
      }
    }

    /** list.insert at consecutive indices; an index past the end appends. */
    method InsertNew(swap: PluginSwap, insertAt: nat)
      modifies `channels
      ensures var kept := old(channels);
              channels == if insertAt <= |kept| then kept[..insertAt] + swap.newChannels + kept[insertAt..]
                          else kept + swap.newChannels
    {
      ghost var kept := channels;
      for i := 0 to |swap.newChannels|
        invariant channels ==
                  if insertAt <= |kept| then kept[..insertAt] + swap.newChannels[..i] + kept[insertAt..]
                  else kept + swap.newChannels[..i]
      {
        var at := if insertAt + i <= |channels| then insertAt + i else |channels|;
        channels := channels[..at] + [swap.newChannels[i]] + channels[at..];
        assert swap.newChannels[..i + 1] == swap.newChannels[..i] + [swap.newChannels[i]];
      }
      assert swap.newChannels[..|swap.newChannels|] == swap.newChannels;
    }

    method CommitPluginSwap(swap: PluginSwap)
      requires Positions(channels, swap.oldChannels, swap.oldPositions)
      modifies `channels, `plugins
      ensures State() == CommitSwap(old(State()), swap.plugin, swap.oldChannels, swap.newChannels)
    {
      ghost var before := channels;
      RemoveOld(swap);
      var insertAt := Least(swap.oldPositions, |channels|);
      if swap.oldPositions == [] {
        assert forall c :: c in swap.oldChannels ==> c in SetOf(swap.oldChannels);
        RemovesNone(before, swap.oldChannels);
      }
      assert insertAt == FirstAt(before, SetOf(swap.oldChannels));
      InsertNew(swap, insertAt);
      plugins := plugins[swap.plugin := swap.newChannels];
    }

    method SwapPluginChannels(plugin: Plugin, oldChannels: seq<Channel>, newChannels: seq<Channel>)
      returns (v: Verdict)
      modifies this
      ensures (State(), v) == Swap(old(State()), plugin, oldChannels, newChannels)
    {
      var swap := PreparePluginSwap(plugin, oldChannels, newChannels);
      if swap == null {
        return Conflict;
      }
      var stop := StopPluginSwap(swap);
      if !stop.Nothing? {
        return if stop.Original? then StopFailed else Unrestored;
      }
      var start := StartPluginSwap(swap);
      if !start.Nothing? {
        var undo := RestorePluginSwap(swap);
        return if undo.Nothing? then RolledBack else Unrestored;
      }
      CommitPluginSwap(swap);
      return Swapped;
    }
  }

  method Least(at: seq<nat>, default: nat) returns (m: nat)
    ensures at == [] ==> m == default
    ensures at != [] ==> m in at && forall p :: p in at ==> m <= p
  {
    if at == [] {
      return default;
    }
    m := at[0];
    for i := 1 to |at|
      invariant m in at && forall k :: 0 <= k < i ==> m <= at[k]
    {
      if at[i] < m {
        m := at[i];
      }
    }
  }

  lemma {:induction false} KeepsAll(cs: seq<Channel>, c: Channel)
    requires c !in cs
    ensures RemoveFirst(cs, c) == cs
  {
    if cs != [] {
      KeepsAll(cs[1..], c);
    }
  }

  lemma {:induction false} RemovesNone(cs: seq<Channel>, leaving: seq<Channel>)
    requires forall c :: c in leaving ==> c !in cs
    ensures RemoveEach(cs, leaving) == cs
    decreases |leaving|
  {
    if leaving != [] {
      KeepsAll(cs, leaving[0]);
      RemovesNone(cs, leaving[1..]);
    }
  }

  lemma NoClash(h: Host, leaving: seq<Channel>, entering: seq<Channel>)
    ensures (set c | c in h.channels && c !in leaving :: h.name(c)) * (set d | d in entering :: h.name(d)) == {} <==>
            forall c, d :: c in h.channels && c !in leaving && d in entering ==> h.name(c) != h.name(d)
  {
    var retained, taken := set c | c in h.channels && c !in leaving :: h.name(c), set d | d in entering :: h.name(d);
    forall c, d | c in h.channels && c !in leaving && d in entering && h.name(c) == h.name(d)
      ensures h.name(c) in retained * taken
    {
    }
  }

  method Index(cs: seq<Channel>, leaving: seq<Channel>) returns (at: seq<nat>)
    ensures Positions(cs, leaving, at)
  {
    at := [];
    ghost var m := FirstAt(cs, SetOf(leaving));
    for i := 0 to |leaving|
      invariant forall k :: 0 <= k < |at| ==> m <= at[k] < |cs|
      invariant m < |cs| && cs[m] in leaving[..i] ==> m in at
    {
      if leaving[i] in cs {
        var p := 0;
        while cs[p] != leaving[i]
          invariant p < |cs| && leaving[i] in cs[p..]
          invariant forall k :: 0 <= k < p ==> cs[k] != leaving[i]
          decreases |cs| - p
        {
          p := p + 1;
        }
        at := at + [p];
      }
    }
    assert leaving[..|leaving|] == leaving;
    assert m < |cs| ==> cs[m] in SetOf(leaving);
    assert at != [] ==> m <= at[0] < |cs|;
  }
}
