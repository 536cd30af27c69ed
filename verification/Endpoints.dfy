/** The combined swap of a plugin's services and channels (bootstrap/app.py): channels are stopped before
    the services change and started after, and a failure puts both back. */
module Endpoints {
  import opened ChannelEndings
  import opened ChannelHosting
  import opened ChannelSwap

  /** A plugin's service specifications by id. */
  type Services = map<string, nat>

  /** The service host: what is bound to each plugin. `works(n)` tells whether its n-th swap succeeds. */
  datatype Serving = Serving(works: nat -> bool, bindings: map<Plugin, Services>, swaps: nat)

  function Served(s: Serving, plugin: Plugin): Services {
    if plugin in s.bindings then s.bindings[plugin] else map[]
  }

  /** swap_plugin_services: refuses another generation than the bound one; binds only on success. */
  function SwapServices(s: Serving, plugin: Plugin, from: Services, to: Services): (Serving, bool) {
    if Served(s, plugin) != from then (s, false)
    else if !s.works(s.swaps) then (s.(swaps := s.swaps + 1), false)
    else (s.(bindings := s.bindings[plugin := to], swaps := s.swaps + 1), true)
  }

  function SwapEndpoints(h: Host, s: Serving, plugin: Plugin, oldS: Services, newS: Services,
                         oldC: seq<Channel>, newC: seq<Channel>): (Host, Serving, Verdict) {
    var moving := oldC != newC;
    if moving && !Accepts(h, plugin, oldC, newC) then (h, s, Conflict)
    else
      var (d, stopped, stop) := if moving then StopPhase(h, oldC) else (h, [], Nothing);
      if stop.Original? then (d, s, StopFailed)
      else if stop.Further? then (d, s, Unrestored)
      else
        var (s1, served) := if oldS != newS then SwapServices(s, plugin, oldS, newS) else (s, true);
        var (e, tried, start) :=
          if !served then (d, [], Original)
          else if moving then StartPhase(d, newC)
          else (d, [], Nothing);
        if start.Nothing? then (if moving then CommitSwap(e, plugin, oldC, newC) else e, s1, Swapped)
        else
          var (s2, back) :=
            if served && oldS != newS then SwapServices(s1, plugin, newS, oldS) else (s1, true);
          var (f, _, _, undo) :=
            if moving then RestorePhase(e, tried, stopped) else (e, tried, stopped, Nothing);
          (f, s2, if back && undo.Nothing? then RolledBack else Unrestored)
  }

  /** Every plugin but the swapped one keeps its services, and that one has `now`. */
  ghost predicate Rebound(s: Serving, t: Serving, plugin: Plugin, now: Services) {
    && Served(t, plugin) == now
    && forall other :: other != plugin ==> Served(t, other) == Served(s, other)
  }

  lemma ServicesSwapped(s: Serving, plugin: Plugin, from: Services, to: Services)
    ensures var (t, ok) := SwapServices(s, plugin, from, to);
            Rebound(s, t, plugin, if ok then to else Served(s, plugin))
  {
  }

  /** Services of another generation than the bound one are not swapped out: after a swap, what it replaced is
      stale. A swap that the world lets fail binds nothing. */
  lemma StaleServicesRefused(s: Serving, plugin: Plugin, from: Services, to: Services)
    ensures (if plugin in s.bindings then s.bindings[plugin] else map[]) != from ==>
              SwapServices(s, plugin, from, to) == (s, false)
    ensures SwapServices(s, plugin, from, to).1 && from != to ==>
              SwapServices(SwapServices(s, plugin, from, to).0, plugin, from, to) ==
              (SwapServices(s, plugin, from, to).0, false)
    ensures !SwapServices(s, plugin, from, to).1 ==> SwapServices(s, plugin, from, to).0.bindings == s.bindings
  {
  }

  /** The services part alone: new on success, old again after a rollback, untouched by a channel that
      will not stop; only an incomplete rollback may leave the new ones. */
  lemma ServicesAllOrNothing(h: Host, s: Serving, plugin: Plugin, oldS: Services, newS: Services,
                             oldC: seq<Channel>, newC: seq<Channel>)
    requires Served(s, plugin) == oldS
    ensures var (d, t, v) := SwapEndpoints(h, s, plugin, oldS, newS, oldC, newC);
            && (v.Swapped? ==> Rebound(s, t, plugin, newS))
            && (v.Conflict? || v.StopFailed? || v.RolledBack? ==> Rebound(s, t, plugin, oldS))
            && (v.Unrestored? ==> Rebound(s, t, plugin, oldS) || Rebound(s, t, plugin, newS))
  {
    ServicesSwapped(s, plugin, oldS, newS);
    var (s1, served) := SwapServices(s, plugin, oldS, newS);
    ServicesSwapped(s1, plugin, newS, oldS);
  }

  /** With the services unchanged or not, the channels come out as in a swap of their own: replaced, or
      as they were, or with exactly the channel down that would not stop. */
  lemma ChannelsAllOrNothing(h: Host, s: Serving, plugin: Plugin, oldS: Services, newS: Services,
                             oldC: seq<Channel>, newC: seq<Channel>)
    requires Ready(h, oldC)
    ensures var (d, t, v) := SwapEndpoints(h, s, plugin, oldS, newS, oldC, newC);
            && (v.Swapped? && oldC != newC ==>
                  && d.started == h.started - SetOf(oldC) + SetOf(newC)
                  && d.channels == Layout(h.channels, oldC, newC) && d.plugins == h.plugins[plugin := newC])
            && (oldC == newC || v.Conflict? ==> d == h)
            && (v.RolledBack? ==> d == h.(log := d.log))
            && (v.StopFailed? ==> SameLists(h, d) && d.started == h.started - {Unconfirmed(h, oldC)})
            && (v.Unrestored? ==> SameLists(h, d) && d.started <= h.started + SetOf(newC))
  {
    if oldC != newC && Accepts(h, plugin, oldC, newC) {
      StopPhaseEffect(h, oldC);
      var (d, stopped, stop) := StopPhase(h, oldC);
      if stop.Nothing? {
        var (s1, served) := if oldS != newS then SwapServices(s, plugin, oldS, newS) else (s, true);
        if served {
          StartAndUndo(h, plugin, oldC, newC);
        } else {
          UndoOnly(h, oldC);
        }
      }
    }
  }

  /** Starting the new channels, and the undo if that fails. */
  lemma StartAndUndo(h: Host, plugin: Plugin, oldC: seq<Channel>, newC: seq<Channel>)
    requires Ready(h, oldC) && Accepts(h, plugin, oldC, newC) && !StopsFail(h, oldC)
    ensures var (d, stopped, _) := StopPhase(h, oldC);
            var (e, tried, start) := StartPhase(d, newC);
            && SameLists(h, e)
            && (start.Nothing? ==> e.started == h.started - SetOf(oldC) + SetOf(newC))
            && (!start.Nothing? ==>
                  var (f, _, _, undo) := RestorePhase(e, tried, stopped);
                  && SameLists(h, f)
                  && (undo.Nothing? ==> f.started == h.started && f.resources == h.resources)
                  && f.started <= h.started + SetOf(newC))
  {
    AllOrNothing(h, plugin, oldC, newC);
    StopPhaseEffect(h, oldC);
    NewAreFresh(h, plugin, oldC, newC);
    var (d, stopped, _) := StopPhase(h, oldC);
    assert forall c :: c in newC ==> c in SetOf(newC);
    StartPhaseEffect(d, newC);
  }

  lemma UndoOnly(h: Host, oldC: seq<Channel>)
    requires Ready(h, oldC) && !StopsFail(h, oldC)
    ensures var (d, stopped, _) := StopPhase(h, oldC);
            var (f, _, _, undo) := RestorePhase(d, [], stopped);
            && SameLists(h, f)
            && (undo.Nothing? ==> f.started == h.started && f.resources == h.resources)
            && f.started <= h.started
  {
    StopPhaseEffect(h, oldC);
    RevFacts(oldC);
    var (d, stopped, _) := StopPhase(h, oldC);
    RestorePhaseEffect(d, d.started, [], stopped);
  }

  // ---------------------------------------------------------------- how it ends, by the outside world

  /** The services change: they have to, and the world lets the first of their swaps succeed. */
  predicate ServicesTurn(s: Serving, oldS: Services, newS: Services) {
    oldS == newS || s.works(s.swaps)
  }

  /** After the services were swapped and a new channel failed, they can be swapped back. */
  predicate ServicesTurnBack(s: Serving, oldS: Services, newS: Services) {
    oldS == newS || s.works(s.swaps + 1)
  }

  /** The whole undo works: the channels come back in the way that their failed start needs, or by
      restarts alone when the services failed first; and the services turn back if they had changed. */
  predicate AllUndone(h: Host, s: Serving, oldS: Services, newS: Services, oldC: seq<Channel>, newC: seq<Channel>) {
    if !ServicesTurn(s, oldS, newS) then
      oldC != newC ==> StopsConfirmed(h, oldC) && AllDone(h.world, |h.log| + |oldC|, |oldC|)
    else
      && StopsConfirmed(h, oldC) && UndoWorks(h, oldC, Starts(h, oldC, newC))
      && ServicesTurnBack(s, oldS, newS)
  }

  /** The services' part of a swap that is undone. */
  lemma ServicesByWorld(s: Serving, plugin: Plugin, oldS: Services, newS: Services)
    requires Served(s, plugin) == oldS
    ensures var (s1, served) := if oldS != newS then SwapServices(s, plugin, oldS, newS) else (s, true);
            && (served <==> ServicesTurn(s, oldS, newS))
            && (!served ==> Rebound(s, s1, plugin, oldS))
            && (served ==>
                  var (s2, back) := if oldS != newS then SwapServices(s1, plugin, newS, oldS) else (s1, true);
                  && (back <==> ServicesTurnBack(s, oldS, newS))
                  && (Rebound(s, s2, plugin, oldS) <==> back))
  {
    ServicesSwapped(s, plugin, oldS, newS);
    var (s1, served) := SwapServices(s, plugin, oldS, newS);
    ServicesSwapped(s1, plugin, newS, oldS);
  }

  /** After the services failed nothing new has started: the old channels restart or stay down. */
  lemma RestartsByWorld(h: Host, oldC: seq<Channel>)
    requires Ready(h, oldC) && StopsConfirmed(h, oldC)
    ensures var (d, stopped, _) := StopPhase(h, oldC);
            var (f, _, _, undo) := RestorePhase(d, [], stopped);
            && (undo.Nothing? <==> AllDone(h.world, |h.log| + |oldC|, |oldC|))
            && (undo.Nothing? <==> f.started == h.started)
            && (undo.Nothing? ==> f == h.(log := f.log))
  {
    StopPhaseByWorld(h, oldC);
    StopPhaseEffect(h, oldC);
    StopsFailByWorld(h, oldC);
    RevFacts(oldC);
    var (d, stopped, _) := StopPhase(h, oldC);
    RevFacts(stopped);
    assert Rev<Channel>([]) == [];
    RestoresByWorld(d, Rev(stopped));
    forall c | c in Rev(stopped) ensures c !in d.started {
      assert c in SetOf(Rev(stopped));
    }
    RestoreEachEffect(d, Rev(stopped));
  }

  /** Unless it is the services that fail, the channels go through a swap of their own. */
  lemma ChannelsOnTheirOwn(h: Host, s: Serving, plugin: Plugin, oldS: Services, newS: Services,
                           oldC: seq<Channel>, newC: seq<Channel>)
    requires oldC != newC && Accepts(h, plugin, oldC, newC) && Served(s, plugin) == oldS
    requires ServicesTurn(s, oldS, newS) || !StopPhase(h, oldC).2.Nothing?
    ensures SwapEndpoints(h, s, plugin, oldS, newS, oldC, newC).0 == Swap(h, plugin, oldC, newC).0
  {
    ServicesByWorld(s, plugin, oldS, newS);
  }

  lemma EndpointsSwapped(h: Host, s: Serving, plugin: Plugin, oldS: Services, newS: Services,
                         oldC: seq<Channel>, newC: seq<Channel>)
    requires Served(s, plugin) == oldS
    requires oldC != newC ==> Ready(h, oldC) && Accepts(h, plugin, oldC, newC)
    ensures var v := SwapEndpoints(h, s, plugin, oldS, newS, oldC, newC).2;
            && (v.Swapped? <==> ServicesTurn(s, oldS, newS)
                                && (oldC != newC ==> StopsConfirmed(h, oldC) && Starts(h, oldC, newC) == |newC|))
            && (v.RolledBack? <==> !v.Swapped? && AllUndone(h, s, oldS, newS, oldC, newC))
  {
    ServicesByWorld(s, plugin, oldS, newS);
    if oldC != newC {
      StopPhaseByWorld(h, oldC);
      if StopsConfirmed(h, oldC) {
        StartAndUndoByWorld(h, plugin, oldC, newC);
        RestartsByWorld(h, oldC);
      }
    }
  }

  lemma ServicesReturn(h: Host, s: Serving, plugin: Plugin, oldS: Services, newS: Services,
                       oldC: seq<Channel>, newC: seq<Channel>)
    requires Served(s, plugin) == oldS
    requires oldC != newC ==> Ready(h, oldC) && Accepts(h, plugin, oldC, newC)
    ensures var (d, t, v) := SwapEndpoints(h, s, plugin, oldS, newS, oldC, newC);
            !v.Swapped? ==>
              (Rebound(s, t, plugin, oldS) <==>
               !ServicesTurn(s, oldS, newS) || (oldC != newC && !StopsConfirmed(h, oldC))
               || ServicesTurnBack(s, oldS, newS))
  {
    ServicesByWorld(s, plugin, oldS, newS);
    if oldC != newC {
      StopPhaseByWorld(h, oldC);
    }
  }

  /** When a combined swap that fails leaves channels and services as they were, for every outcome of
      every call: always when the whole undo works; and if an old channel is really replaced, or no
      channel is concerned, only then. Exactly these endings are reported as rolled back. */
  lemma EndpointsRestoredIffUndone(h: Host, s: Serving, plugin: Plugin, oldS: Services, newS: Services,
                                   oldC: seq<Channel>, newC: seq<Channel>)
    requires Served(s, plugin) == oldS
    requires oldC != newC ==> Ready(h, oldC) && Accepts(h, plugin, oldC, newC)
    ensures var (d, t, v) := SwapEndpoints(h, s, plugin, oldS, newS, oldC, newC);
            var good := AllUndone(h, s, oldS, newS, oldC, newC);
            !v.Swapped? ==>
              && (v.RolledBack? <==> good)
              && (good ==> d == h.(log := d.log) && Rebound(s, t, plugin, oldS))
              && (oldC == newC || (exists c :: c in oldC && c !in newC) ==>
                    (d.started == h.started && Rebound(s, t, plugin, oldS) <==> good))
  {
    EndpointsSwapped(h, s, plugin, oldS, newS, oldC, newC);
    ServicesReturn(h, s, plugin, oldS, newS, oldC, newC);
    if oldC != newC {
      StopPhaseByWorld(h, oldC);
      if ServicesTurn(s, oldS, newS) || !StopsConfirmed(h, oldC) {
        ChannelsOnTheirOwn(h, s, plugin, oldS, newS, oldC, newC);
        EndingByWorld(h, plugin, oldC, newC);
        RestoredIffUndone(h, plugin, oldC, newC);
      } else {
        ServicesByWorld(s, plugin, oldS, newS);
        RestartsByWorld(h, oldC);
      }
    }
  }

  class PluginServiceHost {
    const works: nat -> bool
    var bindings: map<Plugin, Services>
    var swaps: nat

    constructor (works: nat -> bool)
      ensures State() == Serving(works, map[], 0)
    {
      this.works := works;
      bindings, swaps := map[], 0;
    }

    ghost function State(): Serving
      reads this
    {
      Serving(works, bindings, swaps)
    }

    method SwapPluginServices(plugin: Plugin, from: Services, to: Services) returns (ok: bool)
      modifies this
      ensures (State(), ok) == SwapServices(old(State()), plugin, from, to)
    {
      var bound := if plugin in bindings then bindings[plugin] else map[];
      if bound != from {
        return false;
      }
      ok := works(swaps);
      swaps := swaps + 1;
      if ok {
        bindings := bindings[plugin := to];
      }
    }
  }

  /** _swap_plugin_endpoints. */
  method SwapPluginEndpoints(host: ChannelHost, services: PluginServiceHost, plugin: Plugin,
                             oldS: Services, newS: Services, oldC: seq<Channel>, newC: seq<Channel>)
    returns (v: Verdict)
    modifies host, services
    ensures (host.State(), services.State(), v) ==
            SwapEndpoints(old(host.State()), old(services.State()), plugin, oldS, newS, oldC, newC)
  {
    var swap: PluginSwap? := null;
    if oldC != newC {
      swap := host.PreparePluginSwap(plugin, oldC, newC);
      if swap == null {
        return Conflict;
      }
      var stop := host.StopPluginSwap(swap);
      if !stop.Nothing? {
        return if stop.Original? then StopFailed else Unrestored;
      }
    }
    var switched, failed := false, false;
    if oldS != newS {
      switched := services.SwapPluginServices(plugin, oldS, newS);
      failed := !switched;
    }
    if !failed && swap != null {
      var start := host.StartPluginSwap(swap);
      failed := !start.Nothing?;
    }
    if failed {
      var back, restored := true, true;
      if switched {
        back := services.SwapPluginServices(plugin, newS, oldS);
      }
      if swap != null {
        var undo := host.RestorePluginSwap(swap);
        restored := undo.Nothing?;
      }
      return if back && restored then RolledBack else Unrestored;
    }
    if swap != null {
      host.CommitPluginSwap(swap);
    }
    return Swapped;
  }
}
