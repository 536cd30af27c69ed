/** Which channel swaps are refused, and in which order the calls of the others are made. */
module SwapOrder {
  import opened ChannelSwap

  /** A swap is refused, and changes nothing, if and only if the plugin's channels are not the ones to be
      replaced, two of the new ones share a name, or one shares it with a channel that stays. */
  lemma RefusedIff(h: Host, plugin: Plugin, leaving: seq<Channel>, entering: seq<Channel>)
    ensures var (d, v) := Swap(h, plugin, leaving, entering);
            var bound := if plugin in h.plugins then h.plugins[plugin] else [];
            && (v.Conflict? <==>
                  || bound != leaving
                  || (exists i, j :: 0 <= i < j < |entering| && h.name(entering[i]) == h.name(entering[j]))
                  || (exists c, e :: c in h.channels && c !in leaving && e in entering && h.name(c) == h.name(e)))
            && (v.Conflict? ==> d == h)
  {
    var names := NamesOf(h.name, entering);
    assert Distinct(names) <==> forall i, j :: 0 <= i < j < |entering| ==> h.name(entering[i]) != h.name(entering[j]) by {
      if Distinct(names) {
        forall i, j | 0 <= i < j < |entering| ensures h.name(entering[i]) != h.name(entering[j]) {
          assert names[i] != names[j];
        }
      }
    }
  }

  /** After a swap the generation it replaced is stale: nobody can swap it out a second time. Other plugins
      keep theirs. */
  lemma StaleIsRefused(h: Host, plugin: Plugin, leaving: seq<Channel>, entering: seq<Channel>,
                       stale: seq<Channel>, next: seq<Channel>)
    requires Swap(h, plugin, leaving, entering).1.Swapped? && stale != entering
    ensures var d := Swap(h, plugin, leaving, entering).0;
            Swap(d, plugin, stale, next) == (d, Conflict)
  {
  }

  // ---------------------------------------------------------------- the order of the calls

  function Stops(cs: seq<Channel>): (r: seq<Call>)
    ensures |r| == |cs| && forall i :: 0 <= i < |r| ==> r[i] == Stop(cs[i], Done)
  {
    seq(|cs|, i requires 0 <= i < |cs| => Stop(cs[i], Done))
  }

  function StartCalls(cs: seq<Channel>): (r: seq<Call>)
    ensures |r| == |cs| && forall i :: 0 <= i < |r| ==> r[i] == Start(cs[i], Done)
  {
    seq(|cs|, i requires 0 <= i < |cs| => Start(cs[i], Done))
  }

  /** The call that ends the stops, if one is not confirmed. */
  function Unconfirmed(h: Host, cs: seq<Channel>, n: nat): seq<Call> {
    if n < |cs| then [Stop(cs[n], h.world(|h.log| + n))] else []
  }

  lemma StopsMore(h: Host, cs: seq<Channel>, stopped: seq<Channel>)
    requires cs != [] && Next(h).Done?
    ensures var one := StopOne(h, cs[0]);
            && one.log + Stops(stopped) == h.log + Stops([cs[0]] + stopped)
            && Unconfirmed(one, cs[1..], |stopped|) == Unconfirmed(h, cs, |stopped| + 1)
  {
  }

  lemma {:induction false} StopsInOrder(h: Host, cs: seq<Channel>)
    ensures var (d, stopped, ok) := StopEach(h, cs);
            && |stopped| <= |cs| && stopped == cs[..|stopped|] && (ok <==> |stopped| == |cs|)
            && d.log == h.log + Stops(stopped) + Unconfirmed(h, cs, |stopped|)
            && (!ok ==> !h.world(|h.log| + |stopped|).Done?)
    decreases |cs|
  {
    if cs == [] {
      assert h.log + Stops(cs) + [] == h.log;
    } else if Next(h).Done? {
      StopsInOrder(StopOne(h, cs[0]), cs[1..]);
      StopsMore(h, cs, StopEach(StopOne(h, cs[0]), cs[1..]).1);
    } else {
      assert h.log + Stops([]) + Unconfirmed(h, cs, 0) == StopOne(h, cs[0]).log;
    }
  }

  lemma {:induction false} StartsInOrder(h: Host, cs: seq<Channel>)
    requires StartEach(h, cs).2
    ensures StartEach(h, cs).0.log == h.log + StartCalls(cs)
    decreases |cs|
  {
    if cs == [] {
      assert h.log + StartCalls(cs) == h.log;
    } else {
      var one := StartOne(h, cs[0]);
      StartsInOrder(one, cs[1..]);
      assert one.log + StartCalls(cs[1..]) == h.log + StartCalls(cs);
    }
  }

  lemma {:induction false} RestartsInOrder(h: Host, cs: seq<Channel>)
    requires RestoreEach(h, cs).1 == 0 && !RestoreEach(h, cs).2
    ensures RestoreEach(h, cs).0.log == h.log + StartCalls(cs)
    decreases |cs|
  {
    if cs == [] {
      assert h.log + StartCalls(cs) == h.log;
    } else {
      var one := StartOne(h, cs[0]);
      RestartsInOrder(one, cs[1..]);
      assert one.log + StartCalls(cs[1..]) == h.log + StartCalls(cs);
    }
  }

  /** A swap that succeeds makes exactly these calls: the old channels are stopped, last first, and then the
      new ones are started, first first. */
  lemma SwapsInOrder(h: Host, plugin: Plugin, leaving: seq<Channel>, entering: seq<Channel>)
    requires Swap(h, plugin, leaving, entering).1.Swapped?
    ensures Swap(h, plugin, leaving, entering).0.log == h.log + Stops(Rev(leaving)) + StartCalls(entering)
  {
    StopsInOrder(h, Rev(leaving));
    StartsInOrder(StopPhase(h, leaving).0, entering);
  }

  /** When a stop is not confirmed, those stopped before it are started again, the last stopped first, and
      nothing else is called. */
  lemma FailedStopInOrder(h: Host, plugin: Plugin, leaving: seq<Channel>, entering: seq<Channel>) returns (n: nat)
    requires Swap(h, plugin, leaving, entering).1.StopFailed?
    ensures n < |leaving|
    ensures var log, stopped := Swap(h, plugin, leaving, entering).0.log, Rev(leaving)[..n];
            && |log| == |h.log| + 2 * n + 1
            && log[..|h.log| + n] == h.log + Stops(stopped)
            && log[|h.log| + n].Stop? && log[|h.log| + n].channel == Rev(leaving)[n] && log[|h.log| + n].outcome != Done
            && log[|h.log| + n + 1..] == StartCalls(Rev(stopped))
  {
    StopsInOrder(h, Rev(leaving));
    var (d, stopped, ok) := StopEach(h, Rev(leaving));
    n := |stopped|;
    RestartsInOrder(d, Rev(stopped));
  }
}
