/** ChatCompletionsRuntime of agent/provider.py: the loops that ask, read, show and assemble, each tied
    to the functions of ChatStream. */
module ChatRuntime {
  import opened ChatStream

  /** The tool slots, one per index that has arrived, hold what that index's fragments join to. */
  ghost predicate Slotted(fs: seq<Fragment>, slots: map<int, Slot>, order: seq<int>) {
    && order == Arrivals(fs)
    && (forall x :: x in slots <==> x in order)
    && forall x :: x in slots ==> slots[x] == Joined(fs, x)
  }

  lemma {:induction false} NeverArrived(fs: seq<Fragment>, x: int)
    requires x !in Arrivals(fs)
    ensures Joined(fs, x) == Slot("", "", "")
    decreases |fs|
  {
    if fs != [] {
      assert fs[|fs| - 1].index == x ==> x in Arrivals(fs);
      NeverArrived(fs[..|fs| - 1], x);
    }
  }

  /** One fragment is added to its slot, which is made when it is the first of its index. */
  method AddFragment(slots: map<int, Slot>, order: seq<int>, f: Fragment, ghost fs: seq<Fragment>)
    returns (slots': map<int, Slot>, order': seq<int>)
    requires Slotted(fs, slots, order)
    ensures Slotted(fs + [f], slots', order')
    ensures var was := if f.index in slots then slots[f.index] else Slot("", "", "");
            && slots'.Keys == slots.Keys + {f.index}
            && slots'[f.index].id == was.id + f.id && slots'[f.index].name == was.name + f.name
            && slots'[f.index].arguments == was.arguments + f.arguments
  {
    assert (fs + [f])[..|fs|] == fs;
    var slot := Slot("", "", "");
    order' := order;
    if f.index in slots {
      slot := slots[f.index];
    } else {
      NeverArrived(fs, f.index);
      order' := order + [f.index];
    }
    slot := Slot(slot.id + f.id, slot.name + f.name, slot.arguments + f.arguments);
    slots' := slots[f.index := slot];
  }

  method AddFragments(slots: map<int, Slot>, order: seq<int>, tools: seq<Fragment>, ghost fs: seq<Fragment>)
    returns (slots': map<int, Slot>, order': seq<int>)
    requires Slotted(fs, slots, order)
    ensures Slotted(fs + tools, slots', order')
  {
    slots', order' := slots, order;
    assert fs + tools[..0] == fs;
    for i := 0 to |tools|
      invariant Slotted(fs + tools[..i], slots', order')
    {
      assert fs + tools[..i + 1] == (fs + tools[..i]) + [tools[i]];
      slots', order' := AddFragment(slots', order', tools[i], fs + tools[..i]);
    }
    assert tools[..|tools|] == tools;
  }

  method SortIndices(order: seq<int>) returns (r: seq<int>)
    ensures r == Sorted(order)
  {
    r := [];
    for i := 0 to |order|
      invariant r == Sorted(order[..i])
    {
      assert order[..i + 1][..i] == order[..i];
      r := Inserted(r, order[i]);
    }
    assert order[..|order|] == order;
  }

  lemma OneCallMore(fs: seq<Fragment>, order: seq<int>, x: int)
    ensures CallsFor(fs, order + [x]) == CallsFor(fs, order) + [CallOf(Joined(fs, x), x)]
  {
  }

  /** The loop over the sorted slots that makes the tool calls. */
  method BuildCalls(slots: map<int, Slot>, order: seq<int>, ghost fs: seq<Fragment>)
    returns (calls: seq<ToolCall>)
    requires Slotted(fs, slots, order)
    ensures calls == Calls(fs)
  {
    var sorted := SortIndices(order);
    calls := [];
    for i := 0 to |sorted|
      invariant calls == CallsFor(fs, sorted[..i])
    {
      assert sorted[..i + 1] == sorted[..i] + [sorted[i]];
      OneCallMore(fs, sorted[..i], sorted[i]);
      assert sorted[i] in order;
      var item := slots[sorted[i]];
      var raw := if item.arguments == "" then "{}" else item.arguments;
      calls := calls + [ToolCall(sorted[i], item.id, item.name, raw)];
    }
    assert sorted[..|sorted|] == sorted;
  }

  lemma {:induction false} PassedUpTo(w: World, n: nat, count: nat, k: nat)
    requires k < count && !w.accepts(n, k) && forall j :: 0 <= j < k ==> w.accepts(n, j)
    ensures Passed(w, n, count) == k + 1
    decreases count
  {
    if count - 1 == k {
      PassedAll(w, n, k);
    } else {
      PassedUpTo(w, n, count - 1, k);
    }
  }

  lemma {:induction false} PassedAll(w: World, n: nat, count: nat)
    requires forall j :: 0 <= j < count ==> w.accepts(n, j)
    ensures Passed(w, n, count) == count
  {
    if count > 0 {
      PassedAll(w, n, count - 1);
    }
  }

  lemma {:induction false} DeltasGrow(cs: seq<Chunk>, i: nat)
    requires i <= |cs|
    ensures Deltas(cs[..i]) <= Deltas(cs)
    decreases |cs|
  {
    if i == |cs| {
      assert cs[..i] == cs;
    } else {
      assert cs[..|cs| - 1][..i] == cs[..i];
      DeltasGrow(cs[..|cs| - 1], i);
    }
  }

  /** What the reading loop has gathered. */
  datatype Gathered = Gathered(content: string, thinking: string, slots: map<int, Slot>, order: seq<int>,
                               toolSeen: bool, deltaSeen: bool)

  ghost predicate Holds(g: Gathered, cs: seq<Chunk>) {
    && g.content == RawContent(cs) && g.thinking == RawThinking(cs)
    && Slotted(Fragments(cs), g.slots, g.order)
    && g.toolSeen == ToolSeen(cs) && g.deltaSeen == AnySeen(cs)
  }

  lemma AnySeenGrows(cs: seq<Chunk>, c: Chunk)
    ensures AnySeen(cs + [c]) <==> AnySeen(cs) || Meaty(c)
  {
    var more := cs + [c];
    if AnySeen(cs) {
      var i :| 0 <= i < |cs| && Meaty(cs[i]);
      assert Meaty(more[i]);
    }
    if Meaty(c) {
      assert Meaty(more[|cs|]);
    }
  }

  /** When the callback raises on the last delta shown so far, exactly those deltas are what Read says. */
  lemma StopsHere(w: World, n: nat, cs: seq<Chunk>, i: nat, shown: seq<Delta>)
    requires i <= |cs| && shown != [] && shown <= Deltas(cs[..i])
    requires !w.accepts(n, |shown| - 1) && forall j :: 0 <= j < |shown| - 1 ==> w.accepts(n, j)
    ensures Refused(w, n, |Deltas(cs)|) && shown == Deltas(cs)[..Passed(w, n, |Deltas(cs)|)]
  {
    DeltasGrow(cs, i);
    PassedUpTo(w, n, |Deltas(cs)|, |shown| - 1);
  }

  lemma ShowsMore(n: nat, shown: seq<Delta>, d: Delta)
    ensures Shows(n, shown + [d]) == Shows(n, shown) + [Show(n, d)]
  {
  }

  class ChatCompletionsRuntime {
    const world: World
    const maxRetries: nat
    var asked: nat
    var trace: seq<Event>

    constructor (world: World, maxRetries: nat)
      ensures this.world == world && this.maxRetries == maxRetries && asked == 0 && trace == []
    {
      this.world, this.maxRetries, asked, trace := world, maxRetries, 0, [];
    }

    method Ask() returns (h: Http)
      modifies this
      ensures h == world.http(old(asked)) && asked == old(asked) + 1 && trace == old(trace) + [Request(old(asked))]
    {
      h := world.http(asked);
      trace := trace + [Request(asked)];
      asked := asked + 1;
    }

    /** One round of the request loop. `rest` is what the loop does from this round on, `next` from the
        round after it. */
    method CreateOnce(attempt: nat, ghost rest: (seq<Event>, Opening))
      returns (again: bool, opening: Opening, ghost next: (seq<Event>, Opening))
      requires attempt <= maxRetries && rest == Create(world, maxRetries, asked, attempt)
      modifies this
      ensures again ==> attempt < maxRetries && next == Create(world, maxRetries, asked, attempt + 1)
      ensures again ==> trace + next.0 == old(trace) + rest.0 && next.1 == rest.1
      ensures again ==> asked + |next.0| == old(asked) + |rest.0|
      ensures !again ==> trace == old(trace) + rest.0 && asked == old(asked) + |rest.0| && opening == rest.1
    {
      var n := asked;
      next, opening := rest, Failed(Cancellation);
      var h := Ask();
      match h
      case Open(s) =>
        return false, Opened(n, s), next;
      case CutOff =>
        return false, opening, next;
      case Refuse(e) =>
        var exhausted := attempt >= maxRetries;
        if e.safety || e.tooLong || !Retryable(e) || exhausted {
          if e.safety {
            return false, Failed(SafetyError), next;
          }
          if e.tooLong {
            return false, Failed(ContextError), next;
          }
          return false, Failed(Surfaced(e)), next;
        }
        next := Create(world, maxRetries, asked, attempt + 1);
        return world.patient(n), opening, next;
    }

    method CreateWithRetry() returns (opening: Opening)
      modifies this
      ensures var (es, o) := Create(world, maxRetries, old(asked), 0);
              opening == o && trace == old(trace) + es && asked == old(asked) + |es|
    {
      ghost var whole := Create(world, maxRetries, asked, 0);
      ghost var rest := whole;
      var attempt := 0;
      while true
        invariant attempt <= maxRetries
        invariant rest == Create(world, maxRetries, asked, attempt)
        invariant trace + rest.0 == old(trace) + whole.0 && rest.1 == whole.1
        invariant asked + |rest.0| == old(asked) + |whole.0|
        decreases maxRetries - attempt
      {
        var again;
        again, opening, rest := CreateOnce(attempt, rest);
        if !again {
          return;
        }
        attempt := attempt + 1;
      }
    }

    /** The caller's callback, with the k-th delta of request n. */
    method ShowDelta(n: nat, k: nat, d: Delta, ghost start: seq<Event>, ghost shown: seq<Delta>) returns (ok: bool)
      requires k == |shown| && trace == start + Shows(n, shown)
      modifies `trace
      ensures trace == start + Shows(n, shown + [d]) && ok == world.accepts(n, k)
    {
      ShowsMore(n, shown, d);
      trace := trace + [Show(n, d)];
      ok := world.accepts(n, k);
    }

    /** The chunk's part of the reading loop. */
    method TakeChunk(n: nat, ghost before: seq<Chunk>, c: Chunk, g: Gathered, k: nat, ghost start: seq<Event>)
      returns (ok: bool, g': Gathered, k': nat, ghost shown: seq<Delta>)
      requires Holds(g, before) && k == |Deltas(before)|
      requires trace == start + Shows(n, Deltas(before))
      requires forall j :: 0 <= j < k ==> world.accepts(n, j)
      modifies `trace
      ensures k' == |shown| && shown <= Deltas(before + [c]) && trace == start + Shows(n, shown)
      ensures ok ==> Holds(g', before + [c]) && shown == Deltas(before + [c])
      ensures ok ==> forall j :: 0 <= j < k' ==> world.accepts(n, j)
      ensures !ok ==> shown != [] && !world.accepts(n, k' - 1) && forall j :: 0 <= j < k' - 1 ==> world.accepts(n, j)
    {
      assert (before + [c])[..|before|] == before;
      SeenBefore(before + [c]);
      AnySeenGrows(before, c);
      g', k', shown := g, k, Deltas(before);
      if c.reasoning != "" {
        g' := g'.(deltaSeen := true, thinking := g'.thinking + c.reasoning);
        if !g'.toolSeen {
          ok := ShowDelta(n, k', Thinking(c.reasoning), start, shown);
          k', shown := k' + 1, shown + [Thinking(c.reasoning)];
          if !ok {
            return;
          }
        }
      }
      if c.tools != [] {
        var slots, order := AddFragments(g'.slots, g'.order, c.tools, Fragments(before));
        g' := g'.(deltaSeen := true, toolSeen := true, slots := slots, order := order);
      } else {
        assert Fragments(before) + c.tools == Fragments(before);
      }
      if c.content != "" {
        g' := g'.(deltaSeen := true, content := g'.content + c.content);
        if !g'.toolSeen {
          ok := ShowDelta(n, k', Content(c.content), start, shown);
          k', shown := k' + 1, shown + [Content(c.content)];
          if !ok {
            return;
          }
        }
      }
      ok := true;
    }

    /** The reading loop up to the end of the stream or the first exception. */
    method ReadChunks(n: nat, s: Stream) returns (ok: bool, g: Gathered)
      modifies `trace
      ensures trace == old(trace) + Shows(n, Read(world, n, s).0)
      ensures ok <==> !Refused(world, n, |Deltas(s.chunks)|)
      ensures ok ==> Holds(g, s.chunks)
    {
      g := Gathered("", "", map[], [], false, false);
      var k := 0;
      ghost var start := trace;
      for i := 0 to |s.chunks|
        invariant Holds(g, s.chunks[..i]) && k == |Deltas(s.chunks[..i])|
        invariant trace == start + Shows(n, Deltas(s.chunks[..i]))
        invariant forall j :: 0 <= j < k ==> world.accepts(n, j)
      {
        assert s.chunks[..i + 1] == s.chunks[..i] + [s.chunks[i]];
        var more;
        ghost var shown;
        ok, g, more, shown := TakeChunk(n, s.chunks[..i], s.chunks[i], g, k, start);
        if !ok {
          StopsHere(world, n, s.chunks, i + 1, shown);
          return;
        }
        k := more;
      }
      assert s.chunks[..|s.chunks|] == s.chunks;
      PassedAll(world, n, k);
      ok := true;
    }

    method ConsumeChatStream(n: nat, s: Stream) returns (reading: Reading)
      modifies `trace
      ensures trace == old(trace) + Shows(n, Read(world, n, s).0) && reading == Read(world, n, s).1
    {
      var ok, g := ReadChunks(n, s);
      if !s.closes {
        return Gone(CloseError);
      }
      if !ok {
        return Gone(CallbackError);
      }
      match s.end
      case Broke(e) =>
        return Interrupted(e, g.deltaSeen);
      case Cut =>
        return Gone(Cancellation);
      case Ended =>
        var calls := BuildCalls(g.slots, g.order, Fragments(s.chunks));
        return Complete(Answer(g.content, g.thinking, calls));
    }

    /** One round of the streaming loop: opens a stream, reads it, and decides whether to go round again.
        `rest` and `next` are as for the request loop. */
    method StreamOnce(attempt: nat, ghost rest: (seq<Event>, Result))
      returns (again: bool, r: Result, ghost next: (seq<Event>, Result))
      requires attempt <= maxRetries && rest == Streaming(world, maxRetries, asked, attempt)
      modifies this
      ensures again ==> attempt < maxRetries && next == Streaming(world, maxRetries, asked, attempt + 1)
      ensures again ==> trace + next.0 == old(trace) + rest.0 && next.1 == rest.1
      ensures !again ==> trace == old(trace) + rest.0 && r == rest.1
    {
      CreateAsks(world, maxRetries, asked, 0);
      ghost var part := Create(world, maxRetries, asked, 0).0;
      next, r := rest, Raised(Cancellation);
      var opening := CreateWithRetry();
      if opening.Failed? {
        return false, Raised(opening.problem), next;
      }
      var n := opening.n;
      part := part + Shows(n, Read(world, n, opening.stream).0);
      var reading := ConsumeChatStream(n, opening.stream);
      assert trace == old(trace) + part;
      match reading
      case Complete(a) =>
        return false, Returned(a), next;
      case Gone(p) =>
        return false, Raised(p), next;
      case Interrupted(e, seen) =>
        var exhausted := attempt >= maxRetries;
        if seen || !Retryable(e) || exhausted {
          return false, Raised(Surfaced(e)), next;
        }
        next := Streaming(world, maxRetries, asked, attempt + 1);
        assert world.patient(n) ==> rest.0 == part + next.0;
        return world.patient(n), r, next;
    }

    method ChatStreaming() returns (r: Result)
      modifies this
      ensures var (es, result) := Streaming(world, maxRetries, old(asked), 0);
              r == result && trace == old(trace) + es
    {
      ghost var whole := Streaming(world, maxRetries, asked, 0);
      ghost var rest := whole;
      var attempt := 0;
      while true
        invariant attempt <= maxRetries
        invariant rest == Streaming(world, maxRetries, asked, attempt)
        invariant trace + rest.0 == old(trace) + whole.0 && rest.1 == whole.1
        decreases maxRetries - attempt
      {
        var again;
        again, r, rest := StreamOnce(attempt, rest);
        if !again {
          return;
        }
        attempt := attempt + 1;
      }
    }
  }
}
