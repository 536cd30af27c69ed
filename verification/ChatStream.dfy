/** The streaming chat request of agent/provider.py: requests retried inside stream attempts that are
    retried themselves, and deltas shown to the caller as they arrive. */
module ChatStream {

  /** A request or read error, with what the classifiers make of it. */
  datatype Err = Err(id: nat, safety: bool, tooLong: bool, timeout: bool, transient: bool)

  /** One tool call fragment; an absent part is an empty string. */
  datatype Fragment = Fragment(index: int, id: string, name: string, arguments: string)

  /** What one chunk carries; an absent part is empty. */
  datatype Chunk = Chunk(reasoning: string, tools: seq<Fragment>, content: string)

  datatype End = Ended | Broke(error: Err) | Cut

  /** A response stream: its chunks, how reading ends after them, and whether closing it succeeds. */
  datatype Stream = Stream(chunks: seq<Chunk>, end: End, closes: bool)

  datatype Http = Open(stream: Stream) | Refuse(error: Err) | CutOff

  /** What happens outside: the n-th request's outcome, whether the caller's callback returns normally
      on the k-th delta of request n, and whether the pause after request n is left alone. */
  datatype World = World(http: nat -> Http, accepts: (nat, nat) -> bool, patient: nat -> bool)

  datatype Delta = Thinking(text: string) | Content(text: string)

  datatype Event = Request(n: nat) | Show(n: nat, delta: Delta)

  datatype Slot = Slot(id: string, name: string, arguments: string)

  datatype ToolCall = ToolCall(index: int, id: string, name: string, arguments: string)

  datatype Answer = Answer(content: string, thinking: string, calls: seq<ToolCall>)

  datatype Problem = SafetyError | ContextError | NetworkTimeout | Original(error: Err)
                   | Cancellation | CallbackError | CloseError

  datatype Opening = Opened(n: nat, stream: Stream) | Failed(problem: Problem)

  datatype Reading = Complete(answer: Answer) | Interrupted(error: Err, seen: bool) | Gone(problem: Problem)

  datatype Result = Returned(answer: Answer) | Raised(problem: Problem)

  predicate Retryable(e: Err) {
    e.timeout || e.transient
  }

  function Surfaced(e: Err): Problem {
    if e.timeout then NetworkTimeout else Original(e)
  }

  // ---------------------------------------------------------------- one stream

  predicate ToolSeen(cs: seq<Chunk>) {
    exists i :: 0 <= i < |cs| && cs[i].tools != []
  }

  predicate Meaty(c: Chunk) {
    c.reasoning != "" || c.tools != [] || c.content != ""
  }

  predicate AnySeen(cs: seq<Chunk>) {
    exists i :: 0 <= i < |cs| && Meaty(cs[i])
  }

  /** The deltas shown for one chunk: reasoning is looked at before the chunk's own tool fragments,
      content after them. */
  function DeltasOf(c: Chunk, toolBefore: bool): seq<Delta> {
    (if c.reasoning != "" && !toolBefore then [Thinking(c.reasoning)] else [])
    + if c.content != "" && !toolBefore && c.tools == [] then [Content(c.content)] else []
  }

  function Deltas(cs: seq<Chunk>): seq<Delta> {
    if cs == [] then []
    else Deltas(cs[..|cs| - 1]) + DeltasOf(cs[|cs| - 1], ToolSeen(cs[..|cs| - 1]))
  }

  function RawContent(cs: seq<Chunk>): string {
    if cs == [] then "" else RawContent(cs[..|cs| - 1]) + cs[|cs| - 1].content
  }

  function RawThinking(cs: seq<Chunk>): string {
    if cs == [] then "" else RawThinking(cs[..|cs| - 1]) + cs[|cs| - 1].reasoning
  }

  function Fragments(cs: seq<Chunk>): seq<Fragment> {
    if cs == [] then [] else Fragments(cs[..|cs| - 1]) + cs[|cs| - 1].tools
  }

  /** The parts of all fragments with one index, joined in arrival order. */
  function Joined(fs: seq<Fragment>, index: int): Slot {
    if fs == [] then Slot("", "", "")
    else
      var s, f := Joined(fs[..|fs| - 1], index), fs[|fs| - 1];
      if f.index != index then s else Slot(s.id + f.id, s.name + f.name, s.arguments + f.arguments)
  }

  ghost predicate Increasing(xs: seq<int>) {
    forall i, j :: 0 <= i < j < |xs| ==> xs[i] < xs[j]
  }

  /** Puts x into an increasing list, once. */
  function Inserted(xs: seq<int>, x: int): (r: seq<int>)
    ensures forall y :: y in r <==> y == x || y in xs
    ensures Increasing(xs) ==> Increasing(r)
  {
    if xs == [] || x < xs[0] then
      [x] + xs
    else if x == xs[0] then xs
    else
      var rest := Inserted(xs[1..], x);
      assert forall j :: 0 <= j < |rest| ==> rest[j] in rest;
      [xs[0]] + rest
  }

  /** sorted() of a list without repetitions. */
  function Sorted(xs: seq<int>): (r: seq<int>)
    ensures Increasing(r)
    ensures forall y :: y in r <==> y in xs
  {
    if xs == [] then []
    else
      assert xs == xs[..|xs| - 1] + [xs[|xs| - 1]];
      Inserted(Sorted(xs[..|xs| - 1]), xs[|xs| - 1])
  }

  /** The indices of the fragments, in the order in which each first arrived. */
  function Arrivals(fs: seq<Fragment>): (r: seq<int>)
    ensures forall x :: x in r <==> exists i :: 0 <= i < |fs| && fs[i].index == x
  {
    if fs == [] then []
    else
      var xs, f := Arrivals(fs[..|fs| - 1]), fs[|fs| - 1];
      assert forall i :: 0 <= i < |fs| - 1 ==> fs[..|fs| - 1][i] == fs[i];
      if f.index in xs then xs else xs + [f.index]
  }

  function CallOf(slot: Slot, index: int): ToolCall {
    ToolCall(index, slot.id, slot.name, if slot.arguments == "" then "{}" else slot.arguments)
  }

  function Calls(fs: seq<Fragment>): seq<ToolCall> {
    CallsFor(fs, Sorted(Arrivals(fs)))
  }

  function CallsFor(fs: seq<Fragment>, order: seq<int>): (calls: seq<ToolCall>)
    ensures |calls| == |order|
    ensures forall k :: 0 <= k < |calls| ==> calls[k] == CallOf(Joined(fs, order[k]), order[k])
  {
    seq(|order|, k requires 0 <= k < |order| => CallOf(Joined(fs, order[k]), order[k]))
  }

  function Assemble(cs: seq<Chunk>): Answer {
    Answer(RawContent(cs), RawThinking(cs), Calls(Fragments(cs)))
  }

  /** How many of `count` deltas are passed to the callback: it is not called again once it raised. */
  function Passed(w: World, n: nat, count: nat): (k: nat)
    ensures k <= count
  {
    if count == 0 then 0
    else
      var k := Passed(w, n, count - 1);
      if k < count - 1 || (k > 0 && !w.accepts(n, k - 1)) then k else count
  }

  predicate Refused(w: World, n: nat, count: nat) {
    exists k :: 0 <= k < count && !w.accepts(n, k)
  }

  /** _consume_chat_stream: what is shown, and how it ends. The stream is closed in every case, and a
      failing close takes the place of whatever happened before. */
  function Read(w: World, n: nat, s: Stream): (seq<Delta>, Reading) {
    var ds := Deltas(s.chunks);
    (ds[..Passed(w, n, |ds|)],
     if !s.closes then Gone(CloseError)
     else if Refused(w, n, |ds|) then Gone(CallbackError)
     else match s.end
       case Ended => Complete(Assemble(s.chunks))
       case Broke(e) => Interrupted(e, AnySeen(s.chunks))
       case Cut => Gone(Cancellation))
  }

  // ---------------------------------------------------------------- the two retry loops

  /** _create_with_retry from its `attempt`-th request on, which has number n. */
  function Create(w: World, max: nat, n: nat, attempt: nat): (seq<Event>, Opening)
    requires attempt <= max
    decreases max - attempt
  {
    match w.http(n)
    case Open(s) => ([Request(n)], Opened(n, s))
    case CutOff => ([Request(n)], Failed(Cancellation))
    case Refuse(e) =>
      if e.safety then ([Request(n)], Failed(SafetyError))
      else if e.tooLong then ([Request(n)], Failed(ContextError))
      else if !Retryable(e) || attempt == max then ([Request(n)], Failed(Surfaced(e)))
      else if !w.patient(n) then ([Request(n)], Failed(Cancellation))
      else
        var (trace, opening) := Create(w, max, n + 1, attempt + 1);
        ([Request(n)] + trace, opening)
  }

  function Shows(n: nat, ds: seq<Delta>): (es: seq<Event>)
    ensures |es| == |ds| && forall i :: 0 <= i < |es| ==> es[i] == Show(n, ds[i])
  {
    seq(|ds|, i requires 0 <= i < |ds| => Show(n, ds[i]))
  }

  /** _chat_streaming from its `attempt`-th stream on; n is the number of the next request. */
  function Streaming(w: World, max: nat, n: nat, attempt: nat): (seq<Event>, Result)
    requires attempt <= max
    decreases max - attempt
  {
    var (asked, opening) := Create(w, max, n, 0);
    match opening
    case Failed(p) => (asked, Raised(p))
    case Opened(m, s) =>
      var (shown, reading) := Read(w, m, s);
      var trace := asked + Shows(m, shown);
      match reading
      case Complete(a) => (trace, Returned(a))
      case Gone(p) => (trace, Raised(p))
      case Interrupted(e, seen) =>
        if seen || !Retryable(e) || attempt == max then (trace, Raised(Surfaced(e)))
        else if !w.patient(m) then (trace, Raised(Cancellation))
        else
          var (more, result) := Streaming(w, max, m + 1, attempt + 1);
          (trace + more, result)
  }

  // ---------------------------------------------------------------- no replay

  /** Consecutive requests numbered from n. */
  ghost predicate Asks(es: seq<Event>, n: nat) {
    forall i :: 0 <= i < |es| ==> es[i] == Request(n + i)
  }

  lemma {:induction false} CreateAsks(w: World, max: nat, n: nat, attempt: nat)
    requires attempt <= max
    ensures var (trace, opening) := Create(w, max, n, attempt);
            && 1 <= |trace| <= max - attempt + 1 && Asks(trace, n)
            && (opening.Opened? ==> opening.n == n + |trace| - 1 && w.http(opening.n) == Open(opening.stream))
    decreases max - attempt
  {
    var h := w.http(n);
    if h.Refuse? && !h.error.safety && !h.error.tooLong && Retryable(h.error) && attempt < max && w.patient(n) {
      CreateAsks(w, max, n + 1, attempt + 1);
    }
  }

  /** A stream in which nothing was seen shows nothing. */
  lemma {:induction false} NothingSeenNothingShown(cs: seq<Chunk>)
    requires !AnySeen(cs)
    ensures Deltas(cs) == []
  {
    if cs != [] {
      var before := cs[..|cs| - 1];
      assert !Meaty(cs[|cs| - 1]);
      forall i | 0 <= i < |before| ensures !Meaty(before[i]) {
        assert before[i] == cs[i];
      }
      NothingSeenNothingShown(before);
    }
  }

  /** The deltas of a trace that begins with `asked` requests, the last of them numbered `last`. */
  ghost predicate ThenShows(es: seq<Event>, asked: nat, last: nat, shown: seq<Delta>) {
    && asked + |shown| == |es|
    && forall i :: asked <= i < |es| ==> es[i] == Show(last, shown[i - asked])
  }

  /** The trace is `asked` consecutive requests, and after them only what the last one's stream shows;
      an answer is that of this stream. */
  ghost predicate AskedThenShown(w: World, n: nat, es: seq<Event>, r: Result, asked: nat) {
    && 1 <= asked <= |es| && Asks(es[..asked], n)
    && ((asked == |es| && r.Raised?) || Final(w, n + asked - 1, es, r, asked))
  }

  ghost predicate NoReplayWithin(w: World, n: nat, es: seq<Event>, r: Result, limit: nat) {
    exists asked: nat :: asked <= limit && AskedThenShown(w, n, es, r, asked)
  }

  ghost predicate Final(w: World, last: nat, es: seq<Event>, r: Result, asked: nat) {
    && w.http(last).Open?
    && var (shown, reading) := Read(w, last, w.http(last).stream);
    && ThenShows(es, asked, last, shown)
    && (r.Returned? ==> reading == Complete(r.answer))
  }

  /** The most requests that a stream attempt and the `left` ones after it can make. */
  function Budget(max: nat, left: nat): nat {
    if left == 0 then max + 1 else max + 1 + Budget(max, left - 1)
  }

  lemma AsksJoin(n: nat, first: seq<Event>, more: seq<Event>)
    requires Asks(first, n) && Asks(more, n + |first|)
    ensures Asks(first + more, n)
  {
  }

  lemma ShowsLater(first: seq<Event>, more: seq<Event>, asked: nat, last: nat, shown: seq<Delta>)
    requires ThenShows(more, asked, last, shown)
    ensures ThenShows(first + more, |first| + asked, last, shown)
  {
  }

  lemma Chained(w: World, n: nat, first: seq<Event>, more: seq<Event>, r: Result, asked: nat)
    requires first != [] && Asks(first, n) && AskedThenShown(w, n + |first|, more, r, asked)
    ensures AskedThenShown(w, n, first + more, r, |first| + asked)
  {
    var es, all := first + more, |first| + asked;
    assert es[..all] == first + more[..asked];
    AsksJoin(n, first, more[..asked]);
    if !(asked == |more| && r.Raised?) {
      assert Final(w, n + all - 1, more, r, asked);
      ShowsLater(first, more, asked, n + all - 1, Read(w, n + all - 1, w.http(n + all - 1).stream).0);
    }
  }

  /** One stream attempt: its requests, and what its stream shows. */
  lemma OneAttempt(w: World, max: nat, n: nat)
    ensures var (first, opening) := Create(w, max, n, 0);
            var shown := if opening.Opened? then Shows(opening.n, Read(w, opening.n, opening.stream).0) else [];
            && first != [] && |first| <= max + 1 && Asks(first, n)
            && forall p: Problem :: AskedThenShown(w, n, first + shown, Raised(p), |first|)
    ensures var (first, opening) := Create(w, max, n, 0);
            opening.Opened? ==>
              var (shown, reading) := Read(w, opening.n, opening.stream);
              reading.Complete? ==>
                AskedThenShown(w, n, first + Shows(opening.n, shown), Returned(reading.answer), |first|)
  {
    CreateAsks(w, max, n, 0);
    var (first, opening) := Create(w, max, n, 0);
    if opening.Opened? {
      var es := first + Shows(opening.n, Read(w, opening.n, opening.stream).0);
      assert es[..|first|] == first;
    } else {
      assert (first + [])[..|first|] == first;
    }
  }

  /** Whether this stream attempt is followed by another one. */
  predicate Retries(w: World, max: nat, n: nat, attempt: nat)
    requires attempt <= max
  {
    var opening := Create(w, max, n, 0).1;
    && opening.Opened?
    && var reading := Read(w, opening.n, opening.stream).1;
    && reading.Interrupted? && !reading.seen && Retryable(reading.error) && attempt < max && w.patient(opening.n)
  }

  /** What is proved of a stream attempt and all after it. */
  ghost predicate Bounded(w: World, max: nat, n: nat, attempt: nat)
    requires attempt <= max
  {
    var (es, r) := Streaming(w, max, n, attempt);
    NoReplayWithin(w, n, es, r, Budget(max, max - attempt))
  }

  /** The number of the first request of the attempt after this one. */
  function NextRequest(w: World, max: nat, n: nat): nat {
    n + |Create(w, max, n, 0).0|
  }

  /** Over all retries: first come all the requests, at most max + 1 for each stream attempt left, and
      then only deltas of the very last request. No request follows a delta. */
  lemma {:induction false} NeverReplays(w: World, max: nat, n: nat, attempt: nat)
    requires attempt <= max
    ensures Bounded(w, max, n, attempt)
    decreases max - attempt
  {
    if attempt < max && Retries(w, max, n, attempt) {
      NeverReplays(w, max, NextRequest(w, max, n), attempt + 1);
      RetryAdds(w, max, n, attempt);
    } else {
      LastAttempt(w, max, n, attempt);
    }
  }

  lemma RetryShowsNothing(w: World, max: nat, n: nat, attempt: nat)
    requires attempt <= max && Retries(w, max, n, attempt)
    ensures Read(w, Create(w, max, n, 0).1.n, Create(w, max, n, 0).1.stream).0 == []
  {
    NothingSeenNothingShown(Create(w, max, n, 0).1.stream.chunks);
  }

  /** A retried attempt adds its requests, and nothing else, in front of what the next ones do. */
  lemma RetryTrace(w: World, max: nat, n: nat, attempt: nat)
    requires attempt < max && Retries(w, max, n, attempt)
    ensures var (more, r) := Streaming(w, max, NextRequest(w, max, n), attempt + 1);
            Streaming(w, max, n, attempt) == (Create(w, max, n, 0).0 + more, r)
  {
    CreateAsks(w, max, n, 0);
    RetryShowsNothing(w, max, n, attempt);
    var (first, opening) := Create(w, max, n, 0);
    assert first + Shows(opening.n, []) == first;
  }

  lemma RetryAdds(w: World, max: nat, n: nat, attempt: nat)
    requires attempt < max && Retries(w, max, n, attempt)
    requires Bounded(w, max, NextRequest(w, max, n), attempt + 1)
    ensures Bounded(w, max, n, attempt)
  {
    CreateAsks(w, max, n, 0);
    RetryTrace(w, max, n, attempt);
    var first := Create(w, max, n, 0).0;
    var (more, r) := Streaming(w, max, n + |first|, attempt + 1);
    var asked: nat :| asked <= Budget(max, max - attempt - 1) && AskedThenShown(w, n + |first|, more, r, asked);
    Chained(w, n, first, more, r, asked);
    assert AskedThenShown(w, n, first + more, r, |first| + asked);
  }

  lemma LastAttempt(w: World, max: nat, n: nat, attempt: nat)
    requires attempt <= max && (attempt == max || !Retries(w, max, n, attempt))
    ensures Bounded(w, max, n, attempt)
  {
    OneAttempt(w, max, n);
    var (first, opening) := Create(w, max, n, 0);
    var (es, r) := Streaming(w, max, n, attempt);
    if opening.Failed? {
      assert es == first + [];
    }
    assert AskedThenShown(w, n, es, r, |first|);
  }

  lemma Distribute(k: int, m: int)
    ensures (k + 1) * m == k * m + m
  {
  }

  lemma {:induction false} BudgetIs(max: nat, left: nat)
    ensures Budget(max, left) == (left + 1) * (max + 1)
  {
    Distribute(left, max + 1);
    if left > 0 {
      BudgetIs(max, left - 1);
    }
  }

  /** The whole call: max + 1 stream attempts of at most max + 1 requests each. */
  lemma NeverReplaysFromStart(w: World, max: nat)
    ensures var (es, r) := Streaming(w, max, 0, 0);
            NoReplayWithin(w, 0, es, r, (max + 1) * (max + 1))
  {
    NeverReplays(w, max, 0, 0);
    BudgetIs(max, max);
  }

  // That many requests can really be made.

  function Phase(n: nat, max: nat): (p: nat)
    ensures p <= max
  {
    if n == 0 || Phase(n - 1, max) == max then 0 else Phase(n - 1, max) + 1
  }

  /** Every last request of an attempt opens a stream that breaks at once; all others fail. */
  function Flaky(max: nat): World {
    var e := Err(0, false, false, false, true);
    World((n: nat) => if Phase(n, max) == max then Open(Stream([], Broke(e), true)) else Refuse(e),
          (n, k) => true, n => true)
  }

  lemma {:induction false} FlakyCreate(max: nat, n: nat, attempt: nat)
    requires attempt <= max && Phase(n, max) == attempt
    ensures var (es, opening) := Create(Flaky(max), max, n, attempt);
            && |es| == max - attempt + 1
            && opening == Opened(n + max - attempt, Stream([], Broke(Err(0, false, false, false, true)), true))
            && Phase(opening.n, max) == max
    decreases max - attempt
  {
    if attempt < max {
      FlakyCreate(max, n + 1, attempt + 1);
    }
  }

  lemma FlakyRead(max: nat, n: nat, s: Stream)
    requires s == Stream([], Broke(Err(0, false, false, false, true)), true)
    ensures Read(Flaky(max), n, s) == ([], Interrupted(Err(0, false, false, false, true), false))
  {
    assert Deltas([]) == [] && !AnySeen([]);
  }

  /** The bound is tight for every retry limit. */
  lemma {:induction false} BudgetCanBeSpent(max: nat, n: nat, attempt: nat)
    requires attempt <= max && Phase(n, max) == 0
    ensures |Streaming(Flaky(max), max, n, attempt).0| == Budget(max, max - attempt)
    decreases max - attempt
  {
    FlakyCreate(max, n, 0);
    var (asked, opening) := Create(Flaky(max), max, n, 0);
    FlakyRead(max, opening.n, opening.stream);
    assert |asked + Shows(opening.n, [])| == max + 1;
    if attempt < max {
      BudgetCanBeSpent(max, opening.n + 1, attempt + 1);
    }
  }

  // ---------------------------------------------------------------- what is shown

  function ContentText(ds: seq<Delta>): string {
    if ds == [] then ""
    else ContentText(ds[..|ds| - 1]) + match ds[|ds| - 1] { case Content(t) => t case Thinking(_) => "" }
  }

  function ThinkingText(ds: seq<Delta>): string {
    if ds == [] then ""
    else ThinkingText(ds[..|ds| - 1]) + match ds[|ds| - 1] { case Thinking(t) => t case Content(_) => "" }
  }

  lemma {:induction false} TextGrows(ds: seq<Delta>, k: nat)
    requires k <= |ds|
    ensures ContentText(ds[..k]) <= ContentText(ds) && ThinkingText(ds[..k]) <= ThinkingText(ds)
    decreases |ds|
  {
    if k == |ds| {
      assert ds[..k] == ds;
    } else {
      assert ds[..|ds| - 1][..k] == ds[..k];
      TextGrows(ds[..|ds| - 1], k);
    }
  }

  lemma TextMore(ds: seq<Delta>, d: Delta)
    ensures ContentText(ds + [d]) == ContentText(ds) + if d.Content? then d.text else ""
    ensures ThinkingText(ds + [d]) == ThinkingText(ds) + if d.Thinking? then d.text else ""
  {
    assert (ds + [d])[..|ds|] == ds;
  }

  lemma TextOfChunk(ds: seq<Delta>, c: Chunk, toolBefore: bool)
    ensures var all := ds + DeltasOf(c, toolBefore);
            && ContentText(all) == ContentText(ds) + (if toolBefore || c.tools != [] then "" else c.content)
            && ThinkingText(all) == ThinkingText(ds) + if toolBefore then "" else c.reasoning
  {
    var r := if c.reasoning != "" && !toolBefore then [Thinking(c.reasoning)] else [];
    var t := if c.content != "" && !toolBefore && c.tools == [] then [Content(c.content)] else [];
    assert ds + DeltasOf(c, toolBefore) == ds + r + t;
    if r != [] {
      TextMore(ds, Thinking(c.reasoning));
    } else {
      assert ds + r == ds;
    }
    if t != [] {
      TextMore(ds + r, Content(c.content));
    } else {
      assert ds + r + t == ds + r;
    }
  }

  lemma SeenBefore(cs: seq<Chunk>)
    requires cs != []
    ensures ToolSeen(cs) <==> ToolSeen(cs[..|cs| - 1]) || cs[|cs| - 1].tools != []
  {
    var before := cs[..|cs| - 1];
    if ToolSeen(before) {
      var i :| 0 <= i < |before| && before[i].tools != [];
      assert cs[i].tools != [];
    }
    if ToolSeen(cs) {
      var i :| 0 <= i < |cs| && cs[i].tools != [];
      assert i < |before| ==> before[i].tools != [];
    }
  }

  /** Until a tool fragment arrives, everything received has been shown. */
  lemma {:induction false} AllShownWithoutTools(cs: seq<Chunk>)
    requires !ToolSeen(cs)
    ensures ContentText(Deltas(cs)) == RawContent(cs) && ThinkingText(Deltas(cs)) == RawThinking(cs)
    decreases |cs|
  {
    if cs != [] {
      var before, c := cs[..|cs| - 1], cs[|cs| - 1];
      SeenBefore(cs);
      AllShownWithoutTools(before);
      TextOfChunk(Deltas(before), c, false);
    }
  }

  lemma {:induction false} DeltasArePrefix(cs: seq<Chunk>)
    ensures ContentText(Deltas(cs)) <= RawContent(cs) && ThinkingText(Deltas(cs)) <= RawThinking(cs)
    decreases |cs|
  {
    if cs != [] {
      var before, c := cs[..|cs| - 1], cs[|cs| - 1];
      TextOfChunk(Deltas(before), c, ToolSeen(before));
      if ToolSeen(before) {
        DeltasArePrefix(before);
      } else {
        AllShownWithoutTools(before);
      }
    }
  }

  /** However reading ends, the text and the reasoning shown are prefixes of what that stream sent; a
      complete answer without tool calls has been shown in full. */
  lemma ShownIsPrefix(w: World, n: nat, s: Stream)
    ensures var (shown, reading) := Read(w, n, s);
            && ContentText(shown) <= RawContent(s.chunks) && ThinkingText(shown) <= RawThinking(s.chunks)
            && (reading.Complete? && reading.answer.calls == [] ==>
                  && ContentText(shown) == reading.answer.content
                  && ThinkingText(shown) == reading.answer.thinking)
  {
    var ds := Deltas(s.chunks);
    var (shown, reading) := Read(w, n, s);
    TextGrows(ds, |shown|);
    DeltasArePrefix(s.chunks);
    if reading.Complete? && reading.answer.calls == [] {
      NotRefused(w, n, |ds|);
      assert shown == ds;
      if ToolSeen(s.chunks) {
        ToolsMakeCalls(s.chunks);
      }
      AllShownWithoutTools(s.chunks);
    }
  }

  lemma {:induction false} NotRefused(w: World, n: nat, count: nat)
    requires !Refused(w, n, count)
    ensures Passed(w, n, count) == count
  {
    if count > 0 {
      assert !Refused(w, n, count - 1) by {
        if k: nat :| k < count - 1 && !w.accepts(n, k) {
          assert false;
        }
      }
      NotRefused(w, n, count - 1);
    }
  }

  lemma ToolsMakeCalls(cs: seq<Chunk>)
    requires ToolSeen(cs)
    ensures Calls(Fragments(cs)) != []
  {
    FragmentsOfTools(cs);
    var fs := Fragments(cs);
    assert fs[0].index in Arrivals(fs);
    assert fs[0].index in Sorted(Arrivals(fs));
  }

  lemma {:induction false} FragmentsOfTools(cs: seq<Chunk>)
    ensures Fragments(cs) == [] <==> !ToolSeen(cs)
    decreases |cs|
  {
    if cs != [] {
      SeenBefore(cs);
      FragmentsOfTools(cs[..|cs| - 1]);
    }
  }

  // ---------------------------------------------------------------- tool calls

  function Both(a: Slot, b: Slot): Slot {
    Slot(a.id + b.id, a.name + b.name, a.arguments + b.arguments)
  }

  /** Fragments of one index are joined in order, wherever the others fall between them and wherever the
      sequence is cut. */
  lemma {:induction false} JoinedInOrder(a: seq<Fragment>, b: seq<Fragment>, index: int)
    ensures Joined(a + b, index) == Both(Joined(a, index), Joined(b, index))
    decreases |b|
  {
    if b == [] {
      assert a + b == a;
    } else {
      assert (a + b)[..|a + b| - 1] == a + b[..|b| - 1];
      JoinedInOrder(a, b[..|b| - 1], index);
    }
  }

  /** The fragments of one index, in arrival order. */
  function Own(fs: seq<Fragment>, index: int): seq<Fragment> {
    if fs == [] then []
    else Own(fs[..|fs| - 1], index) + if fs[|fs| - 1].index == index then [fs[|fs| - 1]] else []
  }

  function Ids(fs: seq<Fragment>): string {
    if fs == [] then "" else Ids(fs[..|fs| - 1]) + fs[|fs| - 1].id
  }

  function Names(fs: seq<Fragment>): string {
    if fs == [] then "" else Names(fs[..|fs| - 1]) + fs[|fs| - 1].name
  }

  function Arguments(fs: seq<Fragment>): string {
    if fs == [] then "" else Arguments(fs[..|fs| - 1]) + fs[|fs| - 1].arguments
  }

  /** Each part of a slot is that part of the index's own fragments, joined, and nothing else. */
  lemma {:induction false} PartsStayApart(fs: seq<Fragment>, index: int)
    ensures var own := Own(fs, index);
            && Joined(fs, index).id == Ids(own)
            && Joined(fs, index).name == Names(own)
            && Joined(fs, index).arguments == Arguments(own)
  {
    if fs != [] {
      var front, f := fs[..|fs| - 1], fs[|fs| - 1];
      PartsStayApart(front, index);
      if f.index == index {
        assert (Own(front, index) + [f])[..|Own(front, index)|] == Own(front, index);
      } else {
        assert Own(fs, index) == Own(front, index);
      }
    }
  }

  /** What one fragment contributes to its own index, and to any other. */
  lemma OneFragment(f: Fragment, index: int)
    ensures Joined([f], index) == if f.index == index then Slot(f.id, f.name, f.arguments) else Slot("", "", "")
  {
    assert [f][..0] == [];
    assert Joined([], index) == Slot("", "", "");
    assert Slot("" + f.id, "" + f.name, "" + f.arguments) == Slot(f.id, f.name, f.arguments);
  }

  ghost predicate Arrived(fs: seq<Fragment>, index: int) {
    exists i :: 0 <= i < |fs| && fs[i].index == index
  }

  /** Exactly one call for each index that occurred, in increasing index order. Its id, its name and its
      arguments are those of that index's fragments, each joined in arrival order; no arguments are "{}". */
  lemma OneCallPerIndex(fs: seq<Fragment>)
    ensures var calls := Calls(fs);
            && (forall i, j :: 0 <= i < j < |calls| ==> calls[i].index < calls[j].index)
            && (forall x :: Arrived(fs, x) <==> exists k :: 0 <= k < |calls| && calls[k].index == x)
            && (forall k :: 0 <= k < |calls| ==>
                  var own := Own(fs, calls[k].index);
                  && calls[k].id == Ids(own) && calls[k].name == Names(own)
                  && calls[k].arguments == if Arguments(own) == "" then "{}" else Arguments(own))
  {
    forall x ensures Joined(fs, x) == Slot(Ids(Own(fs, x)), Names(Own(fs, x)), Arguments(Own(fs, x))) {
      PartsStayApart(fs, x);
    }
    var order := Sorted(Arrivals(fs));
    var calls := CallsFor(fs, order);
    forall x ensures Arrived(fs, x) <==> exists k :: 0 <= k < |calls| && calls[k].index == x {
      assert Arrived(fs, x) <==> x in Arrivals(fs);
      if x in order {
        var k :| 0 <= k < |order| && order[k] == x;
        assert calls[k].index == x;
      }
    }
  }
}
