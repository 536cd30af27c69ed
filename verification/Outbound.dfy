/** Sending one outbound message to its subscribers (bus/queue.py, _send_outbound): each callback gets
    the original message, once more after a failure, and, for messages nobody awaits, a fallback text. */
module Outbound {

  /** How one subscriber's callback answers the original message, its repetition and the fallback. */
  datatype Answers = Answers(first: bool, second: bool, fallback: bool)

  /** One call of callback `cb`, with the original message or the fallback text. */
  datatype Call = Call(cb: nat, original: bool, ok: bool)

  predicate Served(a: Answers) {
    a.first || a.second
  }

  /** The receipt: there is a subscriber, and every one took the original message. */
  predicate Delivered(subscribers: seq<Answers>) {
    subscribers != [] && forall i :: 0 <= i < |subscribers| ==> Served(subscribers[i])
  }

  function CallsTo(cb: nat, a: Answers, fallbackAllowed: bool): seq<Call> {
    [Call(cb, true, a.first)]
    + (if a.first then []
       else [Call(cb, true, a.second)]
            + (if a.second || !fallbackAllowed then [] else [Call(cb, false, a.fallback)]))
  }

  function Calls(subscribers: seq<Answers>, fallbackAllowed: bool): seq<Call> {
    if subscribers == [] then []
    else
      var n := |subscribers| - 1;
      Calls(subscribers[..n], fallbackAllowed) + CallsTo(n, subscribers[n], fallbackAllowed)
  }

  method SendOutbound(subscribers: seq<Answers>, fallbackAllowed: bool)
      returns (delivered: bool, calls: seq<Call>)
    ensures delivered == Delivered(subscribers)
    ensures calls == Calls(subscribers, fallbackAllowed)
  {
    calls := [];
    if subscribers == [] {
      return false, calls;
    }
    delivered := true;
    var i := 0;
    while i < |subscribers|
      invariant 0 <= i <= |subscribers|
      invariant delivered <==> forall j :: 0 <= j < i ==> Served(subscribers[j])
      invariant calls == Calls(subscribers[..i], fallbackAllowed)
    {
      var a := subscribers[i];
      assert subscribers[..i + 1][..i] == subscribers[..i];
      ghost var before := calls;
      calls := calls + [Call(i, true, a.first)];
      if !a.first {
        calls := calls + [Call(i, true, a.second)];
        if !a.second {
          delivered := false;
          if fallbackAllowed {
            calls := calls + [Call(i, false, a.fallback)];
          }
        }
      }
      assert calls == before + CallsTo(i, a, fallbackAllowed);
      i := i + 1;
    }
    assert subscribers[..i] == subscribers;
  }

  lemma CallsToOne(cb: nat, a: Answers, fallbackAllowed: bool)
    ensures var calls := CallsTo(cb, a, fallbackAllowed); forall i :: 0 <= i < |calls| ==> calls[i].cb == cb
    ensures forall c :: c in CallsTo(cb, a, fallbackAllowed) ==> c.cb == cb
  {
  }

  /** The calls of one callback, in order. */
  function CallsOf(calls: seq<Call>, cb: nat): seq<Call> {
    if calls == [] then []
    else CallsOf(calls[..|calls| - 1], cb) + if calls[|calls| - 1].cb == cb then [calls[|calls| - 1]] else []
  }

  lemma {:induction false} CallsOfJoin(a: seq<Call>, b: seq<Call>, cb: nat)
    ensures CallsOf(a + b, cb) == CallsOf(a, cb) + CallsOf(b, cb)
    decreases |b|
  {
    if b == [] {
      assert a + b == a;
    } else {
      assert (a + b)[..|a + b| - 1] == a + b[..|b| - 1];
      CallsOfJoin(a, b[..|b| - 1], cb);
    }
  }

  lemma {:induction false} CallsOfOne(calls: seq<Call>, cb: nat, only: nat)
    requires forall i :: 0 <= i < |calls| ==> calls[i].cb == only
    ensures CallsOf(calls, cb) == if only == cb then calls else []
  {
    if calls != [] {
      assert calls[..|calls| - 1] + [calls[|calls| - 1]] == calls;
      CallsOfOne(calls[..|calls| - 1], cb, only);
    }
  }

  lemma LastCallback(before: seq<Call>, n: nat, a: Answers, fallbackAllowed: bool, cb: nat)
    ensures CallsOf(before + CallsTo(n, a, fallbackAllowed), cb) ==
            CallsOf(before, cb) + if cb == n then CallsTo(n, a, fallbackAllowed) else []
  {
    CallsToOne(n, a, fallbackAllowed);
    CallsOfJoin(before, CallsTo(n, a, fallbackAllowed), cb);
    CallsOfOne(CallsTo(n, a, fallbackAllowed), cb, n);
  }

  lemma {:induction false} CallsByCallback(subscribers: seq<Answers>, fallbackAllowed: bool, cb: nat)
    ensures CallsOf(Calls(subscribers, fallbackAllowed), cb) ==
            if cb < |subscribers| then CallsTo(cb, subscribers[cb], fallbackAllowed) else []
  {
    if subscribers != [] {
      var n := |subscribers| - 1;
      CallsByCallback(subscribers[..n], fallbackAllowed, cb);
      LastCallback(Calls(subscribers[..n], fallbackAllowed), n, subscribers[n], fallbackAllowed, cb);
    }
  }

  lemma {:induction false} InCallsOf(calls: seq<Call>, c: Call)
    ensures c in calls <==> c in CallsOf(calls, c.cb)
  {
    if calls != [] {
      InCallsOf(calls[..|calls| - 1], c);
      assert calls == calls[..|calls| - 1] + [calls[|calls| - 1]];
    }
  }

  lemma CallsIndexed(subscribers: seq<Answers>, fallbackAllowed: bool, c: Call)
    ensures c in Calls(subscribers, fallbackAllowed) <==>
              c.cb < |subscribers| && c in CallsTo(c.cb, subscribers[c.cb], fallbackAllowed)
  {
    InCallsOf(Calls(subscribers, fallbackAllowed), c);
    CallsByCallback(subscribers, fallbackAllowed, c.cb);
  }

  /** Delivered means, call by call: every subscriber has taken the original message itself. A fallback
      goes only to a subscriber that failed it twice, and never when the caller awaits the receipt. */
  lemma DeliveredByCalls(subscribers: seq<Answers>, fallbackAllowed: bool)
    ensures Delivered(subscribers) <==>
              subscribers != []
              && forall i: nat :: i < |subscribers| ==> Call(i, true, true) in Calls(subscribers, fallbackAllowed)
    ensures forall c :: c in Calls(subscribers, fallbackAllowed) && !c.original ==>
                          fallbackAllowed && c.cb < |subscribers| && !Served(subscribers[c.cb])
  {
    forall i: nat | i < |subscribers|
      ensures Served(subscribers[i]) <==> Call(i, true, true) in Calls(subscribers, fallbackAllowed)
    {
      CallsIndexed(subscribers, fallbackAllowed, Call(i, true, true));
    }
    forall c | c in Calls(subscribers, fallbackAllowed) && !c.original
      ensures fallbackAllowed && c.cb < |subscribers| && !Served(subscribers[c.cb])
    {
      CallsIndexed(subscribers, fallbackAllowed, c);
    }
  }

  /** What each subscriber gets, call by call: the original until it takes it, at most twice; then, only if it
      never did and nobody awaits the receipt, the fallback. */
  lemma EachIsAsked(subscribers: seq<Answers>, fallbackAllowed: bool, cb: nat)
    requires cb < |subscribers|
    ensures var calls, a := CallsOf(Calls(subscribers, fallbackAllowed), cb), subscribers[cb];
            && |calls| == (if a.first then 1 else if a.second || !fallbackAllowed then 2 else 3)
            && calls[0] == Call(cb, true, a.first)
            && (!a.first ==> calls[1] == Call(cb, true, a.second))
            && (!a.first && !a.second && fallbackAllowed ==> calls[2] == Call(cb, false, a.fallback))
  {
    CallsByCallback(subscribers, fallbackAllowed, cb);
  }

  /** The calls go from one callback to the next, the last of them before number `n`. */
  ghost predicate InOrder(calls: seq<Call>, n: nat) {
    && (forall i, j :: 0 <= i < j < |calls| ==> calls[i].cb <= calls[j].cb)
    && (forall i :: 0 <= i < |calls| ==> calls[i].cb < n)
  }

  lemma OrderGrows(a: seq<Call>, b: seq<Call>, n: nat)
    requires InOrder(a, n) && forall i :: 0 <= i < |b| ==> b[i].cb == n
    ensures InOrder(a + b, n + 1)
  {
  }

  lemma {:induction false} InSubscriptionOrder(subscribers: seq<Answers>, fallbackAllowed: bool)
    ensures InOrder(Calls(subscribers, fallbackAllowed), |subscribers|)
  {
    if subscribers != [] {
      var n := |subscribers| - 1;
      InSubscriptionOrder(subscribers[..n], fallbackAllowed);
      CallsToOne(n, subscribers[n], fallbackAllowed);
      OrderGrows(Calls(subscribers[..n], fallbackAllowed), CallsTo(n, subscribers[n], fallbackAllowed), n);
    }
  }
}
