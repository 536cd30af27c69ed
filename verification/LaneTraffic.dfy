/** The message bus, its worker and its dispatcher together with the lane of one chat: whatever they do to
    the lane, and whoever else sends on it, the lane accepts every call and counts exactly the messages
    that owe a turn and the sends that are queued or in flight. */
module LaneTraffic {
  import opened Delivery
  import opened Inbox
  import opened TurnPayments
  import opened Wrappers
  import LaneProtocol

  /** `k` is the chat's lane; `sender` is the dispatcher's task there, while it carries an item of the
      chat. */
  datatype Joint = Joint(w: World, k: LaneProtocol.Core, sender: LaneProtocol.Tid)

  datatype Deed =
    | Acted(a: Act, t: LaneProtocol.Tid)  // bus, worker or dispatcher, which enters the lane as task `t`
    | Laned(e: LaneProtocol.Event)        // a direct or non-passive send, or a waiter wakes up

  function ChatOf(chat: Mid -> Chat, item: Item): Chat {
    match item
    case Awaited(mid, _) => chat(mid)
    case Plain(c) => c
  }

  /** How many of these items go to the chat. */
  function Queued(chat: Mid -> Chat, items: seq<Item>, c: Chat): nat {
    if items == [] then 0
    else (if ChatOf(chat, items[0]) == c then 1 else 0) + Queued(chat, items[1..], c)
  }

  /** The dispatcher carries an item of the chat. */
  predicate Carries(w: World, c: Chat) {
    w.inFlight.Some? && ChatOf(w.bus.chat, w.inFlight.value) == c
  }

  // ---------------------------------------------------------------- the calls on the lane

  /** What an act registers, starts or ends on the lane as a send. */
  function SendCall(j: Joint, a: Act, t: LaneProtocol.Tid, c: Chat): Option<LaneProtocol.Event>
    requires May(j.w, a)
  {
    var chat := j.w.bus.chat;
    match a
    case SendTerminal(m) => if !j.w.stopped && chat(m) == c then Some(LaneProtocol.PublishSend) else None
    case SendPlain(d) => if d == c then Some(LaneProtocol.PublishSend) else None
    case FinishPlain(_, m, _, replies) =>
      if replies && chat(m) == c then Some(LaneProtocol.PublishSend) else None
    case Dispatch =>
      if ChatOf(chat, j.w.outbox[0]) == c then Some(LaneProtocol.Start(t, LaneProtocol.Queued)) else None
    case Dispatched(_) => if Carries(j.w, c) then Some(LaneProtocol.Finish(j.sender)) else None
    case DispatcherStops =>
      if !Carries(j.w, c) then None
      else if j.sender in j.k.tasks && j.k.tasks[j.sender].Sends() then Some(LaneProtocol.Finish(j.sender))
      else Some(LaneProtocol.CancelWait(j.sender))
    case Drain => if ChatOf(chat, j.w.outbox[0]) == c then Some(LaneProtocol.DrainSend) else None
    case _ => None
  }

  /** What it marks or pays there. */
  function TurnCall(v: Move, chat: Mid -> Chat, c: Chat): Option<LaneProtocol.Event> {
    match v
    case Stays => None
    case Marks(m) => if chat(m) == c then Some(LaneProtocol.PublishTurn(m)) else None
    case Pays(m) => if chat(m) == c then Some(LaneProtocol.TurnDone(m)) else None
  }

  predicate Takes(k: LaneProtocol.Core, call: Option<LaneProtocol.Event>) {
    call.Some? ==> LaneProtocol.Enabled(k, call.value)
  }

  function After(k: LaneProtocol.Core, call: Option<LaneProtocol.Event>): LaneProtocol.Core
    requires Takes(k, call)
  {
    if call.Some? then LaneProtocol.Next(k, call.value) else k
  }

  /** When a deed may happen: the dispatcher enters the lane as a new task, its send is over only after it
      has begun, and nobody else ends it. */
  predicate Can(j: Joint, d: Deed, c: Chat) {
    match d
    case Acted(a, t) =>
      && May(j.w, a)
      && (a.Dispatch? ==> t !in j.k.tasks)
      && (a.Dispatched? && Carries(j.w, c) ==> j.sender in j.k.tasks && j.k.tasks[j.sender].Sends())
    case Laned(Start(t, kind)) => t !in j.k.tasks && kind != LaneProtocol.Queued
    case Laned(Wake(t)) => LaneProtocol.Enabled(j.k, LaneProtocol.Wake(t))
    case Laned(Finish(t)) =>
      LaneProtocol.Enabled(j.k, LaneProtocol.Finish(t)) && (Carries(j.w, c) ==> t != j.sender)
    case Laned(CancelWait(t)) =>
      LaneProtocol.Enabled(j.k, LaneProtocol.CancelWait(t)) && (Carries(j.w, c) ==> t != j.sender)
    case Laned(_) => false
  }

  /** The lane accepts the calls that the deed makes: a reply is registered before its turn is paid. */
  predicate Heard(j: Joint, d: Deed, c: Chat)
    requires Can(j, d, c)
  {
    match d
    case Acted(a, t) =>
      && Takes(j.k, SendCall(j, a, t, c))
      && Takes(After(j.k, SendCall(j, a, t, c)), TurnCall(TurnMove(j.w, a), j.w.bus.chat, c))
    case Laned(e) => LaneProtocol.Enabled(j.k, e)
  }

  /** The dispatcher's task on the lane: the new one, when it takes an item of the chat. */
  function SenderAfter(j: Joint, a: Act, t: LaneProtocol.Tid, c: Chat): LaneProtocol.Tid
    requires May(j.w, a)
  {
    if a.Dispatch? && ChatOf(j.w.bus.chat, j.w.outbox[0]) == c then t else j.sender
  }

  function Happen(j: Joint, d: Deed, c: Chat): Joint
    requires Can(j, d, c) && Heard(j, d, c)
  {
    match d
    case Acted(a, t) =>
      var sent := After(j.k, SendCall(j, a, t, c));
      Joint(Do(j.w, a), After(sent, TurnCall(TurnMove(j.w, a), j.w.bus.chat, c)), SenderAfter(j, a, t, c))
    case Laned(e) => j.(k := LaneProtocol.Next(j.k, e))
  }

  // ---------------------------------------------------------------- the invariant

  ghost predicate Sound(w: World) {
    Handled(w) && Answered(w) && Inbox.Inv(w.bus) && Tallied(w.bus)
  }

  ghost predicate SenderKnown(w: World, k: LaneProtocol.Core, sender: LaneProtocol.Tid, c: Chat) {
    Carries(w, c) ==> sender in k.tasks && k.tasks[sender].Passive()
  }

  /** The lane owes the turns the bus owes, has the sends registered that the queue holds, and knows the
      dispatcher's. */
  ghost predicate Mirrors(j: Joint, c: Chat) {
    && LaneProtocol.Inv(j.k)
    && j.k.owed == OwingIn(j.w.bus, c)
    && j.k.queued == Queued(j.w.bus.chat, j.w.outbox, c)
    && SenderKnown(j.w, j.k, j.sender, c)
  }

  ghost predicate Coupled(j: Joint, c: Chat) {
    Sound(j.w) && Mirrors(j, c)
  }

  lemma DoKeepsSound(w: World, a: Act)
    requires Sound(w) && May(w, a)
    ensures Sound(Do(w, a)) && Moved(w.bus, Do(w, a).bus, TurnMove(w, a))
  {
    DoKeepsHandled(w, a);
    DoKeepsAnswered(w, a);
    DoKeepsInbox(w, a);
    ActMovesOneTurn(w, a);
    TallyKept(w.bus, Do(w, a).bus, TurnMove(w, a));
  }

  lemma {:induction false} QueuedMore(chat: Mid -> Chat, items: seq<Item>, item: Item, c: Chat)
    ensures Queued(chat, items + [item], c) == Queued(chat, items, c) + if ChatOf(chat, item) == c then 1 else 0
  {
    if items == [] {
      assert items + [item] == [item];
    } else {
      assert (items + [item])[1..] == items[1..] + [item];
      QueuedMore(chat, items[1..], item, c);
    }
  }

  /** What an act does to the outbound queue. */
  lemma OutboxMoves(w: World, a: Act)
    requires May(w, a)
    ensures var v := Do(w, a);
            match a
            case SendTerminal(m) => v.outbox == if w.stopped then w.outbox else w.outbox + [Awaited(m, w.nextReceipt)]
            case SendPlain(d) => v.outbox == w.outbox + [Plain(d)]
            case FinishPlain(_, m, _, replies) =>
              v.outbox == if replies then w.outbox + [Plain(w.bus.chat(m))] else w.outbox
            case Dispatch => v.outbox == w.outbox[1..] && v.inFlight == Some(w.outbox[0])
            case Drain => v.outbox == w.outbox[1..]
            case _ => v.outbox == w.outbox
    ensures !a.Dispatch? ==>
              Do(w, a).inFlight == if a.Dispatched? || a.DispatcherStops? then None else w.inFlight
  {
  }

  /** An event on the lane leaves every other task as passive as it was. */
  lemma OthersKeepTheirKind(k: LaneProtocol.Core, e: LaneProtocol.Event, s: LaneProtocol.Tid)
    requires LaneProtocol.Enabled(k, e) && s in k.tasks && k.tasks[s].Passive()
    requires e != LaneProtocol.Finish(s) && e != LaneProtocol.CancelWait(s)
    ensures var n := LaneProtocol.Next(k, e); s in n.tasks && n.tasks[s].Passive()
  {
  }

  /** Registering one more send, or taking one back. */
  lemma RegistrationKept(k: LaneProtocol.Core, e: LaneProtocol.Event)
    requires LaneProtocol.Inv(k) && LaneProtocol.Enabled(k, e) && (e.PublishSend? || e.DrainSend?)
    ensures var n := LaneProtocol.Next(k, e);
            LaneProtocol.Inv(n) && n.owed == k.owed && n.queued == k.queued + if e.PublishSend? then 1 else -1
  {
    LaneProtocol.StepKeepsInv(k, e);
  }

  /** A queued send enters: its registration is there, so it is not rejected. */
  lemma QueuedEnters(k: LaneProtocol.Core, t: LaneProtocol.Tid)
    requires LaneProtocol.Inv(k) && k.queued > 0 && t !in k.tasks
    ensures var n := LaneProtocol.Next(k, LaneProtocol.Start(t, LaneProtocol.Queued));
            && LaneProtocol.Inv(n) && n.owed == k.owed && n.queued == k.queued - 1
            && t in n.tasks && n.tasks[t].Passive()
  {
    LaneProtocol.StepKeepsInv(k, LaneProtocol.Start(t, LaneProtocol.Queued));
  }

  lemma SenderLeaves(k: LaneProtocol.Core, s: LaneProtocol.Tid)
    requires LaneProtocol.Inv(k) && s in k.tasks && k.tasks[s].Passive()
    ensures var e := if k.tasks[s].Sends() then LaneProtocol.Finish(s) else LaneProtocol.CancelWait(s);
            && LaneProtocol.Enabled(k, e)
            && var n := LaneProtocol.Next(k, e);
               LaneProtocol.Inv(n) && n.owed == k.owed && n.queued == k.queued
  {
    LaneProtocol.StepKeepsInv(k, if k.tasks[s].Sends() then LaneProtocol.Finish(s)
                                 else LaneProtocol.CancelWait(s));
  }

  /** After the lane has heard of the act's send: its queue is the bus's, and it knows the dispatcher. */
  ghost predicate Followed(j: Joint, a: Act, t: LaneProtocol.Tid, c: Chat)
    requires May(j.w, a)
  {
    && Takes(j.k, SendCall(j, a, t, c))
    && var k := After(j.k, SendCall(j, a, t, c));
       && LaneProtocol.Inv(k) && k.owed == j.k.owed
       && k.queued == Queued(j.w.bus.chat, Do(j.w, a).outbox, c)
       && SenderKnown(Do(j.w, a), k, SenderAfter(j, a, t, c), c)
  }

  lemma RegisteringKeeps(k: LaneProtocol.Core, w: World, s: LaneProtocol.Tid, c: Chat)
    requires LaneProtocol.Inv(k) && SenderKnown(w, k, s, c)
    ensures var n := LaneProtocol.Next(k, LaneProtocol.PublishSend);
            LaneProtocol.Inv(n) && n.owed == k.owed && n.queued == k.queued + 1 && SenderKnown(w, n, s, c)
  {
    RegistrationKept(k, LaneProtocol.PublishSend);
    if Carries(w, c) {
      OthersKeepTheirKind(k, LaneProtocol.PublishSend, s);
    }
  }

  lemma PutFollows(j: Joint, a: Act, t: LaneProtocol.Tid, item: Item, c: Chat)
    requires Mirrors(j, c) && May(j.w, a) && Do(j.w, a).bus.chat == j.w.bus.chat
    requires Do(j.w, a).outbox == j.w.outbox + [item] && Do(j.w, a).inFlight == j.w.inFlight && !a.Dispatch?
    requires SendCall(j, a, t, c) == if ChatOf(j.w.bus.chat, item) == c then Some(LaneProtocol.PublishSend) else None
    ensures Followed(j, a, t, c)
  {
    QueuedMore(j.w.bus.chat, j.w.outbox, item, c);
    RegisteringKeeps(j.k, j.w, j.sender, c);
  }

  lemma DrainFollows(j: Joint, t: LaneProtocol.Tid, c: Chat)
    requires Mirrors(j, c) && May(j.w, Drain)
    ensures Followed(j, Drain, t, c)
  {
    if ChatOf(j.w.bus.chat, j.w.outbox[0]) == c {
      RegistrationKept(j.k, LaneProtocol.DrainSend);
      if Carries(j.w, c) {
        OthersKeepTheirKind(j.k, LaneProtocol.DrainSend, j.sender);
      }
    }
  }

  lemma DispatchFollows(j: Joint, t: LaneProtocol.Tid, c: Chat)
    requires Mirrors(j, c) && Can(j, Acted(Dispatch, t), c)
    ensures Followed(j, Dispatch, t, c)
  {
    if ChatOf(j.w.bus.chat, j.w.outbox[0]) == c {
      QueuedEnters(j.k, t);
    }
  }

  lemma EndFollows(j: Joint, a: Act, t: LaneProtocol.Tid, c: Chat)
    requires Mirrors(j, c) && Can(j, Acted(a, t), c) && (a.Dispatched? || a.DispatcherStops?)
    ensures Followed(j, a, t, c)
  {
    OutboxMoves(j.w, a);
    if Carries(j.w, c) {
      SenderLeaves(j.k, j.sender);
    }
  }

  /** The lane accepts the send that an act registers, starts or ends. */
  lemma SendFollows(j: Joint, a: Act, t: LaneProtocol.Tid, c: Chat)
    requires Mirrors(j, c) && Can(j, Acted(a, t), c) && Do(j.w, a).bus.chat == j.w.bus.chat
    ensures Followed(j, a, t, c)
  {
    OutboxMoves(j.w, a);
    match a
    case SendTerminal(m) => if !j.w.stopped { PutFollows(j, a, t, Awaited(m, j.w.nextReceipt), c); }
    case SendPlain(d) => PutFollows(j, a, t, Plain(d), c);
    case FinishPlain(_, m, _, replies) => if replies { PutFollows(j, a, t, Plain(j.w.bus.chat(m)), c); }
    case Dispatch => DispatchFollows(j, t, c);
    case Dispatched(_) => EndFollows(j, a, t, c);
    case DispatcherStops => EndFollows(j, a, t, c);
    case Drain => DrainFollows(j, t, c);
    case _ =>
  }

  lemma TurnEventKept(k: LaneProtocol.Core, e: LaneProtocol.Event)
    requires LaneProtocol.Inv(k) && LaneProtocol.Enabled(k, e) && (e.PublishTurn? || e.TurnDone?)
    ensures var n := LaneProtocol.Next(k, e);
            && LaneProtocol.Inv(n) && n.queued == k.queued
            && n.owed == (if e.PublishTurn? then k.owed + {e.m} else k.owed - {e.m})
            && n.tasks == LaneProtocol.NotifyAll(k.tasks)
  {
    LaneProtocol.StepKeepsInv(k, e);
  }

  lemma MarksOwing(b: Bus, d: Bus, m: Mid, c: Chat)
    requires Moved(b, d, Marks(m))
    ensures OwingIn(d, c) == OwingIn(b, c) + if b.chat(m) == c then {m} else {}
    ensures m !in OwingIn(b, c)
  {
  }

  lemma PaysOwing(b: Bus, d: Bus, m: Mid, c: Chat)
    requires Moved(b, d, Pays(m))
    ensures OwingIn(d, c) == OwingIn(b, c) - if b.chat(m) == c then {m} else {}
    ensures b.chat(m) == c ==> m in OwingIn(b, c)
  {
  }

  /** The lane accepts the mark or payment of a turn, and owes what the bus owes. */
  ghost predicate TurnHeard(k: LaneProtocol.Core, call: Option<LaneProtocol.Event>, owed: set<Mid>) {
    && Takes(k, call)
    && var n := After(k, call);
       && LaneProtocol.Inv(n) && n.owed == owed && n.queued == k.queued
       && (n.tasks == k.tasks || n.tasks == LaneProtocol.NotifyAll(k.tasks))
  }

  lemma MarkFollows(k: LaneProtocol.Core, m: Mid, chat: Mid -> Chat, c: Chat)
    requires LaneProtocol.Inv(k) && (chat(m) == c ==> m !in k.owed)
    ensures TurnHeard(k, TurnCall(Marks(m), chat, c), k.owed + if chat(m) == c then {m} else {})
  {
    if chat(m) == c { TurnEventKept(k, LaneProtocol.PublishTurn(m)); }
  }

  lemma PaymentFollows(k: LaneProtocol.Core, m: Mid, chat: Mid -> Chat, c: Chat)
    requires LaneProtocol.Inv(k) && (chat(m) == c ==> m in k.owed)
    ensures TurnHeard(k, TurnCall(Pays(m), chat, c), k.owed - if chat(m) == c then {m} else {})
  {
    if chat(m) == c { TurnEventKept(k, LaneProtocol.TurnDone(m)); }
  }

  lemma TurnFollows(k: LaneProtocol.Core, b: Bus, d: Bus, v: Move, c: Chat)
    requires LaneProtocol.Inv(k) && k.owed == OwingIn(b, c) && Moved(b, d, v)
    ensures TurnHeard(k, TurnCall(v, b.chat, c), OwingIn(d, c))
  {
    match v
    case Stays =>
    case Marks(m) =>
      MarksOwing(b, d, m, c);
      MarkFollows(k, m, b.chat, c);
    case Pays(m) =>
      PaysOwing(b, d, m, c);
      PaymentFollows(k, m, b.chat, c);
  }

  lemma ActKeepsCoupled(j: Joint, a: Act, t: LaneProtocol.Tid, c: Chat)
    requires Coupled(j, c) && Can(j, Acted(a, t), c)
    ensures Heard(j, Acted(a, t), c) && Coupled(Happen(j, Acted(a, t), c), c)
  {
    DoKeepsSound(j.w, a);
    SendFollows(j, a, t, c);
    TurnFollows(After(j.k, SendCall(j, a, t, c)), j.w.bus, Do(j.w, a).bus, TurnMove(j.w, a), c);
  }

  lemma LaneKeepsCoupled(j: Joint, e: LaneProtocol.Event, c: Chat)
    requires Coupled(j, c) && Can(j, Laned(e), c)
    ensures Heard(j, Laned(e), c) && Coupled(Happen(j, Laned(e), c), c)
  {
    LaneProtocol.StepKeepsInv(j.k, e);
    if Carries(j.w, c) {
      OthersKeepTheirKind(j.k, e, j.sender);
    }
  }

  lemma DeedKeepsCoupled(j: Joint, d: Deed, c: Chat)
    requires Coupled(j, c) && Can(j, d, c)
    ensures Heard(j, d, c) && Coupled(Happen(j, d, c), c)
  {
    match d
    case Acted(a, t) => ActKeepsCoupled(j, a, t, c);
    case Laned(e) => LaneKeepsCoupled(j, e, c);
  }

  // ---------------------------------------------------------------- every run

  function Fresh(chat: Mid -> Chat, rows: set<Hid>, nextHid: Hid): Joint {
    Joint(Delivery.Start(chat, rows, nextHid), LaneProtocol.Init(), 0)
  }

  /** Deeds that cannot happen where they stand, or that the lane would refuse, are passed over. */
  function Course(j: Joint, ds: seq<Deed>, c: Chat): Joint
    decreases |ds|
  {
    if ds == [] then j
    else
      var i, d := Course(j, ds[..|ds| - 1], c), ds[|ds| - 1];
      if Can(i, d, c) && Heard(i, d, c) then Happen(i, d, c) else i
  }

  lemma {:induction false} CourseKeepsCoupled(j: Joint, ds: seq<Deed>, c: Chat)
    requires Coupled(j, c)
    ensures Coupled(Course(j, ds, c), c)
    decreases |ds|
  {
    if ds != [] {
      var i, d := Course(j, ds[..|ds| - 1], c), ds[|ds| - 1];
      CourseKeepsCoupled(j, ds[..|ds| - 1], c);
      if Can(i, d, c) {
        DeedKeepsCoupled(i, d, c);
      }
    }
  }

  lemma FreshIsCoupled(chat: Mid -> Chat, rows: set<Hid>, nextHid: Hid, c: Chat)
    requires forall h :: h in rows ==> h < nextHid
    ensures Coupled(Fresh(chat, rows, nextHid), c)
  {
    StartsHandled(chat, rows, nextHid);
    assert OwingIn(Fresh(chat, rows, nextHid).w.bus, c) == {};
  }

  lemma CoupledCounts(j: Joint, c: Chat)
    requires Coupled(j, c)
    ensures j.k.lane.turns == Turns(j.w.bus, c) == |OwingIn(j.w.bus, c)|
    ensures j.k.lane.sends == Queued(j.w.bus.chat, j.w.outbox, c) + |LaneProtocol.Passives(j.k.tasks)|
    ensures Carries(j.w, c) ==> j.sender in LaneProtocol.Passives(j.k.tasks)
  {
  }

  /** In every run the lane refuses nothing: no turn is paid that is not owed, no send finds its
      registration gone. Its counters are the bus's: the turns are those of the chat's messages that owe
      one, and the registered sends those queued, the one in flight, and the direct ones. */
  lemma LaneKeepsUp(chat: Mid -> Chat, rows: set<Hid>, nextHid: Hid, ds: seq<Deed>, c: Chat)
    requires forall h :: h in rows ==> h < nextHid
    ensures var j := Course(Fresh(chat, rows, nextHid), ds, c);
            && (forall d :: Can(j, d, c) ==> Heard(j, d, c))
            && j.k.lane.turns == Turns(j.w.bus, c) == |OwingIn(j.w.bus, c)|
            && j.k.lane.sends == Queued(j.w.bus.chat, j.w.outbox, c) + |LaneProtocol.Passives(j.k.tasks)|
            && (Carries(j.w, c) ==> j.sender in LaneProtocol.Passives(j.k.tasks))
  {
    FreshIsCoupled(chat, rows, nextHid, c);
    CourseKeepsCoupled(Fresh(chat, rows, nextHid), ds, c);
    var j := Course(Fresh(chat, rows, nextHid), ds, c);
    CoupledCounts(j, c);
    forall d | Can(j, d, c) ensures Heard(j, d, c) {
      DeedKeepsCoupled(j, d, c);
    }
  }

  // ---------------------------------------------------------------- what this means for the chat

  function Speakers(k: LaneProtocol.Core): set<LaneProtocol.Tid> {
    set t | t in k.tasks && k.tasks[t].Speaking?
  }

  /** Nothing of the chat is under way: no message of it owes a turn, none is queued or with the worker,
      and no reply to it is queued or in flight. */
  ghost predicate Quiet(w: World, c: Chat) {
    && OwingIn(w.bus, c) == {}
    && (forall m :: w.bus.chat(m) == c ==>
                      m !in w.bus.inbound && (m in w.stages ==> w.stages[m].Done?))
    && (forall item :: item in w.outbox ==> ChatOf(w.bus.chat, item) != c)
    && !Carries(w, c)
  }

  lemma {:induction false} NoneQueued(chat: Mid -> Chat, items: seq<Item>, c: Chat)
    requires Queued(chat, items, c) == 0
    ensures forall item :: item in items ==> ChatOf(chat, item) != c
  {
    if items != [] {
      NoneQueued(chat, items[1..], c);
    }
  }

  /** A non-passive send begins only by its own call or when it is woken, with nothing owed or queued. */
  lemma SpeaksWhenFree(k: LaneProtocol.Core, e: LaneProtocol.Event, t: LaneProtocol.Tid)
    requires LaneProtocol.Inv(k) && LaneProtocol.Enabled(k, e)
    requires t in Speakers(LaneProtocol.Next(k, e)) && t !in Speakers(k)
    ensures k.owed == {} && k.queued == 0 && LaneProtocol.Passives(k.tasks) == {}
    ensures e == LaneProtocol.Start(t, LaneProtocol.NonPassive) || e == LaneProtocol.Wake(t)
  {
    assert LaneProtocol.Begins(k, e, t);
    LaneProtocol.BeginsOnlyWhenFree(k, e, t);
  }

  lemma NobodySpeaksUp(k: LaneProtocol.Core, call: Option<LaneProtocol.Event>)
    requires LaneProtocol.Inv(k) && Takes(k, call)
    requires k.owed != {} || Mute(call)
    ensures Speakers(After(k, call)) <= Speakers(k)
  {
    forall t | t in Speakers(After(k, call)) ensures t in Speakers(k) {
      if t !in Speakers(k) {
        SpeaksWhenFree(k, call.value, t);
      }
    }
  }

  /** Neither kind of call starts a non-passive send or wakes anybody. */
  predicate Mute(call: Option<LaneProtocol.Event>) {
    call.Some? ==> !call.value.Wake? && (call.value.Start? ==> call.value.kind.Queued?)
  }

  lemma CallsAreMute(j: Joint, a: Act, t: LaneProtocol.Tid, v: Move, chat: Mid -> Chat, c: Chat)
    requires May(j.w, a)
    ensures Mute(SendCall(j, a, t, c)) && Mute(TurnCall(v, chat, c))
  {
  }

  /** No act of bus, worker or dispatcher begins a non-passive send. */
  lemma ActsStartNone(j: Joint, a: Act, t: LaneProtocol.Tid, c: Chat)
    requires Coupled(j, c) && Can(j, Acted(a, t), c)
    ensures Heard(j, Acted(a, t), c) && Speakers(Happen(j, Acted(a, t), c).k) <= Speakers(j.k)
  {
    ActKeepsCoupled(j, a, t, c);
    DoKeepsSound(j.w, a);
    SendFollows(j, a, t, c);
    CallsAreMute(j, a, t, TurnMove(j.w, a), j.w.bus.chat, c);
    NobodySpeaksUp(j.k, SendCall(j, a, t, c));
    NobodySpeaksUp(After(j.k, SendCall(j, a, t, c)), TurnCall(TurnMove(j.w, a), j.w.bus.chat, c));
  }

  lemma FreeIsQuiet(j: Joint, c: Chat)
    requires Coupled(j, c)
    requires j.k.owed == {} && j.k.queued == 0 && LaneProtocol.Passives(j.k.tasks) == {}
    ensures Quiet(j.w, c)
  {
    NoneQueued(j.w.bus.chat, j.w.outbox, c);
    assert Carries(j.w, c) ==> j.sender in LaneProtocol.Passives(j.k.tasks);
    forall m | j.w.bus.chat(m) == c ensures m !in j.w.bus.inbound && (m in j.w.stages ==> j.w.stages[m].Done?) {
      assert m !in OwingIn(j.w.bus, c);
      assert !Uncompleted(j.w.bus, m);
    }
  }

  /** In every run a non-passive send to a chat begins only while nothing of that chat is under way,
      from the arrival of a message to the end of the last send of a reply. */
  lemma NeverInterrupts(chat: Mid -> Chat, rows: set<Hid>, nextHid: Hid, ds: seq<Deed>, d: Deed, c: Chat,
                        t: LaneProtocol.Tid)
    requires forall h :: h in rows ==> h < nextHid
    requires var j := Course(Fresh(chat, rows, nextHid), ds, c);
             Can(j, d, c) && Heard(j, d, c) && t in Speakers(Happen(j, d, c).k) && t !in Speakers(j.k)
    ensures Quiet(Course(Fresh(chat, rows, nextHid), ds, c).w, c)
  {
    FreshIsCoupled(chat, rows, nextHid, c);
    CourseKeepsCoupled(Fresh(chat, rows, nextHid), ds, c);
    var j := Course(Fresh(chat, rows, nextHid), ds, c);
    match d
    case Acted(a, u) => ActsStartNone(j, a, u, c);
    case Laned(e) =>
      SpeaksWhenFree(j.k, e, t);
      FreeIsQuiet(j, c);
  }

  lemma StarvesOneStep(j: Joint, d: Deed, c: Chat, m: Mid)
    requires Coupled(j, c) && Unpaid(j.w, m) && j.w.bus.chat(m) == c && Can(j, d, c)
    ensures Heard(j, d, c) && Speakers(Happen(j, d, c).k) <= Speakers(j.k)
    ensures Unpaid(Happen(j, d, c).w, m) && Happen(j, d, c).w.bus.chat == j.w.bus.chat
  {
    assert m in j.k.owed;
    DeedKeepsCoupled(j, d, c);
    match d
    case Acted(a, t) =>
      ActsStartNone(j, a, t, c);
      DoKeepsSound(j.w, a);
      ForsakenStaysUnpaid(j.w, a, m);
    case Laned(e) => NobodySpeaksUp(j.k, Some(e));
  }

  /** Once a message of the chat is forsaken, no non-passive send to that chat ever begins again. */
  lemma {:induction false} ForsakenStarvesChat(j: Joint, ds: seq<Deed>, c: Chat, m: Mid)
    requires Coupled(j, c) && Unpaid(j.w, m) && j.w.bus.chat(m) == c
    ensures var i := Course(j, ds, c);
            Unpaid(i.w, m) && i.w.bus.chat == j.w.bus.chat && Speakers(i.k) <= Speakers(j.k)
    decreases |ds|
  {
    if ds != [] {
      var front, d := ds[..|ds| - 1], ds[|ds| - 1];
      ForsakenStarvesChat(j, front, c, m);
      CourseKeepsCoupled(j, front, c);
      if Can(Course(j, front, c), d, c) {
        StarvesOneStep(Course(j, front, c), d, c, m);
      }
    }
  }

  // ---------------------------------------------------------------- every run of the bus is such a run

  /** Only the dispatcher sends on this lane, and it never waits there. */
  ghost predicate Alone(j: Joint, c: Chat) {
    && (Carries(j.w, c) ==> j.sender == 0)
    && j.k.tasks == Lone(Carries(j.w, c))
  }

  lemma AloneCan(j: Joint, a: Act, c: Chat)
    requires Coupled(j, c) && Alone(j, c)
    ensures Can(j, Acted(a, 0), c) <==> May(j.w, a)
  {
  }

  lemma AloneEnters(k: LaneProtocol.Core)
    requires LaneProtocol.Inv(k) && k.queued > 0 && k.tasks == map[]
    ensures LaneProtocol.Next(k, LaneProtocol.Start(0, LaneProtocol.Queued)).tasks == map[0 := LaneProtocol.PassiveSending]
  {
    assert !k.lane.sending;
  }

  lemma AloneLeaves(k: LaneProtocol.Core)
    requires k.tasks == map[0 := LaneProtocol.PassiveSending]
    ensures LaneProtocol.Next(k, LaneProtocol.Finish(0)).tasks == map[]
  {
    assert k.tasks - {0} == map[];
  }

  /** Notifying a task that does not wait changes nothing. */
  lemma AloneNotified(tasks: map<LaneProtocol.Tid, LaneProtocol.Phase>)
    requires forall t :: t in tasks ==> tasks[t] == LaneProtocol.PassiveSending
    ensures LaneProtocol.NotifyAll(tasks) == tasks
  {
  }

  /** The tasks on a lane that only the dispatcher uses. */
  function Lone(carries: bool): map<LaneProtocol.Tid, LaneProtocol.Phase> {
    if carries then map[0 := LaneProtocol.PassiveSending] else map[]
  }

  /** An act that neither takes an item nor ends a send leaves the tasks alone, apart from notifying. */
  lemma NoSendMoves(j: Joint, a: Act, c: Chat)
    requires May(j.w, a) && Takes(j.k, SendCall(j, a, 0, c))
    requires !a.Dispatch? && !a.Dispatched? && !a.DispatcherStops?
    ensures After(j.k, SendCall(j, a, 0, c)).tasks in {j.k.tasks, LaneProtocol.NotifyAll(j.k.tasks)}
  {
  }

  lemma AloneSends(j: Joint, a: Act, c: Chat)
    requires Mirrors(j, c) && Alone(j, c) && Can(j, Acted(a, 0), c) && Takes(j.k, SendCall(j, a, 0, c))
    requires Do(j.w, a).bus.chat == j.w.bus.chat
    ensures After(j.k, SendCall(j, a, 0, c)).tasks == Lone(Carries(Do(j.w, a), c))
  {
    OutboxMoves(j.w, a);
    if a.Dispatch? {
      if ChatOf(j.w.bus.chat, j.w.outbox[0]) == c { AloneEnters(j.k); }
    } else if a.Dispatched? || a.DispatcherStops? {
      if Carries(j.w, c) { AloneLeaves(j.k); }
    } else {
      AloneNotified(j.k.tasks);
      NoSendMoves(j, a, c);
    }
  }

  lemma AloneSender(j: Joint, a: Act, c: Chat)
    requires Alone(j, c) && May(j.w, a) && Carries(Do(j.w, a), c) && Do(j.w, a).bus.chat == j.w.bus.chat
    ensures SenderAfter(j, a, 0, c) == 0
  {
    OutboxMoves(j.w, a);
  }

  lemma AloneKept(j: Joint, a: Act, c: Chat)
    requires Mirrors(j, c) && Alone(j, c) && Can(j, Acted(a, 0), c) && Heard(j, Acted(a, 0), c)
    requires Moved(j.w.bus, Do(j.w, a).bus, TurnMove(j.w, a))
    ensures Alone(Happen(j, Acted(a, 0), c), c)
  {
    AloneSends(j, a, c);
    if Carries(Do(j.w, a), c) {
      AloneSender(j, a, c);
    }
    SendFollows(j, a, 0, c);
    AloneHears(After(j.k, SendCall(j, a, 0, c)), j.w.bus, Do(j.w, a).bus, TurnMove(j.w, a), c);
  }

  lemma AloneHears(k: LaneProtocol.Core, b: Bus, d: Bus, v: Move, c: Chat)
    requires LaneProtocol.Inv(k) && k.owed == OwingIn(b, c) && Moved(b, d, v)
    requires forall t :: t in k.tasks ==> k.tasks[t] == LaneProtocol.PassiveSending
    ensures Takes(k, TurnCall(v, b.chat, c)) && After(k, TurnCall(v, b.chat, c)).tasks == k.tasks
  {
    AloneNotified(k.tasks);
    TurnFollows(k, b, d, v, c);
  }

  /** The acts of a run of bus and worker, on a lane that nobody else uses. */
  function Deeds(acts: seq<Act>): (ds: seq<Deed>)
    ensures |ds| == |acts| && forall i :: 0 <= i < |ds| ==> ds[i] == Acted(acts[i], 0)
  {
    seq(|acts|, i requires 0 <= i < |acts| => Acted(acts[i], 0))
  }

  lemma {:induction false} LiftedRun(j: Joint, acts: seq<Act>, c: Chat)
    requires Coupled(j, c) && Alone(j, c)
    ensures var i := Course(j, Deeds(acts), c); i.w == Play(j.w, acts) && Alone(i, c) && Coupled(i, c)
    decreases |acts|
  {
    if acts != [] {
      var front, a := acts[..|acts| - 1], acts[|acts| - 1];
      LiftedRun(j, front, c);
      assert Deeds(acts)[..|acts| - 1] == Deeds(front);
      var i := Course(j, Deeds(front), c);
      AloneCan(i, a, c);
      if May(i.w, a) {
        DeedKeepsCoupled(i, Acted(a, 0), c);
        DoKeepsSound(i.w, a);
        AloneKept(i, a, c);
      }
    }
  }

  /** Every run of bus, worker and dispatcher is a run with the lane: the lane excludes none of them, and
      its counter is the bus's count of turns at every moment. */
  lemma LaneCountsBusTurns(chat: Mid -> Chat, rows: set<Hid>, nextHid: Hid, acts: seq<Act>, c: Chat)
    requires forall h :: h in rows ==> h < nextHid
    ensures var j := Course(Fresh(chat, rows, nextHid), Deeds(acts), c);
            && j.w == Play(Delivery.Start(chat, rows, nextHid), acts)
            && j.k.lane.turns == Turns(j.w.bus, c)
            && j.k.lane.sends == Queued(j.w.bus.chat, j.w.outbox, c) + if Carries(j.w, c) then 1 else 0
  {
    FreshIsCoupled(chat, rows, nextHid, c);
    LiftedRun(Fresh(chat, rows, nextHid), acts, c);
    var j := Course(Fresh(chat, rows, nextHid), Deeds(acts), c);
    CoupledCounts(j, c);
    assert LaneProtocol.Passives(j.k.tasks) == if Carries(j.w, c) then {0} else {};
  }

  /** A run of bus and worker forsakes a message: however it goes on, and whoever else sends on the lane,
      from then on that chat hears nothing but replies. */
  lemma ForsakenSilences(chat: Mid -> Chat, rows: set<Hid>, nextHid: Hid, acts: seq<Act>, ds: seq<Deed>, m: Mid,
                         c: Chat)
    requires forall h :: h in rows ==> h < nextHid
    requires var w := Play(Delivery.Start(chat, rows, nextHid), acts); Unpaid(w, m) && w.bus.chat(m) == c
    ensures Speakers(Course(Course(Fresh(chat, rows, nextHid), Deeds(acts), c), ds, c).k) == {}
  {
    FreshIsCoupled(chat, rows, nextHid, c);
    LiftedRun(Fresh(chat, rows, nextHid), acts, c);
    var j := Course(Fresh(chat, rows, nextHid), Deeds(acts), c);
    assert Speakers(j.k) == {};
    ForsakenStarvesChat(j, ds, c, m);
  }
}
