/** How a chat request ends: when it is asked again, which error the caller gets, and how far the text of a
    stream is shown. */
module ChatOutcomes {
  import opened ChatStream

  /** The classification of an error that is not retried any more. */
  ghost predicate Reports(p: Problem, e: Err) {
    && (e.timeout ==> p == NetworkTimeout)
    && (!e.timeout ==> p == Original(e))
  }

  /** Refused in a way that is worth another request. */
  predicate Transient(h: Http) {
    h.Refuse? && !h.error.safety && !h.error.tooLong && (h.error.timeout || h.error.transient)
  }

  /** The request loop asks again after exactly those refusals that are neither a safety nor a length error
      but a timeout or otherwise transient, while requests are left and the pause is not interrupted; the
      last request's outcome decides. */
  lemma {:induction false} AsksAgainIff(w: World, max: nat, n: nat, attempt: nat)
    requires attempt <= max
    ensures var (trace, opening) := Create(w, max, n, attempt);
            var last := n + |trace| - 1;
            && |trace| >= 1
            && (forall i: nat :: n <= i < last ==> Transient(w.http(i)) && w.patient(i))
            && match w.http(last)
               case Open(s) => opening == Opened(last, s)
               case CutOff => opening == Failed(Cancellation)
               case Refuse(e) =>
                 if e.safety then opening == Failed(SafetyError)
                 else if e.tooLong then opening == Failed(ContextError)
                 else if Transient(w.http(last)) && |trace| <= max - attempt
                 then !w.patient(last) && opening == Failed(Cancellation)
                 else opening.Failed? && Reports(opening.problem, e)
    decreases max - attempt
  {
    if Transient(w.http(n)) && attempt < max && w.patient(n) {
      AsksAgainIff(w, max, n + 1, attempt + 1);
    }
  }

  /** A stream attempt that fails before anything was seen, in a way that is worth another one, is followed by
      it: its own error never surfaces while attempts are left. */
  lemma TriesAgain(w: World, max: nat, n: nat, attempt: nat)
    requires attempt < max && Create(w, max, n, 0).1.Opened?
    requires var opening := Create(w, max, n, 0).1;
             && opening.stream.closes && opening.stream.end.Broke? && !AnySeen(opening.stream.chunks)
             && (opening.stream.end.error.timeout || opening.stream.end.error.transient) && w.patient(opening.n)
    ensures var next := n + |Create(w, max, n, 0).0|;
            Streaming(w, max, n, attempt).1 == Streaming(w, max, next, attempt + 1).1
  {
    NothingSeenNothingShown(Create(w, max, n, 0).1.stream.chunks);
    CreateAsks(w, max, n, 0);
    RetryTrace(w, max, n, attempt);
  }

  /** In every other case this attempt is the last one, and this is what the caller gets. */
  lemma OtherwiseEnds(w: World, max: nat, n: nat, attempt: nat)
    requires attempt <= max
    ensures var r, opening := Streaming(w, max, n, attempt).1, Create(w, max, n, 0).1;
            match opening
            case Failed(p) => r == Raised(p)
            case Opened(m, s) =>
              var count := |Deltas(s.chunks)|;
              && (!s.closes ==> r == Raised(CloseError))
              && (s.closes && Refused(w, m, count) ==> r == Raised(CallbackError))
              && (s.closes && !Refused(w, m, count) ==>
                    match s.end
                    case Ended => r == Returned(Assemble(s.chunks))
                    case Cut => r == Raised(Cancellation)
                    case Broke(e) =>
                      if AnySeen(s.chunks) || !(e.timeout || e.transient) || attempt == max
                      then r.Raised? && Reports(r.problem, e)
                      else !w.patient(m) ==> r == Raised(Cancellation))
  {
  }

  /** The callback gets the deltas in order up to the first that it refuses, that one included. */
  lemma {:induction false} PassedToFirstRefusal(w: World, n: nat, count: nat)
    ensures var k := Passed(w, n, count);
            && (forall j :: 0 <= j < k - 1 ==> w.accepts(n, j))
            && (k < count ==> k > 0 && !w.accepts(n, k - 1))
  {
    if count > 0 {
      PassedToFirstRefusal(w, n, count - 1);
    }
  }

  // ---------------------------------------------------------------- how far a stream is shown

  lemma {:induction false} NothingAfterTools(cs: seq<Chunk>, k: nat)
    requires k < |cs| && cs[k].tools != []
    ensures Deltas(cs) == Deltas(cs[..k + 1])
    decreases |cs|
  {
    if k + 1 == |cs| {
      assert cs[..k + 1] == cs;
    } else {
      var before := cs[..|cs| - 1];
      assert before[..k + 1] == cs[..k + 1] && before[k] == cs[k];
      NothingAfterTools(before, k);
    }
  }

  /** The first chunk with a tool fragment ends what is shown: all text before it, its own reasoning, which
      precedes the fragment, and not its own text. */
  lemma ShownUntilTools(cs: seq<Chunk>, k: nat)
    requires k < |cs| && cs[k].tools != [] && !ToolSeen(cs[..k])
    ensures ContentText(Deltas(cs)) == RawContent(cs[..k])
    ensures ThinkingText(Deltas(cs)) == RawThinking(cs[..k + 1])
  {
    NothingAfterTools(cs, k);
    AllShownWithoutTools(cs[..k]);
    TextOfChunk(Deltas(cs[..k]), cs[k], false);
    assert cs[..k + 1][..k] == cs[..k];
  }
}
