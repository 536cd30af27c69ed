/** The supervisor's incremental frame reader (agent/supervisor.py, _LifecycleState): newline-separated
    JSON frames arrive in arbitrary chunks. `Ref` is the reference reading of a whole stream; the class
    is proved to compute it however the stream is cut. */
module Lifecycle {
  import opened Wrappers

  type Byte = bv8
  const NEWLINE: Byte := 10
  const MAX_FRAME := 4096

  datatype Json = Null | Bool(b: bool) | Int(i: int) | Str(s: string) | Other

  datatype Decoded = NotJson | NotObject | Object(fields: map<string, Json>)

  /** One boot's identity, and the library functions left uninterpreted: the JSON decoder, str.strip
      and `str(x or "")`. */
  datatype Boot = Boot(bootId: string, nonce: string,
                       decode: seq<Byte> -> Decoded, strip: string -> string, text: Json -> string)

  datatype Error = NoError | TooLong | BadJson | BadIdentity | BadStage | BadReady | BadCommit
                 | BadSettings | UnknownType | Incomplete

  datatype View = View(ready: bool, pid: Option<int>, commitValid: bool, stage: string, elapsed: int,
                       error: Error, settings: seq<(bool, string)>)

  function Initial(): View {
    View(false, None, false, "guardian.spawn", -1, NoError, [])
  }

  // ---------------------------------------------------------------- one frame

  function Get(fields: map<string, Json>, key: string): Json {
    if key in fields then fields[key] else Null
  }

  /** isinstance(x, int), where Python's booleans are integers too. */
  function AsInt(j: Json): Option<int> {
    match j
    case Int(i) => Some(i)
    case Bool(b) => Some(if b then 1 else 0)
    case _ => None
  }

  function CharBytes(c: char): nat {
    if c < '\U{80}' then 1 else if c < '\U{800}' then 2 else if c < '\U{10000}' then 3 else 4
  }

  /** len(s.encode("utf-8")) */
  function Utf8Len(s: string): nat {
    if s == [] then 0 else Utf8Len(s[..|s| - 1]) + CharBytes(s[|s| - 1])
  }

  /** The number of code points that UTF-8 sequences of at most n bytes can name (section 3 of RFC 3629). */
  function Utf8Room(n: nat): nat {
    if n == 0 then 0 else if n == 1 then 0x80 else if n == 2 then 0x800 else 32 * Utf8Room(n - 1)
  }

  /** A character takes the least number of bytes that can name it. */
  lemma ShortestForm(c: char, n: nat)
    ensures (c as int) < Utf8Room(n) <==> CharBytes(c) <= n
    decreases n
  {
    assert Utf8Room(2) == 0x800 && Utf8Room(3) == 0x10000 && Utf8Room(4) == 0x200000;
    if n > 4 {
      ShortestForm(c, n - 1);
    }
  }

  function AcceptStage(boot: Boot, v: View, fields: map<string, Json>): View {
    var stage, elapsed := Get(fields, "stage"), AsInt(Get(fields, "elapsedMs"));
    if !stage.Str? || boot.strip(stage.s) == "" || elapsed.None? || elapsed.value < v.elapsed || v.ready
    then v.(error := BadStage)
    else v.(stage := stage.s, elapsed := elapsed.value)
  }

  function AcceptReady(v: View, fields: map<string, Json>): View {
    var pid := AsInt(Get(fields, "pid"));
    if v.ready || pid.None? || pid.value <= 0 then v.(error := BadReady)
    else v.(ready := true, pid := pid)
  }

  predicate RestartId(j: Json) {
    j.Str? && ("restart_" <= j.s || "settings_" <= j.s)
  }

  function AcceptCommit(boot: Boot, v: View, fields: map<string, Json>): View {
    if !v.ready || v.commitValid || !RestartId(Get(fields, "requestId"))
       || boot.text(Get(fields, "nonce")) != boot.nonce
    then v.(error := BadCommit)
    else v.(commitValid := true)
  }

  function AcceptSettings(v: View, fields: map<string, Json>): View {
    var success := Get(fields, "success");
    var detail := if "detail" in fields then fields["detail"] else Str("");
    if !v.ready || !success.Bool? || !detail.Str? || Utf8Len(detail.s) > 2048
    then v.(error := BadSettings)
    else v.(settings := v.settings + [(success.b, detail.s)])
  }

  function Accept(boot: Boot, v: View, raw: seq<Byte>): View {
    if v.error != NoError then v
    else
      match boot.decode(raw)
      case NotJson => v.(error := BadJson)
      case NotObject => v.(error := BadIdentity)
      case Object(fields) =>
        if Get(fields, "bootId") != Str(boot.bootId) then v.(error := BadIdentity)
        else
          var kind := Get(fields, "type");
          if kind == Str("stage") then AcceptStage(boot, v, fields)
          else if kind == Str("ready") then AcceptReady(v, fields)
          else if kind == Str("commit") then AcceptCommit(boot, v, fields)
          else if kind == Str("settings_reloaded") then AcceptSettings(v, fields)
          else v.(error := UnknownType)
  }

  // ---------------------------------------------------------------- the whole stream

  /** The complete frames of a stream and the bytes after its last newline. */
  datatype Lines = Lines(frames: seq<seq<Byte>>, rest: seq<Byte>)

  function Cut(s: seq<Byte>): Lines {
    if s == [] then Lines([], [])
    else
      var l, b := Cut(s[..|s| - 1]), s[|s| - 1];
      if b == NEWLINE then Lines(l.frames + [l.rest], []) else l.(rest := l.rest + [b])
  }

  /** An error clears the commit. */
  function Settle(v: View): View {
    if v.error != NoError then v.(commitValid := false) else v
  }

  function Take(boot: Boot, v: View, raw: seq<Byte>): View {
    if raw == [] then v
    else if |raw| > MAX_FRAME then Settle(v.(error := TooLong))
    else Settle(Accept(boot, v, raw))
  }

  function Consume(boot: Boot, v: View, frames: seq<seq<Byte>>): View {
    if frames == [] then v
    else Take(boot, Consume(boot, v, frames[..|frames| - 1]), frames[|frames| - 1])
  }

  function AtEnd(v: View, rest: seq<Byte>, eof: bool): View {
    if v.error != NoError then v
    else if |rest| > MAX_FRAME then Settle(v.(error := TooLong))
    else if eof && rest != [] then Settle(v.(error := Incomplete))
    else v
  }

  /** What a reader of the whole stream knows, at its end if `eof`. */
  function Ref(boot: Boot, stream: seq<Byte>, eof: bool): View {
    var l := Cut(stream);
    AtEnd(Consume(boot, Initial(), l.frames), l.rest, eof)
  }

  // ---------------------------------------------------------------- cutting and gluing

  lemma {:induction false} CutConcat(a: seq<Byte>, b: seq<Byte>)
    ensures Cut(a + b).frames == Cut(a).frames + Cut(Cut(a).rest + b).frames
    ensures Cut(a + b).rest == Cut(Cut(a).rest + b).rest
  {
    var r := Cut(a).rest;
    if b == [] {
      CutRest(a);
      assert a + b == a && r + b == r;
    } else {
      var c, x := b[..|b| - 1], b[|b| - 1];
      CutConcat(a, c);
      CutSnoc(a + c, x);
      CutSnoc(r + c, x);
      assert a + b == (a + c) + [x] && r + b == (r + c) + [x];
      var f, m := Cut(a).frames, Cut(r + c);
      assert (f + m.frames) + [m.rest] == f + (m.frames + [m.rest]);
    }
  }

  lemma CutSnoc(s: seq<Byte>, x: Byte)
    ensures Cut(s + [x]) == if x == NEWLINE then Lines(Cut(s).frames + [Cut(s).rest], [])
                            else Lines(Cut(s).frames, Cut(s).rest + [x])
  {
    assert (s + [x])[..|s + [x]| - 1] == s;
  }

  lemma {:induction false} CutRest(s: seq<Byte>)
    ensures NEWLINE !in Cut(s).rest && Cut(Cut(s).rest) == Lines([], Cut(s).rest)
    ensures forall f :: f in Cut(s).frames ==> NEWLINE !in f
  {
    if s != [] {
      CutRest(s[..|s| - 1]);
      var r := Cut(s).rest;
      if r != [] {
        assert r[..|r| - 1] == Cut(s[..|s| - 1]).rest;
      }
    }
  }

  lemma {:induction false} CutPlain(s: seq<Byte>)
    requires NEWLINE !in s
    ensures Cut(s) == Lines([], s)
  {
    if s != [] {
      CutPlain(s[..|s| - 1]);
    }
  }

  /** Reading one line off the front. */
  lemma CutLine(raw: seq<Byte>, remainder: seq<Byte>)
    requires NEWLINE !in raw
    ensures Cut(raw + [NEWLINE] + remainder).frames == [raw] + Cut(remainder).frames
    ensures Cut(raw + [NEWLINE] + remainder).rest == Cut(remainder).rest
  {
    CutPlain(raw);
    assert (raw + [NEWLINE])[..|raw|] == raw;
    assert Cut(raw + [NEWLINE]) == Lines([raw], []);
    CutConcat(raw + [NEWLINE], remainder);
    assert [] + remainder == remainder;
  }

  lemma {:induction false} ConsumeConcat(boot: Boot, v: View, a: seq<seq<Byte>>, b: seq<seq<Byte>>)
    ensures Consume(boot, v, a + b) == Consume(boot, Consume(boot, v, a), b)
  {
    if b == [] {
      assert a + b == a;
    } else {
      ConsumeConcat(boot, v, a, b[..|b| - 1]);
      assert (a + b)[..|a + b| - 1] == a + b[..|b| - 1];
    }
  }

  /** After an over-long frame nothing a stream brings changes the view. */
  lemma {:induction false} TooLongStays(boot: Boot, v: View, frames: seq<seq<Byte>>)
    requires v.error == TooLong && !v.commitValid
    ensures Consume(boot, v, frames) == v
  {
    if frames != [] {
      TooLongStays(boot, v, frames[..|frames| - 1]);
    }
  }

  lemma {:induction false} ConsumeSettled(boot: Boot, v: View, frames: seq<seq<Byte>>)
    requires Settle(v) == v
    ensures Settle(Consume(boot, v, frames)) == Consume(boot, v, frames)
  {
    if frames != [] {
      ConsumeSettled(boot, v, frames[..|frames| - 1]);
    }
  }

  /** A stream already rejected as over-long stays exactly so, whatever follows: the over-long rest is
      a prefix of some over-long frame or of a longer rest. */
  lemma TooLongIsFinal(boot: Boot, past: seq<Byte>, more: seq<Byte>, eof: bool)
    requires Ref(boot, past, false).error == TooLong
    ensures Ref(boot, past + more, eof) == Ref(boot, past, false)
  {
    var l := Cut(past);
    var v := Consume(boot, Initial(), l.frames);
    CutRest(past);
    CutConcat(past, more);
    ConsumeConcat(boot, Initial(), l.frames, Cut(l.rest + more).frames);
    ConsumeSettled(boot, Initial(), l.frames);
    if v.error == TooLong {
      TooLongStays(boot, v, Cut(l.rest + more).frames);
    } else {
      TooLongGrows(boot, v, l.rest, more);
    }
  }

  /** An over-long rest makes the next frame over-long, or stays an over-long rest. */
  lemma TooLongGrows(boot: Boot, v: View, rest: seq<Byte>, more: seq<Byte>)
    requires Cut(rest) == Lines([], rest) && |rest| > MAX_FRAME && v.error == NoError
    ensures var m := Cut(rest + more);
            if m.frames == [] then rest <= m.rest
            else Consume(boot, v, m.frames) == Take(boot, v, m.frames[0]) && |m.frames[0]| > MAX_FRAME
  {
    RestGrows(rest, more);
    var m := Cut(rest + more);
    if m.frames != [] {
      var first := m.frames[0];
      assert m.frames == [first] + m.frames[1..];
      assert [first][..0] == [];
      ConsumeConcat(boot, v, [first], m.frames[1..]);
      assert Consume(boot, v, [first]) == Take(boot, v, first);
      TooLongStays(boot, Take(boot, v, first), m.frames[1..]);
    }
  }

  /** Unfinished bytes end up at the front of the next frame, or stay unfinished. */
  lemma {:induction false} RestGrows(rest: seq<Byte>, more: seq<Byte>)
    requires Cut(rest) == Lines([], rest)
    ensures var m := Cut(rest + more);
            if m.frames == [] then rest <= m.rest else rest <= m.frames[0]
  {
    if more == [] {
      assert rest + more == rest;
    } else {
      RestGrows(rest, more[..|more| - 1]);
      assert (rest + more)[..|rest + more| - 1] == rest + more[..|more| - 1];
    }
  }

  // ---------------------------------------------------------------- the reader

  function LineEnd(s: seq<Byte>): (i: nat)
    requires NEWLINE in s
    ensures i < |s| && s[i] == NEWLINE && NEWLINE !in s[..i]
  {
    if s[0] == NEWLINE then 0
    else
      var j := LineEnd(s[1..]);
      assert s[..j + 1] == [s[0]] + s[1..][..j];
      j + 1
  }

  /** Half-way through the loop: `taken` are the lines already read out of `all`. */
  ghost predicate Reading(boot: Boot, view: View, buffer: seq<Byte>, all: Lines, taken: seq<seq<Byte>>) {
    && all.frames == taken + Cut(buffer).frames
    && all.rest == Cut(buffer).rest
    && Settle(view) == Consume(boot, Initial(), taken)
  }

  lemma ReadLine(boot: Boot, view: View, buffer: seq<Byte>, all: Lines, taken: seq<seq<Byte>>, end: nat)
    requires Reading(boot, view, buffer, all, taken)
    requires end < |buffer| && buffer[end] == NEWLINE && NEWLINE !in buffer[..end]
    ensures var raw, left := buffer[..end], buffer[end + 1..];
            if raw == [] then Reading(boot, view, left, all, taken + [raw])
            else if |raw| <= MAX_FRAME then Reading(boot, Accept(boot, view, raw), left, all, taken + [raw])
            else Settle(view.(error := TooLong)) == Consume(boot, Initial(), all.frames)
  {
    var raw, left := buffer[..end], buffer[end + 1..];
    var next := taken + [raw];
    assert buffer == raw + [NEWLINE] + left;
    CutLine(raw, left);
    assert next[..|next| - 1] == taken;
    assert all.frames == next + Cut(left).frames;
    assert Consume(boot, Initial(), next) == Take(boot, Settle(view), raw);
    if |raw| > MAX_FRAME {
      ConsumeConcat(boot, Initial(), next, Cut(left).frames);
      TooLongStays(boot, Settle(view.(error := TooLong)), Cut(left).frames);
    }
  }

  class LifecycleState {
    const boot: Boot
    var view: View
    var buffer: seq<Byte>
    ghost var received: seq<Byte>

    /** Holds from construction until the end-of-file feed. */
    ghost predicate Valid()
      reads this
    {
      && view == Ref(boot, received, false)
      && (view.error != TooLong ==> buffer == Cut(received).rest)
    }

    constructor (boot: Boot)
      ensures Valid() && this.boot == boot && received == [] && view == Initial()
    {
      this.boot := boot;
      view, buffer, received := Initial(), [], [];
    }

    method Feed(payload: seq<Byte>, eof: bool)
      requires Valid()
      modifies this
      ensures received == old(received) + payload
      ensures view == Ref(boot, received, eof)
      ensures !eof ==> Valid()
    {
      ghost var past, before := received, view;
      ghost var taken := Cut(past).frames;
      received := received + payload;
      buffer := buffer + payload;
      ghost var all := Cut(received);
      CutConcat(past, payload);
      ConsumeSettled(boot, Initial(), taken);
      while NEWLINE in buffer
        invariant received == past + payload
        invariant before.error == TooLong ==> Settle(view) == before
        invariant before.error != TooLong ==> Reading(boot, view, buffer, all, taken)
        decreases |buffer|
      {
        var end := LineEnd(buffer);
        var raw := buffer[..end];
        if before.error != TooLong {
          ReadLine(boot, view, buffer, all, taken, end);
        }
        buffer := buffer[end + 1..];
        if raw != [] {
          if |raw| > MAX_FRAME {
            view := view.(error := TooLong);
            break;
          }
          view := Accept(boot, view, raw);
        }
        taken := taken + [raw];
      }
      if NEWLINE !in buffer {
        CutPlain(buffer);
        assert taken + [] == taken;
      }
      Finish(eof);
      if before.error == TooLong {
        TooLongIsFinal(boot, past, payload, eof);
        TooLongIsFinal(boot, past, payload, false);
      }
    }

    /** The checks after the last complete line. */
    method Finish(eof: bool)
      modifies this`view
      ensures view == AtEnd(Settle(old(view)), buffer, eof)
    {
      if |buffer| > MAX_FRAME && view.error == NoError {
        view := view.(error := TooLong);
      }
      if eof && buffer != [] && view.error == NoError {
        view := view.(error := Incomplete);
      }
      if view.error != NoError {
        view := view.(commitValid := false);
      }
    }
  }

  function Flatten(chunks: seq<seq<Byte>>): seq<Byte> {
    if chunks == [] then [] else Flatten(chunks[..|chunks| - 1]) + chunks[|chunks| - 1]
  }

  /** A fresh reader fed the chunks one by one, then the end of file, knows exactly what a reader of
      the uncut stream knows. */
  method ReadAll(boot: Boot, chunks: seq<seq<Byte>>) returns (view: View)
    ensures view == Ref(boot, Flatten(chunks), true)
  {
    var state := new LifecycleState(boot);
    var i := 0;
    while i < |chunks|
      invariant 0 <= i <= |chunks| && state.Valid() && state.boot == boot && fresh(state)
      invariant state.received == Flatten(chunks[..i])
    {
      assert chunks[..i + 1][..i] == chunks[..i];
      state.Feed(chunks[i], false);
      i := i + 1;
    }
    assert chunks[..i] == chunks;
    state.Feed([], true);
    assert Flatten(chunks) + [] == Flatten(chunks);
    return state.view;
  }
}
