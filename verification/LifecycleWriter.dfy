/** The other end of the lifecycle pipe (agent/restart.py, SupervisorCommitChannel), and what the
    supervisor makes of everything it may write. */
module LifecycleWriter {
  import opened Lifecycle
  import opened LifecycleGrammar
  import opened Wrappers

  const MAX_PAYLOAD := 4096
  const MAX_DETAIL := 1024

  datatype Op =
    | StageOp(name: string, elapsedMs: int)
    | ReadyOp(processId: int)
    | ReloadOp(success: bool, detail: string)
    | RestartOp(requestBoot: string, hex: string)
    | SettingsCommitOp(requestId: string)

  type Encoder = map<string, Json> -> seq<Byte>

  /** The JSON writer is inverted by the reader and never emits a raw newline; str.strip is idempotent
      and `str(x or "")` returns a string unchanged. */
  ghost predicate Faithful(boot: Boot, encode: Encoder) {
    && (forall f :: boot.decode(encode(f)) == Object(f) && encode(f) != [] && NEWLINE !in encode(f))
    && (forall s :: boot.strip(boot.strip(s)) == boot.strip(s))
    && (forall s :: boot.text(Str(s)) == s)
  }

  function Truncated(detail: string): string {
    if |detail| <= MAX_DETAIL then detail else detail[..MAX_DETAIL]
  }

  function FrameOf(boot: Boot, op: Op): map<string, Json> {
    match op
    case StageOp(name, elapsed) =>
      map["type" := Str("stage"), "bootId" := Str(boot.bootId), "stage" := Str(boot.strip(name)),
          "elapsedMs" := Int(elapsed)]
    case ReadyOp(pid) => map["type" := Str("ready"), "bootId" := Str(boot.bootId), "pid" := Int(pid)]
    case ReloadOp(success, detail) =>
      map["type" := Str("settings_reloaded"), "bootId" := Str(boot.bootId), "success" := Bool(success),
          "detail" := Str(Truncated(detail))]
    case RestartOp(_, hex) => CommitFrame(boot, "restart_" + hex)
    case SettingsCommitOp(id) => CommitFrame(boot, id)
  }

  function CommitFrame(boot: Boot, requestId: string): map<string, Json> {
    map["type" := Str("commit"), "bootId" := Str(boot.bootId), "nonce" := Str(boot.nonce),
        "requestId" := Str(requestId)]
  }

  /** What one call puts into the pipe, or None when it raises and writes nothing. */
  function Emit(boot: Boot, encode: Encoder, op: Op): Option<seq<Byte>> {
    var legal :=
      match op
      case StageOp(name, _) => boot.strip(name) != ""
      case ReadyOp(pid) => pid > 0
      case ReloadOp(_, _) => true
      case RestartOp(requestBoot, _) => requestBoot == boot.bootId
      case SettingsCommitOp(id) => "settings_" <= id;
    var payload := encode(FrameOf(boot, op)) + [NEWLINE];
    if legal && |payload| <= MAX_PAYLOAD then Some(payload) else None
  }

  /** Which calls write their frame: those that are in order and whose frame with its newline has at most 4096
      bytes. All others raise and write nothing. */
  lemma WritesIff(boot: Boot, encode: Encoder, op: Op)
    ensures Emit(boot, encode, op).Some? <==>
              && |encode(FrameOf(boot, op))| < 4096
              && match op
                 case StageOp(name, _) => boot.strip(name) != ""
                 case ReadyOp(pid) => pid > 0
                 case ReloadOp(_, _) => true
                 case RestartOp(requestBoot, _) => requestBoot == boot.bootId
                 case SettingsCommitOp(id) => "settings_" <= id
  {
  }

  /** A detail keeps its first 1024 characters. */
  lemma KeepsBeginning(detail: string)
    ensures Truncated(detail) <= detail
    ensures |Truncated(detail)| == if |detail| < 1024 then |detail| else 1024
  {
  }

  class SupervisorCommitChannel {
    const boot: Boot
    const encode: Encoder
    var pipe: seq<Byte>

    constructor (boot: Boot, encode: Encoder)
      ensures this.boot == boot && this.encode == encode && pipe == []
    {
      this.boot, this.encode, pipe := boot, encode, [];
    }

    method Stage(name: string, elapsedMs: int) returns (ok: bool)
      modifies this
      ensures ok == Emit(boot, encode, StageOp(name, elapsedMs)).Some?
      ensures pipe == old(pipe) + if ok then Emit(boot, encode, StageOp(name, elapsedMs)).value else []
    {
      var clean := boot.strip(name);
      if clean == "" { return false; }
      ok := WriteFrame(map["type" := Str("stage"), "bootId" := Str(boot.bootId), "stage" := Str(clean),
                           "elapsedMs" := Int(elapsedMs)]);
    }

    method Ready(pid: int) returns (ok: bool)
      modifies this
      ensures ok == Emit(boot, encode, ReadyOp(pid)).Some?
      ensures pipe == old(pipe) + if ok then Emit(boot, encode, ReadyOp(pid)).value else []
    {
      if pid <= 0 { return false; }
      ok := WriteFrame(map["type" := Str("ready"), "bootId" := Str(boot.bootId), "pid" := Int(pid)]);
    }

    method SettingsReloaded(success: bool, detail: string) returns (ok: bool)
      modifies this
      ensures ok == Emit(boot, encode, ReloadOp(success, detail)).Some?
      ensures pipe == old(pipe) + if ok then Emit(boot, encode, ReloadOp(success, detail)).value else []
    {
      ok := WriteFrame(map["type" := Str("settings_reloaded"), "bootId" := Str(boot.bootId),
                           "success" := Bool(success), "detail" := Str(Truncated(detail))]);
    }

    method Commit(requestBoot: string, hex: string) returns (ok: bool)
      modifies this
      ensures ok == Emit(boot, encode, RestartOp(requestBoot, hex)).Some?
      ensures pipe == old(pipe) + if ok then Emit(boot, encode, RestartOp(requestBoot, hex)).value else []
    {
      if requestBoot != boot.bootId { return false; }
      ok := WriteFrame(CommitFrame(boot, "restart_" + hex));
    }

    method CommitSettings(requestId: string) returns (ok: bool)
      modifies this
      ensures ok == Emit(boot, encode, SettingsCommitOp(requestId)).Some?
      ensures pipe == old(pipe) + if ok then Emit(boot, encode, SettingsCommitOp(requestId)).value else []
    {
      if !("settings_" <= requestId) { return false; }
      ok := WriteFrame(CommitFrame(boot, requestId));
    }

    method WriteFrame(frame: map<string, Json>) returns (ok: bool)
      modifies this
      ensures ok == (|encode(frame)| + 1 <= MAX_PAYLOAD)
      ensures pipe == old(pipe) + if ok then encode(frame) + [NEWLINE] else []
    {
      var payload := encode(frame) + [NEWLINE];
      if |payload| > MAX_PAYLOAD { return false; }
      pipe := pipe + payload;
      return true;
    }
  }

  // ---------------------------------------------------------------- what the reader makes of it

  ghost predicate Written(boot: Boot, encode: Encoder, ops: seq<Op>) {
    forall op :: op in ops ==> Emit(boot, encode, op).Some?
  }

  /** The pipe's contents after successful calls `ops`. */
  function Stream(boot: Boot, encode: Encoder, ops: seq<Op>): seq<Byte>
    requires Written(boot, encode, ops)
  {
    if ops == [] then []
    else Stream(boot, encode, ops[..|ops| - 1]) + Emit(boot, encode, ops[|ops| - 1]).value
  }

  /** What a call means to say. */
  function Intent(boot: Boot, op: Op): Meaning {
    match op
    case StageOp(name, elapsed) => Meaning.Stage(boot.strip(name), elapsed)
    case ReadyOp(pid) => Meaning.Ready(pid)
    case ReloadOp(success, detail) => Settings(success, Truncated(detail))
    case RestartOp(_, _) => Meaning.Commit
    case SettingsCommitOp(_) => Meaning.Commit
  }

  predicate Fits(op: Op) {
    op.ReloadOp? ==> Utf8Len(Truncated(op.detail)) <= 2048
  }

  /** What the supervisor hears of it. */
  function HeardAs(boot: Boot, op: Op): Meaning {
    if Fits(op) then Intent(boot, op) else Junk
  }

  function Heard(boot: Boot, ops: seq<Op>): seq<Meaning> {
    seq(|ops|, i requires 0 <= i < |ops| => HeardAs(boot, ops[i]))
  }

  function Intents(boot: Boot, ops: seq<Op>): seq<Meaning> {
    seq(|ops|, i requires 0 <= i < |ops| => Intent(boot, ops[i]))
  }

  lemma CommitMeant(boot: Boot, encode: Encoder, requestId: string)
    requires Faithful(boot, encode) && |encode(CommitFrame(boot, requestId))| <= MAX_FRAME
    requires "restart_" <= requestId || "settings_" <= requestId
    ensures Meant(boot, encode(CommitFrame(boot, requestId))) == Meaning.Commit
  {
    var f := CommitFrame(boot, requestId);
    assert boot.decode(encode(f)) == Object(f);
    assert f["requestId"] == Str(requestId) && f["nonce"] == Str(boot.nonce) && f["type"] == Str("commit");
  }

  lemma StageMeant(boot: Boot, encode: Encoder, name: string, elapsed: int)
    requires Faithful(boot, encode) && Emit(boot, encode, StageOp(name, elapsed)).Some?
    ensures Meant(boot, encode(FrameOf(boot, StageOp(name, elapsed)))) == Meaning.Stage(boot.strip(name), elapsed)
  {
    var f := FrameOf(boot, StageOp(name, elapsed));
    assert boot.decode(encode(f)) == Object(f);
    assert f["stage"] == Str(boot.strip(name)) && f["type"] == Str("stage");
  }

  lemma ReloadMeant(boot: Boot, encode: Encoder, success: bool, detail: string)
    requires Faithful(boot, encode) && Emit(boot, encode, ReloadOp(success, detail)).Some?
    ensures Meant(boot, encode(FrameOf(boot, ReloadOp(success, detail)))) == HeardAs(boot, ReloadOp(success, detail))
  {
    var f := FrameOf(boot, ReloadOp(success, detail));
    assert boot.decode(encode(f)) == Object(f);
    assert f["detail"] == Str(Truncated(detail)) && f["type"] == Str("settings_reloaded");
  }

  lemma FrameMeant(boot: Boot, encode: Encoder, op: Op)
    requires Faithful(boot, encode) && Emit(boot, encode, op).Some?
    ensures Meant(boot, encode(FrameOf(boot, op))) == HeardAs(boot, op)
    ensures Emit(boot, encode, op).value == encode(FrameOf(boot, op)) + [NEWLINE]
  {
    match op
    case StageOp(name, elapsed) => StageMeant(boot, encode, name, elapsed);
    case ReadyOp(pid) =>
      var f := FrameOf(boot, op);
      assert boot.decode(encode(f)) == Object(f);
      assert f["pid"] == Int(pid) && f["type"] == Str("ready");
    case ReloadOp(success, detail) => ReloadMeant(boot, encode, success, detail);
    case RestartOp(_, hex) =>
      assert "restart_" <= "restart_" + hex;
      CommitMeant(boot, encode, "restart_" + hex);
    case SettingsCommitOp(id) => CommitMeant(boot, encode, id);
  }

  lemma OneMoreLine(boot: Boot, before: seq<Byte>, raw: seq<Byte>)
    requires Cut(before).rest == [] && NEWLINE !in raw && raw != []
    ensures Cut(before + (raw + [NEWLINE])).rest == []
    ensures Meanings(boot, Cut(before + (raw + [NEWLINE])).frames) ==
              Meanings(boot, Cut(before).frames) + [Meant(boot, raw)]
  {
    CutConcat(before, raw + [NEWLINE]);
    assert [] + (raw + [NEWLINE]) == raw + [NEWLINE] + [];
    CutLine(raw, []);
    var frames := Cut(before).frames + [raw];
    assert Cut(before + (raw + [NEWLINE])).frames == frames;
    assert frames[..|frames| - 1] == Cut(before).frames;
  }

  lemma OneMoreOp(boot: Boot, encode: Encoder, before: seq<Byte>, front: seq<Op>, op: Op)
    requires Faithful(boot, encode) && Emit(boot, encode, op).Some?
    requires Cut(before).rest == [] && Meanings(boot, Cut(before).frames) == Heard(boot, front)
    ensures var after := before + Emit(boot, encode, op).value;
            Cut(after).rest == [] && Meanings(boot, Cut(after).frames) == Heard(boot, front + [op])
  {
    FrameMeant(boot, encode, op);
    OneMoreLine(boot, before, encode(FrameOf(boot, op)));
    assert Heard(boot, front + [op]) == Heard(boot, front) + [HeardAs(boot, op)];
  }

  lemma StreamStep(boot: Boot, encode: Encoder, ops: seq<Op>)
    requires Written(boot, encode, ops) && ops != []
    ensures var front, op := ops[..|ops| - 1], ops[|ops| - 1];
            && ops == front + [op] && Written(boot, encode, front) && Emit(boot, encode, op).Some?
            && Stream(boot, encode, ops) == Stream(boot, encode, front) + Emit(boot, encode, op).value
  {
    assert ops[|ops| - 1] in ops;
  }

  lemma {:induction false} StreamMeans(boot: Boot, encode: Encoder, ops: seq<Op>)
    requires Faithful(boot, encode) && Written(boot, encode, ops)
    ensures Cut(Stream(boot, encode, ops)).rest == []
    ensures Meanings(boot, Cut(Stream(boot, encode, ops)).frames) == Heard(boot, ops)
  {
    if ops != [] {
      StreamStep(boot, encode, ops);
      var front, op := ops[..|ops| - 1], ops[|ops| - 1];
      StreamMeans(boot, encode, front);
      OneMoreOp(boot, encode, Stream(boot, encode, front), front, op);
    }
  }

  lemma JunkIsMalformed(ms: seq<Meaning>, i: nat)
    requires i < |ms| && ms[i].Junk?
    ensures !WellFormed(ms)
  {
    var n := Stages(ms);
  }

  /** A writer that follows the protocol order is accepted exactly when every reload detail, cut to
      1024 characters, is at most 2048 bytes of UTF-8; the supervisor then knows just what was said. */
  lemma WriterAccepted(boot: Boot, encode: Encoder, ops: seq<Op>)
    requires Faithful(boot, encode) && Written(boot, encode, ops)
    requires WellFormed(Intents(boot, ops))
    ensures var v := Ref(boot, Stream(boot, encode, ops), true);
            && (v.error == NoError <==> forall op :: op in ops ==> Fits(op))
            && (v.error == NoError ==> Reflects(v, Intents(boot, ops)))
  {
    StreamMeans(boot, encode, ops);
    StreamAccepted(boot, Stream(boot, encode, ops), true);
    if forall op :: op in ops ==> Fits(op) {
      assert Heard(boot, ops) == Intents(boot, ops);
    } else {
      var op :| op in ops && !Fits(op);
      var i :| 0 <= i < |ops| && ops[i] == op;
      assert Heard(boot, ops)[i].Junk?;
      JunkIsMalformed(Heard(boot, ops), i);
    }
  }

  // ---------------------------------------------------------------- a frame only the writer accepts

  /** Bytes json.dumps spends on one character inside a string, ensure_ascii being on. */
  function EscapedBytes(c: char): nat {
    if c == '\"' || c == '\\' || c == '\n' || c == '\r' || c == '\t' || c == '\U{8}' || c == '\U{c}' then 2
    else if ' ' <= c <= '~' then 1
    else if c < '\U{10000}' then 6 else 12
  }

  function EscapedLen(s: string): nat {
    if s == [] then 0 else EscapedLen(s[..|s| - 1]) + EscapedBytes(s[|s| - 1])
  }

  /** The size of a reload frame without its newline: 67 or 68 bytes of syntax and the two strings. */
  ghost predicate Sized(boot: Boot, encode: Encoder) {
    forall success, detail :: |encode(FrameOf(boot, ReloadOp(success, detail)))| ==
                     (if success then 67 else 68) + EscapedLen(boot.bootId) + EscapedLen(Truncated(detail))
  }

  function Repeat(c: char, n: nat): string {
    seq(n, i => c)
  }

  lemma RepeatMore(s: string, c: char, n: nat)
    requires n > 0
    ensures s + Repeat(c, n) == (s + Repeat(c, n - 1)) + [c]
  {
  }

  lemma Times(n: nat, x: nat)
    requires n > 0
    ensures n * x == (n - 1) * x + x
  {
  }

  lemma Utf8More(s: string, c: char)
    ensures Utf8Len(s + [c]) == Utf8Len(s) + CharBytes(c)
    ensures EscapedLen(s + [c]) == EscapedLen(s) + EscapedBytes(c)
  {
    assert (s + [c])[..|s|] == s;
  }

  lemma {:induction false} LengthsOf(s: string, c: char, n: nat)
    ensures Utf8Len(s + Repeat(c, n)) == Utf8Len(s) + n * CharBytes(c)
    ensures EscapedLen(s + Repeat(c, n)) == EscapedLen(s) + n * EscapedBytes(c)
  {
    if n == 0 {
      assert s + Repeat(c, n) == s;
    } else {
      LengthsOf(s, c, n - 1);
      RepeatMore(s, c, n);
      Utf8More(s + Repeat(c, n - 1), c);
      Times(n, CharBytes(c));
      Times(n, EscapedBytes(c));
    }
  }

  lemma {:induction false} PlainText(s: string)
    requires forall i :: 0 <= i < |s| ==> CharBytes(s[i]) == 1 && EscapedBytes(s[i]) == 1
    ensures Utf8Len(s) == |s| && EscapedLen(s) == |s|
  {
    if s != [] {
      PlainText(s[..|s| - 1]);
    }
  }

  /** What the gateway reports of a failed reload: the exception's type and its message. */
  function FailureDetail(kind: string, message: string): string {
    kind + ": " + message
  }

  function MixedMessage(): string {
    Repeat('a', 416) + Repeat('\U{4e2d}', 594)
  }

  lemma MixedSizes()
    ensures var detail := FailureDetail("RuntimeError", MixedMessage());
            |detail| == 1024 && Utf8Len(detail) == 2212 && EscapedLen(detail) == 3994
  {
    var head := "RuntimeError" + ": ";
    PlainText(head);
    LengthsOf(head, 'a', 416);
    LengthsOf(head + Repeat('a', 416), '\U{4e2d}', 594);
    assert FailureDetail("RuntimeError", MixedMessage()) == head + Repeat('a', 416) + Repeat('\U{4e2d}', 594);
  }

  lemma ReadyThenReload(detail: string)
    ensures WellFormed([Meaning.Ready(1), Settings(false, detail)])
  {
    var ms := [Meaning.Ready(1), Settings(false, detail)];
    var first := ms[..1];
    assert first[..0] == [];
    assert Stages(first) == 0 && Commits(first) == 0;
    assert Stages(ms) == 0 && Commits(ms) == 0;
  }

  /** A failed reload whose message has 416 one-byte and 594 three-byte characters: the frame fits the
      writer's own limit under a 32-character boot id, and the supervisor rejects it. */
  lemma WriterCanBeRejected(boot: Boot, encode: Encoder)
    requires Faithful(boot, encode) && Sized(boot, encode) && EscapedLen(boot.bootId) == 32
    requires Emit(boot, encode, ReadyOp(1)).Some?
    ensures var ops := [ReadyOp(1), ReloadOp(false, FailureDetail("RuntimeError", MixedMessage()))];
            && Written(boot, encode, ops)
            && WellFormed(Intents(boot, ops))
            && Ref(boot, Stream(boot, encode, ops), true).error != NoError
  {
    var detail := FailureDetail("RuntimeError", MixedMessage());
    MixedSizes();
    var ops := [ReadyOp(1), ReloadOp(false, detail)];
    assert Intents(boot, ops) == [Meaning.Ready(1), Settings(false, detail)];
    ReadyThenReload(detail);
    assert ops[1] in ops && !Fits(ops[1]);
    WriterAccepted(boot, encode, ops);
  }

  /** A failed reload whose message has 342 characters outside the basic plane, written as two escapes each:
      the supervisor would take the detail, and it is never written. */
  lemma ReportIsLost(boot: Boot, encode: Encoder)
    requires Sized(boot, encode)
    ensures var op := ReloadOp(false, FailureDetail("RuntimeError", Repeat('\U{1f600}', 342)));
            Fits(op) && Truncated(op.detail) == op.detail && Emit(boot, encode, op).None?
  {
    var head := "RuntimeError" + ": ";
    PlainText(head);
    LengthsOf(head, '\U{1f600}', 342);
    WritesIff(boot, encode, ReloadOp(false, FailureDetail("RuntimeError", Repeat('\U{1f600}', 342))));
  }
}
