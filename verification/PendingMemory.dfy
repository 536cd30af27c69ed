/** The two-phase PENDING.md protocol of agent/memory.py. The first half is the text-level code, one
    file operation at a time, so that a crash or an I/O error can fall between any two of them; the
    second half keeps a ledger of the appended facts beside the two files and proves, over every run,
    where each fact is. */
module PendingMemory {
  import opened Wrappers

  // ---------------------------------------------------------------- text

  /** str.isspace, the class str.strip and str.rstrip remove. */
  predicate IsSpace(c: char) {
    || '\t' <= c <= '\r' || '\U{1c}' <= c <= ' ' || c == '\U{85}' || c == '\U{a0}' || c == '\U{1680}'
    || '\U{2000}' <= c <= '\U{200a}' || c == '\U{2028}' || c == '\U{2029}' || c == '\U{202f}'
    || c == '\U{205f}' || c == '\U{3000}'
  }

  function RStrip(s: string): (r: string)
    ensures r <= s && (r != [] ==> !IsSpace(r[|r| - 1]))
    ensures forall i :: |r| <= i < |s| ==> IsSpace(s[i])
  {
    if s == [] || !IsSpace(s[|s| - 1]) then s else RStrip(s[..|s| - 1])
  }

  /** `not s.strip()`; an empty file is blank too. */
  predicate Blank(s: string) {
    RStrip(s) == []
  }

  function Text(file: Option<string>): string {
    if file.Some? then file.value else ""
  }

  function Merge(snap: string, added: string): string {
    if Blank(added) then snap else RStrip(snap) + "\n" + added
  }

  // ---------------------------------------------------------------- the two files

  datatype Files = Files(pending: Option<string>, snapshot: Option<string>)

  function Appended(f: Files, facts: string): Files {
    if Blank(facts) then f else f.(pending := Some(Text(f.pending) + RStrip(facts) + "\n"))
  }

  /** `stop` is the number of file operations that still happen; a rollback needs two. */
  function RolledBack(f: Files, stop: nat): Files {
    if f.snapshot.None? || stop == 0 then f
    else
      var merged := f.(pending := Some(Merge(f.snapshot.value, Text(f.pending))));
      if stop == 1 then merged else merged.(snapshot := None)
  }

  function RollbackCost(f: Files): nat {
    if f.snapshot.None? then 0 else 2
  }

  function Snapshotted(f: Files, stop: nat): Files {
    var r := RolledBack(f, stop);
    if stop <= RollbackCost(f) || Text(r.pending) == "" then r else Files(None, r.pending)
  }

  function Touched(f: Files): Files {
    if f.pending.None? then f.(pending := Some("")) else f
  }

  function Committed(f: Files, stop: nat): Files {
    if f.snapshot.None? then (if stop == 0 then f else Touched(f))
    else if stop == 0 then f
    else if stop == 1 then f.(snapshot := None)
    else Touched(f.(snapshot := None))
  }

  function Restarted(f: Files, stop: nat): Files {
    if f.pending.Some? then RolledBack(f, stop)
    else if stop == 0 then f
    else RolledBack(Touched(f), stop - 1)
  }

  class MemoryStore {
    var pendingFile: Option<string>
    var snapshotFile: Option<string>

    ghost function Disk(): Files
      reads this
    {
      Files(pendingFile, snapshotFile)
    }

    constructor (disk: Files, stop: nat)
      ensures Disk() == Restarted(disk, stop)
    {
      pendingFile, snapshotFile := disk.pending, disk.snapshot;
      new;
      var left := stop;
      if pendingFile.None? {
        if left == 0 { return; }
        pendingFile, left := Some(""), left - 1;
      }
      RollbackPendingSnapshot(left);
    }

    method AppendPending(facts: string)
      modifies this
      ensures Disk() == Appended(old(Disk()), facts)
      ensures Blank(facts) ==> Disk() == old(Disk())
    {
      if Blank(facts) { return; }
      pendingFile := Some(Text(pendingFile) + RStrip(facts) + "\n");
    }

    method RollbackPendingSnapshot(stop: nat)
      modifies this
      ensures Disk() == RolledBack(old(Disk()), stop)
    {
      if snapshotFile.None? || stop == 0 { return; }
      pendingFile := Some(Merge(snapshotFile.value, Text(pendingFile)));
      if stop == 1 { return; }
      snapshotFile := None;
    }

    method SnapshotPending(stop: nat)
      modifies this
      ensures Disk() == Snapshotted(old(Disk()), stop)
    {
      var cost := if snapshotFile.None? then 0 else 2;
      RollbackPendingSnapshot(stop);
      if stop <= cost { return; }
      if pendingFile.None? || pendingFile.value == "" { return; }
      RenamePending();
    }

    /** The rename would replace whatever is at the snapshot path; nothing may be there. */
    method RenamePending()
      requires pendingFile.Some? && snapshotFile.None?
      modifies this
      ensures Disk() == Files(None, old(pendingFile))
    {
      pendingFile, snapshotFile := None, pendingFile;
    }

    method CommitPendingSnapshot(stop: nat)
      modifies this
      ensures Disk() == Committed(old(Disk()), stop)
    {
      var left := stop;
      if left == 0 { return; }
      if snapshotFile.Some? {
        snapshotFile, left := None, left - 1;
      }
      if left == 0 { return; }
      if pendingFile.None? {
        pendingFile := Some("");
      }
    }
  }

  // ---------------------------------------------------------------- facts

  /** One accepted append; `id` is its position in arrival order, so equal texts stay distinct. */
  datatype Fact = Fact(id: nat, text: string)

  /** The file text of a list of facts, as append_pending writes it. */
  function Enc(fs: seq<Fact>): string {
    if fs == [] then "" else Enc(fs[..|fs| - 1]) + fs[|fs| - 1].text + "\n"
  }

  ghost predicate Clean(fs: seq<Fact>) {
    forall f :: f in fs ==> f.text != "" && RStrip(f.text) == f.text
  }

  lemma {:induction false} EncConcat(a: seq<Fact>, b: seq<Fact>)
    ensures Enc(a + b) == Enc(a) + Enc(b)
  {
    if b == [] {
      assert a + b == a;
    } else {
      assert (a + b)[..|a + b| - 1] == a + b[..|b| - 1];
      EncConcat(a, b[..|b| - 1]);
      var init, last := Enc(b[..|b| - 1]), b[|b| - 1].text;
      assert Enc(b) == init + last + "\n";
      assert Enc(a) + Enc(b) == (Enc(a) + init) + last + "\n";
    }
  }

  /** Only the final newline of an encoded, non-empty list is white space at its end. */
  lemma EncStrip(fs: seq<Fact>)
    requires Clean(fs) && fs != []
    ensures RStrip(Enc(fs)) + "\n" == Enc(fs) && !Blank(Enc(fs))
  {
    var last := fs[|fs| - 1];
    var body := Enc(fs[..|fs| - 1]) + last.text;
    assert last in fs;
    assert body[|body| - 1] == last.text[|last.text| - 1];
    assert !IsSpace(body[|body| - 1]);
    assert Enc(fs)[..|Enc(fs)| - 1] == body;
    assert RStrip(body) == body;
  }

  /** The text-level merge is list concatenation, the snapshot's facts first. */
  lemma MergeIsConcat(snap: seq<Fact>, added: seq<Fact>)
    requires Clean(snap) && Clean(added) && snap != []
    ensures Merge(Enc(snap), Enc(added)) == Enc(snap + added)
  {
    EncConcat(snap, added);
    EncStrip(snap);
    if added != [] {
      EncStrip(added);
    } else {
      assert snap + added == snap;
    }
  }

  lemma EncEmpty(fs: seq<Fact>)
    ensures Enc(fs) == "" <==> fs == []
  {
  }

  // ---------------------------------------------------------------- runs

  /** The files, and a ledger kept independently of their text.
      `holding`: an optimizer has taken a snapshot and neither committed nor rolled it back;
      `mark`: how many facts had arrived when it did; `torn`: a rollback wrote PENDING but did not
      remove the snapshot, and no commit has completed since. */
  datatype Store = Store(files: Files, holding: bool, log: seq<Fact>, committed: nat, mark: nat,
                         snap: seq<Fact>, pend: seq<Fact>, torn: bool)

  datatype Event =
    | Append(facts: string)
    | Snapshot(stop: nat)
    | Commit(stop: nat)
    | Rollback(stop: nat)   // by the optimizer, or by a later snapshot's recovery
    | Abandon               // the optimizer dies holding its snapshot
    | Restart(stop: nat)    // crash, then the constructor, which may crash again

  /** One optimizer at a time: only it commits, and nobody snapshots while it holds one. */
  predicate Enabled(s: Store, e: Event) {
    match e
    case Commit(_) => s.holding
    case Snapshot(_) => !s.holding
    case _ => true
  }

  /** What a rollback with `stop` operations left does to the ledger. */
  function LedgerRollback(s: Store, stop: nat): Store {
    if s.snap == [] || stop == 0 then s.(holding := false)
    else if stop == 1 then s.(holding := false, pend := s.snap + s.pend, torn := true)
    else s.(holding := false, pend := s.snap + s.pend, snap := [])
  }

  function LedgerSnapshot(s: Store, stop: nat): Store {
    var cost := if s.snap == [] then 0 else 2;
    var r := LedgerRollback(s, stop);
    if stop <= cost then r
    else r.(holding := true, mark := |s.log|, snap := r.pend, pend := [])
  }

  function Step(s: Store, e: Event): Store
    requires Enabled(s, e)
  {
    match e
    case Append(facts) =>
      var f := s.files;
      if Blank(facts) then s
      else
        var fact := Fact(|s.log|, RStrip(facts));
        s.(files := Appended(f, facts), log := s.log + [fact], pend := s.pend + [fact])
    case Snapshot(stop) => LedgerSnapshot(s, stop).(files := Snapshotted(s.files, stop))
    case Rollback(stop) => LedgerRollback(s, stop).(files := RolledBack(s.files, stop))
    case Abandon => s.(holding := false)
    case Restart(stop) =>
      var left := if s.files.pending.Some? || stop == 0 then stop else stop - 1;
      LedgerRollback(s, left).(files := Restarted(s.files, stop))
    case Commit(stop) =>
      var files := Committed(s.files, stop);
      if stop == 0 && s.files.snapshot.Some? then s.(files := files)
      else s.(files := files, holding := false, committed := s.mark, snap := [], torn := false)
  }

  predicate Legal(s: Store, es: seq<Event>)
    decreases |es|
  {
    es == [] || (Enabled(s, es[0]) && Legal(Step(s, es[0]), es[1..]))
  }

  function Run(s: Store, es: seq<Event>): Store
    requires Legal(s, es)
    decreases |es|
  {
    if es == [] then s else Run(Step(s, es[0]), es[1..])
  }

  ghost predicate SameFacts(a: seq<Fact>, b: seq<Fact>) {
    forall f :: f in a <==> f in b
  }

  ghost predicate Tied(s: Store) {
    && Clean(s.snap) && Clean(s.pend)
    && Text(s.files.pending) == Enc(s.pend)
    && (s.snap == [] <==> s.files.snapshot.None?)
    && (s.snap != [] ==> s.files.snapshot.value == Enc(s.snap))
  }

  ghost predicate Book(s: Store) {
    && s.committed <= |s.log|
    && (forall i :: 0 <= i < |s.log| ==> s.log[i].id == i)
    && SameFacts(s.snap + s.pend, s.log[s.committed..])
    && (!s.torn ==> s.snap + s.pend == s.log[s.committed..])
    && (s.holding ==>
          && s.committed <= s.mark <= |s.log| && s.pend == s.log[s.mark..]
          && SameFacts(s.snap, s.log[s.committed..s.mark]))
  }

  ghost predicate Inv(s: Store) {
    Tied(s) && Book(s)
  }

  /** Facts with these texts, numbered from `first`. */
  function Numbered(texts: seq<string>, first: nat): (fs: seq<Fact>)
    ensures |fs| == |texts| && forall i :: 0 <= i < |fs| ==> fs[i] == Fact(first + i, texts[i])
  {
    seq(|texts|, i requires 0 <= i < |texts| => Fact(first + i, texts[i]))
  }

  /** The store a process finds: a snapshot an earlier process left, and a PENDING file, if there are any.
      Every line block in them is a fact of its own. */
  function Found(snap: seq<string>, pend: seq<string>, present: bool): Store {
    var older, newer := Numbered(snap, 0), Numbered(pend, |snap|);
    Store(Files(if present || pend != [] then Some(Enc(newer)) else None,
                if snap == [] then None else Some(Enc(older))),
          false, older + newer, 0, 0, older, newer, false)
  }

  /** Texts as append writes them. */
  ghost predicate Trimmed(texts: seq<string>) {
    forall i :: 0 <= i < |texts| ==> texts[i] != "" && RStrip(texts[i]) == texts[i]
  }

  lemma FoundIsSound(snap: seq<string>, pend: seq<string>, present: bool)
    requires Trimmed(snap) && Trimmed(pend)
    ensures Inv(Found(snap, pend, present)) && !Found(snap, pend, present).torn
  {
    var s := Found(snap, pend, present);
    assert s.log[0..] == s.snap + s.pend;
    assert Enc([]) == "";
  }

  // The text follows the ledger.

  lemma CleanJoins(a: seq<Fact>, b: seq<Fact>)
    requires Clean(a) && Clean(b)
    ensures Clean(a + b)
  {
  }

  lemma RollbackKeepsTie(s: Store, stop: nat)
    requires Tied(s)
    ensures Tied(LedgerRollback(s, stop).(files := RolledBack(s.files, stop)))
  {
    if s.snap != [] && stop > 0 {
      CleanJoins(s.snap, s.pend);
      MergeIsConcat(s.snap, s.pend);
      assert RolledBack(s.files, stop).pending == Some(Enc(s.snap + s.pend));
    }
  }

  lemma AppendKeepsTie(s: Store, facts: string)
    requires Tied(s) && !Blank(facts)
    ensures Tied(Step(s, Append(facts)))
  {
    AppendedText(s.pend, Fact(|s.log|, RStrip(facts)));
    TrimmedOnce(facts);
  }

  lemma AppendedText(pend: seq<Fact>, fact: Fact)
    ensures Enc(pend + [fact]) == Enc(pend) + fact.text + "\n"
  {
    EncConcat(pend, [fact]);
    assert [fact][..0] == [];
    assert Enc([fact]) == fact.text + "\n";
    assert Enc(pend) + fact.text + "\n" == Enc(pend) + (fact.text + "\n");
  }

  lemma TrimmedOnce(s: string)
    ensures RStrip(RStrip(s)) == RStrip(s)
  {
  }

  lemma SnapshotKeepsTie(s: Store, stop: nat)
    requires Tied(s)
    ensures Tied(LedgerSnapshot(s, stop).(files := Snapshotted(s.files, stop)))
  {
    RollbackKeepsTie(s, stop);
    var r := LedgerRollback(s, stop).(files := RolledBack(s.files, stop));
    EncEmpty(r.pend);
  }

  lemma RestartKeepsTie(s: Store, stop: nat)
    requires Tied(s)
    ensures Tied(Step(s, Restart(stop)))
  {
    if s.files.pending.Some? || stop == 0 {
      RollbackKeepsTie(s, stop);
    } else {
      RollbackKeepsTie(s.(files := Touched(s.files)), stop - 1);
    }
  }

  lemma CommitKeepsTie(s: Store, stop: nat)
    requires Tied(s) && s.holding
    ensures Tied(Step(s, Commit(stop)))
  {
  }

  lemma StepKeepsTie(s: Store, e: Event)
    requires Tied(s) && Enabled(s, e)
    ensures Tied(Step(s, e))
  {
    match e
    case Append(facts) => if !Blank(facts) { AppendKeepsTie(s, facts); }
    case Rollback(stop) => RollbackKeepsTie(s, stop);
    case Abandon =>
    case Restart(stop) => RestartKeepsTie(s, stop);
    case Snapshot(stop) => SnapshotKeepsTie(s, stop);
    case Commit(stop) => CommitKeepsTie(s, stop);
  }

  // The ledger knows where every fact is.

  lemma AppendKeepsBook(s: Store, facts: string)
    requires Book(s) && !Blank(facts)
    ensures Book(Step(s, Append(facts)))
  {
    var fact := Fact(|s.log|, RStrip(facts));
    var log, pend := s.log + [fact], s.pend + [fact];
    assert log[s.committed..] == s.log[s.committed..] + [fact];
    assert s.snap + pend == (s.snap + s.pend) + [fact];
    if s.holding {
      assert log[s.mark..] == s.log[s.mark..] + [fact];
      assert log[s.committed..s.mark] == s.log[s.committed..s.mark];
    }
  }

  lemma RollbackKeepsBook(s: Store, stop: nat)
    requires Book(s)
    ensures Book(LedgerRollback(s, stop))
  {
    if s.snap != [] && stop > 0 {
      var both := s.snap + s.pend;
      assert SameFacts(both, s.log[s.committed..]);
      assert SameFacts(s.snap + both, both);
      assert [] + both == both;
    }
  }

  lemma SnapshotKeepsBook(s: Store, stop: nat)
    requires Book(s) && !s.holding
    ensures Book(LedgerSnapshot(s, stop))
  {
    RollbackKeepsBook(s, stop);
    var r := LedgerRollback(s, stop);
    if stop > (if s.snap == [] then 0 else 2) {
      assert r.snap + r.pend == r.pend == r.pend + [];
      assert s.log[s.committed..|s.log|] == s.log[s.committed..];
    }
  }

  lemma CommitKeepsBook(s: Store, stop: nat)
    requires Inv(s) && s.holding
    ensures Book(Step(s, Commit(stop)))
  {
    assert [] + s.pend == s.pend;
  }

  lemma StepKeepsInv(s: Store, e: Event)
    requires Inv(s) && Enabled(s, e)
    ensures Inv(Step(s, e))
  {
    StepKeepsTie(s, e);
    match e
    case Append(facts) => if !Blank(facts) { AppendKeepsBook(s, facts); }
    case Rollback(stop) => RollbackKeepsBook(s, stop);
    case Abandon =>
    case Restart(stop) =>
      RollbackKeepsBook(s, if s.files.pending.Some? || stop == 0 then stop else stop - 1);
    case Snapshot(stop) => SnapshotKeepsBook(s, stop);
    case Commit(stop) => CommitKeepsBook(s, stop);
  }

  lemma {:induction false} RunKeepsInv(s: Store, es: seq<Event>)
    requires Inv(s) && Legal(s, es)
    ensures Inv(Run(s, es))
    decreases |es|
  {
    if es != [] {
      StepKeepsInv(s, es[0]);
      RunKeepsInv(Step(s, es[0]), es[1..]);
    }
  }

  // ---------------------------------------------------------------- what a run promises

  /** A rollback that writes PENDING and stops before removing a snapshot that exists. */
  predicate Tears(s: Store, e: Event) {
    && s.snap != []
    && match e
       case Rollback(stop) => stop == 1
       case Snapshot(stop) => stop == 1
       case Restart(stop) => if s.files.pending.Some? then stop == 1 else stop == 2
       case _ => false
  }

  /** A commit that removes its snapshot, or finds none. */
  predicate Commits(s: Store, e: Event) {
    e.Commit? && (e.stop > 0 || s.files.snapshot.None?)
  }

  /** Whether some rollback of the run was cut between its write and its unlink, no commit having
      completed after it; `cut` says whether that was so before. */
  predicate CutSinceCommit(s: Store, es: seq<Event>, cut: bool)
    requires Legal(s, es)
    decreases |es|
  {
    if es == [] then cut
    else CutSinceCommit(Step(s, es[0]), es[1..], Tears(s, es[0]) || (cut && !Commits(s, es[0])))
  }

  lemma {:induction false} TornIsCut(s: Store, es: seq<Event>)
    requires Legal(s, es)
    ensures Run(s, es).torn == CutSinceCommit(s, es, s.torn)
    decreases |es|
  {
    if es != [] {
      TornIsCut(Step(s, es[0]), es[1..]);
    }
  }

  /** Some fact stands there twice. */
  ghost predicate Doubled(fs: seq<Fact>) {
    exists i, j :: 0 <= i < j < |fs| && fs[i] == fs[j]
  }

  ghost predicate TornDoubles(s: Store) {
    s.torn ==> Doubled(s.snap + s.pend)
  }

  lemma DoubledGrows(a: seq<Fact>, b: seq<Fact>)
    requires Doubled(a)
    ensures Doubled(a + b) && Doubled(b + a)
  {
    var i, j :| 0 <= i < j < |a| && a[i] == a[j];
    assert (a + b)[i] == (a + b)[j];
    assert (b + a)[|b| + i] == (b + a)[|b| + j];
  }

  lemma RollbackKeepsDoubles(s: Store, stop: nat)
    requires TornDoubles(s)
    ensures TornDoubles(LedgerRollback(s, stop)) && TornDoubles(LedgerSnapshot(s, stop))
  {
    var both := s.snap + s.pend;
    if s.snap != [] {
      assert (s.snap + both)[0] == (s.snap + both)[|s.snap|];
    }
    assert [] + both == both && both + [] == both;
    assert s.snap == [] ==> both == s.pend && s.pend + [] == s.pend;
  }

  lemma StepKeepsDoubles(s: Store, e: Event)
    requires Inv(s) && TornDoubles(s) && Enabled(s, e)
    ensures TornDoubles(Step(s, e))
  {
    match e
    case Append(facts) =>
      if s.torn && !Blank(facts) {
        var fact := Fact(|s.log|, RStrip(facts));
        DoubledGrows(s.snap + s.pend, [fact]);
        assert s.snap + (s.pend + [fact]) == (s.snap + s.pend) + [fact];
      }
    case Rollback(stop) => RollbackKeepsDoubles(s, stop);
    case Snapshot(stop) => RollbackKeepsDoubles(s, stop);
    case Restart(stop) => RollbackKeepsDoubles(s, if s.files.pending.Some? || stop == 0 then stop else stop - 1);
    case Abandon =>
    case Commit(_) =>
  }

  lemma {:induction false} RunKeepsDoubles(s: Store, es: seq<Event>)
    requires Inv(s) && TornDoubles(s) && Legal(s, es)
    ensures TornDoubles(Run(s, es))
    decreases |es|
  {
    if es != [] {
      StepKeepsInv(s, es[0]);
      StepKeepsDoubles(s, es[0]);
      RunKeepsDoubles(Step(s, es[0]), es[1..]);
    }
  }

  // A doubled list is longer on disk than the facts it consists of.

  lemma Without(a: seq<Fact>, i: nat)
    requires i < |a|
    ensures |Enc(a)| == |Enc(a[..i] + a[i + 1..])| + |a[i].text| + 1
    ensures forall f :: f in a <==> f == a[i] || f in a[..i] + a[i + 1..]
  {
    assert a == a[..i] + ([a[i]] + a[i + 1..]);
    EncConcat(a[..i], [a[i]] + a[i + 1..]);
    EncConcat([a[i]], a[i + 1..]);
    EncConcat(a[..i], a[i + 1..]);
    assert [a[i]][..0] == [];
    assert Enc([a[i]]) == a[i].text + "\n";
  }

  ghost predicate Apart(fs: seq<Fact>) {
    forall i, j :: 0 <= i < j < |fs| ==> fs[i] != fs[j]
  }

  /** Distinct facts take no more room than any list that has them all. */
  lemma {:induction false} CoverIsLonger(a: seq<Fact>, b: seq<Fact>)
    requires Apart(b) && forall f :: f in b ==> f in a
    ensures |Enc(b)| <= |Enc(a)|
    decreases |b|
  {
    if b != [] {
      var front, last := b[..|b| - 1], b[|b| - 1];
      assert last in a;
      var i :| 0 <= i < |a| && a[i] == last;
      Without(a, i);
      forall f | f in front ensures f in a[..i] + a[i + 1..] {
        var k :| 0 <= k < |front| && front[k] == f;
        assert b[k] == f && b[k] in b;
      }
      CoverIsLonger(a[..i] + a[i + 1..], front);
    }
  }

  lemma DoubledIsLonger(a: seq<Fact>, b: seq<Fact>)
    requires Doubled(a) && Apart(b) && SameFacts(a, b)
    ensures |Enc(a)| > |Enc(b)|
  {
    var i, j :| 0 <= i < j < |a| && a[i] == a[j];
    Without(a, j);
    assert (a[..j] + a[j + 1..])[i] == a[j];
    CoverIsLonger(a[..j] + a[j + 1..], b);
  }

  /** The texts of the appends of a run, trimmed; blank ones are ignored. */
  function Appends(es: seq<Event>): seq<string> {
    if es == [] then []
    else
      (if es[0].Append? && !Blank(es[0].facts) then [RStrip(es[0].facts)] else []) + Appends(es[1..])
  }

  function Texts(fs: seq<Fact>): (ts: seq<string>)
    ensures |ts| == |fs| && forall i :: 0 <= i < |ts| ==> ts[i] == fs[i].text
  {
    seq(|fs|, i requires 0 <= i < |fs| => fs[i].text)
  }

  lemma StepLogs(s: Store, e: Event)
    requires Enabled(s, e)
    ensures Step(s, e).log ==
            if e.Append? && !Blank(e.facts) then s.log + [Fact(|s.log|, RStrip(e.facts))] else s.log
  {
  }

  /** The ledger of arrivals is what was there, followed by what the run appended, in order. */
  lemma {:induction false} LogIsAppends(s: Store, es: seq<Event>)
    requires Legal(s, es)
    ensures Texts(Run(s, es).log) == Texts(s.log) + Appends(es)
    decreases |es|
  {
    if es != [] {
      LogIsAppends(Step(s, es[0]), es[1..]);
      StepLogs(s, es[0]);
      var added := if es[0].Append? && !Blank(es[0].facts) then [RStrip(es[0].facts)] else [];
      assert Texts(Step(s, es[0]).log) == Texts(s.log) + added;
      assert Appends(es) == added + Appends(es[1..]);
    }
  }

  /** Starting from whatever an earlier process left, no uncommitted fact is ever lost, and nothing else
      is in the two files. */
  lemma NothingLost(snap: seq<string>, pend: seq<string>, present: bool, es: seq<Event>)
    requires Trimmed(snap) && Trimmed(pend) && Legal(Found(snap, pend, present), es)
    ensures var t := Run(Found(snap, pend, present), es);
            && (forall i :: t.committed <= i < |t.log| ==> t.log[i] in t.snap + t.pend)
            && (forall f :: f in t.snap + t.pend ==> t.committed <= f.id < |t.log| && f == t.log[f.id])
            && Text(t.files.pending) == Enc(t.pend) && Text(t.files.snapshot) == Enc(t.snap)
  {
    FoundIsSound(snap, pend, present);
    RunKeepsInv(Found(snap, pend, present), es);
    AllHeld(Run(Found(snap, pend, present), es));
  }

  lemma AllHeld(t: Store)
    requires Inv(t)
    ensures forall i :: t.committed <= i < |t.log| ==> t.log[i] in t.snap + t.pend
    ensures forall f :: f in t.snap + t.pend ==> t.committed <= f.id < |t.log| && f == t.log[f.id]
    ensures Text(t.files.pending) == Enc(t.pend) && Text(t.files.snapshot) == Enc(t.snap)
  {
    forall i | t.committed <= i < |t.log| ensures t.log[i] in t.snap + t.pend {
      assert t.log[t.committed..][i - t.committed] == t.log[i];
    }
  }

  lemma UncommittedApart(t: Store)
    requires Book(t)
    ensures Apart(t.log[t.committed..])
  {
    var left := t.log[t.committed..];
    assert forall i :: 0 <= i < |left| ==> left[i] == t.log[t.committed + i];
  }

  lemma FilesSpell(t: Store)
    requires Tied(t)
    ensures Text(t.files.snapshot) + Text(t.files.pending) == Enc(t.snap + t.pend)
  {
    EncConcat(t.snap, t.pend);
  }

  lemma ExactIffNotTorn(t: Store)
    requires Inv(t) && TornDoubles(t)
    ensures t.snap + t.pend == t.log[t.committed..] <==> !t.torn
    ensures Text(t.files.snapshot) + Text(t.files.pending) == Enc(t.log[t.committed..]) <==> !t.torn
  {
    FilesSpell(t);
    if t.torn {
      UncommittedApart(t);
      DoubledIsLonger(t.snap + t.pend, t.log[t.committed..]);
    }
  }

  /** The snapshot followed by PENDING is, to the character, the uncommitted facts in arrival order, each
      once, the older before the newer, if and only if no rollback has been cut between its write and its
      unlink since the last completed commit. */
  lemma OnceAndInOrder(snap: seq<string>, pend: seq<string>, present: bool, es: seq<Event>)
    requires Trimmed(snap) && Trimmed(pend) && Legal(Found(snap, pend, present), es)
    ensures var s := Found(snap, pend, present);
            var t := Run(s, es);
            && t.committed <= |t.log|
            && (t.snap + t.pend == t.log[t.committed..] <==> !CutSinceCommit(s, es, false))
            && (Text(t.files.snapshot) + Text(t.files.pending) == Enc(t.log[t.committed..])
                <==> !CutSinceCommit(s, es, false))
  {
    var s := Found(snap, pend, present);
    FoundIsSound(snap, pend, present);
    RunKeepsInv(s, es);
    RunKeepsDoubles(s, es);
    TornIsCut(s, es);
    ExactIffNotTorn(Run(s, es));
  }

  /** Until that commit, some fact stands in the files twice. */
  lemma TornDuplicates(snap: seq<string>, pend: seq<string>, present: bool, es: seq<Event>)
    requires Trimmed(snap) && Trimmed(pend) && Legal(Found(snap, pend, present), es)
    requires CutSinceCommit(Found(snap, pend, present), es, false)
    ensures var t := Run(Found(snap, pend, present), es); Doubled(t.snap + t.pend)
  {
    FoundIsSound(snap, pend, present);
    RunKeepsDoubles(Found(snap, pend, present), es);
    TornIsCut(Found(snap, pend, present), es);
  }

  lemma RunOne(s: Store, e: Event)
    requires Enabled(s, e)
    ensures Legal(s, [e]) && Run(s, [e]) == Step(s, e)
  {
    var t := Step(s, e);
    assert [e][1..] == [];
    assert Legal(t, []) && Run(t, []) == t;
  }

  lemma RunTwo(s: Store, e1: Event, e2: Event)
    requires Enabled(s, e1) && Enabled(Step(s, e1), e2)
    ensures Legal(s, [e1, e2]) && Run(s, [e1, e2]) == Step(Step(s, e1), e2)
  {
    var t := Step(s, e1);
    assert [e1, e2][1..] == [e2];
    RunOne(t, e2);
  }

  /** The shortest such run: the rollback is cut, recovery completes, and every snapshot fact is in
      PENDING twice. */
  lemma CutThenRecovered(s: Store)
    requires Inv(s) && !s.torn && s.snap != []
    ensures Legal(s, [Rollback(1), Rollback(2)])
    ensures var t := Run(s, [Rollback(1), Rollback(2)]);
            t.pend == s.snap + s.snap + s.pend && t.snap == []
  {
    RunTwo(s, Rollback(1), Rollback(2));
    assert s.snap + (s.snap + s.pend) == s.snap + s.snap + s.pend;
  }

  /** The next completed snapshot and commit end the duplication: every fact has left the files. */
  lemma CommitEndsDuplicates(s: Store)
    requires Inv(s) && !s.holding
    ensures Legal(s, [Snapshot(3), Commit(2)])
    ensures var t := Run(s, [Snapshot(3), Commit(2)]);
            && !t.torn && t.snap + t.pend == [] && t.committed == |t.log|
            && Text(t.files.pending) == "" && t.files.snapshot.None?
  {
    RunTwo(s, Snapshot(3), Commit(2));
    StepKeepsTie(s, Snapshot(3));
    StepKeepsTie(Step(s, Snapshot(3)), Commit(2));
  }

  /** Only a commit makes a fact leave the files, and only one of its own snapshot. */
  lemma OnlyCommitForgets(s: Store, e: Event, f: Fact)
    requires Inv(s) && Enabled(s, e)
    requires f in s.snap + s.pend && f !in Step(s, e).snap + Step(s, e).pend
    ensures e.Commit? && f in s.snap && f.id < s.mark
  {
    match e
    case Append(_) =>
    case Commit(stop) => CommitForgetsSnapshot(s, stop, f);
    case Rollback(stop) => RollbackForgetsNothing(s, stop, f);
    case Snapshot(stop) => RollbackForgetsNothing(s, stop, f);
    case Abandon =>
    case Restart(stop) =>
      RollbackForgetsNothing(s, if s.files.pending.Some? || stop == 0 then stop else stop - 1, f);
  }

  lemma CommitForgetsSnapshot(s: Store, stop: nat, f: Fact)
    requires Book(s) && s.holding && f in s.snap + s.pend
    requires f !in Step(s, Commit(stop)).snap + Step(s, Commit(stop)).pend
    ensures f in s.snap && f.id < s.mark
  {
    assert f in s.snap || f in s.pend;
  }

  lemma RollbackForgetsNothing(s: Store, stop: nat, f: Fact)
    requires f in s.snap + s.pend
    ensures f in LedgerRollback(s, stop).snap + LedgerRollback(s, stop).pend
    ensures f in LedgerSnapshot(s, stop).snap + LedgerSnapshot(s, stop).pend
  {
    assert f in s.snap || f in s.pend;
  }

  /** The snapshot gets as far as the rename. */
  predicate Renames(f: Files, stop: nat) {
    stop > RollbackCost(f) && Text(RolledBack(f, stop).pending) != ""
  }

  /** The rename replaces nothing: when it happens no file is at the snapshot path, and what was there
      before the call is in the renamed file, followed by what was pending. Without it a cut leaves the old
      snapshot where it is, or its text in PENDING. */
  lemma SnapshotNeverOverwrites(f: Files, stop: nat)
    ensures Renames(f, stop) ==>
              && RolledBack(f, stop).snapshot == None && RolledBack(f, stop).pending.Some?
              && Snapshotted(f, stop) ==
                 Files(None, Some(if f.snapshot.Some? then Merge(f.snapshot.value, Text(f.pending))
                                  else Text(f.pending)))
    ensures !Renames(f, stop) && f.snapshot.Some? ==>
              || Snapshotted(f, stop).snapshot == f.snapshot
              || Snapshotted(f, stop).pending == Some(Merge(f.snapshot.value, Text(f.pending)))
  {
  }

  // ---------------------------------------------------------------- what the single operations leave

  /** Blank text adds nothing: not by an append, and not as PENDING in a merge. */
  lemma BlankAddsNothing(f: Files, snap: string, blank: string)
    requires Blank(blank)
    ensures Appended(f, blank) == f && Merge(snap, blank) == snap
  {
  }

  /** A commit unlinks the snapshot first and then makes sure that PENDING is there, whose text it leaves
      alone; a start does both too. So PENDING is missing only between a rename and the next append. */
  lemma PendingIsThere(f: Files, stop: nat)
    ensures stop == 0 ==> Committed(f, stop) == f
    ensures stop > 0 ==> Committed(f, stop).snapshot == None && Text(Committed(f, stop).pending) == Text(f.pending)
    ensures stop > 1 ==> Committed(f, stop).pending.Some?
    ensures stop == 1 && f.snapshot.Some? ==> Committed(f, stop).pending == f.pending
    ensures stop > 2 ==> Restarted(f, stop).pending.Some? && Restarted(f, stop).snapshot == None
  {
  }

  /** Whatever ends the optimizer's work frees the snapshot for the next one. */
  lemma FreesSnapshot(s: Store, e: Event)
    requires Enabled(s, e) && (e.Rollback? || e.Abandon? || e.Restart? || (e.Commit? && e.stop > 0))
    ensures !Step(s, e).holding && Enabled(Step(s, e), Snapshot(3))
  {
  }
}
