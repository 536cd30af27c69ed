/** Reciprocal-rank fusion of the vector and the keyword lane (memory2/retriever.py). Scores are reals. */
module RankFusion {
  import opened Wrappers

  const RRF_K: nat := 60
  const KEYWORD_WEIGHT := 0.5

  /** A hit; `body` stands for its remaining fields. */
  datatype Hit = Hit(id: string, score: Option<real>, keywordScore: Option<real>, body: nat)

  /** A hit as returned, with its fused score. */
  datatype Fused = Fused(hit: Hit, rrf: real)

  datatype Scored = Scored(id: string, rrf: real, score: real)

  datatype Merged = Ranked(items: seq<Fused>) | NoScore | NoId

  function Score(h: Hit): real {
    if h.score.Some? then h.score.value else 0.0
  }

  // ---------------------------------------------------------------- the order

  /** Code point order of strings. */
  predicate Less(a: string, b: string) {
    if b == [] then false
    else if a == [] then true
    else a[0] < b[0] || (a[0] == b[0] && Less(a[1..], b[1..]))
  }

  lemma {:induction false} LessTotal(a: string, b: string)
    ensures !(Less(a, b) && Less(b, a)) && (a == b <==> !Less(a, b) && !Less(b, a))
  {
    if a != [] && b != [] {
      LessTotal(a[1..], b[1..]);
      assert a == [a[0]] + a[1..] && b == [b[0]] + b[1..];
    }
  }

  lemma {:induction false} LessTransitive(a: string, b: string, c: string)
    requires Less(a, b) && Less(b, c)
    ensures Less(a, c)
  {
    if a != [] && a[0] == b[0] && b[0] == c[0] {
      LessTransitive(a[1..], b[1..], c[1..]);
    }
  }

  /** The sort key (-rrf, -score, id). */
  predicate Before(x: Scored, y: Scored) {
    x.rrf > y.rrf || (x.rrf == y.rrf && (x.score > y.score || (x.score == y.score && Less(x.id, y.id))))
  }

  lemma BeforeTotal(x: Scored, y: Scored)
    ensures !(Before(x, y) && Before(y, x))
    ensures x == y <==> !Before(x, y) && !Before(y, x)
  {
    LessTotal(x.id, y.id);
  }

  lemma BeforeTransitive(x: Scored, y: Scored, z: Scored)
    requires Before(x, y) && Before(y, z)
    ensures Before(x, z)
  {
    if Less(x.id, y.id) && Less(y.id, z.id) {
      LessTransitive(x.id, y.id, z.id);
    }
  }

  // ---------------------------------------------------------------- the lanes

  /** Inserts ahead of the first hit that does not score more: sorted(reverse=True) is stable. */
  function InsertDown(h: Hit, hs: seq<Hit>): seq<Hit> {
    if hs == [] || Score(hs[0]) <= Score(h) then [h] + hs else [hs[0]] + InsertDown(h, hs[1..])
  }

  function SortDown(hs: seq<Hit>): seq<Hit> {
    if hs == [] then [] else InsertDown(hs[0], SortDown(hs[1..]))
  }

  ghost predicate Falling(hs: seq<Hit>) {
    forall i, j :: 0 <= i < j < |hs| ==> Score(hs[i]) >= Score(hs[j])
  }

  function Scoring(hs: seq<Hit>, s: real): seq<Hit> {
    if hs == [] then [] else (if Score(hs[0]) == s then [hs[0]] else []) + Scoring(hs[1..], s)
  }

  lemma {:induction false} InsertDownMembers(h: Hit, hs: seq<Hit>)
    ensures forall x :: x in InsertDown(h, hs) <==> x == h || x in hs
  {
    if hs != [] && Score(hs[0]) > Score(h) {
      InsertDownMembers(h, hs[1..]);
      assert forall x :: x in hs <==> x == hs[0] || x in hs[1..];
    }
  }

  lemma {:induction false} InsertDownFalls(h: Hit, hs: seq<Hit>)
    requires Falling(hs)
    ensures Falling(InsertDown(h, hs))
  {
    if hs != [] && Score(hs[0]) > Score(h) {
      InsertDownFalls(h, hs[1..]);
      InsertDownMembers(h, hs[1..]);
      var rest := InsertDown(h, hs[1..]);
      forall j | 0 <= j < |rest| ensures Score(hs[0]) >= Score(rest[j]) {
        assert rest[j] in rest;
      }
    }
  }

  function Own(h: Hit, s: real): seq<Hit> {
    if Score(h) == s then [h] else []
  }

  lemma ScoringFirst(h: Hit, hs: seq<Hit>, s: real)
    ensures Scoring([h] + hs, s) == Own(h, s) + Scoring(hs, s)
  {
    assert ([h] + hs)[1..] == hs;
  }

  lemma {:induction false} InsertDownKeeps(h: Hit, hs: seq<Hit>, s: real)
    ensures Scoring(InsertDown(h, hs), s) == Own(h, s) + Scoring(hs, s)
  {
    if hs == [] || Score(hs[0]) <= Score(h) {
      ScoringFirst(h, hs, s);
    } else {
      var rest := InsertDown(h, hs[1..]);
      InsertDownKeeps(h, hs[1..], s);
      ScoringFirst(hs[0], rest, s);
      ScoringFirst(hs[0], hs[1..], s);
      assert hs == [hs[0]] + hs[1..];
      assert Own(h, s) == [] || Own(hs[0], s) == [];
    }
  }

  /** The sort is descending, and for every score the hits with that score are the same ones in the same
      order as before: nothing is lost, added or reordered among equals. */
  lemma {:induction false} SortDownIsStable(hs: seq<Hit>, s: real)
    ensures Falling(SortDown(hs)) && Scoring(SortDown(hs), s) == Scoring(hs, s)
    ensures forall x :: x in SortDown(hs) <==> x in hs
    ensures var out := SortDown(hs);
            forall i, j :: 0 <= i < j < |out| && out[i].score.Some? && out[j].score.Some? ==>
                             out[i].score.value >= out[j].score.value
  {
    if hs != [] {
      SortDownIsStable(hs[1..], s);
      InsertDownKeeps(hs[0], SortDown(hs[1..]), s);
      InsertDownFalls(hs[0], SortDown(hs[1..]));
      InsertDownMembers(hs[0], SortDown(hs[1..]));
      assert hs == [hs[0]] + hs[1..];
    }
  }

  /** The 1-based position of the first hit with this id, or 0. */
  function FirstRank(hs: seq<Hit>, id: string): (r: nat)
    ensures r <= |hs|
    ensures r > 0 ==> hs[r - 1].id == id && forall j :: 0 <= j < r - 1 ==> hs[j].id != id
    ensures r == 0 ==> forall j :: 0 <= j < |hs| ==> hs[j].id != id
  {
    if hs == [] then 0
    else
      var r := FirstRank(hs[..|hs| - 1], id);
      if r > 0 then r else if hs[|hs| - 1].id == id then |hs| else 0
  }

  function LastWith(hs: seq<Hit>, id: string): Option<Hit> {
    if hs == [] then None
    else if hs[|hs| - 1].id == id then Some(hs[|hs| - 1])
    else LastWith(hs[..|hs| - 1], id)
  }

  function VectorRank(vector: seq<Hit>, id: string): nat {
    FirstRank(SortDown(vector), id)
  }

  /** A keyword hit without a score takes its keyword score. */
  function Normalised(h: Hit): Hit {
    if h.score.Some? then h else h.(score := h.keywordScore)
  }

  /** The hit that stands for an id: the last vector hit, else the last keyword hit. */
  function ItemOf(vector: seq<Hit>, keyword: seq<Hit>, id: string): Option<Hit> {
    if LastWith(vector, id).Some? then LastWith(vector, id)
    else if LastWith(keyword, id).Some? then Some(Normalised(LastWith(keyword, id).value))
    else None
  }

  function Share(k: nat, weight: real, rank: nat): real {
    if rank == 0 then 0.0 else weight / (k + rank) as real
  }

  function Rrf(k: nat, vectorRank: nat, keywordRank: nat): real {
    Share(k, 1.0, vectorRank) + Share(k, KEYWORD_WEIGHT, keywordRank)
  }

  predicate Known(vector: seq<Hit>, keyword: seq<Hit>, id: string) {
    VectorRank(vector, id) > 0 || FirstRank(keyword, id) > 0
  }

  function ScoredOf(vector: seq<Hit>, keyword: seq<Hit>, k: nat, id: string): Scored {
    var item := ItemOf(vector, keyword, id);
    Scored(id, Rrf(k, VectorRank(vector, id), FirstRank(keyword, id)), if item.Some? then Score(item.value) else 0.0)
  }

  // ---------------------------------------------------------------- the ranking

  function Insert(x: Scored, xs: seq<Scored>): seq<Scored> {
    if xs == [] || Before(x, xs[0]) then [x] + xs else [xs[0]] + Insert(x, xs[1..])
  }

  function Sort(xs: seq<Scored>): seq<Scored> {
    if xs == [] then [] else Insert(xs[0], Sort(xs[1..]))
  }

  ghost predicate InOrder(xs: seq<Scored>) {
    forall i, j :: 0 <= i < j < |xs| ==> Before(xs[i], xs[j])
  }

  ghost predicate Distinct(ids: seq<string>) {
    forall i, j :: 0 <= i < j < |ids| ==> ids[i] != ids[j]
  }

  /** A listing of all the ids of both lanes, in whatever order the set yields them. */
  ghost predicate Enumerates(order: seq<string>, vector: seq<Hit>, keyword: seq<Hit>) {
    Distinct(order) && forall id :: id in order <==> Known(vector, keyword, id)
  }

  function ScoreAll(vector: seq<Hit>, keyword: seq<Hit>, k: nat, order: seq<string>): (r: seq<Scored>)
    ensures |r| == |order| && forall i :: 0 <= i < |r| ==> r[i] == ScoredOf(vector, keyword, k, order[i])
  {
    seq(|order|, i requires 0 <= i < |order| => ScoredOf(vector, keyword, k, order[i]))
  }

  function Ranking(vector: seq<Hit>, keyword: seq<Hit>, k: nat, order: seq<string>): seq<Scored> {
    Sort(ScoreAll(vector, keyword, k, order))
  }

  lemma {:induction false} InsertSorts(x: Scored, xs: seq<Scored>)
    requires InOrder(xs) && x !in xs
    ensures InOrder(Insert(x, xs)) && |Insert(x, xs)| == |xs| + 1
    ensures forall y :: y in Insert(x, xs) <==> y == x || y in xs
  {
    if xs == [] {
    } else if Before(x, xs[0]) {
      var out := [x] + xs;
      forall j | 1 <= j < |out| ensures Before(x, out[j]) {
        if j > 1 {
          BeforeTransitive(x, xs[0], xs[j - 1]);
        }
      }
    } else {
      BeforeTotal(x, xs[0]);
      assert xs == [xs[0]] + xs[1..];
      InsertSorts(x, xs[1..]);
      var rest := Insert(x, xs[1..]);
      forall j | 0 <= j < |rest| ensures Before(xs[0], rest[j]) {
        assert rest[j] in rest;
      }
    }
  }

  lemma {:induction false} SortSorts(xs: seq<Scored>)
    requires forall i, j :: 0 <= i < j < |xs| ==> xs[i] != xs[j]
    ensures InOrder(Sort(xs)) && |Sort(xs)| == |xs|
    ensures forall y :: y in Sort(xs) <==> y in xs
  {
    if xs != [] {
      SortSorts(xs[1..]);
      assert xs == [xs[0]] + xs[1..];
      InsertSorts(xs[0], Sort(xs[1..]));
    }
  }

  lemma SomeMember(ys: seq<Scored>)
    ensures ys != [] ==> exists s :: s in ys
  {
    if ys != [] {
      assert ys[0] in ys;
    }
  }

  /** Two lists in order with the same members are the same list. */
  lemma {:induction false} OrderUnique(xs: seq<Scored>, ys: seq<Scored>)
    requires InOrder(xs) && InOrder(ys) && forall s :: s in xs <==> s in ys
    ensures xs == ys
    decreases |xs|
  {
    SomeMember(ys);
    if xs != [] {
      assert xs[0] in ys && ys != [];
      assert ys[0] in xs;
      BeforeTotal(xs[0], ys[0]);
      assert xs[0] == ys[0];
      var x := xs[0];
      forall s ensures s in xs[1..] <==> s in ys[1..] {
        BeforeTotal(x, x);
        assert s in xs <==> s == x || s in xs[1..];
        assert s in ys <==> s == x || s in ys[1..];
      }
      OrderUnique(xs[1..], ys[1..]);
    }
  }

  lemma RankingSorts(vector: seq<Hit>, keyword: seq<Hit>, k: nat, order: seq<string>)
    requires Enumerates(order, vector, keyword)
    ensures var r := Ranking(vector, keyword, k, order);
            && InOrder(r) && |r| == |order|
            && forall s :: s in r <==> Known(vector, keyword, s.id) && s == ScoredOf(vector, keyword, k, s.id)
  {
    var xs := ScoreAll(vector, keyword, k, order);
    assert forall i :: 0 <= i < |xs| ==> xs[i].id == order[i];
    SortSorts(xs);
    forall s ensures s in xs <==> Known(vector, keyword, s.id) && s == ScoredOf(vector, keyword, k, s.id) {
      if s.id in order && s == ScoredOf(vector, keyword, k, s.id) {
        var i :| 0 <= i < |order| && order[i] == s.id;
        assert xs[i] == s;
      }
    }
  }

  // ---------------------------------------------------------------- the merge

  predicate Scoreless(hs: seq<Hit>) {
    exists i :: 0 <= i < |hs| && hs[i].score.None?
  }

  predicate Nameless(hs: seq<Hit>) {
    exists i :: 0 <= i < |hs| && hs[i].id == ""
  }

  predicate Unscorable(hs: seq<Hit>) {
    exists i :: 0 <= i < |hs| && Normalised(hs[i]).score.None?
  }

  function FusedOf(vector: seq<Hit>, keyword: seq<Hit>, s: Scored): Fused {
    var item := ItemOf(vector, keyword, s.id);
    Fused(if item.Some? then item.value else Hit(s.id, None, None, 0), s.rrf)
  }

  function FuseAll(vector: seq<Hit>, keyword: seq<Hit>, r: seq<Scored>): (items: seq<Fused>)
    ensures |items| == |r| && forall i :: 0 <= i < |r| ==> items[i] == FusedOf(vector, keyword, r[i])
  {
    seq(|r|, i requires 0 <= i < |r| => FusedOf(vector, keyword, r[i]))
  }

  function First<T>(n: nat, xs: seq<T>): seq<T> {
    if n <= |xs| then xs[..n] else xs
  }

  /** _rrf_merge; the lanes' hits are checked before anything is ranked. */
  function Merge(vector: seq<Hit>, keyword: seq<Hit>, k: nat, topN: nat, order: seq<string>): Merged {
    if Scoreless(vector) then NoScore
    else if Nameless(vector) || Nameless(keyword) then NoId
    else if Unscorable(keyword) then NoScore
    else Ranked(FuseAll(vector, keyword, First(topN, Ranking(vector, keyword, k, order))))
  }

  lemma {:induction false} LastWithId(hs: seq<Hit>, id: string)
    ensures LastWith(hs, id).Some? <==> exists i :: 0 <= i < |hs| && hs[i].id == id
    ensures LastWith(hs, id).Some? ==> LastWith(hs, id).value in hs && LastWith(hs, id).value.id == id
  {
    if hs != [] && hs[|hs| - 1].id != id {
      var front := hs[..|hs| - 1];
      LastWithId(front, id);
      if i :| 0 <= i < |hs| && hs[i].id == id {
        assert front[i].id == id;
      }
      if i :| 0 <= i < |front| && front[i].id == id {
        assert hs[i].id == id;
      }
    }
  }

  /** The last hit with this id. */
  predicate LastAt(hs: seq<Hit>, i: nat, id: string) {
    i < |hs| && hs[i].id == id && forall j :: i < j < |hs| ==> hs[j].id != id
  }

  lemma {:induction false} LastWithIs(hs: seq<Hit>, i: nat, id: string)
    requires LastAt(hs, i, id)
    ensures LastWith(hs, id) == Some(hs[i])
  {
    if i < |hs| - 1 {
      LastWithIs(hs[..|hs| - 1], i, id);
    }
  }

  /** Which hit stands for an id: the last vector hit with it, unchanged, also when the keyword lane has it
      too; otherwise the last keyword hit, whose keyword score stands in for a missing score. */
  lemma ItemComesFrom(vector: seq<Hit>, keyword: seq<Hit>, id: string, i: nat)
    ensures LastAt(vector, i, id) ==> ItemOf(vector, keyword, id) == Some(vector[i])
    ensures LastAt(keyword, i, id) && (forall j :: 0 <= j < |vector| ==> vector[j].id != id) ==>
              ItemOf(vector, keyword, id) ==
              Some(Hit(id, if keyword[i].score.Some? then keyword[i].score else keyword[i].keywordScore,
                       keyword[i].keywordScore, keyword[i].body))
  {
    LastWithId(vector, id);
    if LastAt(vector, i, id) {
      LastWithIs(vector, i, id);
    }
    if LastAt(keyword, i, id) {
      LastWithIs(keyword, i, id);
    }
  }

  lemma KnownHasItem(vector: seq<Hit>, keyword: seq<Hit>, id: string)
    requires Known(vector, keyword, id)
    ensures ItemOf(vector, keyword, id).Some? && ItemOf(vector, keyword, id).value.id == id
  {
    LastWithId(vector, id);
    LastWithId(keyword, id);
    if VectorRank(vector, id) > 0 {
      SortDownIsStable(vector, 0.0);
      var h := SortDown(vector)[VectorRank(vector, id) - 1];
      assert h in SortDown(vector) && h in vector;
    }
  }

  /** The ids of a merge's items, each with its place. */
  ghost predicate At(items: seq<Fused>, i: nat, id: string) {
    i < |items| && items[i].hit.id == id
  }

  ghost predicate Precedes(items: seq<Fused>, a: string, b: string) {
    forall j: nat :: At(items, j, b) ==> exists i: nat :: i < j && At(items, i, a)
  }

  ghost predicate Listed(items: seq<Fused>, id: string) {
    exists i: nat :: At(items, i, id)
  }

  /** Item i of a result is the i-th of the ranking. */
  lemma ItemAt(vector: seq<Hit>, keyword: seq<Hit>, k: nat, topN: nat, order: seq<string>, i: nat)
    requires Enumerates(order, vector, keyword)
    requires var m := Merge(vector, keyword, k, topN, order); m.Ranked? && i < |m.items|
    ensures var (m, r) := (Merge(vector, keyword, k, topN, order), Ranking(vector, keyword, k, order));
            && i < |r| && At(m.items, i, r[i].id)
            && Known(vector, keyword, r[i].id) && r[i] == ScoredOf(vector, keyword, k, r[i].id)
            && Some(m.items[i].hit) == ItemOf(vector, keyword, r[i].id) && m.items[i].rrf == r[i].rrf
  {
    var r := Ranking(vector, keyword, k, order);
    RankingSorts(vector, keyword, k, order);
    assert r[i] in r;
    KnownHasItem(vector, keyword, r[i].id);
  }

  /** The place of a known id in the ranking, which is its place in the result if that is long enough. */
  lemma PlaceOf(vector: seq<Hit>, keyword: seq<Hit>, k: nat, topN: nat, order: seq<string>, id: string)
    returns (p: nat)
    requires Enumerates(order, vector, keyword) && Known(vector, keyword, id)
    requires Merge(vector, keyword, k, topN, order).Ranked?
    ensures var (m, r) := (Merge(vector, keyword, k, topN, order), Ranking(vector, keyword, k, order));
            && p < |r| && r[p] == ScoredOf(vector, keyword, k, id) && InOrder(r)
            && (p < |m.items| ==> At(m.items, p, id))
  {
    var r := Ranking(vector, keyword, k, order);
    RankingSorts(vector, keyword, k, order);
    assert ScoredOf(vector, keyword, k, id) in r;
    p :| p < |r| && r[p] == ScoredOf(vector, keyword, k, id);
    if p < |Merge(vector, keyword, k, topN, order).items| {
      ItemAt(vector, keyword, k, topN, order, p);
    }
  }

  /** The result is the first min(topN, number of ids) of the strict order: distinct known ids, each with
      its own item and fused score, and each before all that follow. */
  lemma TopOfRanking(vector: seq<Hit>, keyword: seq<Hit>, k: nat, topN: nat, order: seq<string>)
    requires Enumerates(order, vector, keyword)
    ensures var m := Merge(vector, keyword, k, topN, order);
            m.Ranked? ==>
              && |m.items| == (if topN <= |order| then topN else |order|)
              && (forall i: nat :: i < |m.items| ==>
                    var id := m.items[i].hit.id;
                    && Known(vector, keyword, id) && Some(m.items[i].hit) == ItemOf(vector, keyword, id)
                    && m.items[i].rrf == Rrf(k, VectorRank(vector, id), FirstRank(keyword, id)))
              && (forall i: nat, j: nat :: i < j < |m.items| ==>
                    && m.items[i].hit.id != m.items[j].hit.id
                    && Before(ScoredOf(vector, keyword, k, m.items[i].hit.id),
                              ScoredOf(vector, keyword, k, m.items[j].hit.id)))
  {
    var m := Merge(vector, keyword, k, topN, order);
    if m.Ranked? {
      var r := Ranking(vector, keyword, k, order);
      RankingSorts(vector, keyword, k, order);
      forall i: nat | i < |m.items|
        ensures m.items[i].hit.id == r[i].id && r[i] == ScoredOf(vector, keyword, k, r[i].id)
        ensures Known(vector, keyword, r[i].id) && Some(m.items[i].hit) == ItemOf(vector, keyword, r[i].id)
      {
        ItemAt(vector, keyword, k, topN, order, i);
      }
      forall i: nat, j: nat | i < j < |m.items| ensures m.items[i].hit.id != m.items[j].hit.id {
        BeforeTotal(r[i], r[j]);
        assert Before(r[i], r[j]);
      }
    }
  }

  /** The order in words: higher fused score first; then the higher own score; then the smaller id. */
  lemma ResultFalls(vector: seq<Hit>, keyword: seq<Hit>, k: nat, topN: nat, order: seq<string>, i: nat, j: nat)
    requires Enumerates(order, vector, keyword)
    requires var m := Merge(vector, keyword, k, topN, order); m.Ranked? && i < j < |m.items|
    ensures var m := Merge(vector, keyword, k, topN, order);
            var a, b := m.items[i], m.items[j];
            && a.rrf >= b.rrf && a.hit.score.Some? && b.hit.score.Some?
            && (a.rrf == b.rrf ==> a.hit.score.value >= b.hit.score.value)
            && (a.rrf == b.rrf && a.hit.score == b.hit.score ==> Less(a.hit.id, b.hit.id))
  {
    TopOfRanking(vector, keyword, k, topN, order);
    var m := Merge(vector, keyword, k, topN, order);
    HasScore(vector, keyword, m.items[i].hit.id);
    HasScore(vector, keyword, m.items[j].hit.id);
  }

  /** In a ranked result every hit has a score. */
  lemma HasScore(vector: seq<Hit>, keyword: seq<Hit>, id: string)
    requires !Scoreless(vector) && !Unscorable(keyword) && ItemOf(vector, keyword, id).Some?
    ensures ItemOf(vector, keyword, id).value.score.Some?
  {
    LastWithId(vector, id);
    LastWithId(keyword, id);
  }

  /** When there is a ranking: every vector hit has a score, every hit an id, and every keyword hit a score or a
      keyword score; otherwise the first of these that fails is the error. */
  lemma RankedIff(vector: seq<Hit>, keyword: seq<Hit>, k: nat, topN: nat, order: seq<string>)
    ensures var m := Merge(vector, keyword, k, topN, order);
            if exists i :: 0 <= i < |vector| && vector[i].score.None? then m == NoScore
            else if (exists i :: 0 <= i < |vector| && vector[i].id == "")
                    || (exists i :: 0 <= i < |keyword| && keyword[i].id == "") then m == NoId
            else if exists i :: 0 <= i < |keyword| && keyword[i].score.None? && keyword[i].keywordScore.None?
            then m == NoScore
            else m.Ranked?
  {
  }

  /** Every id left out comes after every item of the result. */
  lemma LeftOutIsLater(vector: seq<Hit>, keyword: seq<Hit>, k: nat, topN: nat, order: seq<string>,
                       i: nat, id: string)
    requires Enumerates(order, vector, keyword) && Known(vector, keyword, id)
    requires var m := Merge(vector, keyword, k, topN, order);
             m.Ranked? && i < |m.items| && !Listed(m.items, id)
    ensures var m := Merge(vector, keyword, k, topN, order);
            Before(ScoredOf(vector, keyword, k, m.items[i].hit.id), ScoredOf(vector, keyword, k, id))
  {
    ItemAt(vector, keyword, k, topN, order, i);
    var p := PlaceOf(vector, keyword, k, topN, order, id);
  }

  /** The order in which the id set is walked makes no difference. */
  lemma OrderIndependent(vector: seq<Hit>, keyword: seq<Hit>, k: nat, topN: nat,
                         order: seq<string>, other: seq<string>)
    requires Enumerates(order, vector, keyword) && Enumerates(other, vector, keyword)
    ensures Merge(vector, keyword, k, topN, order) == Merge(vector, keyword, k, topN, other)
  {
    RankingSorts(vector, keyword, k, order);
    RankingSorts(vector, keyword, k, other);
    OrderUnique(Ranking(vector, keyword, k, order), Ranking(vector, keyword, k, other));
  }

  lemma RanksKnown(vector: seq<Hit>, keyword: seq<Hit>, k: nat, topN: nat, order: seq<string>, j: nat, id: string)
    requires Enumerates(order, vector, keyword)
    requires var m := Merge(vector, keyword, k, topN, order); m.Ranked? && At(m.items, j, id)
    ensures var r := Ranking(vector, keyword, k, order);
            j < |r| && r[j] == ScoredOf(vector, keyword, k, id) && InOrder(r)
  {
    ItemAt(vector, keyword, k, topN, order, j);
    RankingSorts(vector, keyword, k, order);
    KnownHasItem(vector, keyword, Ranking(vector, keyword, k, order)[j].id);
  }

  lemma PlacesOrdered(r: seq<Scored>, p: nat, j: nat)
    requires InOrder(r) && p < |r| && j < |r| && Before(r[p], r[j])
    ensures p < j
  {
    BeforeTotal(r[p], r[j]);
  }

  /** Being before in the order means being ahead in every result. */
  lemma BeforePrecedes(vector: seq<Hit>, keyword: seq<Hit>, k: nat, topN: nat, order: seq<string>,
                       a: string, b: string)
    requires Enumerates(order, vector, keyword) && Known(vector, keyword, a)
    requires Before(ScoredOf(vector, keyword, k, a), ScoredOf(vector, keyword, k, b))
    ensures var m := Merge(vector, keyword, k, topN, order); m.Ranked? ==> Precedes(m.items, a, b)
  {
    var m := Merge(vector, keyword, k, topN, order);
    if m.Ranked? {
      var p := PlaceOf(vector, keyword, k, topN, order, a);
      forall j: nat | At(m.items, j, b) ensures p < j && At(m.items, p, a) {
        RanksKnown(vector, keyword, k, topN, order, j, b);
        PlacesOrdered(Ranking(vector, keyword, k, order), p, j);
      }
    }
  }

  // ---------------------------------------------------------------- ranks and fused scores

  lemma Scaled(p: real, q: real, z: real)
    requires z > 0.0
    ensures p < q <==> p * z < q * z
  {
  }

  /** For positive x and y, c/x exceeds d/y exactly when c*y exceeds d*x. */
  lemma Crosswise(c: real, x: real, d: real, y: real)
    requires x > 0.0 && y > 0.0
    ensures c / x > d / y <==> c * y > d * x
  {
    var a, b := c / x, d / y;
    assert a * x == c && b * y == d;
    Scaled(b, a, x);
    Scaled(b * x, a * x, y);
    assert b * x * y == d * x;
  }

  /** `a` is ahead of `b` in a lane: it is in it, and b is behind it or absent. */
  predicate Ahead(a: nat, b: nat) {
    a > 0 && (b == 0 || a < b)
  }

  lemma ShareFalls(k: nat, weight: real, a: nat, b: nat)
    requires weight > 0.0 && Ahead(a, b)
    ensures Share(k, weight, a) > Share(k, weight, b)
  {
    var x := (k + a) as real;
    if b == 0 {
      Crosswise(weight, x, 0.0, 1.0);
    } else {
      var y := (k + b) as real;
      Scaled(x, y, weight);
      Crosswise(weight, x, weight, y);
    }
  }

  /** An id ahead of another in one lane and not behind it in the other stays ahead after fusion. */
  lemma AheadStaysAhead(vector: seq<Hit>, keyword: seq<Hit>, k: nat, topN: nat, order: seq<string>,
                        a: string, b: string)
    requires Enumerates(order, vector, keyword)
    requires var (va, vb) := (VectorRank(vector, a), VectorRank(vector, b));
             var (ka, kb) := (FirstRank(keyword, a), FirstRank(keyword, b));
             (Ahead(va, vb) && (Ahead(ka, kb) || ka == kb)) || (va == vb && Ahead(ka, kb))
    ensures var m := Merge(vector, keyword, k, topN, order); m.Ranked? ==> Precedes(m.items, a, b)
  {
    var (va, vb) := (VectorRank(vector, a), VectorRank(vector, b));
    var (ka, kb) := (FirstRank(keyword, a), FirstRank(keyword, b));
    if Ahead(va, vb) {
      ShareFalls(k, 1.0, va, vb);
    }
    if Ahead(ka, kb) {
      ShareFalls(k, KEYWORD_WEIGHT, ka, kb);
    }
    BeforePrecedes(vector, keyword, k, topN, order, a, b);
  }

  /** A vector rank r outscores a keyword rank q exactly when r < k + 2q, and ties it at equality. */
  lemma VectorAgainstKeyword(k: nat, r: nat, q: nat)
    requires r > 0 && q > 0
    ensures Share(k, 1.0, r) > Share(k, KEYWORD_WEIGHT, q) <==> r < k + 2 * q
    ensures Share(k, 1.0, r) == Share(k, KEYWORD_WEIGHT, q) <==> r == k + 2 * q
  {
    var x, y := (k + r) as real, (k + q) as real;
    Crosswise(1.0, x, KEYWORD_WEIGHT, y);
    Crosswise(KEYWORD_WEIGHT, y, 1.0, x);
  }

  /** With the constants of the code: a vector hit of rank at most 61 precedes every keyword-only hit;
      rank 62 merely ties the first keyword hit. */
  lemma VectorBeatsKeywordOnly(vector: seq<Hit>, keyword: seq<Hit>, topN: nat, order: seq<string>,
                               a: string, b: string)
    requires Enumerates(order, vector, keyword)
    requires 1 <= VectorRank(vector, a) <= 61 && VectorRank(vector, b) == 0 && FirstRank(keyword, b) > 0
    ensures var m := Merge(vector, keyword, RRF_K, topN, order); m.Ranked? ==> Precedes(m.items, a, b)
    ensures Rrf(RRF_K, 62, 0) == Rrf(RRF_K, 0, 1)
  {
    var ka := FirstRank(keyword, a);
    if ka > 0 {
      ShareFalls(RRF_K, KEYWORD_WEIGHT, ka, 0);
    }
    VectorAgainstKeyword(RRF_K, VectorRank(vector, a), FirstRank(keyword, b));
    BeforePrecedes(vector, keyword, RRF_K, topN, order, a, b);
  }

  // ---------------------------------------------------------------- the code

  /** The first loop of either lane: notes the rank at which each id first appears. */
  method Ranks(hs: seq<Hit>) returns (ranks: map<string, nat>)
    ensures forall id :: id in ranks <==> FirstRank(hs, id) > 0
    ensures forall id :: id in ranks ==> ranks[id] == FirstRank(hs, id)
  {
    ranks := map[];
    for i := 0 to |hs|
      invariant forall id :: id in ranks <==> FirstRank(hs[..i], id) > 0
      invariant forall id :: id in ranks ==> ranks[id] == FirstRank(hs[..i], id)
    {
      assert hs[..i + 1][..i] == hs[..i];
      if hs[i].id !in ranks {
        ranks := ranks[hs[i].id := i + 1];
      }
    }
    assert hs[..|hs|] == hs;
  }

  /** The second pair of loops: keyword hits first, then vector hits over them. */
  method Items(vector: seq<Hit>, keyword: seq<Hit>) returns (items: map<string, Hit>)
    ensures forall id :: id in items <==> ItemOf(vector, keyword, id).Some?
    ensures forall id :: id in items ==> Some(items[id]) == ItemOf(vector, keyword, id)
  {
    items := map[];
    for i := 0 to |keyword|
      invariant forall id :: id in items <==> LastWith(keyword[..i], id).Some?
      invariant forall id :: id in items ==> items[id] == Normalised(LastWith(keyword[..i], id).value)
    {
      assert keyword[..i + 1][..i] == keyword[..i];
      items := items[keyword[i].id := Normalised(keyword[i])];
    }
    assert keyword[..|keyword|] == keyword;
    assert vector[..0] == [];
    for i := 0 to |vector|
      invariant forall id :: id in items <==> ItemOf(vector[..i], keyword, id).Some?
      invariant forall id :: id in items ==> Some(items[id]) == ItemOf(vector[..i], keyword, id)
    {
      assert vector[..i + 1][..i] == vector[..i];
      items := items[vector[i].id := vector[i]];
    }
    assert vector[..|vector|] == vector;
  }

  method Check(hs: seq<Hit>) returns (scoreless: bool, nameless: bool, unscorable: bool)
    ensures scoreless == Scoreless(hs) && nameless == Nameless(hs) && unscorable == Unscorable(hs)
  {
    scoreless, nameless, unscorable := false, false, false;
    for i := 0 to |hs|
      invariant scoreless <==> exists j :: 0 <= j < i && hs[j].score.None?
      invariant nameless <==> exists j :: 0 <= j < i && hs[j].id == ""
      invariant unscorable <==> exists j :: 0 <= j < i && Normalised(hs[j]).score.None?
    {
      scoreless := scoreless || hs[i].score.None?;
      nameless := nameless || hs[i].id == "";
      unscorable := unscorable || Normalised(hs[i]).score.None?;
    }
  }

  /** One id of the third loop. */
  method ScoreId(vector: seq<Hit>, keyword: seq<Hit>, k: nat, id: string,
                 vecRank: map<string, nat>, keywordRank: map<string, nat>) returns (rrf: real)
    requires (id in vecRank <==> VectorRank(vector, id) > 0) && (id in keywordRank <==> FirstRank(keyword, id) > 0)
    requires id in vecRank ==> vecRank[id] == VectorRank(vector, id)
    requires id in keywordRank ==> keywordRank[id] == FirstRank(keyword, id)
    ensures rrf == Rrf(k, VectorRank(vector, id), FirstRank(keyword, id))
  {
    rrf := 0.0;
    if id in vecRank {
      rrf := rrf + 1.0 / (k + vecRank[id]) as real;
    }
    if id in keywordRank {
      rrf := rrf + KEYWORD_WEIGHT / (k + keywordRank[id]) as real;
    }
  }

  /** The third loop: one fused score per id, walked in the order the set yields. */
  method ScoreIds(vector: seq<Hit>, keyword: seq<Hit>, k: nat, order: seq<string>) returns (scored: seq<Scored>)
    requires Enumerates(order, vector, keyword)
    ensures scored == ScoreAll(vector, keyword, k, order)
  {
    var vecRank := Ranks(SortDown(vector));
    var keywordRank := Ranks(keyword);
    var items := Items(vector, keyword);
    scored := [];
    for i := 0 to |order|
      invariant |scored| == i && forall j :: 0 <= j < i ==> scored[j] == ScoredOf(vector, keyword, k, order[j])
    {
      var id := order[i];
      KnownHasItem(vector, keyword, id);
      var rrf := ScoreId(vector, keyword, k, id, vecRank, keywordRank);
      scored := scored + [Scored(id, rrf, Score(items[id]))];
    }
  }

  lemma TopKnown(vector: seq<Hit>, keyword: seq<Hit>, k: nat, topN: nat, order: seq<string>)
    requires Enumerates(order, vector, keyword)
    ensures var top := First(topN, Ranking(vector, keyword, k, order));
            forall i :: 0 <= i < |top| ==> ItemOf(vector, keyword, top[i].id).Some?
  {
    var r := Ranking(vector, keyword, k, order);
    RankingSorts(vector, keyword, k, order);
    forall i | 0 <= i < |r| ensures ItemOf(vector, keyword, r[i].id).Some? {
      assert r[i] in r;
      KnownHasItem(vector, keyword, r[i].id);
    }
  }

  /** The last loop: the chosen hits with their fused scores. */
  method FuseTop(vector: seq<Hit>, keyword: seq<Hit>, items: map<string, Hit>, top: seq<Scored>)
    returns (out: seq<Fused>)
    requires forall id :: id in items <==> ItemOf(vector, keyword, id).Some?
    requires forall id :: id in items ==> Some(items[id]) == ItemOf(vector, keyword, id)
    requires forall i :: 0 <= i < |top| ==> ItemOf(vector, keyword, top[i].id).Some?
    ensures out == FuseAll(vector, keyword, top)
  {
    out := [];
    for i := 0 to |top|
      invariant |out| == i && forall j :: 0 <= j < i ==> out[j] == FusedOf(vector, keyword, top[j])
    {
      out := out + [Fused(items[top[i].id], top[i].rrf)];
    }
  }

  /** _rrf_merge. */
  method RrfMerge(vector: seq<Hit>, keyword: seq<Hit>, k: nat, topN: nat, order: seq<string>)
    returns (m: Merged)
    requires Enumerates(order, vector, keyword)
    ensures m == Merge(vector, keyword, k, topN, order)
  {
    var noScore, noId, _ := Check(vector);
    var _, keywordNoId, keywordNoScore := Check(keyword);
    if noScore {
      return NoScore;
    }
    if noId || keywordNoId {
      return NoId;
    }
    if keywordNoScore {
      return NoScore;
    }
    var items := Items(vector, keyword);
    var scored := ScoreIds(vector, keyword, k, order);
    var top := First(topN, Sort(scored));
    TopKnown(vector, keyword, k, topN, order);
    var out := FuseTop(vector, keyword, items, top);
    return Ranked(out);
  }

  /** Two hits of one id of which one has no score. */
  ghost predicate Clash(hits: seq<Hit>, i: int, j: int) {
    0 <= i < j < |hits| && hits[i].id == hits[j].id && (hits[i].score.None? || hits[j].score.None?)
  }

  datatype Remembered = Seen(hits: map<string, Hit>) | Unnamed | Uncomparable

  /** _remember_vector_hit over a batch: of the hits with one id, the first of the best-scoring ones is
      kept. A hit without an id, and two hits of one id of which one has no score, raise. */
  method RememberVectorHits(hits: seq<Hit>) returns (r: Remembered)
    ensures r.Seen? ==> forall id :: id in r.hits <==> Best(hits, id).Some?
    ensures r.Seen? ==> forall id :: id in r.hits ==> r.hits[id] == Best(hits, id).value
    ensures r.Seen? ==> !Nameless(hits)
    ensures r.Unnamed? ==> Nameless(hits)
    ensures r.Uncomparable? ==> exists i, j :: Clash(hits, i, j)
  {
    var seen: map<string, Hit> := map[];
    for i := 0 to |hits|
      invariant forall id :: id in seen <==> Best(hits[..i], id).Some?
      invariant forall id :: id in seen ==> seen[id] == Best(hits[..i], id).value
      invariant forall id :: id in seen ==> exists j :: 0 <= j < i && hits[j] == seen[id] && hits[j].id == id
      invariant forall j :: 0 <= j < i ==> hits[j].id != ""
    {
      assert hits[..i + 1][..i] == hits[..i];
      var hit := hits[i];
      if hit.id == "" {
        return Unnamed;
      }
      if hit.id !in seen {
        seen := seen[hit.id := hit];
      } else if hit.score.None? || seen[hit.id].score.None? {
        ghost var j :| 0 <= j < i && hits[j] == seen[hit.id] && hits[j].id == hit.id;
        assert Clash(hits, j, i);
        return Uncomparable;
      } else if Score(hit) > Score(seen[hit.id]) {
        seen := seen[hit.id := hit];
      }
    }
    assert hits[..|hits|] == hits;
    return Seen(seen);
  }

  function Best(hits: seq<Hit>, id: string): Option<Hit> {
    if hits == [] then None
    else
      var b, h := Best(hits[..|hits| - 1], id), hits[|hits| - 1];
      if h.id == id && (b.None? || Score(h) > Score(b.value)) then Some(h) else b
  }

  /** What is kept for an id scores at least as much as every hit with it, and more than every earlier one. */
  lemma {:induction false} BestIsFirstMaximum(hits: seq<Hit>, id: string)
    ensures var b := Best(hits, id);
            && (b.None? <==> forall i :: 0 <= i < |hits| ==> hits[i].id != id)
            && (b.Some? ==> exists i :: FirstMaximum(hits, id, i) && hits[i] == b.value)
  {
    if hits != [] {
      var front, n := hits[..|hits| - 1], |hits| - 1;
      BestIsFirstMaximum(front, id);
      var b := Best(front, id);
      assert forall i :: 0 <= i < n ==> front[i] == hits[i];
      if hits[n].id == id && (b.None? || Score(hits[n]) > Score(b.value)) {
        assert FirstMaximum(hits, id, n);
      } else if b.Some? {
        var i :| FirstMaximum(front, id, i) && front[i] == b.value;
        assert FirstMaximum(hits, id, i);
      }
    }
  }

  ghost predicate FirstMaximum(hits: seq<Hit>, id: string, i: int) {
    && 0 <= i < |hits| && hits[i].id == id
    && (forall j :: 0 <= j < |hits| && hits[j].id == id ==> Score(hits[j]) <= Score(hits[i]))
    && (forall j :: 0 <= j < i && hits[j].id == id ==> Score(hits[j]) < Score(hits[i]))
  }
}
