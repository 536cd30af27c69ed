/** The character budget of the injected memory block (memory2/retriever.py, _apply_char_budget). */
module InjectionBudget {

  datatype Part = Part(text: string, ids: seq<string>)

  const SEPARATOR := "\n\n"

  /** The chosen parts' texts with the separator between them. */
  function Join(chosen: seq<Part>): string
    decreases |chosen|, 0
  {
    if chosen == [] then ""
    else Lead(chosen[..|chosen| - 1]) + chosen[|chosen| - 1].text
  }

  /** What stands before a part added after `chosen`. */
  function Lead(chosen: seq<Part>): string
    decreases |chosen|, 1
  {
    if chosen == [] then "" else Join(chosen) + SEPARATOR
  }

  predicate Fits(chosen: seq<Part>, part: Part, limit: nat) {
    |Lead(chosen)| + |part.text| <= limit
  }

  /** The parts kept: each that still fits, and a forced first one in any case. */
  function Keep(parts: seq<Part>, hasForced: bool, limit: nat): seq<Part> {
    if parts == [] then []
    else
      var k, part := Keep(parts[..|parts| - 1], hasForced, limit), parts[|parts| - 1];
      if Fits(k, part, limit) || (|parts| == 1 && hasForced) then k + [part] else k
  }

  /** Non-empty ids, each at its first occurrence. */
  function Unique(ids: seq<string>): seq<string> {
    if ids == [] then []
    else
      var u, id := Unique(ids[..|ids| - 1]), ids[|ids| - 1];
      if id == "" || id in u then u else u + [id]
  }

  function IdsOf(chosen: seq<Part>): seq<string> {
    if chosen == [] then [] else IdsOf(chosen[..|chosen| - 1]) + chosen[|chosen| - 1].ids
  }

  lemma OneMore(chosen: seq<Part>, part: Part)
    ensures Join(chosen + [part]) == Lead(chosen) + part.text
    ensures IdsOf(chosen + [part]) == IdsOf(chosen) + part.ids
  {
    assert (chosen + [part])[..|chosen|] == chosen;
  }

  /** A blank line between any two sections, and nothing around them. */
  lemma BlankLinesBetween(chosen: seq<Part>, part: Part)
    ensures Join([]) == "" && Join([part]) == part.text
    ensures chosen != [] ==> Join(chosen + [part]) == Join(chosen) + "\n\n" + part.text
  {
    OneMore(chosen, part);
    OneMore([], part);
    assert [] + [part] == [part];
  }

  /** The block is no longer than the budget, unless a forced first section is longer: then it is that
      section alone. */
  lemma {:induction false} WithinBudget(parts: seq<Part>, hasForced: bool, limit: nat)
    ensures var chosen := Keep(parts, hasForced, limit);
            && (|Join(chosen)| > limit ==> hasForced && parts != [] && chosen == [parts[0]])
            && (hasForced && parts != [] ==> chosen != [] && chosen[0] == parts[0])
    decreases |parts|
  {
    if parts != [] {
      var front, part := parts[..|parts| - 1], parts[|parts| - 1];
      WithinBudget(front, hasForced, limit);
      OneMore(Keep(front, hasForced, limit), part);
    }
  }

  /** The sections are taken up in order, the decision on each being final: after i sections the block is
      a beginning of the final one, and section i joins it exactly when it fits there or is forced. */
  lemma {:induction false} LeftOutDidNotFit(parts: seq<Part>, hasForced: bool, limit: nat, i: nat)
    requires i < |parts|
    ensures var before, after := Keep(parts[..i], hasForced, limit), Keep(parts[..i + 1], hasForced, limit);
            && after <= Keep(parts, hasForced, limit)
            && after == if Fits(before, parts[i], limit) || (i == 0 && hasForced) then before + [parts[i]] else before
    ensures var before := Keep(parts[..i], hasForced, limit);
            Fits(before, parts[i], limit) <==>
              (if before == [] then 0 else |Join(before)| + 2) + |parts[i].text| <= limit
    decreases |parts|
  {
    assert parts[..i + 1][..i] == parts[..i];
    if i + 1 == |parts| {
      assert parts[..i + 1] == parts;
    } else {
      var front := parts[..|parts| - 1];
      assert front[..i] == parts[..i] && front[..i + 1] == parts[..i + 1];
      LeftOutDidNotFit(front, hasForced, limit, i);
    }
  }

  lemma {:induction false} UniqueMember(ids: seq<string>, x: string)
    ensures x in Unique(ids) <==> x != "" && x in ids
    decreases |ids|
  {
    if ids != [] {
      var front, id := ids[..|ids| - 1], ids[|ids| - 1];
      UniqueMember(front, x);
      UniqueMember(front, id);
      assert ids == front + [id];
    }
  }

  lemma {:induction false} UniqueDistinct(ids: seq<string>)
    ensures forall i, j :: 0 <= i < j < |Unique(ids)| ==> Unique(ids)[i] != Unique(ids)[j]
    decreases |ids|
  {
    if ids != [] {
      var u, id, all := Unique(ids[..|ids| - 1]), ids[|ids| - 1], Unique(ids);
      UniqueDistinct(ids[..|ids| - 1]);
      forall i, j | 0 <= i < j < |all| ensures all[i] != all[j] {
        if j == |u| {
          assert all[j] == id && all[i] == u[i] && u[i] in u;
        }
      }
    }
  }

  /** Ids stand in the order of their first occurrence: what comes later is added behind. */
  lemma {:induction false} UniqueInOrder(ids: seq<string>, k: nat)
    requires k <= |ids|
    ensures Unique(ids[..k]) <= Unique(ids)
    decreases |ids|
  {
    if k == |ids| {
      assert ids[..k] == ids;
    } else {
      assert ids[..|ids| - 1][..k] == ids[..k];
      UniqueInOrder(ids[..|ids| - 1], k);
    }
  }

  ghost predicate Mentioned(chosen: seq<Part>, id: string) {
    exists i :: 0 <= i < |chosen| && id in chosen[i].ids
  }

  lemma {:induction false} IdsFromChosen(chosen: seq<Part>, id: string)
    ensures id in IdsOf(chosen) <==> Mentioned(chosen, id)
    decreases |chosen|
  {
    if chosen != [] {
      var front, last := chosen[..|chosen| - 1], chosen[|chosen| - 1];
      IdsFromChosen(front, id);
      assert forall i :: 0 <= i < |front| ==> front[i] == chosen[i];
      if Mentioned(chosen, id) && id !in last.ids {
        var i :| 0 <= i < |chosen| && id in chosen[i].ids;
        assert id in front[i].ids;
      }
    }
  }

  /** What is injected: a text within the budget or a forced section alone, and the distinct ids of
      exactly the sections in it. */
  lemma InjectedBlock(parts: seq<Part>, hasForced: bool, limit: nat)
    ensures var chosen := Keep(parts, hasForced, limit);
            var ids := Unique(IdsOf(chosen));
            && (|Join(chosen)| <= limit || (hasForced && parts != [] && Join(chosen) == parts[0].text))
            && (forall i, j :: 0 <= i < j < |ids| ==> ids[i] != ids[j])
            && (forall id :: id in ids <==> id != "" && Mentioned(chosen, id))
  {
    var chosen := Keep(parts, hasForced, limit);
    WithinBudget(parts, hasForced, limit);
    UniqueDistinct(IdsOf(chosen));
    if |Join(chosen)| > limit {
      OneMore([], parts[0]);
      assert [] + [parts[0]] == [parts[0]];
    }
    forall id ensures id in Unique(IdsOf(chosen)) <==> id != "" && Mentioned(chosen, id) {
      UniqueMember(IdsOf(chosen), id);
      IdsFromChosen(chosen, id);
    }
  }

  lemma UniqueMore(ids: seq<string>, id: string)
    ensures Unique(ids + [id]) == if id == "" || id in Unique(ids) then Unique(ids) else Unique(ids) + [id]
  {
    assert (ids + [id])[..|ids|] == ids;
  }

  /** One id of a part: injected unless it is empty or already there. */
  method AddId(injected: seq<string>, id: string, ghost before: seq<string>) returns (r: seq<string>)
    requires injected == Unique(before)
    ensures r == Unique(before + [id])
  {
    UniqueMore(before, id);
    r := if id != "" && id !in injected then injected + [id] else injected;
  }

  /** The inner loop over a part's ids. */
  method AddIds(injected: seq<string>, partIds: seq<string>, ghost before: seq<string>)
    returns (r: seq<string>)
    requires injected == Unique(before)
    ensures r == Unique(before + partIds)
  {
    r := injected;
    ghost var taken := before;
    for i := 0 to |partIds|
      invariant taken == before + partIds[..i]
      invariant r == Unique(taken)
    {
      r := AddId(r, partIds[i], taken);
      taken := taken + [partIds[i]];
    }
    assert taken == before + partIds;
  }

  /** The decision on one section. */
  method TakeSection(finalParts: seq<Part>, total: nat, part: Part, isForcedPart: bool, limit: nat)
    returns (kept: bool, total': nat)
    requires total == |Join(finalParts)|
    ensures kept <==> Fits(finalParts, part, limit) || isForcedPart
    ensures total' == |Join(if kept then finalParts + [part] else finalParts)|
  {
    OneMore(finalParts, part);
    var addLen := |part.text| + if finalParts != [] then 2 else 0;
    if total + addLen > limit && !isForcedPart {
      return false, total;
    }
    return true, total + addLen;
  }

  lemma KeepMore(parts: seq<Part>, i: nat, hasForced: bool, limit: nat)
    requires i < |parts|
    ensures var k := Keep(parts[..i], hasForced, limit);
            Keep(parts[..i + 1], hasForced, limit) ==
            if Fits(k, parts[i], limit) || (i == 0 && hasForced) then k + [parts[i]] else k
  {
    assert parts[..i + 1][..i] == parts[..i];
  }

  /** _apply_char_budget: the running total is the length of the text so far. */
  method ApplyCharBudget(parts: seq<Part>, hasForced: bool, limit: nat) returns (text: string, ids: seq<string>)
    ensures var chosen := Keep(parts, hasForced, limit);
            text == Join(chosen) && ids == Unique(IdsOf(chosen))
    ensures |text| <= if hasForced && parts != [] && |parts[0].text| > limit then |parts[0].text| else limit
  {
    ids := [];
    var total, finalParts: seq<Part> := 0, [];
    for i := 0 to |parts|
      invariant finalParts == Keep(parts[..i], hasForced, limit)
      invariant total == |Join(finalParts)| && ids == Unique(IdsOf(finalParts))
    {
      KeepMore(parts, i, hasForced, limit);
      var kept;
      kept, total := TakeSection(finalParts, total, parts[i], i == 0 && hasForced, limit);
      if !kept {
        continue;
      }
      OneMore(finalParts, parts[i]);
      ids := AddIds(ids, parts[i].ids, IdsOf(finalParts));
      finalParts := finalParts + [parts[i]];
    }
    assert parts[..|parts|] == parts;
    InjectedBlock(parts, hasForced, limit);
    text := Join(finalParts);
  }
}
