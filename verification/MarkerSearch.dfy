/** The chunked substring search of agent/memory.py: a file is read chunk by chunk and the last
    |needle| - 1 bytes are carried over, so that a marker cut by a chunk boundary is still seen. */
module MarkerSearch {

  type Byte = bv8

  predicate MatchesAt(hay: seq<Byte>, i: int, needle: seq<Byte>) {
    0 <= i <= |hay| - |needle| && hay[i..i + |needle|] == needle
  }

  /** The reference: `needle in hay` on byte strings. */
  predicate Occurs(hay: seq<Byte>, needle: seq<Byte>) {
    exists i :: 0 <= i <= |hay| && MatchesAt(hay, i, needle)
  }

  function Flatten(chunks: seq<seq<Byte>>): (s: seq<Byte>) {
    if chunks == [] then [] else Flatten(chunks[..|chunks| - 1]) + chunks[|chunks| - 1]
  }

  /** Python's `data[-n:]` for n > 0. */
  function Tail(data: seq<Byte>, n: nat): (t: seq<Byte>)
    ensures |t| == if n < |data| then n else |data|
  {
    if n < |data| then data[|data| - n..] else data
  }

  /** Matches at or after `d` are exactly the matches of the suffix from `d`. */
  lemma MatchesInSuffix(hay: seq<Byte>, d: nat, needle: seq<Byte>, i: int)
    requires d <= |hay| && d <= i
    ensures MatchesAt(hay, i, needle) <==> MatchesAt(hay[d..], i - d, needle)
  {
    if i <= |hay| - |needle| {
      assert hay[d..][i - d..i - d + |needle|] == hay[i..i + |needle|];
    }
  }

  lemma MatchesInPrefix(hay: seq<Byte>, longer: seq<Byte>, needle: seq<Byte>, i: int)
    requires hay <= longer && i + |needle| <= |hay|
    ensures MatchesAt(hay, i, needle) <==> MatchesAt(longer, i, needle)
  {
    if 0 <= i {
      assert hay[i..i + |needle|] == longer[i..i + |needle|];
    }
  }

  lemma CarryIsSuffix(past: seq<Byte>, chunk: seq<Byte>, n: nat) returns (d: nat)
    ensures d == |past| - |Tail(past, n)| && Tail(past, n) + chunk == (past + chunk)[d..]
  {
    d := |past| - |Tail(past, n)|;
  }

  /** Carrying one byte less than the needle loses no match and invents none. */
  lemma CarryIsEnough(past: seq<Byte>, chunk: seq<Byte>, needle: seq<Byte>)
    requires needle != [] && !Occurs(past, needle)
    ensures Occurs(past + chunk, needle) <==> Occurs(Tail(past, |needle| - 1) + chunk, needle)
  {
    var all, data := past + chunk, Tail(past, |needle| - 1) + chunk;
    var d := CarryIsSuffix(past, chunk, |needle| - 1);
    if i :| 0 <= i <= |all| && MatchesAt(all, i, needle) {
      if i < d {
        MatchesInPrefix(past, all, needle, i);
        assert false;
      }
      MatchesInSuffix(all, d, needle, i);
    }
    if j :| 0 <= j <= |data| && MatchesAt(data, j, needle) {
      MatchesInSuffix(all, d, needle, j + d);
    }
  }

  lemma CarryCarries(past: seq<Byte>, chunk: seq<Byte>, n: nat)
    ensures Tail(Tail(past, n) + chunk, n) == Tail(past + chunk, n)
  {
  }

  lemma FlattenStep(chunks: seq<seq<Byte>>, i: nat)
    requires i < |chunks|
    ensures Flatten(chunks[..i + 1]) == Flatten(chunks[..i]) + chunks[i]
  {
    assert chunks[..i + 1][..i] == chunks[..i];
  }

  /** `chunks` are the successive non-empty reads, cut anywhere; the empty read ends the file. */
  method FileContainsMarker(fileExists: bool, chunks: seq<seq<Byte>>, needle: seq<Byte>) returns (found: bool)
    requires forall c :: c in chunks ==> c != []
    ensures found <==> fileExists && needle != [] && Occurs(Flatten(chunks), needle)
  {
    if !fileExists || needle == [] {
      return false;
    }
    var carry: seq<Byte> := [];
    var i := 0;
    while i < |chunks|
      invariant 0 <= i <= |chunks|
      invariant !Occurs(Flatten(chunks[..i]), needle)
      invariant carry == Tail(Flatten(chunks[..i]), |needle| - 1)
    {
      ghost var past := Flatten(chunks[..i]);
      FlattenStep(chunks, i);
      CarryIsEnough(past, chunks[i], needle);
      CarryCarries(past, chunks[i], |needle| - 1);
      var data := carry + chunks[i];
      if Occurs(data, needle) {
        FlattenPrefix(chunks, i + 1);
        OccursInExtension(past + chunks[i], Flatten(chunks), needle);
        return true;
      }
      carry := if |needle| > 1 then Tail(data, |needle| - 1) else [];
      i := i + 1;
    }
    assert chunks[..i] == chunks;
    return false;
  }

  lemma {:induction false} FlattenPrefix(chunks: seq<seq<Byte>>, k: nat)
    requires k <= |chunks|
    ensures Flatten(chunks[..k]) <= Flatten(chunks)
    decreases |chunks|
  {
    if k == |chunks| {
      assert chunks[..k] == chunks;
    } else {
      var front := chunks[..|chunks| - 1];
      assert front[..k] == chunks[..k];
      FlattenPrefix(front, k);
    }
  }

  lemma OccursInExtension(hay: seq<Byte>, longer: seq<Byte>, needle: seq<Byte>)
    requires hay <= longer && Occurs(hay, needle)
    ensures Occurs(longer, needle)
  {
    var i :| 0 <= i <= |hay| && MatchesAt(hay, i, needle);
    MatchesInPrefix(hay, longer, needle, i);
  }
}
