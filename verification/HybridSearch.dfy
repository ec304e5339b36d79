// Merging dense and sparse search results (hybrid_search in ai/rag/retrieval.py).  A Python
// dictionary is its values in insertion order, each known by its chunk id.
module HybridSearch {
  import opened Sequences
  import opened Wrappers
  import opened StableSort

  const DENSE_WEIGHT := 0.7
  const SPARSE_WEIGHT := 0.3

  datatype Chunk = Chunk(id: int, text: string, score: real, vectorScore: Option<real>, ftsScore: Option<real>)

  type Dict = seq<Chunk>

  function OrZero(s: Option<real>): real {
    if s.Some? then s.value else 0.0
  }

  // ----- Specification -----

  // The position of an id in the dictionary.
  function Find(d: Dict, id: int): (r: Option<nat>)
    ensures r.Some? ==> r.value < |d| && d[r.value].id == id
    ensures r.None? ==> forall i :: 0 <= i < |d| ==> d[i].id != id
  {
    if d == [] then None
    else if d[|d| - 1].id == id then Some(|d| - 1)
    else Find(d[..|d| - 1], id)
  }

  // The stored chunk once the sparse result for the same id arrives.
  function Blend(existing: Chunk, sparse: Chunk): Chunk {
    existing.(ftsScore := Some(OrZero(sparse.ftsScore)),
              score := DENSE_WEIGHT * OrZero(existing.vectorScore) + SPARSE_WEIGHT * OrZero(sparse.ftsScore))
  }

  function PutDense(d: Dict, c: Chunk): Dict {
    var at := Find(d, c.id);
    if at.Some? then d[at.value := c] else d + [c]
  }

  function PutSparse(d: Dict, c: Chunk): Dict {
    var at := Find(d, c.id);
    if at.Some? then d[at.value := Blend(d[at.value], c)] else d + [c]
  }

  function AddDense(d: Dict, dense: seq<Chunk>, n: nat): Dict
    requires n <= |dense|
  {
    if n == 0 then d else PutDense(AddDense(d, dense, n - 1), dense[n - 1])
  }

  function AddSparse(d: Dict, sparse: seq<Chunk>, n: nat): Dict
    requires n <= |sparse|
  {
    if n == 0 then d else PutSparse(AddSparse(d, sparse, n - 1), sparse[n - 1])
  }

  function Merged(dense: seq<Chunk>, sparse: seq<Chunk>): Dict {
    AddSparse(AddDense([], dense, |dense|), sparse, |sparse|)
  }

  // Python sorts in reverse by score and keeps ties in dictionary order.
  function Ranked(d: Dict): seq<Chunk> {
    SortBy((c: Chunk) => -c.score, d)
  }

  // ----- The merge -----

  ghost predicate DistinctIds(s: seq<Chunk>) {
    forall i, j :: 0 <= i < j < |s| ==> s[i].id != s[j].id
  }

  // The dictionary as a map from ids, and the ids in insertion order.
  ghost predicate Represents(order: seq<int>, merged: map<int, Chunk>, d: Dict) {
    && Entries(order, merged, d) && DistinctIds(d)
    && (forall id :: id in merged ==> Find(d, id).Some?)
  }

  // Place by place.
  ghost predicate Entries(order: seq<int>, merged: map<int, Chunk>, d: Dict) {
    |order| == |d| && forall i :: 0 <= i < |d| ==> Stores(merged, order[i], d[i])
  }

  predicate Stores(merged: map<int, Chunk>, id: int, c: Chunk) {
    id == c.id && id in merged && merged[id] == c
  }

  method MergeResults(dense: seq<Chunk>, sparse: seq<Chunk>) returns (order: seq<int>, merged: map<int, Chunk>)
    ensures Represents(order, merged, Merged(dense, sparse))
  {
    order, merged := [], map[];
    for i := 0 to |dense|
      invariant Represents(order, merged, AddDense([], dense, i))
    {
      DenseStored(order, merged, AddDense([], dense, i), dense[i]);
      if dense[i].id !in merged {
        order := order + [dense[i].id];
      }
      merged := merged[dense[i].id := dense[i]];
    }
    ghost var d0 := AddDense([], dense, |dense|);
    for i := 0 to |sparse|
      invariant Represents(order, merged, AddSparse(d0, sparse, i))
    {
      ghost var d := AddSparse(d0, sparse, i);
      var stored := sparse[i];
      if stored.id in merged {
        var fts := OrZero(sparse[i].ftsScore);
        var existing := merged[stored.id];
        stored := existing.(ftsScore := Some(fts),
                            score := DENSE_WEIGHT * OrZero(existing.vectorScore) + SPARSE_WEIGHT * fts);
      }
      SparseStored(order, merged, d, sparse[i], stored);
      if stored.id !in merged {
        order := order + [stored.id];
      }
      merged := merged[stored.id := stored];
    }
  }

  method Search(dense: seq<Chunk>, sparse: seq<Chunk>, topK: nat) returns (results: seq<Chunk>)
    ensures results == Take(Ranked(Merged(dense, sparse)), topK)
  {
    var order, merged := MergeResults(dense, sparse);
    var values := seq(|order|, i requires 0 <= i < |order| && order[i] in merged => merged[order[i]]);
    assert values == Merged(dense, sparse);
    results := Take(SortBy((c: Chunk) => -c.score, values), topK);
  }

  lemma RepresentsFind(order: seq<int>, merged: map<int, Chunk>, d: Dict, id: int)
    requires Represents(order, merged, d)
    ensures id in merged <==> Find(d, id).Some?
    ensures id in merged ==> merged[id] == d[Find(d, id).value]
  {
    var at := Find(d, id);
    if at.Some? {
      assert Stores(merged, order[at.value], d[at.value]);
    }
  }

  lemma DenseStored(order: seq<int>, merged: map<int, Chunk>, d: Dict, c: Chunk)
    requires Represents(order, merged, d)
    ensures Represents(if c.id in merged then order else order + [c.id], merged[c.id := c], PutDense(d, c))
  {
    RepresentsStored(order, merged, d, PutDense(d, c), c);
  }

  lemma SparseStored(order: seq<int>, merged: map<int, Chunk>, d: Dict, c: Chunk, stored: Chunk)
    requires Represents(order, merged, d)
    requires stored == if c.id in merged then Blend(merged[c.id], c) else c
    ensures Represents(if c.id in merged then order else order + [c.id], merged[c.id := stored], PutSparse(d, c))
  {
    RepresentsFind(order, merged, d, c.id);
    RepresentsStored(order, merged, d, PutSparse(d, c), stored);
  }

  // Storing a chunk under its id keeps the pair of keys and map in step with the dictionary.
  lemma RepresentsStored(order: seq<int>, merged: map<int, Chunk>, d: Dict, d': Dict, c: Chunk)
    requires Represents(order, merged, d)
    requires d' == if Find(d, c.id).Some? then d[Find(d, c.id).value := c] else d + [c]
    ensures Represents(if c.id in merged then order else order + [c.id], merged[c.id := c], d')
  {
    RepresentsFind(order, merged, d, c.id);
    RepresentsPut(d, d', c);
    if c.id in merged {
      EntriesOverwritten(order, merged, d, Find(d, c.id).value, c);
    } else {
      EntriesAppended(order, merged, d, c);
    }
  }

  lemma EntriesOverwritten(order: seq<int>, merged: map<int, Chunk>, d: Dict, k: nat, c: Chunk)
    requires Entries(order, merged, d) && DistinctIds(d) && k < |d| && d[k].id == c.id
    ensures Entries(order, merged[c.id := c], d[k := c])
  {
    forall i | 0 <= i < |d|
      ensures Stores(merged[c.id := c], order[i], d[k := c][i])
    {
      assert Stores(merged, order[i], d[i]);
      assert i != k ==> d[i].id != c.id;
    }
  }

  lemma EntriesAppended(order: seq<int>, merged: map<int, Chunk>, d: Dict, c: Chunk)
    requires Entries(order, merged, d) && c.id !in merged
    ensures Entries(order + [c.id], merged[c.id := c], d + [c])
  {
    forall i | 0 <= i < |d|
      ensures Stores(merged[c.id := c], order[i], d[i])
    {
      assert Stores(merged, order[i], d[i]);
    }
  }

  // Storing a chunk under its id overwrites it in place, or appends it.
  lemma RepresentsPut(d: Dict, d': Dict, c: Chunk)
    requires DistinctIds(d)
    requires d' == if Find(d, c.id).Some? then d[Find(d, c.id).value := c] else d + [c]
    ensures DistinctIds(d')
    ensures forall id :: Find(d', id).Some? <==> Find(d, id).Some? || id == c.id
  {
    forall id
      ensures Find(d', id).Some? <==> Find(d, id).Some? || id == c.id
    {
      FindIff(d, id);
      FindIff(d', id);
      var at := Find(d, c.id);
      assert d'[if at.Some? then at.value else |d|] == c;
      if Find(d, id).Some? {
        assert d'[Find(d, id).value].id == id;
      }
    }
  }

  lemma FindIff(d: Dict, id: int)
    ensures Find(d, id).Some? <==> exists i :: 0 <= i < |d| && d[i].id == id
  {
  }

  // ----- The set-level specification -----

  predicate HasId(s: seq<Chunk>, id: int) {
    exists i :: 0 <= i < |s| && s[i].id == id
  }

  // Where a merged chunk comes from: both lists (with the weighted score), or one of them unchanged.
  predicate FromBoth(dense: seq<Chunk>, sparse: seq<Chunk>, c: Chunk) {
    exists i, j :: 0 <= i < |dense| && 0 <= j < |sparse| && dense[i].id == sparse[j].id && Weighted(dense[i], sparse[j], c)
  }

  // The dense chunk with 0.7 of its vector score and 0.3 of the text score; a missing score is 0.
  predicate Weighted(dense: Chunk, sparse: Chunk, c: Chunk) {
    var vector := if dense.vectorScore.Some? then dense.vectorScore.value else 0.0;
    var text := if sparse.ftsScore.Some? then sparse.ftsScore.value else 0.0;
    && c.id == dense.id && c.text == dense.text && c.vectorScore == dense.vectorScore
    && c.ftsScore == Some(text) && c.score == 0.7 * vector + 0.3 * text
  }

  predicate FromOne(list: seq<Chunk>, other: seq<Chunk>, c: Chunk) {
    c in list && !HasId(other, c.id)
  }

  predicate Explained(dense: seq<Chunk>, sparse: seq<Chunk>, c: Chunk) {
    FromBoth(dense, sparse, c) || FromOne(dense, sparse, c) || FromOne(sparse, dense, c)
  }

  ghost predicate MergedOk(dense: seq<Chunk>, sparse: seq<Chunk>, d: Dict) {
    && DistinctIds(d)
    && (forall i :: 0 <= i < |d| ==> Explained(dense, sparse, d[i]))
    && (forall id :: HasId(d, id) <==> HasId(dense, id) || HasId(sparse, id))
  }

  lemma {:induction false} DenseAsIs(dense: seq<Chunk>, n: nat)
    requires n <= |dense| && DistinctIds(dense)
    ensures AddDense([], dense, n) == dense[..n]
  {
    if n > 0 {
      DenseAsIs(dense, n - 1);
      var c := dense[n - 1];
      FindIff(dense[..n - 1], c.id);
      assert dense[..n] == dense[..n - 1] + [c];
    }
  }

  lemma HasIdAppend(s: seq<Chunk>, c: Chunk, id: int)
    ensures HasId(s + [c], id) <==> HasId(s, id) || id == c.id
  {
    if HasId(s, id) {
      var i :| 0 <= i < |s| && s[i].id == id;
      assert (s + [c])[i].id == id;
    }
    assert (s + [c])[|s|] == c;
  }

  // What was explained before the next sparse result, and has another id, still is.
  lemma StillExplained(dense: seq<Chunk>, sparse: seq<Chunk>, c: Chunk, x: Chunk)
    requires Explained(dense, sparse, x) && x.id != c.id
    ensures Explained(dense, sparse + [c], x)
  {
    HasIdAppend(sparse, c, x.id);
    if FromBoth(dense, sparse, x) {
      var i, j :| 0 <= i < |dense| && 0 <= j < |sparse| && dense[i].id == sparse[j].id && Weighted(dense[i], sparse[j], x);
      assert (sparse + [c])[j] == sparse[j];
    }
  }

  // The dictionary after one more sparse result: its ids, and where its chunks come from.
  lemma PutSparseIds(dense: seq<Chunk>, sparse: seq<Chunk>, d: Dict, c: Chunk, id: int)
    requires MergedOk(dense, sparse, d)
    ensures HasId(PutSparse(d, c), id) <==> HasId(dense, id) || HasId(sparse + [c], id)
  {
    var d', at := PutSparse(d, c), Find(d, c.id);
    RepresentsPut(d, d', if at.Some? then Blend(d[at.value], c) else c);
    FindIff(d, id);
    FindIff(d', id);
    HasIdAppend(sparse, c, id);
    assert HasId(d, id) <==> HasId(dense, id) || HasId(sparse, id);
  }

  lemma PutSparseExplained(dense: seq<Chunk>, sparse: seq<Chunk>, d: Dict, c: Chunk, i: nat)
    requires MergedOk(dense, sparse, d) && !HasId(sparse, c.id) && i < |PutSparse(d, c)|
    ensures Explained(dense, sparse + [c], PutSparse(d, c)[i])
  {
    var x := PutSparse(d, c)[i];
    if x.id == c.id {
      StoredExplained(dense, sparse, d, c);
    } else {
      assert x == d[i];
      StillExplained(dense, sparse, c, x);
    }
  }

  lemma PutSparseOk(dense: seq<Chunk>, sparse: seq<Chunk>, d: Dict, c: Chunk)
    requires MergedOk(dense, sparse, d) && !HasId(sparse, c.id)
    ensures MergedOk(dense, sparse + [c], PutSparse(d, c))
  {
    var at := Find(d, c.id);
    RepresentsPut(d, PutSparse(d, c), if at.Some? then Blend(d[at.value], c) else c);
    forall id
      ensures HasId(PutSparse(d, c), id) <==> HasId(dense, id) || HasId(sparse + [c], id)
    {
      PutSparseIds(dense, sparse, d, c, id);
    }
    forall i | 0 <= i < |PutSparse(d, c)|
      ensures Explained(dense, sparse + [c], PutSparse(d, c)[i])
    {
      PutSparseExplained(dense, sparse, d, c, i);
    }
  }

  lemma StoredExplained(dense: seq<Chunk>, sparse: seq<Chunk>, d: Dict, c: Chunk)
    requires MergedOk(dense, sparse, d) && !HasId(sparse, c.id)
    ensures var at := Find(d, c.id);
            Explained(dense, sparse + [c], if at.Some? then Blend(d[at.value], c) else c)
  {
    var at := Find(d, c.id);
    assert (sparse + [c])[|sparse|] == c;
    FindIff(d, c.id);
    if at.Some? {
      var x := d[at.value];
      assert Explained(dense, sparse, x);
      assert !HasId(sparse, x.id);
      assert !FromBoth(dense, sparse, x);
      assert x in dense;
      var i :| 0 <= i < |dense| && dense[i] == x;
      assert FromBoth(dense, sparse + [c], Blend(x, c));
    } else {
      assert !HasId(d, c.id);
      assert !HasId(dense, c.id);
      assert c in sparse + [c];
    }
  }

  lemma {:induction false} MergeIsOk(dense: seq<Chunk>, sparse: seq<Chunk>, n: nat)
    requires DistinctIds(dense) && DistinctIds(sparse) && n <= |sparse|
    ensures MergedOk(dense, sparse[..n], AddSparse(dense, sparse, n))
  {
    if n > 0 {
      MergeIsOk(dense, sparse, n - 1);
      assert !HasId(sparse[..n - 1], sparse[n - 1].id);
      PutSparseOk(dense, sparse[..n - 1], AddSparse(dense, sparse, n - 1), sparse[n - 1]);
      assert sparse[..n] == sparse[..n - 1] + [sparse[n - 1]];
    } else {
      forall i | 0 <= i < |dense|
        ensures Explained(dense, [], dense[i])
      {
        assert FromOne(dense, [], dense[i]);
      }
    }
  }

  function IdList(s: seq<Chunk>): seq<int> {
    if s == [] then [] else IdList(s[..|s| - 1]) + [s[|s| - 1].id]
  }

  // The sparse results that no dense result has.
  function OnlySparse(dense: seq<Chunk>, sparse: seq<Chunk>): seq<Chunk> {
    Filter((c: Chunk) => !HasId(dense, c.id), sparse)
  }

  // The dense results in their order, then the sparse ones that are new, in theirs.
  predicate InOrder(dense: seq<Chunk>, sparse: seq<Chunk>, d: Dict) {
    IdList(d) == IdList(dense) + IdList(OnlySparse(dense, sparse))
  }

  lemma IdListAppend(s: seq<Chunk>, c: Chunk)
    ensures IdList(s + [c]) == IdList(s) + [c.id]
  {
    assert (s + [c])[..|s|] == s;
  }

  lemma {:induction false} IdListUpdate(s: seq<Chunk>, i: nat, c: Chunk)
    requires i < |s| && s[i].id == c.id
    ensures IdList(s[i := c]) == IdList(s)
  {
    if i < |s| - 1 {
      IdListUpdate(s[..|s| - 1], i, c);
      assert s[i := c][..|s| - 1] == s[..|s| - 1][i := c];
    } else {
      assert s[i := c][..|s| - 1] == s[..|s| - 1];
    }
  }

  lemma PutSparseOrder(dense: seq<Chunk>, before: seq<Chunk>, d: Dict, c: Chunk)
    requires InOrder(dense, before, d) && (Find(d, c.id).Some? <==> HasId(dense, c.id))
    ensures InOrder(dense, before + [c], PutSparse(d, c))
  {
    var at := Find(d, c.id);
    FilterAppend((x: Chunk) => !HasId(dense, x.id), before, c);
    if at.Some? {
      IdListUpdate(d, at.value, Blend(d[at.value], c));
    } else {
      IdListAppend(d, c);
      IdListAppend(OnlySparse(dense, before), c);
    }
  }

  lemma FoundIff(dense: seq<Chunk>, before: seq<Chunk>, d: Dict, id: int)
    requires MergedOk(dense, before, d) && !HasId(before, id)
    ensures Find(d, id).Some? <==> HasId(dense, id)
  {
    FindIff(d, id);
    assert HasId(d, id) <==> HasId(dense, id) || HasId(before, id);
  }

  lemma {:induction false} AddedInOrder(dense: seq<Chunk>, sparse: seq<Chunk>, n: nat)
    requires DistinctIds(dense) && DistinctIds(sparse) && n <= |sparse|
    ensures InOrder(dense, sparse[..n], AddSparse(dense, sparse, n))
  {
    if n > 0 {
      AddedInOrder(dense, sparse, n - 1);
      MergeIsOk(dense, sparse, n - 1);
      FoundIff(dense, sparse[..n - 1], AddSparse(dense, sparse, n - 1), sparse[n - 1].id);
      PutSparseOrder(dense, sparse[..n - 1], AddSparse(dense, sparse, n - 1), sparse[n - 1]);
      assert sparse[..n] == sparse[..n - 1] + [sparse[n - 1]];
    }
  }

  function IdsOf(s: seq<Chunk>): set<int> {
    set i | 0 <= i < |s| :: s[i].id
  }

  lemma IdsOfIff(s: seq<Chunk>, id: int)
    ensures id in IdsOf(s) <==> HasId(s, id)
  {
  }

  lemma {:induction false} DistinctCount(s: seq<Chunk>)
    requires DistinctIds(s)
    ensures |IdsOf(s)| == |s|
  {
    if s != [] {
      var init, last := s[..|s| - 1], s[|s| - 1];
      DistinctCount(init);
      forall id
        ensures id in IdsOf(s) <==> id in IdsOf(init) + {last.id}
      {
        IdsOfIff(s, id);
        IdsOfIff(init, id);
        assert s == init + [last];
        HasIdAppend(init, last, id);
      }
      assert IdsOf(s) == IdsOf(init) + {last.id};
      IdsOfIff(init, last.id);
    }
  }

  lemma SameIdSameChunk(a: seq<Chunk>, x: Chunk, y: Chunk)
    requires DistinctIds(a) && x in a && y in a && x.id == y.id
    ensures x == y && multiset(a)[x] == 1
  {
    var i :| 0 <= i < |a| && a[i] == x;
    var j :| 0 <= j < |a| && a[j] == y;
    assert i == j;
    OnceInMultiset(a, i);
  }

  // Sorting keeps the ids distinct.
  lemma PermutationKeepsDistinct(a: seq<Chunk>, b: seq<Chunk>)
    requires DistinctIds(a) && multiset(a) == multiset(b)
    ensures DistinctIds(b)
  {
    forall i, j | 0 <= i < j < |b|
      ensures b[i].id != b[j].id
    {
      assert b[i] in multiset(a) && b[j] in multiset(a);
      if b[i].id == b[j].id {
        SameIdSameChunk(a, b[i], b[j]);
        TwiceInMultiset(b, i, j);
        assert false;
      }
    }
  }

  lemma OnceInMultiset(a: seq<Chunk>, x: nat)
    requires DistinctIds(a) && x < |a|
    ensures multiset(a)[a[x]] == 1
  {
    assert a == a[..x] + [a[x]] + a[x + 1..];
    assert a[x] !in a[..x] && a[x] !in a[x + 1..];
  }

  // `hybrid_search` refines a top-k over the union of the two result lists: distinct ids, exactly
  // min(k, size of the union) of them, the right score for each, best first, ties in dictionary
  // order, and nothing omitted scores above anything returned.
  ghost predicate IsTopK(dense: seq<Chunk>, sparse: seq<Chunk>, k: nat, results: seq<Chunk>) {
    var all := Merged(dense, sparse);
    var union := IdsOf(dense) + IdsOf(sparse);
    && DistinctIds(results)
    && |results| == (if k < |union| then k else |union|)
    && (forall i :: 0 <= i < |results| ==> Explained(dense, sparse, results[i]) && results[i].id in union)
    && (forall i, j :: 0 <= i < j < |results| ==> results[i].score >= results[j].score)
    && (forall c, i :: c in all && c !in results && 0 <= i < |results| ==> c.score <= results[i].score)
    && IsStableSort((c: Chunk) => -c.score, all, Ranked(all)) && results <= Ranked(all)
  }

  lemma UnionIds(dense: seq<Chunk>, sparse: seq<Chunk>, d: Dict)
    requires MergedOk(dense, sparse, d)
    ensures IdsOf(d) == IdsOf(dense) + IdsOf(sparse)
  {
    forall id
      ensures id in IdsOf(d) <==> id in IdsOf(dense) + IdsOf(sparse)
    {
      IdsOfIff(d, id);
      IdsOfIff(dense, id);
      IdsOfIff(sparse, id);
    }
  }

  lemma MergedIsOk(dense: seq<Chunk>, sparse: seq<Chunk>)
    requires DistinctIds(dense) && DistinctIds(sparse)
    ensures MergedOk(dense, sparse, Merged(dense, sparse))
  {
    DenseAsIs(dense, |dense|);
    assert dense[..|dense|] == dense;
    MergeIsOk(dense, sparse, |sparse|);
    assert sparse[..|sparse|] == sparse;
  }

  // The order that decides ties: the dictionary holds the dense results, then the new sparse ones.
  lemma MergedInOrder(dense: seq<Chunk>, sparse: seq<Chunk>)
    requires DistinctIds(dense) && DistinctIds(sparse)
    ensures InOrder(dense, sparse, Merged(dense, sparse))
  {
    DenseAsIs(dense, |dense|);
    assert dense[..|dense|] == dense;
    AddedInOrder(dense, sparse, |sparse|);
    assert sparse[..|sparse|] == sparse;
  }

  // A prefix of a list sorted best first: every element left out scores no more than any kept.
  lemma PrefixIsBest(sorted: seq<Chunk>, k: nat, c: Chunk, i: nat)
    requires Sorted((x: Chunk) => -x.score, sorted)
    requires c in sorted && c !in Take(sorted, k) && i < |Take(sorted, k)|
    ensures c.score <= Take(sorted, k)[i].score
  {
    var j :| 0 <= j < |sorted| && sorted[j] == c;
    var kept := Take(sorted, k);
    assert kept == sorted[..|kept|];
    assert j >= |kept|;
    assert -sorted[i].score <= -sorted[j].score;
  }

  lemma SearchIsTopK(dense: seq<Chunk>, sparse: seq<Chunk>, k: nat)
    requires DistinctIds(dense) && DistinctIds(sparse)
    ensures IsTopK(dense, sparse, k, Take(Ranked(Merged(dense, sparse)), k))
  {
    var all := Merged(dense, sparse);
    var key := (c: Chunk) => -c.score;
    var sorted := Ranked(all);
    var results := Take(sorted, k);
    MergedIsOk(dense, sparse);
    UnionIds(dense, sparse, all);
    DistinctCount(all);
    SortIsStable(key, all);
    SortLength(key, all);
    PermutationKeepsDistinct(all, sorted);
    forall i | 0 <= i < |results|
      ensures Explained(dense, sparse, results[i]) && results[i].id in IdsOf(dense) + IdsOf(sparse)
    {
      assert sorted[i] in multiset(all);
      assert results[i] in all;
    }
    forall c, i | c in all && c !in results && 0 <= i < |results|
      ensures c.score <= results[i].score
    {
      assert c in multiset(sorted);
      PrefixIsBest(sorted, k, c, i);
    }
    forall i, j | 0 <= i < j < |results|
      ensures results[i].score >= results[j].score
    {
      assert key(sorted[i]) <= key(sorted[j]);
    }
  }
}
