/** The evidence bag shared by the steps of a plan: first occurrences, numbered from 1. */
module EvidenceBag {
  import opened Seqs
  import opened Text

  datatype Evidence = Evidence(
    knowledgeBase: string,
    document: Option<string>,
    title: Option<string>,
    chunk: Option<string>,
    snippet: string,
    details: string,
    rank: int)

  /** What identifies an item; the digests of the source are taken to be injective. */
  datatype Key = ByChunk(chunk: string) | ByDocument(document: string, text: string) | BySnippet(text: string)

  predicate Given(s: Option<string>) {
    s.Some? && s.value != ""
  }

  function KeyOf(e: Evidence): Key {
    if Given(e.chunk) then ByChunk(e.chunk.value)
    else if Given(e.document) && e.snippet != "" then ByDocument(e.document.value, Strip(e.snippet))
    else BySnippet(e.knowledgeBase + "|" + e.snippet)
  }

  function Keys(s: seq<Evidence>): set<Key> {
    set e | e in s :: KeyOf(e)
  }

  function Add(r: seq<Evidence>, e: Evidence): seq<Evidence> {
    if KeyOf(e) in Keys(r) then r else r + [e]
  }

  /** The first item of each key, in order. */
  function Firsts(s: seq<Evidence>): seq<Evidence> {
    if s == [] then [] else Add(Firsts(s[..|s| - 1]), s[|s| - 1])
  }

  function Renumber(s: seq<Evidence>): (r: seq<Evidence>)
    ensures |r| == |s|
    ensures forall i :: 0 <= i < |s| ==> r[i] == s[i].(rank := i + 1)
  {
    seq(|s|, i requires 0 <= i < |s| => s[i].(rank := i + 1))
  }

  function Merge(existing: seq<Evidence>, incoming: seq<Evidence>): seq<Evidence> {
    Renumber(Firsts(existing + incoming))
  }

  /** `merge_evidence`: one pass with the set of keys seen, a second one for the ranks. */
  method MergeEvidence(existing: seq<Evidence>, incoming: seq<Evidence>) returns (renumbered: seq<Evidence>)
    ensures renumbered == Merge(existing, incoming)
    ensures exists at :: MergedFrom(existing + incoming, at, renumbered)
  {
    var all := existing + incoming;
    var seen: set<Key> := {};
    var merged: seq<Evidence> := [];
    for i := 0 to |all|
      invariant merged == Firsts(all[..i])
      invariant seen == Keys(merged)
    {
      var key := KeyOf(all[i]);
      assert all[..i + 1][..i] == all[..i];
      if key !in seen {
        seen := seen + {key};
        KeysAppend(merged, all[i]);
        merged := merged + [all[i]];
      }
    }
    assert all[..|all|] == all;
    renumbered := [];
    for i := 0 to |merged|
      invariant |renumbered| == i
      invariant forall k :: 0 <= k < i ==> renumbered[k] == merged[k].(rank := k + 1)
    {
      if merged[i].rank != i + 1 {
        renumbered := renumbered + [merged[i].(rank := i + 1)];
      } else {
        renumbered := renumbered + [merged[i]];
      }
    }
    ghost var at := MergeExactly(existing, incoming);
  }

  lemma KeysAppend(s: seq<Evidence>, e: Evidence)
    ensures Keys(s + [e]) == Keys(s) + {KeyOf(e)}
  {
    forall k | k in Keys(s) + {KeyOf(e)} ensures k in Keys(s + [e]) {
      if k in Keys(s) {
        var x :| x in s && KeyOf(x) == k;
        assert x in s + [e];
      } else {
        assert e in s + [e];
      }
    }
  }

  // ---- First occurrences ----

  ghost predicate DistinctKeys(s: seq<Evidence>) {
    forall i, j :: 0 <= i < j < |s| ==> KeyOf(s[i]) != KeyOf(s[j])
  }

  lemma {:induction false} FirstsKeys(s: seq<Evidence>)
    ensures Keys(Firsts(s)) == Keys(s) && DistinctKeys(Firsts(s))
  {
    if s != [] {
      var n := |s| - 1;
      FirstsKeys(s[..n]);
      assert s == s[..n] + [s[n]];
      KeysAppend(s[..n], s[n]);
      KeysAppend(Firsts(s[..n]), s[n]);
      AddDistinct(Firsts(s[..n]), s[n]);
    }
  }

  lemma AddDistinct(r: seq<Evidence>, e: Evidence)
    requires DistinctKeys(r)
    ensures DistinctKeys(Add(r, e))
  {
    forall i | 0 <= i < |r| ensures KeyOf(r[i]) in Keys(r) {
    }
  }

  /** No earlier item has the key of the one at p. */
  ghost predicate IsFirst(s: seq<Evidence>, p: nat) {
    p < |s| && forall q :: 0 <= q < p ==> KeyOf(s[q]) != KeyOf(s[p])
  }

  /** `at` lists, in ascending order, the positions of the items of `r` in `s`, each the first of its key. */
  ghost predicate Picks(s: seq<Evidence>, at: seq<nat>, r: seq<Evidence>) {
    && |at| == |r|
    && (forall i :: 0 <= i < |at| ==> IsFirst(s, at[i]) && s[at[i]] == r[i])
    && (forall i, j :: 0 <= i < j < |at| ==> at[i] < at[j])
  }

  lemma PicksLonger(s: seq<Evidence>, at: seq<nat>, r: seq<Evidence>, e: Evidence)
    requires Picks(s, at, r)
    ensures Picks(s + [e], at, r)
  {
    forall i | 0 <= i < |at| ensures IsFirst(s + [e], at[i]) && (s + [e])[at[i]] == r[i] {
      assert IsFirst(s, at[i]);
    }
  }

  lemma PicksOne(s: seq<Evidence>, at: seq<nat>, r: seq<Evidence>, e: Evidence)
    requires Picks(s, at, r) && KeyOf(e) !in Keys(s)
    ensures Picks(s + [e], at + [|s|], r + [e])
  {
    PicksLonger(s, at, r, e);
    assert forall q :: 0 <= q < |s| ==> s[q] in s;
    assert IsFirst(s + [e], |s|);
    assert forall i :: 0 <= i < |at| ==> IsFirst(s, at[i]);
  }

  /** The kept items stand at ascending positions, each the first of its key, and no key is lost. */
  lemma {:induction false} FirstsPositions(s: seq<Evidence>) returns (at: seq<nat>)
    ensures Picks(s, at, Firsts(s))
    ensures Keys(Firsts(s)) == Keys(s)
  {
    FirstsKeys(s);
    at := [];
    if s != [] {
      var front, e := s[..|s| - 1], s[|s| - 1];
      assert s == front + [e];
      at := FirstsPositions(front);
      FirstsKeys(front);
      if KeyOf(e) in Keys(front) {
        PicksLonger(front, at, Firsts(front), e);
      } else {
        PicksOne(front, at, Firsts(front), e);
        at := at + [|front|];
      }
    }
  }

  lemma {:induction false} FirstsOfDistinct(s: seq<Evidence>)
    requires DistinctKeys(s)
    ensures Firsts(s) == s
  {
    if s != [] {
      var front, e := s[..|s| - 1], s[|s| - 1];
      FrontDistinct(s);
      FirstsOfDistinct(front);
      LastKeyIsNew(s);
      assert Firsts(s) == Add(front, e) == front + [e] == s;
    }
  }

  lemma FrontDistinct(s: seq<Evidence>)
    requires DistinctKeys(s) && s != []
    ensures DistinctKeys(s[..|s| - 1])
  {
  }

  lemma LastKeyIsNew(s: seq<Evidence>)
    requires DistinctKeys(s) && s != []
    ensures KeyOf(s[|s| - 1]) !in Keys(s[..|s| - 1])
  {
    var n := |s| - 1;
    forall x | x in s[..n] ensures KeyOf(x) != KeyOf(s[n]) {
      var i :| 0 <= i < n && s[..n][i] == x;
    }
  }

  lemma {:induction false} FirstsLeft(x: seq<Evidence>, y: seq<Evidence>)
    ensures Firsts(Firsts(x) + y) == Firsts(x + y)
    decreases |y|
  {
    if y == [] {
      FirstsKeys(x);
      FirstsOfDistinct(Firsts(x));
      assert Firsts(x) + y == Firsts(x) && x + y == x;
    } else {
      var n := |y| - 1;
      FirstsLeft(x, y[..n]);
      FirstsSnoc(x, y);
      FirstsSnoc(Firsts(x), y);
    }
  }

  lemma FirstsSnoc(x: seq<Evidence>, y: seq<Evidence>)
    requires y != []
    ensures Firsts(x + y) == Add(Firsts(x + y[..|y| - 1]), y[|y| - 1])
  {
    assert (x + y)[..|x + y| - 1] == x + y[..|y| - 1];
  }

  lemma {:induction false} FirstsRight(x: seq<Evidence>, y: seq<Evidence>)
    ensures Firsts(x + Firsts(y)) == Firsts(x + y)
    decreases |y|
  {
    if y == [] {
    } else {
      var front, e := y[..|y| - 1], y[|y| - 1];
      FirstsRight(x, front);
      FirstsSnoc(x, y);
      FirstsKeys(front);
      if KeyOf(e) in Keys(front) {
        AlreadyThere(x, front, e);
      } else {
        assert Firsts(y) == Firsts(front) + [e];
        FirstsSnoc(x, Firsts(y));
        assert Firsts(y)[..|Firsts(y)| - 1] == Firsts(front);
      }
    }
  }

  lemma AlreadyThere(x: seq<Evidence>, y: seq<Evidence>, e: Evidence)
    requires KeyOf(e) in Keys(y)
    ensures Add(Firsts(x + y), e) == Firsts(x + y)
  {
    FirstsKeys(x + y);
    var z :| z in y && KeyOf(z) == KeyOf(e);
    assert z in x + y;
  }

  // ---- The algebra ----

  /** Equal but for the ranks. */
  ghost predicate SameItems(a: seq<Evidence>, b: seq<Evidence>) {
    |a| == |b| && forall i :: 0 <= i < |a| ==> b[i] == a[i].(rank := b[i].rank)
  }

  lemma SameKeys(a: seq<Evidence>, b: seq<Evidence>)
    requires SameItems(a, b)
    ensures Keys(a) == Keys(b)
  {
    forall k | k in Keys(a) ensures k in Keys(b) {
      var x :| x in a && KeyOf(x) == k;
      var i :| 0 <= i < |a| && a[i] == x;
      assert b[i] in b && KeyOf(b[i]) == k;
    }
    forall k | k in Keys(b) ensures k in Keys(a) {
      var x :| x in b && KeyOf(x) == k;
      var i :| 0 <= i < |b| && b[i] == x;
      assert a[i] in a && KeyOf(a[i]) == k;
    }
  }

  lemma {:induction false} SameFirsts(a: seq<Evidence>, b: seq<Evidence>)
    requires SameItems(a, b)
    ensures SameItems(Firsts(a), Firsts(b))
  {
    if a != [] {
      var n := |a| - 1;
      SameFirsts(a[..n], b[..n]);
      SameAdd(Firsts(a[..n]), Firsts(b[..n]), a[n], b[n]);
    }
  }

  lemma SameAdd(r: seq<Evidence>, r': seq<Evidence>, e: Evidence, e': Evidence)
    requires SameItems(r, r') && e' == e.(rank := e'.rank)
    ensures SameItems(Add(r, e), Add(r', e'))
  {
    SameKeys(r, r');
  }

  lemma SameRenumber(a: seq<Evidence>, b: seq<Evidence>)
    requires SameItems(a, b)
    ensures Renumber(a) == Renumber(b)
  {
  }

  lemma MergeAbsorbsLeft(a: seq<Evidence>, b: seq<Evidence>, c: seq<Evidence>)
    ensures Merge(Merge(a, b), c) == Renumber(Firsts(a + b + c))
  {
    var m := Firsts(a + b);
    SameFirsts(m + c, Renumber(m) + c);
    SameRenumber(Firsts(m + c), Firsts(Renumber(m) + c));
    FirstsLeft(a + b, c);
  }

  lemma MergeAbsorbsRight(a: seq<Evidence>, b: seq<Evidence>, c: seq<Evidence>)
    ensures Merge(a, Merge(b, c)) == Renumber(Firsts(a + b + c))
  {
    var m := Firsts(b + c);
    SameFirsts(a + m, a + Renumber(m));
    SameRenumber(Firsts(a + m), Firsts(a + Renumber(m)));
    FirstsRight(a, b + c);
    assert a + (b + c) == a + b + c;
  }

  /** Merging is associative. */
  lemma MergeAssociative(a: seq<Evidence>, b: seq<Evidence>, c: seq<Evidence>)
    ensures Merge(Merge(a, b), c) == Merge(a, Merge(b, c))
  {
    MergeAbsorbsLeft(a, b, c);
    MergeAbsorbsRight(a, b, c);
  }

  /** A bag as the executor keeps it: one item per key, ranked 1..n. */
  ghost predicate Normal(bag: seq<Evidence>) {
    DistinctKeys(bag) && forall i :: 0 <= i < |bag| ==> bag[i].rank == i + 1
  }

  /** A merge yields a bag with exactly the keys of both sides. */
  lemma MergeIsNormal(a: seq<Evidence>, b: seq<Evidence>)
    ensures Normal(Merge(a, b)) && Keys(Merge(a, b)) == Keys(a) + Keys(b)
  {
    var m := Firsts(a + b);
    FirstsKeys(a + b);
    SameKeys(m, Renumber(m));
    forall i, j | 0 <= i < j < |m| ensures KeyOf(Renumber(m)[i]) != KeyOf(Renumber(m)[j]) {
      assert KeyOf(m[i]) != KeyOf(m[j]);
    }
    KeysJoin(a, b);
  }

  lemma KeysJoin(a: seq<Evidence>, b: seq<Evidence>)
    ensures Keys(a + b) == Keys(a) + Keys(b)
  {
    forall k | k in Keys(a) + Keys(b) ensures k in Keys(a + b) {
      if k in Keys(a) {
        var x :| x in a && KeyOf(x) == k;
        assert x in a + b;
      } else {
        var x :| x in b && KeyOf(x) == k;
        assert x in a + b;
      }
    }
  }

  /** A bag is a unit and absorbs itself: merging nothing, or the bag again, changes nothing. */
  lemma MergeIdempotent(bag: seq<Evidence>)
    requires Normal(bag)
    ensures Merge(bag, []) == bag && Merge([], bag) == bag && Merge(bag, bag) == bag
  {
    Absorbs(bag, []);
    Absorbs(bag, bag);
    assert [] + bag == bag + [];
  }

  /** Items whose keys are all in the bag add nothing. */
  lemma {:induction false} Absorbs(bag: seq<Evidence>, more: seq<Evidence>)
    requires Normal(bag) && Keys(more) <= Keys(bag)
    ensures Firsts(bag + more) == bag && Merge(bag, more) == bag
    decreases |more|
  {
    if more == [] {
      FirstsOfDistinct(bag);
      assert bag + more == bag;
    } else {
      var n := |more| - 1;
      assert more == more[..n] + [more[n]];
      KeysAppend(more[..n], more[n]);
      Absorbs(bag, more[..n]);
      FirstsSnoc(bag, more);
    }
    assert Renumber(bag) == bag;
  }

  // ---- Which items are the same ----

  ghost predicate Chunked(e: Evidence) {
    e.chunk != None && e.chunk != Some("")
  }

  ghost predicate Documented(e: Evidence) {
    !Chunked(e) && e.document != None && e.document != Some("") && e.snippet != ""
  }

  /** The same chunk; or, without chunks, the same stripped text of the same document; or else the same base and text. */
  ghost predicate SameItem(a: Evidence, b: Evidence) {
    || (Chunked(a) && Chunked(b) && a.chunk == b.chunk)
    || (Documented(a) && Documented(b) && a.document == b.document && Strip(a.snippet) == Strip(b.snippet))
    || (&& !Chunked(a) && !Documented(a) && !Chunked(b) && !Documented(b)
        && a.knowledgeBase + "|" + a.snippet == b.knowledgeBase + "|" + b.snippet)
  }

  lemma SameKeyExactlyWhen(a: Evidence, b: Evidence)
    ensures KeyOf(a) == KeyOf(b) <==> SameItem(a, b)
  {
  }

  /** No earlier item is the same one. */
  ghost predicate New(all: seq<Evidence>, k: nat) {
    k < |all| && forall q :: 0 <= q < k ==> !SameItem(all[q], all[k])
  }

  /** `r` holds exactly the new items, in order, ranked from 1. */
  ghost predicate MergedFrom(all: seq<Evidence>, at: seq<nat>, r: seq<Evidence>) {
    && |at| == |r| && Rising(at)
    && (forall j :: 0 <= j < |at| ==> at[j] < |all| && r[j] == all[at[j]].(rank := j + 1))
    && (forall k: nat :: k in at <==> New(all, k))
  }

  lemma NewIsFirst(all: seq<Evidence>, k: nat)
    ensures New(all, k) <==> IsFirst(all, k)
  {
    if k < |all| {
      forall q | 0 <= q < k ensures SameItem(all[q], all[k]) <==> KeyOf(all[q]) == KeyOf(all[k]) {
        SameKeyExactlyWhen(all[q], all[k]);
      }
    }
  }

  lemma PicksAllFirsts(s: seq<Evidence>, at: seq<nat>, r: seq<Evidence>, k: nat)
    requires Picks(s, at, r) && Keys(r) == Keys(s) && IsFirst(s, k)
    ensures k in at
  {
    assert s[k] in s && KeyOf(s[k]) in Keys(r);
    var e :| e in r && KeyOf(e) == KeyOf(s[k]);
    var j :| 0 <= j < |r| && r[j] == e;
    assert IsFirst(s, at[j]) && s[at[j]] == r[j];
    assert at[j] == k;
  }

  /** A merge, told from the items alone: it drops exactly those that an earlier item already is. */
  lemma MergeExactly(existing: seq<Evidence>, incoming: seq<Evidence>) returns (at: seq<nat>)
    ensures MergedFrom(existing + incoming, at, Merge(existing, incoming))
  {
    var all := existing + incoming;
    at := FirstsPositions(all);
    forall k: nat ensures k in at <==> New(all, k) {
      NewIsFirst(all, k);
      if IsFirst(all, k) {
        PicksAllFirsts(all, at, Firsts(all), k);
      }
    }
  }

  /** An item whose chunk no earlier item has is never dropped. */
  lemma NewChunkIsKept(existing: seq<Evidence>, incoming: seq<Evidence>, k: nat) returns (j: nat)
    requires k < |existing + incoming| && Chunked((existing + incoming)[k])
    requires forall q :: 0 <= q < k ==> (existing + incoming)[q].chunk != (existing + incoming)[k].chunk
    ensures j < |Merge(existing, incoming)| && Merge(existing, incoming)[j] == (existing + incoming)[k].(rank := j + 1)
  {
    var at := MergeExactly(existing, incoming);
    assert New(existing + incoming, k);
    j :| 0 <= j < |at| && at[j] == k;
  }
}
