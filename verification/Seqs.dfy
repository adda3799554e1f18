/** Small facts about finite sequences that several modules share. */
module Seqs {

  datatype Option<+T> = None | Some(value: T)

  function ToSet<T>(s: seq<T>): set<T> {
    set x | x in s
  }

  /** No element occurs at two positions. */
  ghost predicate NoDup<T>(s: seq<T>) {
    forall i, j :: 0 <= i < j < |s| ==> s[i] != s[j]
  }

  function Flatten<T>(ss: seq<seq<T>>): seq<T> {
    if ss == [] then [] else ss[0] + Flatten(ss[1..])
  }

  /** Every element as a sequence of its own. */
  function Singletons<T>(s: seq<T>): (r: seq<seq<T>>)
    ensures |r| == |s|
    ensures forall i :: 0 <= i < |s| ==> r[i] == [s[i]]
  {
    seq(|s|, i requires 0 <= i < |s| => [s[i]])
  }

  function Take<T>(s: seq<T>, n: nat): seq<T> {
    if |s| <= n then s else s[..n]
  }

  lemma {:induction false} FlattenAppend<T>(a: seq<seq<T>>, b: seq<seq<T>>)
    ensures Flatten(a + b) == Flatten(a) + Flatten(b)
  {
    if a == [] {
      assert a + b == b;
    } else {
      assert (a + b)[1..] == a[1..] + b;
      FlattenAppend(a[1..], b);
    }
  }

  lemma {:induction false} FlattenMember<T>(ss: seq<seq<T>>, x: T)
    ensures x in Flatten(ss) <==> exists i :: 0 <= i < |ss| && x in ss[i]
  {
    if ss != [] {
      FlattenMember(ss[1..], x);
      if i :| 0 <= i < |ss| && x in ss[i] {
        assert i > 0 ==> ss[1..][i - 1] == ss[i];
      }
      if i :| 0 <= i < |ss[1..]| && x in ss[1..][i] {
        assert ss[i + 1] == ss[1..][i];
      }
    }
  }

  lemma {:induction false} FlattenSingletons<T>(s: seq<T>)
    ensures Flatten(Singletons(s)) == s
  {
    if s != [] {
      assert Singletons(s)[1..] == Singletons(s[1..]);
      FlattenSingletons(s[1..]);
    }
  }

  lemma NoDupAppend<T>(a: seq<T>, b: seq<T>)
    requires NoDup(a) && NoDup(b)
    requires forall x :: x in a ==> x !in b
    ensures NoDup(a + b)
  {
    var c := a + b;
    forall i, j | 0 <= i < j < |c|
      ensures c[i] != c[j]
    {
      if i < |a| <= j {
        assert c[i] in a && c[j] in b;
      }
    }
  }

  /** A sequence without repetitions is as long as its set of elements. */
  lemma {:induction false} NoDupCard<T>(s: seq<T>)
    requires NoDup(s)
    ensures |ToSet(s)| == |s|
  {
    if s != [] {
      var n := |s| - 1;
      NoDupCard(s[..n]);
      assert s[n] !in s[..n];
      assert ToSet(s) == ToSet(s[..n]) + {s[n]};
    }
  }

  lemma SubsetCard<T>(a: set<T>, b: set<T>)
    requires a <= b
    ensures |a| <= |b|
  {
    assert b == a + (b - a);
  }

  /** More positions than values: two positions hold the same value. */
  lemma Pigeonhole<T>(s: seq<T>, values: set<T>) returns (i: nat, j: nat)
    requires ToSet(s) <= values
    requires |s| > |values|
    ensures i < j < |s| && s[i] == s[j]
  {
    if NoDup(s) {
      NoDupCard(s);
      SubsetCard(ToSet(s), values);
      assert false;
    }
    i, j :| 0 <= i < j < |s| && s[i] == s[j];
  }

  lemma NonemptyHasMember<T>(s: seq<T>)
    ensures s != [] ==> exists x :: x in s
  {
    if s != [] {
      assert s[0] in s;
    }
  }

  // ---- Positions ----

  ghost predicate Rising(at: seq<nat>) {
    forall i, j :: 0 <= i < j < |at| ==> at[i] < at[j]
  }

  lemma RisingSnoc(at: seq<nat>, n: nat)
    requires Rising(at) && forall k :: k in at ==> k < n
    ensures Rising(at + [n])
  {
    assert forall i :: 0 <= i < |at| ==> at[i] in at;
  }

  /** `r` lists the elements at these positions, all among the first n. */
  ghost predicate ListedAt<T>(s: seq<T>, n: nat, at: seq<nat>, r: seq<T>) {
    n <= |s| && |at| == |r| && Rising(at) && forall j :: 0 <= j < |at| ==> at[j] < n && r[j] == s[at[j]]
  }

  lemma ListedFurther<T>(s: seq<T>, n: nat, at: seq<nat>, r: seq<T>)
    requires n < |s| && ListedAt(s[..n], n, at, r)
    ensures ListedAt(s, n + 1, at, r) && ListedAt(s, n + 1, at + [n], r + [s[n]])
  {
    assert forall k :: k in at ==> k < n;
    RisingSnoc(at, n);
  }
}
