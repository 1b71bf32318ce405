/** What a `findMany({ where, orderBy })` returns from one table: every row
    that passes the filter, each once, ordered by the requested key. Rows with
    equal keys may come back in any order, as in the database. */
module Query {
  import opened Common

  /** An ordering on rows that is total and transitive, ties allowed:
      `before(a, b)` means `a` may be listed ahead of `b`. */
  ghost predicate TotalPreorder<V(!new)>(before: (V, V) -> bool) {
    && (forall a, b :: before(a, b) || before(b, a))
    && (forall a, b, c :: before(a, b) && before(b, c) ==> before(a, c))
  }

  predicate Distinct<T(==)>(s: seq<T>) {
    forall i, j :: 0 <= i < j < |s| ==> s[i] != s[j]
  }

  predicate AllIn<V>(ids: seq<Id>, m: map<Id, V>) {
    forall i :: 0 <= i < |ids| ==> ids[i] in m
  }

  predicate SortedBy<V>(ids: seq<Id>, m: map<Id, V>, before: (V, V) -> bool)
    requires AllIn(ids, m)
  {
    forall i, j :: 0 <= i < j < |ids| ==> before(m[ids[i]], m[ids[j]])
  }

  /** The keys of exactly the rows satisfying `keep`, each once, in order. */
  ghost predicate IsListing<V>(ids: seq<Id>, m: map<Id, V>, keep: V -> bool, before: (V, V) -> bool) {
    && Distinct(ids)
    && AllIn(ids, m)
    && (forall id :: id in ids <==> id in m && keep(m[id]))
    && SortedBy(ids, m, before)
  }

  /** The rows behind a listing of keys. */
  function Rows<V>(m: map<Id, V>, ids: seq<Id>): (rows: seq<V>)
    requires AllIn(ids, m)
    ensures |rows| == |ids|
    ensures forall i :: 0 <= i < |ids| ==> rows[i] == m[ids[i]]
  {
    seq(|ids|, i requires 0 <= i < |ids| => m[ids[i]])
  }

  /** Where `k` goes in a sorted listing: after every row that may precede it. */
  function InsertPosition<V>(ids: seq<Id>, m: map<Id, V>, k: Id, before: (V, V) -> bool): (p: nat)
    requires AllIn(ids, m) && k in m
    ensures p <= |ids|
    ensures forall i :: 0 <= i < p ==> before(m[ids[i]], m[k])
    ensures p < |ids| ==> !before(m[ids[p]], m[k])
  {
    var v := m[k];
    FindIndex(ids, (id: Id) => id in m && !before(m[id], v))
  }

  function Insert<V>(ids: seq<Id>, m: map<Id, V>, k: Id, before: (V, V) -> bool): (r: seq<Id>)
    requires AllIn(ids, m) && k in m
    ensures forall id :: id in r <==> id in ids || id == k
    ensures AllIn(r, m)
  {
    var p := InsertPosition(ids, m, k, before);
    assert ids == ids[..p] + ids[p..];
    ids[..p] + [k] + ids[p..]
  }

  /** Inserting at `InsertPosition` keeps a listing sorted, and keeps its keys
      distinct when the new key is not already listed. */
  lemma InsertKeepsListing<V(!new)>(ids: seq<Id>, m: map<Id, V>, k: Id, before: (V, V) -> bool)
    requires AllIn(ids, m) && k in m && TotalPreorder(before)
    requires SortedBy(ids, m, before) && Distinct(ids) && k !in ids
    ensures var r := Insert(ids, m, k, before);
      SortedBy(r, m, before) && Distinct(r)
  {
    var p := InsertPosition(ids, m, k, before);
    var r := Insert(ids, m, k, before);
    assert |r| == |ids| + 1;
    assert forall i :: 0 <= i < p ==> r[i] == ids[i];
    assert r[p] == k;
    assert forall i :: p < i < |r| ==> r[i] == ids[i - 1];
    forall i, j | 0 <= i < j < |r|
      ensures before(m[r[i]], m[r[j]]) && r[i] != r[j]
    {
      if j < p || i > p {
      } else if j == p {
      } else if i < p {
        assert before(m[ids[i]], m[ids[j - 1]]);
      } else {
        assert i == p;
        assert before(m[k], m[ids[p]]);
        if j - 1 > p {
          assert before(m[ids[p]], m[ids[j - 1]]);
        }
      }
    }
  }

  /** The query engine: scans the table once and keeps the result sorted. */
  method SelectSorted<V(!new)>(m: map<Id, V>, keep: V -> bool, before: (V, V) -> bool) returns (ids: seq<Id>)
    requires TotalPreorder(before)
    ensures IsListing(ids, m, keep, before)
  {
    ids := [];
    var rest := m.Keys;
    while rest != {}
      invariant rest <= m.Keys
      invariant Distinct(ids) && AllIn(ids, m) && SortedBy(ids, m, before)
      invariant forall id :: id in ids <==> id in m && id !in rest && keep(m[id])
      decreases |rest|
    {
      var k :| k in rest;
      if keep(m[k]) {
        InsertKeepsListing(ids, m, k, before);
        ids := Insert(ids, m, k, before);
      }
      rest := rest - {k};
    }
  }

  /** Code-point lexicographic order on strings, the order `orderBy` uses on a
      text column under a binary collation. */
  predicate StrLe(a: string, b: string) {
    if a == [] then true
    else if b == [] then false
    else a[0] < b[0] || (a[0] == b[0] && StrLe(a[1..], b[1..]))
  }

  lemma {:induction false} StrLeTotal(a: string, b: string)
    ensures StrLe(a, b) || StrLe(b, a)
  {
    if a != [] && b != [] && a[0] == b[0] {
      StrLeTotal(a[1..], b[1..]);
    }
  }

  lemma {:induction false} StrLeTransitive(a: string, b: string, c: string)
    requires StrLe(a, b) && StrLe(b, c)
    ensures StrLe(a, c)
  {
    if a != [] && b != [] && c != [] && a[0] == b[0] == c[0] {
      StrLeTransitive(a[1..], b[1..], c[1..]);
    }
  }
}
