/** The order in which the document store lists a collection: by document
    id, ascending, comparing ids character by character (code point order)
    and a proper prefix before any longer id. */
module DocumentOrder {

  /** `a` sorts no later than `b`. */
  predicate IdLe(a: string, b: string)
    decreases |a|
  {
    |a| == 0 || (|b| > 0 && (a[0] < b[0] || (a[0] == b[0] && IdLe(a[1..], b[1..]))))
  }

  predicate IdLt(a: string, b: string) {
    IdLe(a, b) && a != b
  }

  lemma {:induction false} IdLeAntisymmetric(a: string, b: string)
    requires IdLe(a, b) && IdLe(b, a)
    ensures a == b
    decreases |a|
  {
    if |a| > 0 {
      IdLeAntisymmetric(a[1..], b[1..]);
      assert a == [a[0]] + a[1..] && b == [b[0]] + b[1..];
    }
  }

  lemma {:induction false} IdLeTransitive(a: string, b: string, c: string)
    requires IdLe(a, b) && IdLe(b, c)
    ensures IdLe(a, c)
    decreases |a|
  {
    if |a| > 0 && a[0] == b[0] && b[0] == c[0] {
      IdLeTransitive(a[1..], b[1..], c[1..]);
    }
  }

  lemma {:induction false} IdLeTotal(a: string, b: string)
    ensures IdLe(a, b) || IdLe(b, a)
    decreases |a|
  {
    if |a| > 0 && |b| > 0 && a[0] == b[0] {
      IdLeTotal(a[1..], b[1..]);
    }
  }

  /** A finite non-empty set of ids has a first one. */
  lemma {:induction false} HasFirst(s: set<string>) returns (m: string)
    requires s != {}
    ensures m in s && forall j :: j in s ==> IdLe(m, j)
    decreases |s|
  {
    var x :| x in s;
    if s == {x} {
      IdLeTotal(x, x);
      m := x;
    } else {
      var m' := HasFirst(s - {x});
      IdLeTotal(x, m');
      if IdLe(x, m') {
        forall j | j in s ensures IdLe(x, j) {
          if j == x { IdLeTotal(x, x); } else { IdLeTransitive(x, m', j); }
        }
        m := x;
      } else {
        m := m';
      }
    }
  }

  /** The id the store lists first. */
  function FirstId(s: set<string>): (k: string)
    requires s != {}
    ensures k in s && forall j :: j in s ==> IdLe(k, j)
  {
    FirstExists(s);
    assert forall k, k' | IsFirst(k, s) && IsFirst(k', s) :: k == k' by {
      forall k, k' | IsFirst(k, s) && IsFirst(k', s) ensures k == k' {
        IdLeAntisymmetric(k, k');
      }
    }
    var k :| IsFirst(k, s);
    k
  }

  predicate IsFirst(k: string, s: set<string>) {
    k in s && forall j :: j in s ==> IdLe(k, j)
  }

  lemma FirstExists(s: set<string>)
    requires s != {}
    ensures exists k :: IsFirst(k, s)
  {
    var m := HasFirst(s);
    assert IsFirst(m, s);
  }

  /** Strictly ascending, hence duplicate-free. */
  predicate Ascending(ids: seq<string>) {
    forall i, j :: 0 <= i < j < |ids| ==> IdLt(ids[i], ids[j])
  }

  /** An id below every element of an ascending list may go in front of it. */
  lemma AscendingCons(k: string, rest: seq<string>)
    requires Ascending(rest) && forall i :: 0 <= i < |rest| ==> IdLt(k, rest[i])
    ensures Ascending([k] + rest)
  {
    var r := [k] + rest;
    forall i, j | 0 <= i < j < |r| ensures IdLt(r[i], r[j]) {
      assert r[j] == rest[j - 1];
      if i > 0 {
        assert r[i] == rest[i - 1];
      }
    }
  }

  /** The ids of a collection in listing order: each exactly once, ascending. */
  function SortedIds(s: set<string>): (ids: seq<string>)
    ensures |ids| == |s|
    ensures forall i :: 0 <= i < |ids| ==> ids[i] in s
    ensures forall k :: k in s ==> k in ids
    ensures Ascending(ids)
    decreases |s|
  {
    if s == {} then []
    else
      var k := FirstId(s);
      var rest := SortedIds(s - {k});
      assert forall i :: 0 <= i < |rest| ==> IdLt(k, rest[i]);
      AscendingCons(k, rest);
      [k] + rest
  }
}
