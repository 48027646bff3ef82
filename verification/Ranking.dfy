/**
 The order in which retained candidates compete for space: newest generation
 first, ties broken by connection ID.  SQLite compares TEXT keys byte by byte,
 which for UTF-8 is lexicographic order on code points.
 */
module Ranking {
  import opened Prelude

  type ConnId = string

  /** Strict lexicographic order. */
  predicate LexLess(a: string, b: string) {
    if b == "" then false
    else if a == "" then true
    else if a[0] != b[0] then a[0] < b[0]
    else LexLess(a[1..], b[1..])
  }

  lemma {:induction false} LexTotal(a: string, b: string)
    ensures a == b || LexLess(a, b) || LexLess(b, a)
    ensures !(LexLess(a, b) && LexLess(b, a))
    ensures !LexLess(a, a)
    decreases |a|
  {
    if a != "" {
      LexTotal(a[1..], if b == "" then "" else b[1..]);
      if b != "" && a[0] == b[0] {
        assert a == [a[0]] + a[1..] && b == [b[0]] + b[1..];
      }
    }
  }

  lemma {:induction false} LexTransitive(a: string, b: string, c: string)
    requires LexLess(a, b) && LexLess(b, c)
    ensures LexLess(a, c)
  {
    if a != "" && a[0] == b[0] && b[0] == c[0] {
      LexTransitive(a[1..], b[1..], c[1..]);
    }
  }

  /** `a` sorts after `b` in ascending order, so it is kept in preference to `b`. */
  predicate Outranks(gen: map<ConnId, int>, a: ConnId, b: ConnId)
    requires a in gen && b in gen
  {
    gen[b] < gen[a] || (gen[b] == gen[a] && LexLess(b, a))
  }

  lemma OutranksTotal(gen: map<ConnId, int>, a: ConnId, b: ConnId)
    requires a in gen && b in gen
    ensures a == b || Outranks(gen, a, b) || Outranks(gen, b, a)
    ensures !(Outranks(gen, a, b) && Outranks(gen, b, a))
  {
    LexTotal(a, b);
  }

  lemma OutranksTransitive(gen: map<ConnId, int>, a: ConnId, b: ConnId, c: ConnId)
    requires a in gen && b in gen && c in gen
    requires Outranks(gen, a, b) && Outranks(gen, b, c)
    ensures Outranks(gen, a, c)
  {
    if gen[a] == gen[b] == gen[c] {
      LexTransitive(c, b, a);
    }
  }

  /** `kept` is the best-ranked part of `gen` that fits into `limit` rows. */
  ghost predicate IsTop(gen: map<ConnId, int>, kept: set<ConnId>, limit: nat) {
    && kept <= gen.Keys
    && (|gen| <= limit ==> kept == gen.Keys)
    && (limit < |gen| ==> |kept| == limit)
    && forall k, e :: k in kept && e in gen && e !in kept ==> Outranks(gen, k, e)
  }

  /** A non-empty table has a row outranked by every other row. */
  lemma {:induction false} LowestExists(gen: map<ConnId, int>, rows: set<ConnId>)
    requires rows <= gen.Keys && rows != {}
    ensures exists low :: low in rows && forall k :: k in rows && k != low ==> Outranks(gen, k, low)
    decreases |rows|
  {
    var a :| a in rows;
    var rest := rows - {a};
    if rest == {} {
      assert rows == {a};
    } else {
      LowestExists(gen, rest);
      var low :| low in rest && forall k :: k in rest && k != low ==> Outranks(gen, k, low);
      OutranksTotal(gen, a, low);
      if Outranks(gen, low, a) {
        forall k | k in rows && k != a ensures Outranks(gen, k, a) {
          if k != low { OutranksTransitive(gen, k, low, a); }
        }
      } else {
        assert forall k :: k in rows && k != low ==> k == a || k in rest;
      }
    }
  }

  /** The row that every other row outranks. */
  ghost function Lowest(gen: map<ConnId, int>, rows: set<ConnId>): (low: ConnId)
    requires rows <= gen.Keys && rows != {}
    ensures low in rows
  {
    LowestExists(gen, rows);
    var low :| low in rows && forall k :: k in rows && k != low ==> Outranks(gen, k, low);
    low
  }

  /** Drops the lowest row until `limit` rows are left. */
  ghost function Top(gen: map<ConnId, int>, rows: set<ConnId>, limit: nat): (kept: set<ConnId>)
    requires rows <= gen.Keys
    ensures kept <= rows
    decreases |rows|
  {
    if |rows| <= limit then rows else Top(gen, rows - {Lowest(gen, rows)}, limit)
  }

  lemma {:induction false} TopIsTop(gen: map<ConnId, int>, rows: set<ConnId>, limit: nat)
    requires rows <= gen.Keys
    ensures var kept := Top(gen, rows, limit);
            && (if |rows| <= limit then kept == rows else |kept| == limit)
            && forall k, e :: k in kept && e in rows && e !in kept ==> Outranks(gen, k, e)
    decreases |rows|
  {
    if limit < |rows| {
      LowestExists(gen, rows);
      var low := Lowest(gen, rows);
      assert forall k :: k in rows && k != low ==> Outranks(gen, k, low);
      TopIsTop(gen, rows - {low}, limit);
    }
  }

  /** Ranking is strict, so the retained set is uniquely determined. */
  lemma TopUnique(gen: map<ConnId, int>, a: set<ConnId>, b: set<ConnId>, limit: nat)
    requires IsTop(gen, a, limit) && IsTop(gen, b, limit)
    ensures a == b
  {
    if limit < |gen| && a != b {
      if a <= b {
        SubsetOfSameSize(a, b);
      } else if b <= a {
        SubsetOfSameSize(b, a);
      } else {
        var x :| x in a && x !in b;
        var y :| y in b && y !in a;
        assert Outranks(gen, x, y) && Outranks(gen, y, x);
        OutranksTotal(gen, x, y);
      }
    }
  }

  lemma SubsetOfSameSize<T>(a: set<T>, b: set<T>)
    requires a <= b && |a| == |b|
    ensures a == b
  {
    assert |b - a| == |b| - |a|;
  }
}
