/**
 * The query primitives of the hosted database, at their documented PostgREST meaning.
 * A query chain `q = q.gte(c, v)` becomes one more `Op` in a list; a row is returned
 * when every `Op` holds of it. A NULL column fails every comparison, as in SQL.
 */
module Postgrest {
  import opened Seqs
  import opened Strings

  /** A column value of one row. */
  datatype Value = Null | Str(s: string) | Num(n: real)

  datatype Op<C> =
    | Eq(col: C, text: string)                 // .eq(col, text)
    | Gte(col: C, bound: real)                 // .gte(col, bound)
    | Lte(col: C, bound: real)                 // .lte(col, bound)
    | In(col: C, texts: seq<string>)           // .in(col, texts)
    | NotIn(col: C, texts: seq<string>)        // .not(col, "in", "(...)")
    | AnyILike(cols: seq<C>, needle: string)   // .or("c1.ilike.%k%,c2.ilike.%k%,...")

  predicate Holds<C>(cell: C -> Value, op: Op<C>) {
    match op
    case Eq(c, t) => cell(c) == Str(t)
    case Gte(c, b) => cell(c).Num? && cell(c).n >= b
    case Lte(c, b) => cell(c).Num? && cell(c).n <= b
    case In(c, ts) => cell(c).Str? && cell(c).s in ts
    case NotIn(c, ts) => cell(c).Str? && cell(c).s !in ts
    case AnyILike(cs, k) => exists i :: 0 <= i < |cs| && ILike(cell(cs[i]), k)
  }

  /** `col.ilike.%k%` on one value: NULL never matches. */
  predicate ILike(v: Value, k: string) {
    v.Str? && ContainsCI(v.s, k)
  }

  /** The conjunction of a query chain. */
  predicate HoldsAll<C>(cell: C -> Value, q: seq<Op<C>>) {
    forall i :: 0 <= i < |q| ==> Holds(cell, q[i])
  }

  /** `if (cond) q = q.op(...)`: one conditional step of a query chain. */
  function Where<C>(q: seq<Op<C>>, cond: bool, op: Op<C>): seq<Op<C>> {
    if cond then q + [op] else q
  }

  /** A conditional step adds its operation to the conjunction exactly when its condition holds. */
  lemma WhereHolds<C>(cell: C -> Value, q: seq<Op<C>>, cond: bool, op: Op<C>)
    ensures HoldsAll(cell, Where(q, cond, op)) <==> HoldsAll(cell, q) && (cond ==> Holds(cell, op))
  {
    if cond {
      var r := q + [op];
      assert r[|q|] == op;
      assert forall i :: 0 <= i < |q| ==> r[i] == q[i];
    }
  }

  /** PostgreSQL's default order on one column: NULL sorts after every value. */
  predicate ValueLe(a: Value, b: Value) {
    match (a, b)
    case (_, Null) => true
    case (Null, _) => false
    case (Num(x), Num(y)) => x <= y
    case (Str(x), Str(y)) => StrLe(x, y)
    case (Num(_), Str(_)) => true
    case (Str(_), Num(_)) => false
  }

  /** `a` may precede `b` under `.order(col, { ascending })`. */
  predicate InOrder(a: Value, b: Value, ascending: bool) {
    if ascending then ValueLe(a, b) else ValueLe(b, a)
  }

  ghost predicate SortedBy<T>(s: seq<T>, key: T -> Value, ascending: bool) {
    forall i, j :: 0 <= i < j < |s| ==> InOrder(key(s[i]), key(s[j]), ascending)
  }

  /**
   * `ordered` is an order the database may return `rows` in for `.order(key, { ascending })`:
   * a permutation sorted by the key. Rows with equal keys may come in any order.
   */
  ghost predicate IsOrdering<T>(ordered: seq<T>, rows: seq<T>, key: T -> Value, ascending: bool) {
    multiset(ordered) == multiset(rows) && SortedBy(ordered, key, ascending)
  }

  lemma OrderingMembers<T>(ordered: seq<T>, rows: seq<T>, key: T -> Value, ascending: bool)
    requires IsOrdering(ordered, rows, key, ascending)
    ensures |ordered| == |rows|
    ensures forall x :: x in ordered <==> x in rows
  {
    assert |ordered| == |multiset(ordered)| == |multiset(rows)| == |rows|;
    forall x ensures x in ordered <==> x in rows {
      assert x in ordered <==> x in multiset(ordered);
      assert x in rows <==> x in multiset(rows);
    }
  }

  lemma ValueLeAntisymmetric(a: Value, b: Value)
    requires ValueLe(a, b) && ValueLe(b, a)
    ensures a == b
  {
    if a.Str? && b.Str? { StrLeAntisymmetric(a.s, b.s); }
  }

  /**
   * When the sort key tells rows apart (a primary key), the database has only one way to
   * order them: two responses to the same query are identical.
   */
  lemma {:induction false} OrderingUnique<T>(a: seq<T>, b: seq<T>, rows: seq<T>, key: T -> Value, ascending: bool)
    requires IsOrdering(a, rows, key, ascending) && IsOrdering(b, rows, key, ascending)
    requires forall x, y :: x in rows && y in rows && key(x) == key(y) ==> x == y
    ensures a == b
    decreases |a|
  {
    OrderingMembers(a, rows, key, ascending);
    OrderingMembers(b, rows, key, ascending);
    if a != [] {
      HeadsAgree(a, b, rows, key, ascending);
      TailIsOrdering(a, a, key, ascending);
      TailIsOrdering(b, a, key, ascending);
      forall x, y | x in a[1..] && y in a[1..] && key(x) == key(y) ensures x == y {
        assert x in a && y in a;
      }
      OrderingUnique(a[1..], b[1..], a[1..], key, ascending);
      assert a == [a[0]] + a[1..] && b == [b[0]] + b[1..];
    }
  }

  lemma HeadsAgree<T>(a: seq<T>, b: seq<T>, rows: seq<T>, key: T -> Value, ascending: bool)
    requires IsOrdering(a, rows, key, ascending) && IsOrdering(b, rows, key, ascending) && a != []
    requires forall x, y :: x in rows && y in rows && key(x) == key(y) ==> x == y
    ensures b != [] && a[0] == b[0]
  {
    OrderingMembers(a, rows, key, ascending);
    OrderingMembers(b, rows, key, ascending);
    assert a[0] in b;
    var j :| 0 <= j < |b| && b[j] == a[0];
    assert b[0] in a;
    var i :| 0 <= i < |a| && a[i] == b[0];
    if a[0] != b[0] {
      assert i > 0 && j > 0;
      assert InOrder(key(b[0]), key(b[j]), ascending);
      assert InOrder(key(a[0]), key(a[i]), ascending);
      ValueLeAntisymmetric(key(a[0]), key(b[0]));
    }
  }

  /** Dropping the first row of an ordering of `rows` orders the rest of `rows`. */
  lemma TailIsOrdering<T>(s: seq<T>, rows: seq<T>, key: T -> Value, ascending: bool)
    requires IsOrdering(s, rows, key, ascending) && s != [] && rows != [] && s[0] == rows[0]
    ensures IsOrdering(s[1..], rows[1..], key, ascending)
  {
    assert s == [s[0]] + s[1..] && rows == [rows[0]] + rows[1..];
    assert multiset(s[1..]) == multiset(s) - multiset{s[0]};
    assert multiset(rows[1..]) == multiset(rows) - multiset{rows[0]};
    forall i, j | 0 <= i < j < |s| - 1 ensures InOrder(key(s[1..][i]), key(s[1..][j]), ascending) {
      assert s[1..][i] == s[i + 1] && s[1..][j] == s[j + 1];
    }
  }

  /** `.range(from, to)`: skip `from` rows and return at most `to - from + 1` of the rest. */
  function Window<T>(rows: seq<T>, from: int, to: int): (w: seq<T>)
    requires 0 <= from <= to + 1
    ensures |w| <= to - from + 1
    ensures |w| == Max(0, Min(to + 1, |rows|) - from)
    ensures forall k :: 0 <= k < |w| ==> w[k] == rows[from + k]
  {
    if from >= |rows| then [] else rows[from..Min(to + 1, |rows|)]
  }

  /** `Math.ceil(a / b)` for a count `a` and a positive page size `b`: the fewest pages of `b` rows that hold `a` rows. */
  function CeilDiv(a: nat, b: int): (r: nat)
    requires b > 0
    ensures r * b >= a
    ensures r == 0 || (r - 1) * b < a
  {
    var q := (a + b - 1) / b;
    assert a + b - 1 == b * q + (a + b - 1) % b;
    q
  }
}
