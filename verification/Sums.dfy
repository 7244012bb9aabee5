/** Sums of a real-valued term over the rows of a table. The order in which rows are visited is
    arbitrary; `SumRemove` shows that it does not matter. */
module Sums {

  ghost function Sum<V>(table: map<string, V>, term: (string, V) -> real): real
    decreases |table|
  {
    if table == map[] then 0.0
    else
      var k :| k in table;
      term(k, table[k]) + Sum(table - {k}, term)
  }

  lemma {:induction false} SumRemove<V>(table: map<string, V>, term: (string, V) -> real, k: string)
    requires k in table
    ensures Sum(table, term) == term(k, table[k]) + Sum(table - {k}, term)
    decreases |table|
  {
    var first :| first in table && Sum(table, term) == term(first, table[first]) + Sum(table - {first}, term);
    if first != k {
      var rest := table - {first};
      SumRemove(rest, term, k);
      SumRemove(table - {k}, term, first);
      assert rest - {k} == table - {k} - {first};
    }
  }

  /** Writing one row moves the sum by the difference of that row's terms. */
  lemma SumUpdate<V>(table: map<string, V>, term: (string, V) -> real, k: string, v: V)
    ensures Sum(table[k := v], term)
         == Sum(table, term) + term(k, v) - (if k in table then term(k, table[k]) else 0.0)
  {
    var table' := table[k := v];
    SumRemove(table', term, k);
    assert table' - {k} == table - {k};
    if k in table {
      SumRemove(table, term, k);
    } else {
      assert table - {k} == table;
    }
  }

  lemma {:induction false} SumAtMost<V>(table: map<string, V>, low: (string, V) -> real, high: (string, V) -> real)
    requires forall k :: k in table ==> low(k, table[k]) <= high(k, table[k])
    ensures Sum(table, low) <= Sum(table, high)
    decreases |table|
  {
    if table != map[] {
      var k :| k in table;
      SumRemove(table, low, k);
      SumRemove(table, high, k);
      SumAtMost(table - {k}, low, high);
    }
  }

  lemma SumCongruent<V>(table: map<string, V>, f: (string, V) -> real, g: (string, V) -> real)
    requires forall k :: k in table ==> f(k, table[k]) == g(k, table[k])
    ensures Sum(table, f) == Sum(table, g)
  {
    SumAtMost(table, f, g);
    SumAtMost(table, g, f);
  }

  lemma {:induction false} SumSplit<V>(table: map<string, V>, whole: (string, V) -> real,
                                       left: (string, V) -> real, right: (string, V) -> real)
    requires forall k :: k in table ==> whole(k, table[k]) == left(k, table[k]) + right(k, table[k])
    ensures Sum(table, whole) == Sum(table, left) + Sum(table, right)
    decreases |table|
  {
    if table != map[] {
      var k :| k in table;
      SumRemove(table, whole, k);
      SumRemove(table, left, k);
      SumRemove(table, right, k);
      SumSplit(table - {k}, whole, left, right);
    }
  }

  lemma {:induction false} SumNonNegative<V>(table: map<string, V>, term: (string, V) -> real)
    requires forall k :: k in table ==> term(k, table[k]) >= 0.0
    ensures Sum(table, term) >= 0.0
    decreases |table|
  {
    if table != map[] {
      var k :| k in table;
      SumRemove(table, term, k);
      SumNonNegative(table - {k}, term);
    }
  }
}
