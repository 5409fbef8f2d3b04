/** pandas' `groupby(key).sum()` over (key, value) rows: one entry per
    distinct key, holding the sum of that key's values. */
module Grouping {

  /** The keys that occur in `rows`. */
  function KeysOf<K>(rows: seq<(K, int)>): set<K> {
    set i | 0 <= i < |rows| :: rows[i].0
  }

  /** The keys of `rows`, in order and with repeats. */
  function KeySeq<K(==,!new)>(rows: seq<(K, int)>): (ks: seq<K>)
    ensures |ks| == |rows|
    ensures forall i :: 0 <= i < |rows| ==> ks[i] == rows[i].0
    ensures forall k :: k in ks <==> k in KeysOf(rows)
  {
    var ks := seq(|rows|, i requires 0 <= i < |rows| => rows[i].0);
    assert forall k :: k in KeysOf(rows) ==> k in ks by {
      forall k | k in KeysOf(rows) ensures k in ks {
        var i :| 0 <= i < |rows| && rows[i].0 == k;
        assert ks[i] == k;
      }
    }
    ks
  }

  /** The sum of the values of the rows whose key is `k` (0 when none is). */
  function SumFor<K(==)>(rows: seq<(K, int)>, k: K): int {
    if rows == [] then 0
    else (if rows[0].0 == k then rows[0].1 else 0) + SumFor(rows[1..], k)
  }

  lemma {:induction false} SumForAppend<K>(rows: seq<(K, int)>, row: (K, int), k: K)
    ensures SumFor(rows + [row], k) == SumFor(rows, k) + (if row.0 == k then row.1 else 0)
  {
    if rows != [] {
      assert (rows + [row])[1..] == rows[1..] + [row];
      SumForAppend(rows[1..], row, k);
    }
  }

  /** A key no row carries sums to zero: the fill value of a left join. */
  lemma {:induction false} SumForAbsent<K>(rows: seq<(K, int)>, k: K)
    requires k !in KeysOf(rows)
    ensures SumFor(rows, k) == 0
  {
    if rows != [] {
      assert KeysOf(rows[1..]) <= KeysOf(rows) by {
        forall x | x in KeysOf(rows[1..]) ensures x in KeysOf(rows) {
          var i :| 0 <= i < |rows[1..]| && rows[1..][i].0 == x;
          assert rows[i + 1].0 == x;
        }
      }
      SumForAbsent(rows[1..], k);
    }
  }

  lemma {:induction false} SumForNonNegative<K>(rows: seq<(K, int)>, k: K)
    requires forall i :: 0 <= i < |rows| ==> rows[i].1 >= 0
    ensures SumFor(rows, k) >= 0
  {
    if rows != [] {
      SumForNonNegative(rows[1..], k);
    }
  }

  /** The grouped sums, accumulated row by row in input order. */
  function GroupSum<K(==)>(rows: seq<(K, int)>): (m: map<K, int>)
    ensures m.Keys == KeysOf(rows)
    ensures forall k :: k in m ==> m[k] == SumFor(rows, k)
  {
    if rows == [] then map[]
    else
      var init := rows[..|rows| - 1];
      var last := rows[|rows| - 1];
      var m := GroupSum(init);
      assert rows == init + [last];
      assert KeysOf(rows) == KeysOf(init) + {last.0} by {
        forall x | x in KeysOf(rows) ensures x in KeysOf(init) + {last.0} {
          var i :| 0 <= i < |rows| && rows[i].0 == x;
          if i < |init| { assert init[i].0 == x; }
        }
        forall x | x in KeysOf(init) ensures x in KeysOf(rows) {
          var i :| 0 <= i < |init| && init[i].0 == x;
          assert rows[i].0 == x;
        }
      }
      forall k ensures SumFor(rows, k) == SumFor(init, k) + (if last.0 == k then last.1 else 0) {
        SumForAppend(init, last, k);
      }
      if last.0 !in m then SumForAbsent(init, last.0); m[last.0 := last.1]
      else m[last.0 := m[last.0] + last.1]
  }
}
