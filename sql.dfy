/** The SQL aggregates the route handlers rely on, written as functions over
    sequences of rows: `SUM`, `COUNT`, `AVG`, `BETWEEN`, `COUNT(DISTINCT …)` and
    `GROUP BY … ORDER BY …`. A table is a sequence of rows in insertion order. */
module Sql {
  import opened Common

  /** `SUM(col)`: NULL over no rows, otherwise the sum of the column. */
  function Sum<R>(rows: seq<R>, col: R -> int): (r: Option<int>)
    ensures r.None? <==> rows == []
    ensures r.Some? ==> r.value == SumBy(rows, col)
  {
    if rows == [] then None else Some(SumBy(rows, col))
  }

  /** `SUM(col) || 0` as JavaScript reads the aggregate row: NULL becomes 0,
      so the value is the plain sum, 0 over no rows. */
  lemma SumOrZero<R>(rows: seq<R>, col: R -> int)
    ensures OrNum(Sum(rows, col), 0) == SumBy(rows, col)
    ensures rows == [] ==> OrNum(Sum(rows, col), 0) == 0
  {
  }

  /** `SUM` over rows with one row appended: never NULL, and the old sum
      (NULL read as 0) plus the new value. */
  lemma SumSnoc<R>(rows: seq<R>, x: R, col: R -> int)
    ensures Sum(rows + [x], col) == Some(OrNum(Sum(rows, col), 0) + col(x))
  {
    SumByAppend(rows, [x], col);
    assert [x][1..] == [];
    SumOrZero(rows, col);
  }

  /** `mean` is `total` shared equally over `count` items. */
  predicate MeanOf(mean: real, count: int, total: int)
  {
    mean * (count as real) == total as real
  }

  /** `AVG(col)`: NULL over no rows, otherwise the arithmetic mean. */
  function Avg<R>(rows: seq<R>, col: R -> int): (r: Option<real>)
    ensures r.None? <==> rows == []
    ensures r.Some? ==> MeanOf(r.value, |rows|, SumBy(rows, col))
  {
    if rows == [] then None else Some(SumBy(rows, col) as real / (|rows| as real))
  }

  /** `x BETWEEN lo AND hi`: inclusive at both ends. */
  predicate Between(x: int, lo: int, hi: int)
  {
    lo <= x <= hi
  }

  /** The row predicate `key = k`. */
  function KeyIs<R>(key: R -> int, k: int): R -> bool
  {
    (r: R) => key(r) == k
  }

  /** The row predicate `key IN ks`. */
  function KeyIn<R>(key: R -> int, ks: seq<int>): R -> bool
  {
    (r: R) => key(r) in ks
  }

  /** Some row carries the key `k`. */
  predicate HasKey<R>(rows: seq<R>, key: R -> int, k: int)
  {
    rows != [] && (key(rows[0]) == k || HasKey(rows[1..], key, k))
  }

  lemma {:induction false} HasKeyAt<R>(rows: seq<R>, key: R -> int, j: int)
    requires 0 <= j < |rows|
    ensures HasKey(rows, key, key(rows[j]))
  {
    if j > 0 {
      HasKeyAt(rows[1..], key, j - 1);
    }
  }

  lemma {:induction false} HasKeyWitness<R>(rows: seq<R>, key: R -> int, k: int) returns (j: int)
    requires HasKey(rows, key, k)
    ensures 0 <= j < |rows| && key(rows[j]) == k
  {
    if key(rows[0]) == k {
      j := 0;
    } else {
      j := HasKeyWitness(rows[1..], key, k);
      j := j + 1;
    }
  }

  /** A key below every key of an ascending list can be put in front. */
  lemma ConsAscending(k: int, ks: seq<int>)
    requires StrictlyAscending(ks)
    requires forall x :: x in ks ==> k < x
    ensures StrictlyAscending([k] + ks)
  {
    var r := [k] + ks;
    forall i, j | 0 <= i < j < |r| ensures r[i] < r[j] {
      assert r[j] == ks[j - 1] && ks[j - 1] in ks;
      if i > 0 {
        assert r[i] == ks[i - 1];
      }
    }
  }

  /** Adds `k` to a strictly ascending list of keys unless it is already there. */
  function InsertKey(ks: seq<int>, k: int): (r: seq<int>)
    requires StrictlyAscending(ks)
    ensures StrictlyAscending(r)
    ensures forall x :: x in r <==> x in ks || x == k
    ensures |r| <= |ks| + 1
  {
    if ks == [] then [k]
    else if k < ks[0] then
      assert forall x :: x in ks ==> k < x;
      ConsAscending(k, ks);
      [k] + ks
    else if k == ks[0] then ks
    else
      var tail := ks[1..];
      assert StrictlyAscending(tail);
      var rest := InsertKey(tail, k);
      assert forall x :: x in rest ==> ks[0] < x;
      ConsAscending(ks[0], rest);
      [ks[0]] + rest
  }

  /** The distinct values of `key` over `rows`, ascending: the groups that
      `GROUP BY key ORDER BY key` forms, and what `COUNT(DISTINCT key)` counts. */
  function DistinctAsc<R>(rows: seq<R>, key: R -> int): (ks: seq<int>)
    ensures StrictlyAscending(ks)
    ensures |ks| <= |rows|
    ensures forall k :: k in ks <==> HasKey(rows, key, k)
  {
    if rows == [] then []
    else InsertKey(DistinctAsc(rows[1..], key), key(rows[0]))
  }

  /** `SELECT DISTINCT key … ORDER BY key DESC`. */
  function DistinctDesc<R>(rows: seq<R>, key: R -> int): (ds: seq<int>)
    ensures StrictlyDescending(ds)
    ensures |ds| == |DistinctAsc(rows, key)|
    ensures forall k :: k in ds <==> HasKey(rows, key, k)
  {
    var ks := DistinctAsc(rows, key);
    ReverseAscending(ks);
    Reverse(ks)
  }

  /** One group of `GROUP BY`: the key and the rows carrying it, in table order. */
  datatype Group<R> = Group(key: int, rows: seq<R>)

  function GroupsOf<R(!new, ==)>(rows: seq<R>, key: R -> int, ks: seq<int>): (gs: seq<Group<R>>)
    ensures |gs| == |ks|
    ensures forall i :: 0 <= i < |ks| ==> gs[i].key == ks[i]
  {
    if ks == [] then [] else [Group(ks[0], Filter(rows, KeyIs(key, ks[0])))] + GroupsOf(rows, key, ks[1..])
  }

  lemma {:induction false} GroupsOfRows<R(!new)>(rows: seq<R>, key: R -> int, ks: seq<int>, i: int)
    requires 0 <= i < |ks|
    ensures GroupsOf(rows, key, ks)[i].rows == Filter(rows, KeyIs(key, ks[i]))
  {
    if i > 0 {
      GroupsOfRows(rows, key, ks[1..], i - 1);
    }
  }

  /** `GROUP BY key ORDER BY key`: one group per distinct key, ascending. */
  function GroupBy<R(!new, ==)>(rows: seq<R>, key: R -> int): (gs: seq<Group<R>>)
  {
    GroupsOf(rows, key, DistinctAsc(rows, key))
  }

  /** The group keys are strictly ascending, and a key has a group iff some row
      carries it: a sparse series, with no group for an absent key. */
  lemma GroupByKeys<R(!new)>(rows: seq<R>, key: R -> int)
    ensures var gs := GroupBy(rows, key);
      && (forall i, j :: 0 <= i < j < |gs| ==> gs[i].key < gs[j].key)
      && (forall i :: 0 <= i < |gs| ==> HasKey(rows, key, gs[i].key))
      && (forall k :: HasKey(rows, key, k) ==> exists i :: 0 <= i < |gs| && gs[i].key == k)
  {
    var ks := DistinctAsc(rows, key);
    var gs := GroupBy(rows, key);
    forall i | 0 <= i < |gs| ensures HasKey(rows, key, gs[i].key) {
      assert ks[i] in ks;
    }
    forall k | HasKey(rows, key, k) ensures exists i :: 0 <= i < |gs| && gs[i].key == k {
      var i :| 0 <= i < |ks| && ks[i] == k;
      assert gs[i].key == k;
    }
  }

  /** No group is empty, and each holds exactly the rows with its key, in table order. */
  lemma GroupByRows<R(!new)>(rows: seq<R>, key: R -> int)
    ensures var gs := GroupBy(rows, key);
      forall i :: 0 <= i < |gs| ==> gs[i].rows != [] && gs[i].rows == Filter(rows, KeyIs(key, gs[i].key))
  {
    var ks := DistinctAsc(rows, key);
    var gs := GroupBy(rows, key);
    forall i | 0 <= i < |gs|
      ensures gs[i].rows != [] && gs[i].rows == Filter(rows, KeyIs(key, gs[i].key))
    {
      GroupsOfRows(rows, key, ks, i);
      assert ks[i] in ks;
      var j := HasKeyWitness(rows, key, ks[i]);
      assert KeyIs(key, ks[i])(rows[j]);
      assert rows[j] in rows;
    }
  }

  /** Reversing ascending groups, each carried by some row, gives descending ones. */
  lemma ReverseGroupKeys<R>(asc: seq<Group<R>>, rows: seq<R>, key: R -> int)
    requires forall i, j :: 0 <= i < j < |asc| ==> asc[i].key < asc[j].key
    requires forall i :: 0 <= i < |asc| ==> HasKey(rows, key, asc[i].key)
    ensures var gs := Reverse(asc);
      && (forall i, j :: 0 <= i < j < |gs| ==> gs[i].key > gs[j].key)
      && (forall i :: 0 <= i < |gs| ==> HasKey(rows, key, gs[i].key))
  {
    var gs := Reverse(asc);
    forall i, j | 0 <= i < j < |gs| ensures gs[i].key > gs[j].key {
      assert gs[i] == asc[|asc| - 1 - i] && gs[j] == asc[|asc| - 1 - j];
    }
    forall i | 0 <= i < |gs| ensures HasKey(rows, key, gs[i].key) {
      assert gs[i] == asc[|asc| - 1 - i];
    }
  }

  /** Reversing keeps a group for every key some row carries. */
  lemma ReverseGroupsComplete<R>(asc: seq<Group<R>>, gs: seq<Group<R>>, rows: seq<R>, key: R -> int)
    requires gs == Reverse(asc)
    requires forall k :: HasKey(rows, key, k) ==> exists i :: 0 <= i < |asc| && asc[i].key == k
    ensures forall k :: HasKey(rows, key, k) ==> exists i :: 0 <= i < |gs| && gs[i].key == k
  {
    forall k | HasKey(rows, key, k) ensures exists i :: 0 <= i < |gs| && gs[i].key == k {
      var j :| 0 <= j < |asc| && asc[j].key == k;
      assert gs[|asc| - 1 - j] == asc[j];
    }
  }

  /** Reversing keeps each group's rows those of its key. */
  lemma ReverseGroupRows<R(!new)>(asc: seq<Group<R>>, rows: seq<R>, key: R -> int)
    requires forall i :: 0 <= i < |asc| ==> asc[i].rows != [] && asc[i].rows == Filter(rows, KeyIs(key, asc[i].key))
    ensures var gs := Reverse(asc);
      forall i :: 0 <= i < |gs| ==> gs[i].rows != [] && gs[i].rows == Filter(rows, KeyIs(key, gs[i].key))
  {
    var gs := Reverse(asc);
    forall i | 0 <= i < |gs| ensures gs[i].rows != [] && gs[i].rows == Filter(rows, KeyIs(key, gs[i].key)) {
      assert gs[i] == asc[|asc| - 1 - i];
    }
  }

  /** `GROUP BY key ORDER BY key DESC`: the same groups, newest key first. */
  function GroupByDesc<R(!new, ==)>(rows: seq<R>, key: R -> int): (gs: seq<Group<R>>)
    ensures |gs| == |DistinctAsc(rows, key)|
    ensures forall i, j :: 0 <= i < j < |gs| ==> gs[i].key > gs[j].key
    ensures forall i :: 0 <= i < |gs| ==> gs[i].rows != [] && gs[i].rows == Filter(rows, KeyIs(key, gs[i].key))
    ensures multiset(gs) == multiset(GroupBy(rows, key))
    ensures forall i :: 0 <= i < |gs| ==> HasKey(rows, key, gs[i].key)
    ensures forall k :: HasKey(rows, key, k) ==> exists i :: 0 <= i < |gs| && gs[i].key == k
  {
    var asc := GroupBy(rows, key);
    GroupByKeys(rows, key);
    GroupByRows(rows, key);
    ReverseGroupKeys(asc, rows, key);
    ReverseGroupRows(asc, rows, key);
    ReverseMultiset(asc);
    var gs := Reverse(asc);
    ReverseGroupsComplete(asc, gs, rows, key);
    gs
  }

  /** The measure `SUM(col)` of one group. */
  function GroupSum<R>(col: R -> int): Group<R> -> int
  {
    (g: Group<R>) => SumBy(g.rows, col)
  }

  /** Splitting the rows whose key is in `[k] + ks` by the first key splits their sum. */
  lemma {:induction false} SumSplitKey<R(!new)>(rows: seq<R>, key: R -> int, k: int, ks: seq<int>, col: R -> int)
    requires k !in ks
    ensures SumBy(Filter(rows, KeyIs(key, k)), col) + SumBy(Filter(rows, KeyIn(key, ks)), col)
         == SumBy(Filter(rows, KeyIn(key, [k] + ks)), col)
  {
    if rows != [] {
      SumSplitKey(rows[1..], key, k, ks, col);
      var r := rows[0];
      if key(r) == k {
        SumByCons(r, Filter(rows[1..], KeyIs(key, k)), col);
        SumByCons(r, Filter(rows[1..], KeyIn(key, [k] + ks)), col);
      } else if key(r) in ks {
        SumByCons(r, Filter(rows[1..], KeyIn(key, ks)), col);
        SumByCons(r, Filter(rows[1..], KeyIn(key, [k] + ks)), col);
      }
    }
  }

  lemma {:induction false} SumOverKeys<R(!new)>(rows: seq<R>, key: R -> int, ks: seq<int>, col: R -> int)
    requires StrictlyAscending(ks)
    ensures SumBy(GroupsOf(rows, key, ks), GroupSum(col)) == SumBy(Filter(rows, KeyIn(key, ks)), col)
  {
    if ks != [] {
      var gs := GroupsOf(rows, key, ks);
      var tail := GroupsOf(rows, key, ks[1..]);
      assert StrictlyAscending(ks[1..]);
      SumOverKeys(rows, key, ks[1..], col);
      assert gs == [gs[0]] + tail;
      GroupsOfRows(rows, key, ks, 0);
      SumByCons(gs[0], tail, GroupSum(col));
      assert ks[0] !in ks[1..];
      SumSplitKey(rows, key, ks[0], ks[1..], col);
      assert [ks[0]] + ks[1..] == ks;
    } else {
      FilterNone(rows, KeyIn(key, ks));
    }
  }

  /** Summing a column group by group gives the sum over the whole table:
      every row lands in exactly one group. */
  lemma SumOverGroups<R(!new)>(rows: seq<R>, key: R -> int, col: R -> int)
    ensures SumBy(GroupBy(rows, key), GroupSum(col)) == SumBy(rows, col)
  {
    var ks := DistinctAsc(rows, key);
    SumOverKeys(rows, key, ks, col);
    forall j | 0 <= j < |rows| ensures KeyIn(key, ks)(rows[j]) {
      HasKeyAt(rows, key, j);
    }
    FilterAll(rows, KeyIn(key, ks));
  }

  /** `AVG` over the per-group sums (`SELECT AVG(s) FROM (SELECT SUM(col) AS s … GROUP BY key)`):
      NULL without rows, otherwise the table's sum spread over the distinct keys. */
  lemma AvgOverGroups<R(!new)>(rows: seq<R>, key: R -> int, col: R -> int)
    ensures var a := Avg(GroupBy(rows, key), GroupSum(col));
      && (a.None? <==> rows == [])
      && (a.Some? ==> MeanOf(a.value, |DistinctAsc(rows, key)|, SumBy(rows, col)))
  {
    SumOverGroups(rows, key, col);
    if rows != [] {
      HasKeyAt(rows, key, 0);
      assert key(rows[0]) in DistinctAsc(rows, key);
    }
  }

  /** The group sizes add up to the number of rows. */
  lemma CountOverGroups<R(!new)>(rows: seq<R>, key: R -> int)
    ensures SumBy(GroupBy(rows, key), (g: Group<R>) => |g.rows|) == |rows|
  {
    var one := (r: R) => 1;
    var gs := GroupBy(rows, key);
    SumOverGroups(rows, key, one);
    SumByOne(rows, one);
    forall i | 0 <= i < |gs| ensures GroupSum(one)(gs[i]) == |gs[i].rows| {
      SumByOne(gs[i].rows, one);
    }
    SumByExt(gs, GroupSum(one), (g: Group<R>) => |g.rows|);
  }
}
