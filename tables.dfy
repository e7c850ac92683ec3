/** The pandas table operations the detectors are built from: boolean-mask
    filtering, `groupby(...).agg({'monto': 'sum', ...: 'count'})`,
    `sort_values(..., ascending=False)` and `head(n)`.  Group keys are listed
    in order of first appearance. */
module Tables {
  import opened Common

  // ---------------------------------------------------------------------
  // Filtering

  function Filter<T(!new)>(s: seq<T>, p: T -> bool): (r: seq<T>)
    ensures |r| <= |s|
    ensures forall x :: x in r <==> x in s && p(x)
    ensures forall i :: 0 <= i < |r| ==> p(r[i])
  {
    if s == [] then [] else (if p(s[0]) then [s[0]] else []) + Filter(s[1..], p)
  }

  lemma {:induction false} FilterConcat<T(!new)>(a: seq<T>, b: seq<T>, p: T -> bool)
    ensures Filter(a + b, p) == Filter(a, p) + Filter(b, p)
  {
    if a == [] {
      assert a + b == b;
    } else {
      assert (a + b)[0] == a[0];
      assert (a + b)[1..] == a[1..] + b;
      FilterConcat(a[1..], b, p);
    }
  }

  lemma {:induction false} FilterKeepsAll<T(!new)>(s: seq<T>, p: T -> bool)
    requires forall x :: x in s ==> p(x)
    ensures Filter(s, p) == s
  {
    if s != [] {
      FilterKeepsAll(s[1..], p);
      assert s == [s[0]] + s[1..];
    }
  }

  lemma {:induction false} FilterNone<T(!new)>(s: seq<T>, p: T -> bool)
    requires forall x :: x in s ==> !p(x)
    ensures Filter(s, p) == []
  {
    if s != [] {
      assert s[0] in s;
      FilterNone(s[1..], p);
    }
  }

  /** Filtering keeps, for every value, all of its copies that pass the mask. */
  lemma {:induction false} FilterMultiset<T(!new)>(s: seq<T>, p: T -> bool, x: T)
    ensures multiset(Filter(s, p))[x] == if p(x) then multiset(s)[x] else 0
  {
    if s != [] {
      FilterMultiset(s[1..], p, x);
      assert s == [s[0]] + s[1..];
    }
  }

  /** `df[df[col] == value]`: the rows whose column `field` holds `value`,
      in table order, each kept as many times as it occurs. */
  function Where(rows: seq<Txn>, field: Txn -> string, value: string): (r: seq<Txn>)
    ensures forall t :: t in r <==> t in rows && field(t) == value
    ensures forall t :: multiset(r)[t] == if field(t) == value then multiset(rows)[t] else 0
  {
    var p := Holds(field, value);
    assert forall t :: multiset(Filter(rows, p))[t] == if p(t) then multiset(rows)[t] else 0 by {
      forall t ensures multiset(Filter(rows, p))[t] == if p(t) then multiset(rows)[t] else 0 {
        FilterMultiset(rows, p, t);
      }
    }
    Filter(rows, p)
  }

  /** The mask `df[col] == value`. */
  function Holds(field: Txn -> string, value: string): Txn -> bool
  {
    (t: Txn) => field(t) == value
  }

  /** Two masks that agree on every element select the same rows. */
  lemma {:induction false} FilterSame<T(!new)>(s: seq<T>, p: T -> bool, q: T -> bool)
    requires forall x :: x in s ==> p(x) == q(x)
    ensures Filter(s, p) == Filter(s, q)
  {
    if s != [] {
      assert s[0] in s;
      FilterSame(s[1..], p, q);
    }
  }

  /** Filtering a permutation gives a permutation of the filtered sequence. */
  lemma FilterPermutation<T(!new)>(s: seq<T>, t: seq<T>, p: T -> bool)
    requires multiset(s) == multiset(t)
    ensures multiset(Filter(s, p)) == multiset(Filter(t, p))
    ensures |Filter(s, p)| == |Filter(t, p)|
  {
    forall x ensures multiset(Filter(s, p))[x] == multiset(Filter(t, p))[x] {
      FilterMultiset(s, p, x);
      FilterMultiset(t, p, x);
    }
    assert multiset(Filter(s, p)) == multiset(Filter(t, p));
    assert |multiset(Filter(s, p))| == |multiset(Filter(t, p))|;
  }

  /** The client column as a group key. */
  function ClientKey(): Txn -> Option<string>
  {
    (t: Txn) => Some(t.client)
  }

  // ---------------------------------------------------------------------
  // Distinct values, in order of first appearance

  predicate NoDuplicates<T(==,!new)>(s: seq<T>)
  {
    forall i, j :: 0 <= i < j < |s| ==> s[i] != s[j]
  }

  function Distinct<T(==,!new)>(s: seq<T>): (r: seq<T>)
    ensures NoDuplicates(r)
    ensures forall x :: x in r <==> x in s
    ensures |r| <= |s|
  {
    if s == [] then []
    else
      var d := Distinct(s[..|s| - 1]);
      assert forall x :: x in s <==> x in s[..|s| - 1] || x == s[|s| - 1];
      if s[|s| - 1] in d then d else d + [s[|s| - 1]]
  }

  /** The keys a key column takes in `rows`, null keys dropped as `groupby` does. */
  function KeyColumn<K(!new)>(rows: seq<Txn>, key: Txn -> Option<K>): (r: seq<K>)
    ensures forall k :: k in r <==> exists t :: t in rows && key(t) == Some(k)
  {
    if rows == [] then []
    else
      var rest := KeyColumn(rows[1..], key);
      assert forall t :: t in rows <==> t == rows[0] || t in rows[1..];
      match key(rows[0])
      case None => rest
      case Some(k) => [k] + rest
  }

  function GroupKeys<K(==,!new)>(rows: seq<Txn>, key: Txn -> Option<K>): (r: seq<K>)
    ensures NoDuplicates(r)
    ensures forall k :: k in r <==> exists t :: t in rows && key(t) == Some(k)
  {
    Distinct(KeyColumn(rows, key))
  }

  // ---------------------------------------------------------------------
  // Per-group sums and counts

  /** Sum of `monto` over the rows whose key is `k`. */
  function SumWhere<K(==,!new)>(rows: seq<Txn>, key: Txn -> Option<K>, k: K): (r: real)
    ensures 0.0 <= r
  {
    if rows == [] then 0.0
    else (if key(rows[0]) == Some(k) then rows[0].amount else 0.0) + SumWhere(rows[1..], key, k)
  }

  /** Number of rows whose key is `k`. */
  function CountWhere<K(==,!new)>(rows: seq<Txn>, key: Txn -> Option<K>, k: K): (r: nat)
  {
    if rows == [] then 0
    else (if key(rows[0]) == Some(k) then 1 else 0) + CountWhere(rows[1..], key, k)
  }

  lemma {:induction false} CountWherePositive<K(!new)>(rows: seq<Txn>, key: Txn -> Option<K>, k: K)
    ensures CountWhere(rows, key, k) > 0 <==> exists t :: t in rows && key(t) == Some(k)
  {
    if rows != [] {
      CountWherePositive(rows[1..], key, k);
      assert forall t :: t in rows <==> t == rows[0] || t in rows[1..];
    }
  }

  lemma {:induction false} SumWhereAbsent<K(!new)>(rows: seq<Txn>, key: Txn -> Option<K>, k: K)
    requires forall t :: t in rows ==> key(t) != Some(k)
    ensures SumWhere(rows, key, k) == 0.0
  {
    if rows != [] {
      SumWhereAbsent(rows[1..], key, k);
    }
  }

  /** One row of a `groupby(key).agg({'monto': 'sum', 'id_transaccion': 'count'})`. */
  datatype Group<K> = Group(key: K, total: real, count: nat)

  function GroupTable<K(==,!new)>(rows: seq<Txn>, key: Txn -> Option<K>): (r: seq<Group<K>>)
    ensures |r| == |GroupKeys(rows, key)|
  {
    var ks := GroupKeys(rows, key);
    seq(|ks|, i requires 0 <= i < |ks| => Group(ks[i], SumWhere(rows, key, ks[i]), CountWhere(rows, key, ks[i])))
  }

  /** The group table has one row per non-null key, each carrying that key's
      sum and count, and no key twice. */
  lemma GroupTableSpec<K(!new)>(rows: seq<Txn>, key: Txn -> Option<K>)
    ensures forall i, j :: 0 <= i < j < |GroupTable(rows, key)| ==>
      GroupTable(rows, key)[i].key != GroupTable(rows, key)[j].key
    ensures forall k :: ((exists i :: 0 <= i < |GroupTable(rows, key)| && GroupTable(rows, key)[i].key == k)
      <==> (exists t :: t in rows && key(t) == Some(k)))
    ensures forall g :: g in GroupTable(rows, key) ==>
      g.total == SumWhere(rows, key, g.key) && g.count == CountWhere(rows, key, g.key) && g.count > 0
  {
    var ks := GroupKeys(rows, key);
    var t := GroupTable(rows, key);
    forall k ensures (exists i :: 0 <= i < |t| && t[i].key == k) <==> k in ks {
      if k in ks {
        var i :| 0 <= i < |ks| && ks[i] == k;
        assert t[i].key == k;
      }
    }
    forall g | g in t
      ensures g.total == SumWhere(rows, key, g.key) && g.count == CountWhere(rows, key, g.key) && g.count > 0
    {
      var i :| 0 <= i < |t| && t[i] == g;
      CountWherePositive(rows, key, ks[i]);
    }
  }

  // ---------------------------------------------------------------------
  // Conservation: the group sums add up to the amount of the keyed rows

  /** Sum of `monto` over the rows whose key is not null. */
  function KeyedTotal<K(!new)>(rows: seq<Txn>, key: Txn -> Option<K>): real
  {
    if rows == [] then 0.0
    else (if key(rows[0]).Some? then rows[0].amount else 0.0) + KeyedTotal(rows[1..], key)
  }

  function GroupTotals<K(!new)>(table: seq<Group<K>>): real
  {
    if table == [] then 0.0 else table[0].total + GroupTotals(table[1..])
  }

  function SumOverKeys<K(==,!new)>(ks: seq<K>, rows: seq<Txn>, key: Txn -> Option<K>): real
  {
    if ks == [] then 0.0 else SumWhere(rows, key, ks[0]) + SumOverKeys(ks[1..], rows, key)
  }

  function Indicator<K(==,!new)>(ks: seq<K>, k: Option<K>, a: real): real
  {
    if ks == [] then 0.0 else (if k == Some(ks[0]) then a else 0.0) + Indicator(ks[1..], k, a)
  }

  lemma {:induction false} IndicatorDistinct<K(!new)>(ks: seq<K>, k: Option<K>, a: real)
    requires NoDuplicates(ks)
    ensures Indicator(ks, k, a) == if k.Some? && k.value in ks then a else 0.0
  {
    if ks != [] {
      IndicatorDistinct(ks[1..], k, a);
      if k == Some(ks[0]) {
        assert k.value !in ks[1..] by {
          forall j | 1 <= j < |ks| ensures ks[j] != ks[0] { }
        }
      }
    }
  }

  lemma {:induction false} SumOverKeysStep<K(!new)>(ks: seq<K>, rows: seq<Txn>, key: Txn -> Option<K>)
    requires rows != []
    ensures SumOverKeys(ks, rows, key)
      == Indicator(ks, key(rows[0]), rows[0].amount) + SumOverKeys(ks, rows[1..], key)
  {
    if ks != [] {
      SumOverKeysStep(ks[1..], rows, key);
    }
  }

  lemma {:induction false} SumOverKeysNoRows<K(!new)>(ks: seq<K>, key: Txn -> Option<K>)
    ensures SumOverKeys(ks, [], key) == 0.0
  {
    if ks != [] {
      SumOverKeysNoRows(ks[1..], key);
    }
  }

  lemma {:induction false} SumOverCovering<K(!new)>(ks: seq<K>, rows: seq<Txn>, key: Txn -> Option<K>)
    requires NoDuplicates(ks)
    requires forall t :: t in rows && key(t).Some? ==> key(t).value in ks
    ensures SumOverKeys(ks, rows, key) == KeyedTotal(rows, key)
  {
    if rows == [] {
      SumOverKeysNoRows(ks, key);
    } else {
      SumOverKeysStep(ks, rows, key);
      IndicatorDistinct(ks, key(rows[0]), rows[0].amount);
      SumOverCovering(ks, rows[1..], key);
    }
  }

  lemma {:induction false} GroupTotalsIsSumOverKeys<K(!new)>(table: seq<Group<K>>, ks: seq<K>, rows: seq<Txn>, key: Txn -> Option<K>)
    requires |table| == |ks|
    requires forall i :: 0 <= i < |ks| ==> table[i].key == ks[i] && table[i].total == SumWhere(rows, key, ks[i])
    ensures GroupTotals(table) == SumOverKeys(ks, rows, key)
  {
    if ks != [] {
      GroupTotalsIsSumOverKeys(table[1..], ks[1..], rows, key);
    }
  }

  /** Conservation law: summing `Monto Total` over all groups gives the total
      amount of the rows that have a (non-null) key. */
  lemma GroupTableConserves<K(!new)>(rows: seq<Txn>, key: Txn -> Option<K>)
    ensures GroupTotals(GroupTable(rows, key)) == KeyedTotal(rows, key)
  {
    var ks := GroupKeys(rows, key);
    GroupTotalsIsSumOverKeys(GroupTable(rows, key), ks, rows, key);
    SumOverCovering(ks, rows, key);
  }

  // ---------------------------------------------------------------------
  // Descending sort and head(n)

  predicate SortedDesc<T(!new)>(s: seq<T>, f: T -> real)
  {
    forall i, j :: 0 <= i < j < |s| ==> f(s[i]) >= f(s[j])
  }

  /** Inserts `x` in front of the first element that does not rank above it. */
  function InsertDesc<T(!new)>(x: T, s: seq<T>, f: T -> real): (r: seq<T>)
    ensures |r| == |s| + 1
    ensures multiset(r) == multiset(s) + multiset{x}
  {
    if s == [] then [x]
    else if f(s[0]) > f(x) then
      assert s == [s[0]] + s[1..];
      [s[0]] + InsertDesc(x, s[1..], f)
    else [x] + s
  }

  /** In a descending sequence no element ranks above the first. */
  lemma HeadDominates<T(!new)>(s: seq<T>, f: T -> real)
    requires s != [] && SortedDesc(s, f)
    ensures forall y :: y in s ==> f(y) <= f(s[0])
  {
    forall y | y in s ensures f(y) <= f(s[0]) {
      var j :| 0 <= j < |s| && s[j] == y;
      if j > 0 {
        assert f(s[0]) >= f(s[j]);
      }
    }
  }

  lemma {:induction false} InsertDescSorted<T(!new)>(x: T, s: seq<T>, f: T -> real)
    requires SortedDesc(s, f)
    ensures SortedDesc(InsertDesc(x, s, f), f)
  {
    if s == [] {
    } else if f(s[0]) > f(x) {
      var rest := InsertDesc(x, s[1..], f);
      SortedTail(s, f);
      HeadDominates(s, f);
      InsertDescSorted(x, s[1..], f);
      forall y | y in rest ensures f(y) <= f(s[0]) {
        assert y in multiset(rest);
        assert y in multiset(s[1..]) || y == x;
        if y != x {
          assert y in s;
        }
      }
      SortedCons(s[0], rest, f);
    } else {
      HeadDominates(s, f);
      SortedCons(x, s, f);
    }
  }

  /** `sort_values(key, ascending=False)`. */
  function SortDesc<T(!new)>(s: seq<T>, f: T -> real): (r: seq<T>)
    ensures |r| == |s|
    ensures multiset(r) == multiset(s)
    ensures SortedDesc(r, f)
  {
    if s == [] then []
    else
      assert s == [s[0]] + s[1..];
      InsertDescSorted(s[0], SortDesc(s[1..], f), f);
      InsertDesc(s[0], SortDesc(s[1..], f), f)
  }

  /** `head(n)`. */
  function Take<T(!new)>(s: seq<T>, n: nat): (r: seq<T>)
    ensures |r| == if |s| < n then |s| else n
    ensures r <= s
  {
    if |s| <= n then s else s[..n]
  }

  /** The top-n view of a table: at most n rows, ranked, drawn from the table,
      and no row left out ranks above a row kept. */
  lemma TopSpec<T(!new)>(s: seq<T>, f: T -> real, n: nat)
    ensures |Take(SortDesc(s, f), n)| == if |s| < n then |s| else n
    ensures SortedDesc(Take(SortDesc(s, f), n), f)
    ensures forall x :: x in Take(SortDesc(s, f), n) ==> x in s
    ensures forall x, y :: x in s && x !in Take(SortDesc(s, f), n) && y in Take(SortDesc(s, f), n) ==> f(x) <= f(y)
  {
    var sorted := SortDesc(s, f);
    var top := Take(sorted, n);
    forall x | x in top ensures x in s {
      assert x in multiset(sorted);
    }
    TakeRanked(sorted, f, n);
    forall x, y | x in s && x !in top && y in top ensures f(x) <= f(y) {
      assert x in multiset(sorted);
    }
  }

  /** A ranked table stays ranked under any mask. */
  lemma {:induction false} FilterSorted<T(!new)>(s: seq<T>, p: T -> bool, f: T -> real)
    requires SortedDesc(s, f)
    ensures SortedDesc(Filter(s, p), f)
  {
    if s != [] {
      var rest := Filter(s[1..], p);
      SortedTail(s, f);
      FilterSorted(s[1..], p, f);
      if p(s[0]) {
        forall y | y in rest ensures f(y) <= f(s[0]) {
          var k :| 0 <= k < |s[1..]| && s[1..][k] == y;
          assert s[k + 1] == y;
        }
        SortedCons(s[0], rest, f);
      } else {
        assert Filter(s, p) == rest;
      }
    }
  }

  lemma SortedTail<T(!new)>(s: seq<T>, f: T -> real)
    requires s != [] && SortedDesc(s, f)
    ensures SortedDesc(s[1..], f)
  {
    forall i, j | 0 <= i < j < |s[1..]| ensures f(s[1..][i]) >= f(s[1..][j]) {
      assert s[1..][i] == s[i + 1] && s[1..][j] == s[j + 1];
    }
  }

  lemma SortedCons<T(!new)>(x: T, s: seq<T>, f: T -> real)
    requires SortedDesc(s, f)
    requires forall y :: y in s ==> f(y) <= f(x)
    ensures SortedDesc([x] + s, f)
  {
    var r := [x] + s;
    forall i, j | 0 <= i < j < |r| ensures f(r[i]) >= f(r[j]) {
      assert r[j] == s[j - 1];
      if i > 0 {
        assert r[i] == s[i - 1];
      }
    }
  }

  /** A row cut off by `head(n)` from a ranked table ranks no higher than any row kept. */
  lemma TakeRanked<T(!new)>(s: seq<T>, f: T -> real, n: nat)
    requires SortedDesc(s, f)
    ensures forall x, y :: x in s && x !in Take(s, n) && y in Take(s, n) ==> f(x) <= f(y)
  {
    var top := Take(s, n);
    forall x, y | x in s && x !in top && y in top ensures f(x) <= f(y) {
      var j :| 0 <= j < |s| && s[j] == x;
      var i :| 0 <= i < |top| && top[i] == y;
      assert forall k :: 0 <= k < |top| ==> s[k] in top;
      assert j >= |top|;
    }
  }

  lemma {:induction false} NoDuplicatesCount<T(!new)>(s: seq<T>, x: T)
    requires NoDuplicates(s)
    ensures multiset(s)[x] <= 1
  {
    if s != [] {
      assert NoDuplicates(s[1..]) by {
        forall i, j | 0 <= i < j < |s[1..]| ensures s[1..][i] != s[1..][j] {
          assert s[1..][i] == s[i + 1] && s[1..][j] == s[j + 1];
        }
      }
      NoDuplicatesCount(s[1..], x);
      assert s == [s[0]] + s[1..];
      assert s[0] !in s[1..] by {
        forall k | 0 <= k < |s[1..]| ensures s[1..][k] != s[0] {
          assert s[1..][k] == s[k + 1];
        }
      }
    }
  }

  lemma RepeatCounted<T(!new)>(t: seq<T>, i: nat, j: nat)
    requires i < j < |t|
    ensures t[i] == t[j] ==> multiset(t)[t[i]] >= 2
  {
    assert t == t[..j] + t[j..];
    assert t[i] in t[..j];
    assert t[j] in t[j..];
    assert multiset(t)[t[j]] == multiset(t[..j])[t[j]] + multiset(t[j..])[t[j]];
  }

  /** Reordering a sequence cannot create duplicates. */
  lemma PermutationNoDuplicates<T(!new)>(s: seq<T>, t: seq<T>)
    requires multiset(s) == multiset(t)
    requires NoDuplicates(s)
    ensures NoDuplicates(t)
  {
    forall i, j | 0 <= i < j < |t| ensures t[i] != t[j] {
      NoDuplicatesCount(s, t[i]);
      RepeatCounted(t, i, j);
    }
  }

  /** A prefix of a sequence without duplicates has none either. */
  lemma TakeNoDuplicates<T(!new)>(s: seq<T>, n: nat)
    requires NoDuplicates(s)
    ensures NoDuplicates(Take(s, n))
  {
  }

  /** Masks that never select the same row split the amount of a key between
      them without exceeding it. */
  lemma {:induction false} SumWhereSplit<K(!new)>(rows: seq<Txn>, key: Txn -> Option<K>, k: K, p: Txn -> bool, q: Txn -> bool)
    requires forall t :: t in rows ==> !(p(t) && q(t))
    ensures SumWhere(Filter(rows, p), key, k) + SumWhere(Filter(rows, q), key, k) <= SumWhere(rows, key, k)
  {
    if rows != [] {
      assert rows[0] in rows;
      SumWhereSplit(rows[1..], key, k, p, q);
      SumWhereCons(rows[0], rows[1..], key, k, p);
      SumWhereCons(rows[0], rows[1..], key, k, q);
    }
  }

  lemma SumWhereCons<K(!new)>(t: Txn, rows: seq<Txn>, key: Txn -> Option<K>, k: K, p: Txn -> bool)
    ensures SumWhere(Filter([t] + rows, p), key, k)
      == (if p(t) && key(t) == Some(k) then t.amount else 0.0) + SumWhere(Filter(rows, p), key, k)
  {
    assert ([t] + rows)[1..] == rows;
    var f := Filter(rows, p);
    if p(t) {
      assert ([t] + f)[1..] == f;
    } else {
      assert Filter([t] + rows, p) == f;
    }
  }

  /** A mask selects at most the amount of a key. */
  lemma SumWhereFilterBound<K(!new)>(rows: seq<Txn>, key: Txn -> Option<K>, k: K, p: Txn -> bool)
    ensures SumWhere(Filter(rows, p), key, k) <= SumWhere(rows, key, k)
  {
    var never := (t: Txn) => false;
    FilterNone(rows, never);
    SumWhereSplit(rows, key, k, p, never);
  }

  /** When every row has a key, the keyed amount is the whole amount. */
  lemma {:induction false} KeyedTotalAll<K(!new)>(rows: seq<Txn>, key: Txn -> Option<K>)
    requires forall t :: t in rows ==> key(t).Some?
    ensures KeyedTotal(rows, key) == Total(rows)
  {
    if rows != [] {
      assert rows[0] in rows;
      KeyedTotalAll(rows[1..], key);
    }
  }

  /** The distinct clients among the rows whose key is `k` (`nunique`, `set`). */
  function ClientsWhere<K(==,!new)>(rows: seq<Txn>, key: Txn -> Option<K>, k: K): (r: seq<string>)
    ensures NoDuplicates(r)
    ensures forall c :: c in r <==> exists t :: t in rows && key(t) == Some(k) && t.client == c
  {
    var col := KeyColumn(rows, (t: Txn) => if key(t) == Some(k) then Some(t.client) else None);
    assert forall c :: c in col <==> exists t :: t in rows && key(t) == Some(k) && t.client == c;
    Distinct(col)
  }

  /** Some row carries key `k`. */
  ghost predicate Present<K(!new)>(rows: seq<Txn>, key: Txn -> Option<K>, k: K)
  {
    exists t :: t in rows && key(t) == Some(k)
  }

  /** The groups left after ranking the group table and keeping the first `n`:
      each is a real group with its own sum and count, and no key repeats. */
  lemma RankedGroups<K(!new)>(rows: seq<Txn>, key: Txn -> Option<K>, f: Group<K> -> real, n: nat)
    ensures var top := Take(SortDesc(GroupTable(rows, key), f), n);
      forall g :: g in top ==>
        && g.total == SumWhere(rows, key, g.key) && g.count == CountWhere(rows, key, g.key)
        && g.count > 0 && Present(rows, key, g.key)
    ensures var top := Take(SortDesc(GroupTable(rows, key), f), n);
      forall i, j :: 0 <= i < j < |top| ==> top[i].key != top[j].key
  {
    var table := GroupTable(rows, key);
    var sorted := SortDesc(table, f);
    var top := Take(sorted, n);
    GroupTableSpec(rows, key);
    TopSpec(table, f, n);
    forall g | g in top
      ensures Present(rows, key, g.key)
    {
      var j :| 0 <= j < |table| && table[j] == g;
    }
    PermutationNoDuplicates(table, sorted);
    TakeNoDuplicates(sorted, n);
    forall i, j | 0 <= i < j < |top| ensures top[i].key != top[j].key {
      assert top[i] in top && top[j] in top;
    }
  }

  /** Some group of the table has key `k`. */
  ghost predicate HasKey<K(!new)>(table: seq<Group<K>>, k: K)
  {
    exists g :: g in table && g.key == k
  }

  /** A group cut off by the ranking ranks no higher than any group kept. */
  lemma RankedGroupsComplete<K(!new)>(rows: seq<Txn>, key: Txn -> Option<K>, f: Group<K> -> real, n: nat)
    ensures var top := Take(SortDesc(GroupTable(rows, key), f), n);
      forall k, g :: Present(rows, key, k) && g in top && !HasKey(top, k)
        ==> f(Group(k, SumWhere(rows, key, k), CountWhere(rows, key, k))) <= f(g)
  {
    var table := GroupTable(rows, key);
    var top := Take(SortDesc(table, f), n);
    GroupTableSpec(rows, key);
    TopSpec(table, f, n);
    forall k, g | Present(rows, key, k) && g in top && !HasKey(top, k)
      ensures f(Group(k, SumWhere(rows, key, k), CountWhere(rows, key, k))) <= f(g)
    {
      var m :| 0 <= m < |table| && table[m].key == k;
      assert table[m] in table;
    }
  }

  /** Filtering cannot create duplicates. */
  lemma FilterNoDuplicates<T(!new)>(s: seq<T>, p: T -> bool)
    requires NoDuplicates(s)
    ensures NoDuplicates(Filter(s, p))
  {
    var r := Filter(s, p);
    forall x ensures multiset(r)[x] <= 1 {
      FilterMultiset(s, p, x);
      NoDuplicatesCount(s, x);
    }
    forall i, j | 0 <= i < j < |r| ensures r[i] != r[j] {
      RepeatCounted(r, i, j);
    }
  }

  /** The group at position `i` of the group table is a real group with its own sum and count. */
  lemma GroupAt<K(!new)>(rows: seq<Txn>, key: Txn -> Option<K>, i: nat)
    requires i < |GroupTable(rows, key)|
    ensures var g := GroupTable(rows, key)[i];
      g == Group(g.key, SumWhere(rows, key, g.key), CountWhere(rows, key, g.key))
      && g.count > 0 && Present(rows, key, g.key)
  {
    var ks := GroupKeys(rows, key);
    assert ks[i] in ks;
    CountWherePositive(rows, key, ks[i]);
  }

  /** Every key that occurs has its line in the group table. */
  lemma GroupIndex<K(!new)>(rows: seq<Txn>, key: Txn -> Option<K>, k: K) returns (i: nat)
    requires Present(rows, key, k)
    ensures i < |GroupTable(rows, key)| && GroupTable(rows, key)[i].key == k
  {
    var ks := GroupKeys(rows, key);
    assert k in ks;
    i :| 0 <= i < |ks| && ks[i] == k;
  }

  /** A group table has no key twice. */
  lemma GroupTableDistinct<K(!new)>(rows: seq<Txn>, key: Txn -> Option<K>)
    ensures var t := GroupTable(rows, key);
      forall i, j :: 0 <= i < j < |t| ==> t[i].key != t[j].key
    ensures NoDuplicates(GroupTable(rows, key))
  {
    var t := GroupTable(rows, key);
    var ks := GroupKeys(rows, key);
    assert forall i :: 0 <= i < |t| ==> t[i].key == ks[i];
  }
}
