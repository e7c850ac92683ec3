/** The two detectors that pivot a case into one line per client and day
    with the day's inflow and outflow: pass-through ("velocidad del dinero")
    and bridge accounts ("cuentas puente"). */
module DailyFlows {
  import opened Common
  import opened Tables

  /** The pivot index: `(codunicocli_13_enc, fecha_dt)`. */
  function DayOf(): Txn -> Option<(string, int)>
  {
    (t: Txn) => Some((t.client, t.day))
  }

  /** Amount moved by a client on a day in one direction; 0 when the client
      has no such row that day (`fill_value=0`). */
  function Leg(rows: seq<Txn>, k: (string, int), dir: Direction): (r: real)
    ensures 0.0 <= r
    ensures (forall t :: t in rows && (t.client, t.day) == k ==> t.direction != dir) ==> r == 0.0
  {
    if rows == [] then 0.0
    else
      var here := if (rows[0].client, rows[0].day) == k && rows[0].direction == dir then rows[0].amount else 0.0;
      here + Leg(rows[1..], k, dir)
  }

  /** One line of the pivot table. */
  datatype DayRow = DayRow(client: string, day: int, ingreso: real, egreso: real)

  function DayLine(rows: seq<Txn>, k: (string, int)): DayRow
  {
    DayRow(k.0, k.1, Leg(rows, k, Ingreso), Leg(rows, k, Egreso))
  }

  /** `groupby([client, fecha_dt, i_e]).sum()` pivoted on `i_e`. */
  function Pivot(rows: seq<Txn>): (r: seq<DayRow>)
    ensures |r| == |GroupKeys(rows, DayOf())|
  {
    var ks := GroupKeys(rows, DayOf());
    seq(|ks|, i requires 0 <= i < |ks| => DayLine(rows, ks[i]))
  }

  /** Both `Ingreso` and `Egreso` columns exist after the pivot. */
  predicate HasColumns(rows: seq<Txn>)
  {
    (exists t :: t in rows && t.direction == Ingreso) && (exists t :: t in rows && t.direction == Egreso)
  }

  /** The pivot has exactly one line per client-day of the case, holding that
      day's inflow and outflow sums. */
  lemma PivotSpec(rows: seq<Txn>)
    ensures forall d :: d in Pivot(rows) <==>
      Present(rows, DayOf(), (d.client, d.day)) && d == DayLine(rows, (d.client, d.day))
    ensures NoDuplicates(Pivot(rows))
  {
    var ks := GroupKeys(rows, DayOf());
    var p := Pivot(rows);
    forall d ensures d in p <==> Present(rows, DayOf(), (d.client, d.day)) && d == DayLine(rows, (d.client, d.day)) {
      if d in p {
        var i :| 0 <= i < |p| && p[i] == d;
        assert ks[i] in ks;
        assert ks[i] == (d.client, d.day);
      }
      if Present(rows, DayOf(), (d.client, d.day)) && d == DayLine(rows, (d.client, d.day)) {
        assert (d.client, d.day) in ks;
        var i :| 0 <= i < |ks| && ks[i] == (d.client, d.day);
        assert p[i] == d;
      }
    }
    forall i, j | 0 <= i < j < |p| ensures p[i] != p[j] {
      assert (p[i].client, p[i].day) == ks[i] && (p[j].client, p[j].day) == ks[j];
    }
  }

  // ---------------------------------------------------------------------
  // Pass-through

  /** `(1 - |I - E| / max(I, E)) * 100 > 80` and `I > 1000`; the second
      conjunct makes the maximum positive. */
  predicate PassThroughDay(i: real, e: real)
  {
    i > 1000.0 && (1.0 - AbsReal(i - e) / MaxReal(i, e)) * 100.0 > 80.0
  }

  /** None when the pivot lacks an inflow or an outflow column; otherwise the
      client-days that passed money through. */
  function PassThrough(rows: seq<Txn>): (r: Option<seq<DayRow>>)
    ensures r.None? <==> !HasColumns(rows)
  {
    if !HasColumns(rows) then None
    else Some(Filter(Pivot(rows), (d: DayRow) => PassThroughDay(d.ingreso, d.egreso)))
  }

  /** Over a positive maximum, `(1 - d / m) * 100 > 80` is `5 * d < m`. */
  lemma ShareBelow(d: real, m: real)
    requires m > 0.0
    ensures (1.0 - d / m) * 100.0 > 80.0 <==> 5.0 * d < m
  {
    var q := d / m;
    assert q * m == d;
    if q < 0.2 {
      assert (0.2 - q) * m > 0.0;
    } else {
      assert (q - 0.2) * m >= 0.0;
    }
  }

  /** The percentage rule is the ratio test `5 * |I - E| < max(I, E)`. */
  lemma PassThroughRule(i: real, e: real)
    ensures PassThroughDay(i, e) <==> i > 1000.0 && 5.0 * AbsReal(i - e) < MaxReal(i, e)
  {
    if i > 1000.0 {
      ShareBelow(AbsReal(i - e), MaxReal(i, e));
    }
  }

  /** Worked cases: 2000 in and 1900 out is flagged; 500 in and 490 out is
      not (too small); 2000 in and nothing out is not (nothing passed on). */
  lemma PassThroughExamples()
    ensures PassThroughDay(2000.0, 1900.0)
    ensures !PassThroughDay(500.0, 490.0)
    ensures !PassThroughDay(2000.0, 0.0)
  {
    PassThroughRule(2000.0, 1900.0);
    PassThroughRule(2000.0, 0.0);
  }

  /** A client-day is reported exactly when it occurs in the case and its
      inflow and outflow sums pass the rule, each day at most once. */
  lemma PassThroughSpec(rows: seq<Txn>)
    requires HasColumns(rows)
    ensures forall d :: d in PassThrough(rows).value <==>
      && Present(rows, DayOf(), (d.client, d.day))
      && d.ingreso == Leg(rows, (d.client, d.day), Ingreso)
      && d.egreso == Leg(rows, (d.client, d.day), Egreso)
      && PassThroughDay(d.ingreso, d.egreso)
    ensures NoDuplicates(PassThrough(rows).value)
  {
    PivotSpec(rows);
    FilterNoDuplicates(Pivot(rows), (d: DayRow) => PassThroughDay(d.ingreso, d.egreso));
  }

  // ---------------------------------------------------------------------
  // Bridge accounts

  predicate IsBridgeGroup(t: Txn)
  {
    t.group == Some("TRANSFERENCIA") || t.group == Some("TT OTRA CTA") || t.group == Some("CHEQUE")
  }

  /** `abs(saldo_diario) < 100` and `volumen_diario > 5000`. */
  predicate BridgeDay(i: real, e: real)
  {
    AbsReal(i - e) < 100.0 && i + e > 5000.0
  }

  predicate BridgeLine(d: DayRow)
  {
    BridgeDay(d.ingreso, d.egreso)
  }

  function BridgeRows(rows: seq<Txn>): (r: seq<Txn>)
    ensures forall t :: t in r <==> t in rows && IsBridgeGroup(t)
    ensures forall t :: multiset(r)[t] == if IsBridgeGroup(t) then multiset(rows)[t] else 0
  {
    assert forall t :: multiset(Filter(rows, IsBridgeGroup))[t] == if IsBridgeGroup(t) then multiset(rows)[t] else 0 by {
      forall t ensures multiset(Filter(rows, IsBridgeGroup))[t] == if IsBridgeGroup(t) then multiset(rows)[t] else 0 {
        FilterMultiset(rows, IsBridgeGroup, t);
      }
    }
    Filter(rows, IsBridgeGroup)
  }

  /** None when the pivot of the transfer and cheque rows lacks a column;
      otherwise the client-days that moved large, balanced amounts. */
  function Bridge(rows: seq<Txn>): (r: Option<seq<DayRow>>)
    ensures r.None? <==> !HasColumns(BridgeRows(rows))
  {
    var moves := BridgeRows(rows);
    if !HasColumns(moves) then None
    else Some(Filter(Pivot(moves), BridgeLine))
  }

  /** A client-day is reported exactly when it has transfer or cheque rows
      and the sums of those rows balance within 100 on a volume above 5000. */
  lemma BridgeSpec(rows: seq<Txn>)
    requires HasColumns(BridgeRows(rows))
    ensures var moves := BridgeRows(rows);
      forall d :: d in Bridge(rows).value <==>
        && Present(moves, DayOf(), (d.client, d.day))
        && d.ingreso == Leg(moves, (d.client, d.day), Ingreso)
        && d.egreso == Leg(moves, (d.client, d.day), Egreso)
        && BridgeDay(d.ingreso, d.egreso)
    ensures NoDuplicates(Bridge(rows).value)
  {
    BridgePicks(BridgeRows(rows));
  }

  /** The bridge days picked from the pivot of a set of transfer and cheque rows. */
  lemma BridgePicks(moves: seq<Txn>)
    ensures forall d :: d in Filter(Pivot(moves), BridgeLine) <==>
        && Present(moves, DayOf(), (d.client, d.day))
        && d.ingreso == Leg(moves, (d.client, d.day), Ingreso)
        && d.egreso == Leg(moves, (d.client, d.day), Egreso)
        && BridgeDay(d.ingreso, d.egreso)
    ensures NoDuplicates(Filter(Pivot(moves), BridgeLine))
  {
    PivotSpec(moves);
    FilterNoDuplicates(Pivot(moves), BridgeLine);
  }

  /** Rows of any other operation group do not change the result. */
  lemma BridgeIgnoresOtherGroups(rows: seq<Txn>, t: Txn)
    requires !IsBridgeGroup(t)
    ensures Bridge(rows + [t]) == Bridge(rows)
    ensures Bridge([t] + rows) == Bridge(rows)
  {
    BridgeRowsSkip(rows, t);
  }

  /** The transfer and cheque rows are the same with or without `t`. */
  lemma BridgeRowsSkip(rows: seq<Txn>, t: Txn)
    requires !IsBridgeGroup(t)
    ensures BridgeRows(rows + [t]) == BridgeRows(rows)
    ensures BridgeRows([t] + rows) == BridgeRows(rows)
  {
    FilterNone([t], IsBridgeGroup);
    FilterConcat(rows, [t], IsBridgeGroup);
    FilterConcat([t], rows, IsBridgeGroup);
  }

  /** Worked cases: 3000 in and 2950 out is a bridge day; 3000 in and 2800
      out is not (unbalanced); 2000 in and 1990 out is not (too small). */
  lemma BridgeExamples()
    ensures BridgeDay(3000.0, 2950.0)
    ensures !BridgeDay(3000.0, 2800.0)
    ensures !BridgeDay(2000.0, 1990.0)
  {
  }
}
