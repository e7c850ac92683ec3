/** The grouping detectors of the pattern-analysis page: the top-10 ranking,
    the false-transporter keyword screen, cash use per economic activity,
    digital micro-payment counting and disposable accounts.  Each is a
    filter / group / sort / head pipeline over the rows of one case. */
module Aggregations {
  import opened Common
  import opened Tables
  import opened Memo

  function ActivityKey(): Txn -> Option<string>
  {
    (t: Txn) => t.activity
  }

  // ---------------------------------------------------------------------
  // Top 10 by amount

  /** The categories offered by the top-10 selector. */
  datatype Category = Agents | Activities | Channels | Branches | OperationGroups | Operators | Segments

  /** `mapeo_columnas`: the column each category groups by.  "Agentes" and
      "Canales" both group by `canal`. */
  function Column(c: Category): Txn -> Option<string>
  {
    match c
    case Agents => (t: Txn) => t.channel
    case Activities => (t: Txn) => t.activity
    case Channels => (t: Txn) => t.channel
    case Branches => (t: Txn) => t.branch
    case OperationGroups => (t: Txn) => t.group
    case Operators => (t: Txn) => t.operator
    case Segments => (t: Txn) => t.segment
  }

  /** One line of the top-10 table. */
  datatype TopRow = TopRow(key: string, total: real, count: nat, soles: real, dollars: real)

  function CurrencyOf(t: Txn): string
  {
    t.currency
  }

  /** `df_caso[df_caso['moneda'] == currency]`. */
  function InCurrency(rows: seq<Txn>, currency: string): seq<Txn>
  {
    Where(rows, CurrencyOf, currency)
  }

  function TopTotal(r: TopRow): real
  {
    r.total
  }

  function GroupTotal(g: Group<string>): real
  {
    g.total
  }

  /** A ranked group with its per-currency sums looked up by key
      (`map(df_soles).fillna(0)`). */
  function Priced(g: Group<string>, rows: seq<Txn>, key: Txn -> Option<string>): TopRow
  {
    TopRow(g.key, g.total, g.count,
           SumWhere(InCurrency(rows, "SOLES"), key, g.key),
           SumWhere(InCurrency(rows, "DOLARES"), key, g.key))
  }

  /** The ten groups of a column with the largest total. */
  function TopTable(rows: seq<Txn>, key: Txn -> Option<string>): (r: seq<TopRow>)
    ensures |r| <= 10
  {
    var top := Take(SortDesc(GroupTable(rows, key), GroupTotal), 10);
    seq(|top|, i requires 0 <= i < |top| => Priced(top[i], rows, key))
  }

  /** The top-10 table of a category. */
  function Top10(rows: seq<Txn>, c: Category): (r: seq<TopRow>)
    ensures |r| <= 10
  {
    TopTable(rows, Column(c))
  }

  /** Line `i` of the top-10 table of a column is a group of that column:
      its key occurs in the case, its total and count are that key's sum and
      number of rows, and its `Monto Soles` and `Monto Dólares` are the sums
      of the key's rows in each currency. */
  lemma TopLine(rows: seq<Txn>, key: Txn -> Option<string>, i: nat)
    requires i < |TopTable(rows, key)|
    ensures var r := TopTable(rows, key)[i];
      && Present(rows, key, r.key)
      && r.total == SumWhere(rows, key, r.key)
      && r.count == CountWhere(rows, key, r.key)
      && r.count > 0
      && r.soles == SumWhere(InCurrency(rows, "SOLES"), key, r.key)
      && r.dollars == SumWhere(InCurrency(rows, "DOLARES"), key, r.key)
  {
    var top := Take(SortDesc(GroupTable(rows, key), GroupTotal), 10);
    RankedGroups(rows, key, GroupTotal, 10);
    assert top[i] in top;
  }

  /** Each line of the top-10 table of a column is one group of that column,
      with the key's sum, row count and per-currency sums. */
  lemma Top10Groups(rows: seq<Txn>, key: Txn -> Option<string>)
    ensures var r := TopTable(rows, key);
      forall i :: 0 <= i < |r| ==>
        && Present(rows, key, r[i].key)
        && r[i].total == SumWhere(rows, key, r[i].key)
        && r[i].count == CountWhere(rows, key, r[i].key)
        && r[i].count > 0
        && r[i].soles == SumWhere(InCurrency(rows, "SOLES"), key, r[i].key)
        && r[i].dollars == SumWhere(InCurrency(rows, "DOLARES"), key, r[i].key)
  {
    forall i | 0 <= i < |TopTable(rows, key)|
      ensures var r := TopTable(rows, key)[i];
        && Present(rows, key, r.key)
        && r.total == SumWhere(rows, key, r.key)
        && r.count == CountWhere(rows, key, r.key)
        && r.count > 0
        && r.soles == SumWhere(InCurrency(rows, "SOLES"), key, r.key)
        && r.dollars == SumWhere(InCurrency(rows, "DOLARES"), key, r.key)
    {
      TopLine(rows, key, i);
    }
  }

  /** No key appears on two lines of the top-10 table. */
  lemma Top10Distinct(rows: seq<Txn>, key: Txn -> Option<string>)
    ensures var r := TopTable(rows, key);
      forall i, j :: 0 <= i < j < |r| ==> r[i].key != r[j].key
  {
    RankedGroups(rows, key, GroupTotal, 10);
  }

  /** The table holds min(10, number of groups) lines, ranked by total. */
  lemma Top10Ranked(rows: seq<Txn>, key: Txn -> Option<string>)
    ensures |TopTable(rows, key)| == if |GroupKeys(rows, key)| < 10 then |GroupKeys(rows, key)| else 10
    ensures SortedDesc(TopTable(rows, key), TopTotal)
  {
    var table := GroupTable(rows, key);
    var top := Take(SortDesc(table, GroupTotal), 10);
    var r := TopTable(rows, key);
    TopSpec(table, GroupTotal, 10);
    forall i, j | 0 <= i < j < |r| ensures r[i].total >= r[j].total {
      assert r[i].total == top[i].total && r[j].total == top[j].total;
    }
  }

  /** Some line of the table is for key `k`. */
  ghost predicate Listed(r: seq<TopRow>, k: string)
  {
    exists j :: 0 <= j < |r| && r[j].key == k
  }

  /** A group left out of the table totals no more than any group kept. */
  lemma Top10Complete(rows: seq<Txn>, key: Txn -> Option<string>)
    ensures var r := TopTable(rows, key);
      forall k, i :: 0 <= i < |r| && Present(rows, key, k) && !Listed(r, k)
        ==> SumWhere(rows, key, k) <= r[i].total
  {
    var top := Take(SortDesc(GroupTable(rows, key), GroupTotal), 10);
    var r := TopTable(rows, key);
    RankedGroupsComplete(rows, key, GroupTotal, 10);
    forall k, i | 0 <= i < |r| && Present(rows, key, k) && !Listed(r, k)
      ensures SumWhere(rows, key, k) <= r[i].total
    {
      assert !HasKey(top, k) by {
        forall h | h in top ensures h.key != k {
          var j :| 0 <= j < |top| && top[j] == h;
          assert r[j].key == h.key;
        }
      }
      assert top[i] in top;
      var g := Group(k, SumWhere(rows, key, k), CountWhere(rows, key, k));
      assert GroupTotal(g) <= GroupTotal(top[i]);
      assert r[i].total == top[i].total;
    }
  }

  /** `Monto Soles` and `Monto Dólares` split part of the group total between
      them, and a group with no row in a currency shows 0 for it. */
  lemma Top10Currencies(rows: seq<Txn>, key: Txn -> Option<string>)
    ensures var r := TopTable(rows, key);
      forall i :: 0 <= i < |r| ==>
        && 0.0 <= r[i].soles && 0.0 <= r[i].dollars
        && r[i].soles + r[i].dollars <= r[i].total
        && ((forall t :: t in rows && key(t) == Some(r[i].key) ==> t.currency != "SOLES") ==> r[i].soles == 0.0)
        && ((forall t :: t in rows && key(t) == Some(r[i].key) ==> t.currency != "DOLARES") ==> r[i].dollars == 0.0)
  {
    var r := TopTable(rows, key);
    forall i | 0 <= i < |r|
      ensures r[i].soles + r[i].dollars <= r[i].total
      ensures (forall t :: t in rows && key(t) == Some(r[i].key) ==> t.currency != "SOLES") ==> r[i].soles == 0.0
      ensures (forall t :: t in rows && key(t) == Some(r[i].key) ==> t.currency != "DOLARES") ==> r[i].dollars == 0.0
    {
      var k := r[i].key;
      TopLine(rows, key, i);
      SumWhereSplit(rows, key, k, Holds(CurrencyOf, "SOLES"), Holds(CurrencyOf, "DOLARES"));
      if forall t :: t in rows && key(t) == Some(k) ==> t.currency != "SOLES" {
        SumWhereAbsent(InCurrency(rows, "SOLES"), key, k);
      }
      if forall t :: t in rows && key(t) == Some(k) ==> t.currency != "DOLARES" {
        SumWhereAbsent(InCurrency(rows, "DOLARES"), key, k);
      }
    }
  }

  // ---------------------------------------------------------------------
  // False transporters: machinery purchases by declared hauliers/builders

  /** `act_economica.str.contains('TRANSP|CONSTRUC', case=False, na=False)`. */
  predicate DeclaresTransport(activity: Option<string>)
  {
    activity.Some? && (Contains(Upper(activity.value), "TRANSP") || Contains(Upper(activity.value), "CONSTRUC"))
  }

  /** `any(kw in str(x) for kw in keywords_list)` for a present memo, False for a null one. */
  predicate MentionsKeyword(memo: Option<string>, keywords: seq<string>)
  {
    memo.Some? && exists kw :: kw in keywords && Contains(memo.value, kw)
  }

  predicate TransportSuspect(t: Txn, keywords: seq<string>)
  {
    DeclaresTransport(t.activity) && t.direction == Egreso && MentionsKeyword(t.memo, keywords)
  }

  /** The outflows of declared transport/construction clients whose memo names
      one of the comma-separated keywords. */
  function TransportSuspects(rows: seq<Txn>, keywordText: string): (r: seq<Txn>)
    ensures forall t :: t in r <==> t in rows && TransportSuspect(t, TermList(keywordText))
    ensures forall t :: multiset(r)[t] == if TransportSuspect(t, TermList(keywordText)) then multiset(rows)[t] else 0
  {
    var keywords := TermList(keywordText);
    var suspect := (t: Txn) => TransportSuspect(t, keywords);
    assert forall t :: multiset(Filter(rows, suspect))[t] == if suspect(t) then multiset(rows)[t] else 0 by {
      forall t ensures multiset(Filter(rows, suspect))[t] == if suspect(t) then multiset(rows)[t] else 0 {
        FilterMultiset(rows, suspect, t);
      }
    }
    Filter(rows, suspect)
  }

  /** One line of the summary: activity, `Monto Total`, `Clientes Únicos`. */
  datatype TransportRow = TransportRow(activity: string, total: real, clients: nat)

  function Summarised(g: Group<string>, suspects: seq<Txn>): TransportRow
  {
    TransportRow(g.key, g.total, |ClientsWhere(suspects, ActivityKey(), g.key)|)
  }

  /** `groupby('act_economica').agg({'monto': 'sum', 'codunicocli_13_enc': 'nunique'})`. */
  function TransportSummary(suspects: seq<Txn>): (r: seq<TransportRow>)
  {
    var g := GroupTable(suspects, ActivityKey());
    seq(|g|, i requires 0 <= i < |g| => Summarised(g[i], suspects))
  }

  /** None when nothing is suspicious; otherwise the suspects grouped by activity. */
  function FalseTransporters(rows: seq<Txn>, keywordText: string): (r: Option<seq<TransportRow>>)
  {
    var suspects := TransportSuspects(rows, keywordText);
    if suspects == [] then None else Some(TransportSummary(suspects))
  }

  /** The summary is shown exactly when some outflow is suspicious, and then
      it is the summary of the suspects. */
  lemma FalseTransportersShown(rows: seq<Txn>, keywordText: string)
    ensures FalseTransporters(rows, keywordText).None?
      <==> forall t :: t in rows ==> !TransportSuspect(t, TermList(keywordText))
    ensures FalseTransporters(rows, keywordText).Some? ==>
      FalseTransporters(rows, keywordText).value == TransportSummary(TransportSuspects(rows, keywordText))
  {
    var suspects := TransportSuspects(rows, keywordText);
    if suspects != [] {
      assert suspects[0] in suspects;
    }
  }

  lemma TransportLine(suspects: seq<Txn>, i: nat)
    requires i < |TransportSummary(suspects)|
    ensures var r := TransportSummary(suspects)[i];
      && r.total == SumWhere(suspects, ActivityKey(), r.activity)
      && r.clients == |ClientsWhere(suspects, ActivityKey(), r.activity)|
      && r.clients >= 1
  {
    var g := GroupTable(suspects, ActivityKey());
    GroupAt(suspects, ActivityKey(), i);
    var t :| t in suspects && ActivityKey()(t) == Some(g[i].key);
    assert t.client in ClientsWhere(suspects, ActivityKey(), g[i].key);
  }

  /** Each summary line is one declared activity, with the summed amount of
      its suspicious outflows and the number of distinct clients behind them
      (at least one); every suspect's activity has its line, and no activity
      repeats. */
  lemma FalseTransportersSummary(suspects: seq<Txn>)
    ensures var r := TransportSummary(suspects);
      forall i :: 0 <= i < |r| ==>
        && r[i].total == SumWhere(suspects, ActivityKey(), r[i].activity)
        && r[i].clients == |ClientsWhere(suspects, ActivityKey(), r[i].activity)|
        && r[i].clients >= 1
    ensures var r := TransportSummary(suspects);
      forall i, j :: 0 <= i < j < |r| ==> r[i].activity != r[j].activity
    ensures var r := TransportSummary(suspects);
      forall t :: t in suspects && t.activity.Some? ==> exists i :: 0 <= i < |r| && r[i].activity == t.activity.value
  {
    var g := GroupTable(suspects, ActivityKey());
    var r := TransportSummary(suspects);
    forall i | 0 <= i < |r|
      ensures r[i].total == SumWhere(suspects, ActivityKey(), r[i].activity)
      ensures r[i].clients == |ClientsWhere(suspects, ActivityKey(), r[i].activity)|
      ensures r[i].clients >= 1
    {
      TransportLine(suspects, i);
    }
    GroupTableDistinct(suspects, ActivityKey());
    forall t | t in suspects && t.activity.Some?
      ensures exists i :: 0 <= i < |r| && r[i].activity == t.activity.value
    {
      assert ActivityKey()(t) == t.activity;
      var i := GroupIndex(suspects, ActivityKey(), t.activity.value);
      assert r[i].activity == g[i].key;
    }
  }

  lemma {:induction false} SplitOnTrailing(s: string, sep: char)
    ensures |SplitOn(s + [sep], sep)| >= 2
    ensures SplitOn(s + [sep], sep)[|SplitOn(s + [sep], sep)| - 1] == ""
  {
    if s == [] {
      assert SplitOn([sep], sep) == [""] + SplitOn([], sep);
    } else {
      assert (s + [sep])[1..] == s[1..] + [sep];
      SplitOnTrailing(s[1..], sep);
    }
  }

  /** A keyword list typed with a trailing comma holds an empty keyword, which
      every present memo contains: the screen then flags every outflow of a
      declared transport or construction client that has a memo. */
  lemma TrailingCommaMatchesAll(keywordText: string, memo: string)
    ensures MentionsKeyword(Some(memo), TermList(keywordText + ","))
  {
    var ps := SplitOn(keywordText + ",", ',');
    SplitOnTrailing(keywordText, ',');
    var kws := TermList(keywordText + ",");
    assert kws[|ps| - 1] == Upper(Strip(""));
    assert "" in kws;
    assert Contains(memo, "");
  }

  // ---------------------------------------------------------------------
  // Cash use per economic activity

  predicate IsCash(t: Txn)
  {
    t.group == Some("RETIRO") || t.group == Some("DEPOSITO") || t.group == Some("DISP EFECTIVO")
  }

  /** One line of the merged table; `percent` is None where pandas gets NaN. */
  datatype CashRow = CashRow(activity: string, total: real, ops: nat, cash: real, cashOps: nat, percent: Option<real>)

  /** `part / whole * 100`, undefined (NaN) for a zero whole. */
  function Percent(part: real, whole: real): (p: Option<real>)
    ensures p.None? <==> whole == 0.0
  {
    if whole == 0.0 then None else Some(part / whole * 100.0)
  }

  /** A share of a whole is a percentage between 0 and 100. */
  lemma PercentRange(part: real, whole: real)
    requires 0.0 <= part <= whole && whole != 0.0
    ensures 0.0 <= Percent(part, whole).value <= 100.0
  {
    assert part / whole <= 1.0;
  }

  /** Sort key of `% Efectivo`, descending with NaN last. */
  function CashRank(r: CashRow): real
  {
    if r.percent.Some? then r.percent.value else -1.0
  }

  function CashRows(rows: seq<Txn>): (r: seq<Txn>)
    ensures forall t :: t in r <==> t in rows && IsCash(t)
    ensures forall t :: multiset(r)[t] == if IsCash(t) then multiset(rows)[t] else 0
  {
    assert forall t :: multiset(Filter(rows, IsCash))[t] == if IsCash(t) then multiset(rows)[t] else 0 by {
      forall t ensures multiset(Filter(rows, IsCash))[t] == if IsCash(t) then multiset(rows)[t] else 0 {
        FilterMultiset(rows, IsCash, t);
      }
    }
    Filter(rows, IsCash)
  }

  /** A line of the left merge: missing cash figures become 0 (`fillna(0)`). */
  function Merged(g: Group<string>, cash: seq<Txn>): CashRow
  {
    var c := SumWhere(cash, ActivityKey(), g.key);
    CashRow(g.key, g.total, g.count, c, CountWhere(cash, ActivityKey(), g.key), Percent(c, g.total))
  }

  function MergedTable(rows: seq<Txn>): (r: seq<CashRow>)
  {
    var all := GroupTable(rows, ActivityKey());
    seq(|all|, i requires 0 <= i < |all| => Merged(all[i], CashRows(rows)))
  }

  function CashRatio(rows: seq<Txn>): (r: seq<CashRow>)
  {
    SortDesc(MergedTable(rows), CashRank)
  }

  lemma MergedLine(rows: seq<Txn>, i: nat)
    requires i < |MergedTable(rows)|
    ensures CashLine(rows, MergedTable(rows)[i])
    ensures Present(rows, ActivityKey(), MergedTable(rows)[i].activity)
  {
    var g := GroupTable(rows, ActivityKey())[i];
    assert MergedTable(rows)[i] == Merged(g, CashRows(rows));
    GroupAt(rows, ActivityKey(), i);
    MergedFigures(rows, g);
  }

  /** The merged line of an activity's group carries the figures of `CashLine`. */
  lemma MergedFigures(rows: seq<Txn>, g: Group<string>)
    requires g.total == SumWhere(rows, ActivityKey(), g.key) && g.count == CountWhere(rows, ActivityKey(), g.key)
    ensures CashLine(rows, Merged(g, CashRows(rows)))
  {
    var c := Merged(g, CashRows(rows));
    MergedShares(rows, g);
    assert c.total == SumWhere(rows, ActivityKey(), c.activity);
    assert c.ops == CountWhere(rows, ActivityKey(), c.activity);
  }

  /** The cash amount of a merged line is part of its activity's total, is 0
      without cash operations, and gives the percentage. */
  lemma MergedShares(rows: seq<Txn>, g: Group<string>)
    requires g.total == SumWhere(rows, ActivityKey(), g.key)
    ensures var c := Merged(g, CashRows(rows));
      && 0.0 <= c.cash <= c.total
      && (c.percent.None? <==> c.total == 0.0)
      && (c.percent.Some? ==> 0.0 <= c.percent.value <= 100.0)
      && (c.total != 0.0 ==> c.percent == Some(c.cash / c.total * 100.0))
      && ((forall t :: t in rows && t.activity == Some(c.activity) ==> !IsCash(t)) ==> c.cash == 0.0)
  {
    var cash := CashRows(rows);
    var c := Merged(g, cash);
    CashBounded(rows, c.activity);
    NoCashNoAmount(rows, c.activity);
    MergedPercent(g, cash);
  }

  /** The merged line's percentage is cash / total * 100, undefined for a
      zero total, and lies in [0, 100] when the cash is part of the total. */
  lemma MergedPercent(g: Group<string>, cash: seq<Txn>)
    ensures var c := Merged(g, cash);
      && (c.percent.None? <==> c.total == 0.0)
      && (c.total != 0.0 ==> c.percent == Some(c.cash / c.total * 100.0))
      && (0.0 <= c.cash <= c.total && c.percent.Some? ==> 0.0 <= c.percent.value <= 100.0)
  {
    var c := Merged(g, cash);
    if 0.0 <= c.cash <= c.total && c.total != 0.0 {
      PercentRange(c.cash, c.total);
    }
  }

  /** An activity's cash amount lies between 0 and its total. */
  lemma CashBounded(rows: seq<Txn>, activity: string)
    ensures 0.0 <= SumWhere(CashRows(rows), ActivityKey(), activity) <= SumWhere(rows, ActivityKey(), activity)
  {
    SumWhereFilterBound(rows, ActivityKey(), activity, IsCash);
  }

  /** An activity without cash operations has no cash amount. */
  lemma NoCashNoAmount(rows: seq<Txn>, activity: string)
    ensures (forall t :: t in rows && t.activity == Some(activity) ==> !IsCash(t)) ==>
      SumWhere(CashRows(rows), ActivityKey(), activity) == 0.0
  {
    if forall t :: t in rows && t.activity == Some(activity) ==> !IsCash(t) {
      SumWhereAbsent(CashRows(rows), ActivityKey(), activity);
    }
  }

  /** Every line carries its activity's total, operation count and cash
      figures; the cash amount never exceeds the total, so the percentage is
      undefined exactly for a zero total and otherwise is cash / total * 100,
      which lies in [0, 100]; an
      activity without cash operations shows 0 cash. */
  lemma CashRatioRows(rows: seq<Txn>)
    ensures forall c :: c in CashRatio(rows) ==>
      && c.total == SumWhere(rows, ActivityKey(), c.activity)
      && c.ops == CountWhere(rows, ActivityKey(), c.activity)
      && c.cash == SumWhere(CashRows(rows), ActivityKey(), c.activity)
      && c.cashOps == CountWhere(CashRows(rows), ActivityKey(), c.activity)
      && 0.0 <= c.cash <= c.total
      && (c.percent.None? <==> c.total == 0.0)
      && (c.percent.Some? ==> 0.0 <= c.percent.value <= 100.0)
      && (c.total != 0.0 ==> c.percent == Some(c.cash / c.total * 100.0))
      && ((forall t :: t in rows && t.activity == Some(c.activity) ==> !IsCash(t)) ==> c.cash == 0.0)
  {
    var merged := MergedTable(rows);
    forall c | c in CashRatio(rows) ensures CashLine(rows, c) {
      assert c in multiset(merged);
      var i :| 0 <= i < |merged| && merged[i] == c;
      MergedLine(rows, i);
    }
  }

  /** The figures of a line of the cash table, as `CashRatioRows` states them. */
  predicate CashLine(rows: seq<Txn>, c: CashRow)
  {
    && c.total == SumWhere(rows, ActivityKey(), c.activity)
    && c.ops == CountWhere(rows, ActivityKey(), c.activity)
    && c.cash == SumWhere(CashRows(rows), ActivityKey(), c.activity)
    && c.cashOps == CountWhere(CashRows(rows), ActivityKey(), c.activity)
    && 0.0 <= c.cash <= c.total
    && (c.percent.None? <==> c.total == 0.0)
    && (c.percent.Some? ==> 0.0 <= c.percent.value <= 100.0)
    && (c.total != 0.0 ==> c.percent == Some(c.cash / c.total * 100.0))
    && ((forall t :: t in rows && t.activity == Some(c.activity) ==> !IsCash(t)) ==> c.cash == 0.0)
  }

  /** Every activity of the case has a line (the merge is a left merge on
      the full activity table), and only activities of the case do. */
  lemma CashRatioCovers(rows: seq<Txn>)
    ensures forall a :: Present(rows, ActivityKey(), a) <==> exists c :: c in CashRatio(rows) && c.activity == a
  {
    forall a ensures Present(rows, ActivityKey(), a) <==> exists c :: c in CashRatio(rows) && c.activity == a {
      if Present(rows, ActivityKey(), a) {
        CashRatioListed(rows, a);
      }
      if c :| c in CashRatio(rows) && c.activity == a {
        CashRatioPresent(rows, c);
      }
    }
  }

  /** Every activity of the case has a line. */
  lemma CashRatioListed(rows: seq<Txn>, a: string)
    requires Present(rows, ActivityKey(), a)
    ensures exists c :: c in CashRatio(rows) && c.activity == a
  {
    var merged := MergedTable(rows);
    var i := GroupIndex(rows, ActivityKey(), a);
    assert merged[i] in multiset(CashRatio(rows));
    assert merged[i] in CashRatio(rows);
  }

  /** Every line is about an activity of the case. */
  lemma CashRatioPresent(rows: seq<Txn>, c: CashRow)
    requires c in CashRatio(rows)
    ensures Present(rows, ActivityKey(), c.activity)
  {
    var merged := MergedTable(rows);
    assert c in multiset(merged);
    var i :| 0 <= i < |merged| && merged[i] == c;
    MergedLine(rows, i);
  }

  /** No activity has two lines. */
  lemma CashRatioDistinct(rows: seq<Txn>)
    ensures forall i, j :: 0 <= i < j < |CashRatio(rows)| ==> CashRatio(rows)[i].activity != CashRatio(rows)[j].activity
  {
    var merged := MergedTable(rows);
    MergedDistinct(rows);
    forall m, n | 0 <= m < |merged| && 0 <= n < |merged| && merged[m].activity == merged[n].activity
      ensures merged[m] == merged[n]
    {
      MergedByActivity(rows, m, n);
    }
    KeyedAfterSort(merged, CashRatio(rows));
  }

  /** Reordering a table whose distinct lines carry distinct activities keeps
      the activities distinct. */
  lemma KeyedAfterSort(merged: seq<CashRow>, r: seq<CashRow>)
    requires multiset(merged) == multiset(r) && NoDuplicates(merged)
    requires forall m, n :: 0 <= m < |merged| && 0 <= n < |merged| && merged[m].activity == merged[n].activity ==> merged[m] == merged[n]
    ensures forall i, j :: 0 <= i < j < |r| ==> r[i].activity != r[j].activity
  {
    PermutationNoDuplicates(merged, r);
    forall i, j | 0 <= i < j < |r| ensures r[i].activity != r[j].activity {
      assert r[i] in multiset(merged) && r[j] in multiset(merged);
      var m :| 0 <= m < |merged| && merged[m] == r[i];
      var n :| 0 <= n < |merged| && merged[n] == r[j];
    }
  }


  lemma MergedDistinct(rows: seq<Txn>)
    ensures NoDuplicates(MergedTable(rows))
  {
    var all := GroupTable(rows, ActivityKey());
    var merged := MergedTable(rows);
    GroupTableDistinct(rows, ActivityKey());
    forall i, j | 0 <= i < j < |merged| ensures merged[i] != merged[j] {
      assert merged[i].activity == all[i].key && merged[j].activity == all[j].key;
    }
  }

  /** A merged line is determined by its activity. */
  lemma MergedByActivity(rows: seq<Txn>, m: nat, n: nat)
    requires m < |MergedTable(rows)| && n < |MergedTable(rows)|
    ensures MergedTable(rows)[m].activity == MergedTable(rows)[n].activity ==> MergedTable(rows)[m] == MergedTable(rows)[n]
  {
    GroupAt(rows, ActivityKey(), m);
    GroupAt(rows, ActivityKey(), n);
  }

  /** The table is ranked by `% Efectivo`, and undefined percentages come last. */
  lemma CashRatioSorted(rows: seq<Txn>)
    ensures SortedDesc(CashRatio(rows), CashRank)
    ensures var r := CashRatio(rows);
      forall i, j :: 0 <= i < j < |r| && r[i].percent.None? ==> r[j].percent.None?
  {
    var r := CashRatio(rows);
    CashRatioRows(rows);
    forall i, j | 0 <= i < j < |r| && r[i].percent.None? ensures r[j].percent.None? {
      assert r[j] in r;
    }
  }

  // ---------------------------------------------------------------------
  // Digital micro-payments (Yape/Plin)

  predicate IsMicroPayment(t: Txn, maxAmount: real)
  {
    (t.group == Some("YAPE") || t.group == Some("PLIN")) && t.amount < maxAmount
  }

  function Digital(rows: seq<Txn>, maxAmount: real): (r: seq<Txn>)
    ensures forall t :: t in r <==> t in rows && IsMicroPayment(t, maxAmount)
    ensures forall t :: multiset(r)[t] == if IsMicroPayment(t, maxAmount) then multiset(rows)[t] else 0
  {
    var micro := (t: Txn) => IsMicroPayment(t, maxAmount);
    assert forall t :: multiset(Filter(rows, micro))[t] == if micro(t) then multiset(rows)[t] else 0 by {
      forall t ensures multiset(Filter(rows, micro))[t] == if micro(t) then multiset(rows)[t] else 0 {
        FilterMultiset(rows, micro, t);
      }
    }
    Filter(rows, micro)
  }

  function GroupCount(g: Group<string>): real
  {
    g.count as real
  }

  function Flagged(g: Group<string>): bool
  {
    g.count > 50
  }

  /** Per-client counts of micro-payments, ranked by count, more than 50 kept,
      first 20 shown. */
  function MicroPayments(rows: seq<Txn>, maxAmount: real): (r: seq<Group<string>>)
    ensures |r| <= 20
  {
    var perClient := SortDesc(GroupTable(Digital(rows, maxAmount), ClientKey()), GroupCount);
    Take(Filter(perClient, Flagged), 20)
  }

  /** Each line is one client with more than 50 micro-payments below the
      cap, with their number and sum; lines are ranked by that number and no
      client repeats. */
  lemma MicroPaymentsRows(rows: seq<Txn>, maxAmount: real)
    ensures var d := Digital(rows, maxAmount);
      forall g :: g in MicroPayments(rows, maxAmount) ==>
        && g.count > 50
        && g.count == CountWhere(d, ClientKey(), g.key)
        && g.total == SumWhere(d, ClientKey(), g.key)
    ensures SortedDesc(MicroPayments(rows, maxAmount), GroupCount)
    ensures NoDuplicates(MicroPayments(rows, maxAmount))
  {
    var d := Digital(rows, maxAmount);
    var table := GroupTable(d, ClientKey());
    var perClient := SortDesc(table, GroupCount);
    var flagged := Filter(perClient, Flagged);
    forall g | g in MicroPayments(rows, maxAmount)
      ensures g.count > 50 && g.count == CountWhere(d, ClientKey(), g.key) && g.total == SumWhere(d, ClientKey(), g.key)
    {
      MicroPaymentLine(rows, maxAmount, g);
    }
    FilterSorted(perClient, Flagged, GroupCount);
    PermutationNoDuplicates(table, perClient);
    FilterNoDuplicates(perClient, Flagged);
    TakeNoDuplicates(flagged, 20);
  }

  /** One line: a flagged client with their count and sum of micro-payments. */
  lemma MicroPaymentLine(rows: seq<Txn>, maxAmount: real, g: Group<string>)
    requires g in MicroPayments(rows, maxAmount)
    ensures var d := Digital(rows, maxAmount);
      && g.count > 50
      && g.count == CountWhere(d, ClientKey(), g.key)
      && g.total == SumWhere(d, ClientKey(), g.key)
  {
    var d := Digital(rows, maxAmount);
    var table := GroupTable(d, ClientKey());
    var perClient := SortDesc(table, GroupCount);
    GroupTableSpec(d, ClientKey());
    assert g in Filter(perClient, Flagged);
    assert g in multiset(perClient);
    assert g in table;
  }

  /** No qualifying client is dropped unless the 20 lines are full of clients
      with at least as many micro-payments. */
  lemma MicroPaymentsComplete(rows: seq<Txn>, maxAmount: real, client: string)
    requires CountWhere(Digital(rows, maxAmount), ClientKey(), client) > 50
    requires forall g :: g in MicroPayments(rows, maxAmount) ==> g.key != client
    ensures |MicroPayments(rows, maxAmount)| == 20
    ensures forall g :: g in MicroPayments(rows, maxAmount) ==> g.count >= CountWhere(Digital(rows, maxAmount), ClientKey(), client)
  {
    var d := Digital(rows, maxAmount);
    var table := GroupTable(d, ClientKey());
    var perClient := SortDesc(table, GroupCount);
    var flagged := Filter(perClient, Flagged);
    var top := Take(flagged, 20);
    CountWherePositive(d, ClientKey(), client);
    var i := GroupIndex(d, ClientKey(), client);
    var g := table[i];
    GroupAt(d, ClientKey(), i);
    assert g in multiset(table);
    assert g in perClient;
    assert g in flagged;
    assert g !in top;
    FilterSorted(perClient, Flagged, GroupCount);
    TakeRanked(flagged, GroupCount, 20);
    forall h | h in top ensures h.count >= g.count {
      assert GroupCount(g) <= GroupCount(h);
    }
  }

  // ---------------------------------------------------------------------
  // Disposable accounts

  /** `groupby(client).agg(... 'first')`: the first non-null value of a date
      column among the client's rows, in row order. */
  function FirstDate(rows: seq<Txn>, client: string, date: Txn -> Option<int>): (r: Option<int>)
    ensures r.Some? ==> exists t :: t in rows && t.client == client && date(t) == r
    ensures r.Some? ==> exists i :: FirstDated(rows, client, date, i) && date(rows[i]) == r
    ensures r.None? <==> forall t :: t in rows && t.client == client ==> date(t).None?
  {
    if rows == [] then None
    else if rows[0].client == client && date(rows[0]).Some? then
      assert FirstDated(rows, client, date, 0);
      date(rows[0])
    else
      assert forall t :: t in rows <==> t == rows[0] || t in rows[1..];
      var r' := FirstDate(rows[1..], client, date);
      assert r'.Some? ==> exists i :: FirstDated(rows, client, date, i) && date(rows[i]) == r' by {
        if r'.Some? {
          var i :| FirstDated(rows[1..], client, date, i) && date(rows[1..][i]) == r';
          FirstDatedShift(rows, client, date, i);
        }
      }
      r'
  }

  /** The first dated row of the tail is the first of the whole when the
      head row is not a dated row of the client. */
  lemma FirstDatedShift(rows: seq<Txn>, client: string, date: Txn -> Option<int>, i: int)
    requires rows != [] && FirstDated(rows[1..], client, date, i)
    requires !(rows[0].client == client && date(rows[0]).Some?)
    ensures FirstDated(rows, client, date, i + 1) && rows[i + 1] == rows[1..][i]
  {
  }

  /** Row `i` is the client's first row, in row order, with a date. */
  predicate FirstDated(rows: seq<Txn>, client: string, date: Txn -> Option<int>, i: int)
  {
    && 0 <= i < |rows| && rows[i].client == client && date(rows[i]).Some?
    && forall j :: 0 <= j < i && rows[j].client == client ==> date(rows[j]).None?
  }

  /** One line of the per-client account table. */
  datatype Account = Account(client: string, openDay: Option<int>, closeDay: Option<int>, total: real)

  function AccountOf(rows: seq<Txn>, client: string): Account
  {
    Account(client, FirstDate(rows, client, (t: Txn) => t.openDay),
            FirstDate(rows, client, (t: Txn) => t.closeDay), SumWhere(rows, ClientKey(), client))
  }

  /** `duracion_dias / 30`. */
  function DurationMonths(openDay: int, closeDay: int): real
  {
    (closeDay - openDay) as real / 30.0
  }

  /** Closed, with a known opening, within `maxMonths` months; a missing
      opening date makes the duration NaN and the comparison false. */
  predicate ShortLived(a: Account, maxMonths: int)
  {
    a.closeDay.Some? && a.openDay.Some? && DurationMonths(a.openDay.value, a.closeDay.value) <= maxMonths as real
  }

  function AccountTotal(a: Account): real
  {
    a.total
  }

  function Accounts(rows: seq<Txn>): (r: seq<Account>)
  {
    var clients := GroupKeys(rows, ClientKey());
    seq(|clients|, i requires 0 <= i < |clients| => AccountOf(rows, clients[i]))
  }

  function Disposable(rows: seq<Txn>, maxMonths: int): (r: seq<Account>)
  {
    SortDesc(Filter(Accounts(rows), (a: Account) => ShortLived(a, maxMonths)), AccountTotal)
  }

  /** The month comparison is the whole-day comparison `days <= 30 * months`. */
  lemma MonthsBound(openDay: int, closeDay: int, maxMonths: int)
    ensures DurationMonths(openDay, closeDay) <= maxMonths as real <==> closeDay - openDay <= 30 * maxMonths
  {
    var d := (closeDay - openDay) as real;
    assert DurationMonths(openDay, closeDay) * 30.0 == d;
  }

  lemma AccountListed(rows: seq<Txn>, i: nat)
    requires i < |Accounts(rows)|
    ensures var a := Accounts(rows)[i];
      Present(rows, ClientKey(), a.client) && a == AccountOf(rows, a.client)
  {
    var clients := GroupKeys(rows, ClientKey());
    assert clients[i] in clients;
  }

  lemma AccountIndex(rows: seq<Txn>, client: string) returns (i: nat)
    requires Present(rows, ClientKey(), client)
    ensures i < |Accounts(rows)| && Accounts(rows)[i] == AccountOf(rows, client)
  {
    var clients := GroupKeys(rows, ClientKey());
    assert client in clients;
    i :| 0 <= i < |clients| && clients[i] == client;
  }

  /** An account is listed exactly when its client's first close date is
      present, its first open date is present, and it closed at most
      30 * maxMonths days after opening. */
  lemma DisposableSpec(rows: seq<Txn>, maxMonths: int)
    ensures forall a :: a in Disposable(rows, maxMonths) <==>
      && Present(rows, ClientKey(), a.client)
      && a == AccountOf(rows, a.client)
      && a.closeDay.Some? && a.openDay.Some?
      && a.closeDay.value - a.openDay.value <= 30 * maxMonths
  {
    var accounts := Accounts(rows);
    var short := Filter(accounts, (a: Account) => ShortLived(a, maxMonths));
    forall a ensures a in Disposable(rows, maxMonths) <==>
      && Present(rows, ClientKey(), a.client)
      && a == AccountOf(rows, a.client)
      && a.closeDay.Some? && a.openDay.Some?
      && a.closeDay.value - a.openDay.value <= 30 * maxMonths
    {
      assert a in Disposable(rows, maxMonths) <==> a in multiset(short);
      if a.closeDay.Some? && a.openDay.Some? {
        MonthsBound(a.openDay.value, a.closeDay.value, maxMonths);
      }
      if a in accounts {
        var i :| 0 <= i < |accounts| && accounts[i] == a;
        AccountListed(rows, i);
      }
      if Present(rows, ClientKey(), a.client) && a == AccountOf(rows, a.client) {
        var i := AccountIndex(rows, a.client);
      }
    }
  }

  /** The listing is ranked by total and holds no client twice. */
  lemma DisposableRanked(rows: seq<Txn>, maxMonths: int)
    ensures SortedDesc(Disposable(rows, maxMonths), AccountTotal)
    ensures var r := Disposable(rows, maxMonths);
      forall i, j :: 0 <= i < j < |r| ==> r[i].client != r[j].client
  {
    var accounts := Accounts(rows);
    var short := Filter(accounts, (a: Account) => ShortLived(a, maxMonths));
    var r := Disposable(rows, maxMonths);
    var clients := GroupKeys(rows, ClientKey());
    assert NoDuplicates(accounts) by {
      forall i, j | 0 <= i < j < |accounts| ensures accounts[i] != accounts[j] {
        assert accounts[i].client == clients[i] && accounts[j].client == clients[j];
      }
    }
    FilterNoDuplicates(accounts, (a: Account) => ShortLived(a, maxMonths));
    PermutationNoDuplicates(short, r);
    DisposableSpec(rows, maxMonths);
    forall i, j | 0 <= i < j < |r| ensures r[i].client != r[j].client {
      assert r[i] in r && r[j] in r;
    }
  }

  /** A closing date earlier than the opening date is kept, not discarded: such
      an account is always listed (for any non-negative month limit). */
  lemma ClosedBeforeOpened(rows: seq<Txn>, maxMonths: nat, client: string)
    requires Present(rows, ClientKey(), client)
    requires var a := AccountOf(rows, client);
      a.openDay.Some? && a.closeDay.Some? && a.closeDay.value < a.openDay.value
    ensures AccountOf(rows, client) in Disposable(rows, maxMonths)
  {
    DisposableSpec(rows, maxMonths);
  }
}
