/** `obtener_datos_caso`: the query that scopes the analysis to one case.
    The builder starts from a fixed SELECT joined with the case members and
    appends one `AND` clause, with one `?` placeholder and one parameter, for
    every filter the analyst set.  The model keeps the query text, the
    parameter list, and the row predicate the clauses denote; executing the
    query against SQLite is outside the model. */
module CaseQuery {
  import opened Common
  import opened Tables
  import opened QueryText

  /** The case id as a caller hands it over: a Python int, or the numpy
      integer that a pandas cell holds. */
  datatype CaseId = PyInt(n: int) | NumpyInt64(n: int)

  datatype Param = IdParam(id: CaseId) | TextParam(text: string) | AmountParam(amount: real)

  /** The `filtros` dictionary.  A missing key and a `None` value are both
      `None`; an empty dictionary behaves as `Some` of all-`None` fields and
      as an absent dictionary alike. */
  datatype Filters = Filters(
    currency: Option<string>,   // moneda
    docType: Option<string>,    // tipo_documento
    minAmount: Option<real>,    // monto_min
    maxAmount: Option<real>,    // monto_max
    fromDate: Option<string>,   // fecha_min, 'YYYY-MM-DD'
    toDate: Option<string>)     // fecha_max

  /** One appended `AND` clause, carrying the value bound to its placeholder. */
  datatype Clause =
    | CurrencyIs(currency: string)
    | DocTypeIs(docType: string)
    | AmountAtLeast(lo: real)
    | AmountAtMost(hi: real)
    | DateFrom(since: string)
    | DateTo(until: string)

  // ---------------------------------------------------------------------
  // Query text

  function BaseQuery(): string
  {
    BaseHead + "?" + BaseTail
  }

  function BackupBaseQuery(): string
  {
    BackupBaseHead + "?" + BaseTail
  }

  /** The column test a clause appends in front of its placeholder. */
  function ClauseHead(c: Clause): string
  {
    match c
    case CurrencyIs(_) => " AND t.moneda = "
    case DocTypeIs(_) => " AND t.destipdocumento = "
    case AmountAtLeast(_) => " AND t.monto >= "
    case AmountAtMost(_) => " AND t.monto <= "
    case DateFrom(_) => " AND t.fecha >= "
    case DateTo(_) => " AND t.fecha <= "
  }

  function ClauseText(c: Clause): string
  {
    ClauseHead(c) + "?"
  }

  function ClauseParam(c: Clause): Param
  {
    match c
    case CurrencyIs(v) => TextParam(v)
    case DocTypeIs(v) => TextParam(v)
    case AmountAtLeast(a) => AmountParam(a)
    case AmountAtMost(a) => AmountParam(a)
    case DateFrom(d) => TextParam(d)
    case DateTo(d) => TextParam(d)
  }

  function ClausesText(cs: seq<Clause>): string
  {
    if cs == [] then "" else ClausesText(cs[..|cs| - 1]) + ClauseText(cs[|cs| - 1])
  }

  function ClauseParams(cs: seq<Clause>): (ps: seq<Param>)
    ensures |ps| == |cs|
  {
    if cs == [] then [] else ClauseParams(cs[..|cs| - 1]) + [ClauseParam(cs[|cs| - 1])]
  }

  /** Number of `?` placeholders in a query text. */
  function Placeholders(q: string): nat
  {
    |Filter(q, (c: char) => c == '?')|
  }

  // ---------------------------------------------------------------------
  // Which clauses a filter set produces

  /** Python truthiness of an optional string: present and non-empty. */
  predicate Truthy(v: Option<string>)
  {
    v.Some? && v.value != ""
  }

  /** A choice filter (`moneda`, `tipo_documento`) restricts only when it is
      truthy and not the catch-all `'AMBOS'`. */
  predicate Restricts(v: Option<string>)
  {
    Truthy(v) && v.value != "AMBOS"
  }

  /** The clause, if any, that the `k`-th filter test (0 = moneda ..
      5 = fecha_max) appends. */
  function Slot(f: Filters, k: nat): seq<Clause>
  {
    if k == 0 then (if Restricts(f.currency) then [CurrencyIs(f.currency.value)] else [])
    else if k == 1 then (if Restricts(f.docType) then [DocTypeIs(f.docType.value)] else [])
    else if k == 2 then (if f.minAmount.Some? then [AmountAtLeast(f.minAmount.value)] else [])
    else if k == 3 then (if f.maxAmount.Some? then [AmountAtMost(f.maxAmount.value)] else [])
    else if k == 4 then (if Truthy(f.fromDate) then [DateFrom(f.fromDate.value)] else [])
    else if k == 5 then (if Truthy(f.toDate) then [DateTo(f.toDate.value)] else [])
    else []
  }

  /** The clauses appended by the first `k` filter tests. */
  function Chosen(f: Filters, k: nat): seq<Clause>
  {
    if k == 0 then [] else Chosen(f, k - 1) + Slot(f, k - 1)
  }

  /** The clauses appended for a filter set, in the order the builder tests them. */
  function ActiveClauses(filters: Option<Filters>): seq<Clause>
  {
    match filters
    case None => []
    case Some(f) => Chosen(f, 6)
  }

  // ---------------------------------------------------------------------
  // The builders

  /** The `if filtros:` block shared by both versions: the six filter tests,
      in source order, each appending its clause and parameter. */
  method AppendFilters(query0: string, params0: seq<Param>, filters: Option<Filters>)
    returns (query: string, params: seq<Param>)
    ensures query == query0 + ClausesText(ActiveClauses(filters))
    ensures params == params0 + ClauseParams(ActiveClauses(filters))
  {
    query, params := query0, params0;
    if filters.Some? {
      var f := filters.value;
      query, params := AppendChoiceFilters(query, params, f);
      query, params := AppendAmountFilters(query, params, f);
      query, params := AppendDateFilters(query, params, f);
      ChosenInPairs(query0, params0, f);
    }
  }

  /** The `moneda` and `tipo_documento` tests. */
  method AppendChoiceFilters(query0: string, params0: seq<Param>, f: Filters) returns (query: string, params: seq<Param>)
    ensures query == query0 + ClausesText(Slot(f, 0)) + ClausesText(Slot(f, 1))
    ensures params == params0 + ClauseParams(Slot(f, 0)) + ClauseParams(Slot(f, 1))
  {
    query, params := query0, params0;
    EmptyClauses();
    if f.currency.Some? && f.currency.value != "" && f.currency.value != "AMBOS" {
      var c := CurrencyIs(f.currency.value);
      SingleClause(c);
      query := query + ClauseText(c);
      params := params + [ClauseParam(c)];
    }
    assert query == query0 + ClausesText(Slot(f, 0)) && params == params0 + ClauseParams(Slot(f, 0));
    if f.docType.Some? && f.docType.value != "" && f.docType.value != "AMBOS" {
      var c := DocTypeIs(f.docType.value);
      SingleClause(c);
      query := query + ClauseText(c);
      params := params + [ClauseParam(c)];
    }
  }

  /** The `monto_min` and `monto_max` tests. */
  method AppendAmountFilters(query0: string, params0: seq<Param>, f: Filters) returns (query: string, params: seq<Param>)
    ensures query == query0 + ClausesText(Slot(f, 2)) + ClausesText(Slot(f, 3))
    ensures params == params0 + ClauseParams(Slot(f, 2)) + ClauseParams(Slot(f, 3))
  {
    query, params := query0, params0;
    EmptyClauses();
    if f.minAmount.Some? {
      var c := AmountAtLeast(f.minAmount.value);
      SingleClause(c);
      query := query + ClauseText(c);
      params := params + [ClauseParam(c)];
    }
    assert query == query0 + ClausesText(Slot(f, 2)) && params == params0 + ClauseParams(Slot(f, 2));
    if f.maxAmount.Some? {
      var c := AmountAtMost(f.maxAmount.value);
      SingleClause(c);
      query := query + ClauseText(c);
      params := params + [ClauseParam(c)];
    }
  }

  /** The `fecha_min` and `fecha_max` tests. */
  method AppendDateFilters(query0: string, params0: seq<Param>, f: Filters) returns (query: string, params: seq<Param>)
    ensures query == query0 + ClausesText(Slot(f, 4)) + ClausesText(Slot(f, 5))
    ensures params == params0 + ClauseParams(Slot(f, 4)) + ClauseParams(Slot(f, 5))
  {
    query, params := query0, params0;
    EmptyClauses();
    if f.fromDate.Some? && f.fromDate.value != "" {
      var c := DateFrom(f.fromDate.value);
      SingleClause(c);
      query := query + ClauseText(c);
      params := params + [ClauseParam(c)];
    }
    assert query == query0 + ClausesText(Slot(f, 4)) && params == params0 + ClauseParams(Slot(f, 4));
    if f.toDate.Some? && f.toDate.value != "" {
      var c := DateTo(f.toDate.value);
      SingleClause(c);
      query := query + ClauseText(c);
      params := params + [ClauseParam(c)];
    }
  }

  /** utils.py: the id is coerced with `int(id_caso)` before it is bound. */
  method BuildCaseQuery(id: CaseId, filters: Option<Filters>) returns (query: string, params: seq<Param>)
    ensures |params| >= 1 && params[0] == IdParam(PyInt(id.n))
    ensures Placeholders(query) == |params|
    ensures query == BaseQuery() + ClausesText(ActiveClauses(filters))
    ensures params[1..] == ClauseParams(ActiveClauses(filters))
  {
    query, params := AppendFilters(BaseQuery(), [IdParam(PyInt(id.n))], filters);
    BaseHasOnePlaceholder();
    QueryPlaceholders(BaseQuery(), ActiveClauses(filters));
  }

  /** utils_backup.py: the id is bound exactly as the caller passed it. */
  method BuildCaseQueryBackup(id: CaseId, filters: Option<Filters>) returns (query: string, params: seq<Param>)
    ensures |params| >= 1 && params[0] == IdParam(id)
    ensures Placeholders(query) == |params|
    ensures query == BackupBaseQuery() + ClausesText(ActiveClauses(filters))
    ensures params[1..] == ClauseParams(ActiveClauses(filters))
  {
    query, params := AppendFilters(BackupBaseQuery(), [IdParam(id)], filters);
    BackupBaseHasOnePlaceholder();
    QueryPlaceholders(BackupBaseQuery(), ActiveClauses(filters));
  }

  // ---------------------------------------------------------------------
  // Lemmas about the query text

  /** A base query with one placeholder plus the clauses has one placeholder
      per parameter. */
  lemma QueryPlaceholders(base: string, cs: seq<Clause>)
    requires Placeholders(base) == 1
    ensures Placeholders(base + ClausesText(cs)) == 1 + |cs|
  {
    ClausesPlaceholders(cs);
    PlaceholdersConcat(base, ClausesText(cs));
  }

  lemma PlaceholdersConcat(a: string, b: string)
    ensures Placeholders(a + b) == Placeholders(a) + Placeholders(b)
  {
    FilterConcat(a, b, (c: char) => c == '?');
  }

  lemma NoPlaceholder(s: string)
    requires '?' !in s
    ensures Placeholders(s) == 0
  {
    FilterNone(s, (c: char) => c == '?');
  }

  lemma OnePlaceholder(head: string)
    requires '?' !in head
    ensures Placeholders(head + "?") == 1
  {
    NoPlaceholder(head);
    PlaceholdersConcat(head, "?");
    FilterKeepsAll("?", (c: char) => c == '?');
  }

  lemma EmptyClauses()
    ensures ClausesText([]) == "" && ClauseParams([]) == []
  {
  }

  lemma {:induction false} ClausesConcat(a: seq<Clause>, b: seq<Clause>)
    ensures ClausesText(a + b) == ClausesText(a) + ClausesText(b)
    ensures ClauseParams(a + b) == ClauseParams(a) + ClauseParams(b)
    decreases |b|
  {
    if b == [] {
      assert a + b == a;
    } else {
      var b' := b[..|b| - 1];
      ClausesConcat(a, b');
      assert (a + b)[..|a + b| - 1] == a + b';
      assert (a + b)[|a + b| - 1] == b[|b| - 1];
      Associative(ClausesText(a), ClausesText(b'), ClauseText(b[|b| - 1]));
      Associative(ClauseParams(a), ClauseParams(b'), [ClauseParam(b[|b| - 1])]);
    }
  }

  /** The six tests' text and parameters, appended pair by pair, are those of
      the whole clause list. */
  lemma ChosenInPairs(query0: string, params0: seq<Param>, f: Filters)
    ensures query0 + ClausesText(Slot(f, 0)) + ClausesText(Slot(f, 1)) + ClausesText(Slot(f, 2)) + ClausesText(Slot(f, 3))
              + ClausesText(Slot(f, 4)) + ClausesText(Slot(f, 5)) == query0 + ClausesText(Chosen(f, 6))
    ensures params0 + ClauseParams(Slot(f, 0)) + ClauseParams(Slot(f, 1)) + ClauseParams(Slot(f, 2)) + ClauseParams(Slot(f, 3))
              + ClauseParams(Slot(f, 4)) + ClauseParams(Slot(f, 5)) == params0 + ClauseParams(Chosen(f, 6))
  {
    ChosenText(query0, f, 6);
    ChosenParams(params0, f, 6);
    assert AppendedText(query0, f, 1) == query0 + ClausesText(Slot(f, 0));
    assert AppendedText(query0, f, 3) == AppendedText(query0, f, 1) + ClausesText(Slot(f, 1)) + ClausesText(Slot(f, 2));
    assert AppendedText(query0, f, 5) == AppendedText(query0, f, 3) + ClausesText(Slot(f, 3)) + ClausesText(Slot(f, 4));
    assert AppendedParams(params0, f, 1) == params0 + ClauseParams(Slot(f, 0));
    assert AppendedParams(params0, f, 3) == AppendedParams(params0, f, 1) + ClauseParams(Slot(f, 1)) + ClauseParams(Slot(f, 2));
    assert AppendedParams(params0, f, 5) == AppendedParams(params0, f, 3) + ClauseParams(Slot(f, 3)) + ClauseParams(Slot(f, 4));
  }

  lemma {:induction false} ChosenText(query0: string, f: Filters, k: nat)
    requires k <= 6
    ensures query0 + ClausesText(Chosen(f, k)) == AppendedText(query0, f, k)
  {
    if k > 0 {
      ChosenText(query0, f, k - 1);
      ClausesConcat(Chosen(f, k - 1), Slot(f, k - 1));
      Associative(query0, ClausesText(Chosen(f, k - 1)), ClausesText(Slot(f, k - 1)));
    } else {
      EmptyClauses();
    }
  }

  lemma {:induction false} ChosenParams(params0: seq<Param>, f: Filters, k: nat)
    requires k <= 6
    ensures params0 + ClauseParams(Chosen(f, k)) == AppendedParams(params0, f, k)
  {
    if k > 0 {
      ChosenParams(params0, f, k - 1);
      ClausesConcat(Chosen(f, k - 1), Slot(f, k - 1));
      Associative(params0, ClauseParams(Chosen(f, k - 1)), ClauseParams(Slot(f, k - 1)));
    } else {
      EmptyClauses();
    }
  }

  /** The query after the first `k` tests, appended one test at a time. */
  function AppendedText(query0: string, f: Filters, k: nat): string
  {
    if k == 0 then query0 else AppendedText(query0, f, k - 1) + ClausesText(Slot(f, k - 1))
  }

  function AppendedParams(params0: seq<Param>, f: Filters, k: nat): seq<Param>
  {
    if k == 0 then params0 else AppendedParams(params0, f, k - 1) + ClauseParams(Slot(f, k - 1))
  }

  lemma Associative<T>(a: seq<T>, b: seq<T>, c: seq<T>)
    ensures (a + b) + c == a + (b + c)
  {
  }

  lemma SingleClause(c: Clause)
    ensures ClausesText([c]) == ClauseText(c)
    ensures ClauseParams([c]) == [ClauseParam(c)]
  {
    assert [c][..0] == [];
  }

  lemma BaseHasOnePlaceholder()
    ensures Placeholders(BaseQuery()) == 1
  {
    BaseHeadClean();
    OnePlaceholder(BaseHead);
    NoPlaceholder(BaseTail);
    PlaceholdersConcat(BaseHead + "?", BaseTail);
  }

  lemma BackupBaseHasOnePlaceholder()
    ensures Placeholders(BackupBaseQuery()) == 1
  {
    BackupHeadClean();
    OnePlaceholder(BackupBaseHead);
    NoPlaceholder(BaseTail);
    PlaceholdersConcat(BackupBaseHead + "?", BaseTail);
  }

  lemma ClauseHasOnePlaceholder(c: Clause)
    ensures Placeholders(ClauseText(c)) == 1
  {
    match c
    case CurrencyIs(_) => OnePlaceholder(" AND t.moneda = ");
    case DocTypeIs(_) => OnePlaceholder(" AND t.destipdocumento = ");
    case AmountAtLeast(_) => OnePlaceholder(" AND t.monto >= ");
    case AmountAtMost(_) => OnePlaceholder(" AND t.monto <= ");
    case DateFrom(_) => OnePlaceholder(" AND t.fecha >= ");
    case DateTo(_) => OnePlaceholder(" AND t.fecha <= ");
  }

  /** Every clause carries exactly one placeholder. */
  lemma {:induction false} ClausesPlaceholders(cs: seq<Clause>)
    ensures Placeholders(ClausesText(cs)) == |cs|
  {
    if cs != [] {
      ClausesPlaceholders(cs[..|cs| - 1]);
      var c := cs[|cs| - 1];
      ClauseHasOnePlaceholder(c);
      PlaceholdersConcat(ClausesText(cs[..|cs| - 1]), ClauseText(c));
    }
  }

  /** Position of a clause kind in the builder's fixed testing order. */
  function Rank(c: Clause): nat
  {
    match c
    case CurrencyIs(_) => 0
    case DocTypeIs(_) => 1
    case AmountAtLeast(_) => 2
    case AmountAtMost(_) => 3
    case DateFrom(_) => 4
    case DateTo(_) => 5
  }

  lemma SlotShape(f: Filters, k: nat)
    ensures |Slot(f, k)| <= 1
    ensures forall c :: c in Slot(f, k) ==> Rank(c) == k
  {
  }

  lemma {:induction false} ChosenOrdered(f: Filters, k: nat)
    ensures forall i :: 0 <= i < |Chosen(f, k)| ==> Rank(Chosen(f, k)[i]) < k
    ensures forall i, j :: 0 <= i < j < |Chosen(f, k)| ==> Rank(Chosen(f, k)[i]) < Rank(Chosen(f, k)[j])
  {
    if k > 0 {
      ChosenOrdered(f, k - 1);
      SlotShape(f, k - 1);
      var prev := Chosen(f, k - 1);
      assert Chosen(f, k) == prev + Slot(f, k - 1);
      forall i | |prev| <= i < |Chosen(f, k)| ensures Rank(Chosen(f, k)[i]) == k - 1 {
        assert Chosen(f, k)[i] in Slot(f, k - 1);
      }
    }
  }

  /** Clauses always come in the order moneda, tipo_documento, monto_min,
      monto_max, fecha_min, fecha_max, each kind at most once. */
  lemma ClauseOrder(filters: Option<Filters>)
    ensures forall i, j :: 0 <= i < j < |ActiveClauses(filters)| ==>
      Rank(ActiveClauses(filters)[i]) < Rank(ActiveClauses(filters)[j])
  {
    if filters.Some? {
      ChosenOrdered(filters.value, 6);
    }
  }

  /** A clause is among the first `k` tests' clauses exactly when its own
      test comes before `k` and produced it. */
  lemma {:induction false} ChosenMembers(f: Filters, k: nat)
    ensures forall c :: c in Chosen(f, k) <==> Rank(c) < k && c in Slot(f, Rank(c))
  {
    if k > 0 {
      ChosenMembers(f, k - 1);
      SlotShape(f, k - 1);
      assert Chosen(f, k) == Chosen(f, k - 1) + Slot(f, k - 1);
    }
  }

  /** The choice filters are applied exactly when truthy and not `'AMBOS'`;
      the amount bounds exactly when not None, so a bound of 0.0 applies;
      the dates exactly when truthy.  Each clause binds the filter's own value. */
  lemma ClauseRules(f: Filters)
    ensures forall v :: CurrencyIs(v) in ActiveClauses(Some(f)) <==> Restricts(f.currency) && v == f.currency.value
    ensures forall v :: DocTypeIs(v) in ActiveClauses(Some(f)) <==> Restricts(f.docType) && v == f.docType.value
    ensures forall a :: AmountAtLeast(a) in ActiveClauses(Some(f)) <==> f.minAmount == Some(a)
    ensures forall a :: AmountAtMost(a) in ActiveClauses(Some(f)) <==> f.maxAmount == Some(a)
    ensures forall d :: DateFrom(d) in ActiveClauses(Some(f)) <==> Truthy(f.fromDate) && d == f.fromDate.value
    ensures forall d :: DateTo(d) in ActiveClauses(Some(f)) <==> Truthy(f.toDate) && d == f.toDate.value
  {
    ChosenMembers(f, 6);
  }

  // ---------------------------------------------------------------------
  // What the query selects

  /** SQLite's comparison of TEXT values: byte-wise lexicographic order. */
  predicate TextLeq(a: string, b: string)
    decreases |a|
  {
    a == [] || (b != [] && (a[0] < b[0] || (a[0] == b[0] && TextLeq(a[1..], b[1..]))))
  }

  /** Whether a row passes one appended clause. */
  predicate Satisfies(t: Txn, c: Clause)
  {
    match c
    case CurrencyIs(v) => t.currency == v
    case DocTypeIs(v) => t.docType == v
    case AmountAtLeast(lo) => lo <= t.amount
    case AmountAtMost(hi) => t.amount <= hi
    case DateFrom(d) => TextLeq(d, t.fecha)
    case DateTo(d) => TextLeq(t.fecha, d)
  }

  predicate SatisfiesAll(t: Txn, cs: seq<Clause>)
  {
    forall c :: c in cs ==> Satisfies(t, c)
  }

  /** The filters read as an analyst reads them: each one is either unset
      (absent, empty, or `'AMBOS'` for the choices) or restricts its column. */
  predicate InScope(t: Txn, filters: Option<Filters>)
  {
    match filters
    case None => true
    case Some(f) =>
      && (f.currency.None? || f.currency.value == "" || f.currency.value == "AMBOS" || t.currency == f.currency.value)
      && (f.docType.None? || f.docType.value == "" || f.docType.value == "AMBOS" || t.docType == f.docType.value)
      && (f.minAmount.None? || f.minAmount.value <= t.amount)
      && (f.maxAmount.None? || t.amount <= f.maxAmount.value)
      && (f.fromDate.None? || f.fromDate.value == "" || TextLeq(f.fromDate.value, t.fecha))
      && (f.toDate.None? || f.toDate.value == "" || TextLeq(t.fecha, f.toDate.value))
  }

  /** The appended clauses select exactly the rows inside the analyst's filters. */
  lemma ClausesMeanScope(t: Txn, filters: Option<Filters>)
    ensures SatisfiesAll(t, ActiveClauses(filters)) <==> InScope(t, filters)
  {
    if filters.Some? {
      var f := filters.value;
      ClauseRules(f);
      var cs := ActiveClauses(filters);
      if Restricts(f.currency) { assert CurrencyIs(f.currency.value) in cs; }
      if Restricts(f.docType) { assert DocTypeIs(f.docType.value) in cs; }
      if f.minAmount.Some? { assert AmountAtLeast(f.minAmount.value) in cs; }
      if f.maxAmount.Some? { assert AmountAtMost(f.maxAmount.value) in cs; }
      if Truthy(f.fromDate) { assert DateFrom(f.fromDate.value) in cs; }
      if Truthy(f.toDate) { assert DateTo(f.toDate.value) in cs; }
    }
  }

  /** The case's rows: the transactions of clients linked to the case
      (`members`, the `caso_involucrados` rows of this id) that pass every
      appended clause, in table order. */
  function CaseRows(rows: seq<Txn>, members: set<string>, filters: Option<Filters>): (r: seq<Txn>)
    ensures forall t :: t in r <==> t in rows && t.client in members && InScope(t, filters)
    ensures forall t :: multiset(r)[t] == if t.client in members && InScope(t, filters) then multiset(rows)[t] else 0
  {
    var cs := ActiveClauses(filters);
    var selected := (t: Txn) => t.client in members && SatisfiesAll(t, cs);
    forall t ensures SatisfiesAll(t, cs) <==> InScope(t, filters) {
      ClausesMeanScope(t, filters);
    }
    assert forall t :: multiset(Filter(rows, selected))[t] == if selected(t) then multiset(rows)[t] else 0 by {
      forall t ensures multiset(Filter(rows, selected))[t] == if selected(t) then multiset(rows)[t] else 0 {
        FilterMultiset(rows, selected, t);
      }
    }
    Filter(rows, selected)
  }

  // ---------------------------------------------------------------------
  // Binding the case id

  /** The value SQLite compares with `ci.id_caso`.  `sqlite3` binds a Python
      int as an INTEGER; a numpy int64 is no int subclass and `sqlite3`
      binds it through the buffer protocol, as a BLOB holding its eight
      bytes. */
  datatype SqlValue = SqlInteger(v: int) | SqlBlob(v: int)

  function Bind(id: CaseId): SqlValue
  {
    match id
    case PyInt(n) => SqlInteger(n)
    case NumpyInt64(n) => SqlBlob(n)
  }

  /** `ci.id_caso = ?` on the INTEGER column: in SQLite no INTEGER value is
      equal to a BLOB. */
  predicate IdMatches(column: int, v: SqlValue)
  {
    v == SqlInteger(column)
  }

  /** The case members the join selects: the clients of the
      `caso_involucrados` links whose `id_caso` equals the bound value. */
  function Members(links: seq<(int, string)>, v: SqlValue): (r: set<string>)
    ensures v.SqlBlob? ==> r == {}
    ensures v.SqlInteger? ==> forall c :: c in r <==> (v.v, c) in links
  {
    set l | l in links && IdMatches(l.0, v) :: l.1
  }

  /** As written in utils_backup.py: the numpy id from the cases table is
      bound as a BLOB, so the join finds no member and the case has no rows,
      whatever the links and the filters. */
  lemma BackupIdSelectsNothing(rows: seq<Txn>, links: seq<(int, string)>, p: Param, filters: Option<Filters>)
    requires p.IdParam? && p.id.NumpyInt64?
    ensures Members(links, Bind(p.id)) == {}
    ensures CaseRows(rows, Members(links, Bind(p.id)), filters) == []
  {
    var m := Members(links, Bind(p.id));
    assert m == {};
    var r := CaseRows(rows, m, filters);
    assert forall t :: t !in r;
    EmptyOrHeadIn(r);
  }

  lemma EmptyOrHeadIn<T>(s: seq<T>)
    ensures s == [] || s[0] in s
  {
  }

  /** As corrected in utils.py: the id coerced with `int` is bound as an
      INTEGER, and the join selects exactly the clients linked to the
      case. */
  lemma CoercedIdSelectsCase(links: seq<(int, string)>, p: Param)
    requires p.IdParam? && p.id.PyInt?
    ensures forall c :: c in Members(links, Bind(p.id)) <==> (p.id.n, c) in links
  {
  }
}
