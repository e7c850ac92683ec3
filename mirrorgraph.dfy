/** `crear_grafo_coincidencias`: every outflow (Egreso) is paired with every
    inflow (Ingreso) of another client for the same amount (to within 0.01)
    whose date and time lie within a tolerance of hours; the pairs ("mirror
    matches") are folded into a directed graph keyed by the 8-character
    prefixes of the two client ids, each edge counting its matches and
    summing their amounts.

    The graph layout and the Plotly figure are not modelled; the graph is the
    `edges` map of a `MatchGraph` object. */
module MirrorGraph {
  import opened Common
  import opened Tables

  /** One row of `coincidencias`. */
  datatype Match = Match(origin: string, destination: string, amount: Money, fecha: string, hours: real)

  /** The attributes of one edge: `weight` and `monto_total`. */
  datatype Edge = Edge(weight: nat, total: real)

  predicate Stamped(t: Txn)
  {
    t.stamp.Some?
  }

  predicate AllStamped(rows: seq<Txn>)
  {
    forall t :: t in rows ==> Stamped(t)
  }

  /** Outflows whose date and time parse (utils.py drops the others). */
  function Outflows(rows: seq<Txn>): (r: seq<Txn>)
    ensures AllStamped(r)
  {
    Filter(rows, (t: Txn) => t.direction == Egreso && t.stamp.Some?)
  }

  /** Inflows whose date and time parse. */
  function Inflows(rows: seq<Txn>): (r: seq<Txn>)
    ensures AllStamped(r)
  {
    Filter(rows, (t: Txn) => t.direction == Ingreso && t.stamp.Some?)
  }

  /** `abs((egreso - ingreso).total_seconds() / 3600)`. */
  function HoursApart(e: Txn, i: Txn): (h: real)
    requires Stamped(e) && Stamped(i)
    ensures 0.0 <= h
  {
    AbsReal((e.stamp.value - i.stamp.value) as real / 3600.0)
  }

  /** The three tests of the inner loop. */
  predicate Mirrors(e: Txn, i: Txn, tolerance: real)
    requires Stamped(e) && Stamped(i)
  {
    && e.client != i.client
    && AbsReal(e.amount - i.amount) < 0.01
    && HoursApart(e, i) <= tolerance
  }

  function MatchOf(e: Txn, i: Txn): Match
    requires Stamped(e) && Stamped(i)
  {
    Match(Prefix8(e.client), Prefix8(i.client), e.amount, e.fecha, HoursApart(e, i))
  }

  /** The matches of outflow `e`, inflows in order. */
  function MatchesFor(e: Txn, ins: seq<Txn>, tolerance: real): seq<Match>
    requires Stamped(e) && AllStamped(ins)
  {
    if ins == [] then []
    else
      var i := ins[|ins| - 1];
      MatchesFor(e, ins[..|ins| - 1], tolerance) + (if Mirrors(e, i, tolerance) then [MatchOf(e, i)] else [])
  }

  /** All matches, outflows in order and, for each, inflows in order. */
  function AllMatches(outs: seq<Txn>, ins: seq<Txn>, tolerance: real): seq<Match>
    requires AllStamped(outs) && AllStamped(ins)
  {
    if outs == [] then []
    else AllMatches(outs[..|outs| - 1], ins, tolerance) + MatchesFor(outs[|outs| - 1], ins, tolerance)
  }

  lemma {:induction false} MatchesForSpec(e: Txn, ins: seq<Txn>, tolerance: real)
    requires Stamped(e) && AllStamped(ins)
    ensures forall m :: m in MatchesFor(e, ins, tolerance) <==>
      exists i :: i in ins && Mirrors(e, i, tolerance) && m == MatchOf(e, i)
  {
    if ins != [] {
      var init := ins[..|ins| - 1];
      assert ins == init + [ins[|ins| - 1]];
      MatchesForSpec(e, init, tolerance);
    }
  }

  /** A match is produced exactly for each outflow/inflow pair that mirrors:
      different full client ids, amounts within 0.01 of each other, at most
      `tolerance` hours apart; it records the 8-character id prefixes, the
      outflow's amount and date, and the hour difference. */
  lemma {:induction false} AllMatchesSpec(outs: seq<Txn>, ins: seq<Txn>, tolerance: real)
    requires AllStamped(outs) && AllStamped(ins)
    ensures forall m :: m in AllMatches(outs, ins, tolerance) <==>
      exists e, i :: e in outs && i in ins && Mirrors(e, i, tolerance) && m == MatchOf(e, i)
  {
    if outs != [] {
      var init := outs[..|outs| - 1];
      var e := outs[|outs| - 1];
      assert outs == init + [e];
      AllMatchesSpec(init, ins, tolerance);
      MatchesForSpec(e, ins, tolerance);
    }
  }

  /** The nested loop over outflows and inflows. */
  method MatchLoop(outs: seq<Txn>, ins: seq<Txn>, tolerance: real) returns (ms: seq<Match>)
    requires AllStamped(outs) && AllStamped(ins)
    ensures ms == AllMatches(outs, ins, tolerance)
  {
    ms := [];
    var a := 0;
    while a < |outs|
      invariant 0 <= a <= |outs|
      invariant ms == AllMatches(outs[..a], ins, tolerance)
    {
      var egreso := outs[a];
      assert egreso in outs;
      assert outs[..a + 1][..a] == outs[..a];
      var found := MatchOutflow(egreso, ins, tolerance);
      ms := ms + found;
      a := a + 1;
    }
    assert outs[..a] == outs;
  }

  /** The inner loop: the matches of one outflow, appended in inflow order. */
  method MatchOutflow(egreso: Txn, ins: seq<Txn>, tolerance: real) returns (ms: seq<Match>)
    requires Stamped(egreso) && AllStamped(ins)
    ensures ms == MatchesFor(egreso, ins, tolerance)
  {
    ms := [];
    var b := 0;
    while b < |ins|
      invariant 0 <= b <= |ins|
      invariant ms == MatchesFor(egreso, ins[..b], tolerance)
    {
      var ingreso := ins[b];
      assert ingreso in ins;
      assert ins[..b + 1][..b] == ins[..b];
      if egreso.client != ingreso.client {
        if AbsReal(egreso.amount - ingreso.amount) < 0.01 {
          var diffTiempo := AbsReal((egreso.stamp.value - ingreso.stamp.value) as real / 3600.0);
          if diffTiempo <= tolerance {
            ms := ms + [Match(Prefix8(egreso.client), Prefix8(ingreso.client), egreso.amount, egreso.fecha, diffTiempo)];
          }
        }
      }
      b := b + 1;
    }
    assert ins[..b] == ins;
  }

  /** utils.py lines 134-164: the matches between the parsable outflows and
      inflows of `rows`. */
  method FindMatches(rows: seq<Txn>, tolerance: real) returns (ms: seq<Match>)
    ensures ms == AllMatches(Outflows(rows), Inflows(rows), tolerance)
  {
    var egresos := Outflows(rows);
    var ingresos := Inflows(rows);
    ms := MatchLoop(egresos, ingresos, tolerance);
  }

  /** An outflow and an inflow of `rows`, both parsable, that mirror each other. */
  predicate MirrorPair(rows: seq<Txn>, e: Txn, i: Txn, tolerance: real)
  {
    && e in rows && i in rows
    && e.direction == Egreso && i.direction == Ingreso
    && Stamped(e) && Stamped(i)
    && Mirrors(e, i, tolerance)
  }

  /** Every match comes from a parsable outflow and a parsable inflow of
      different clients; rows whose date and time do not parse never match. */
  lemma MatchesFromParsedRows(rows: seq<Txn>, tolerance: real)
    ensures forall m :: m in AllMatches(Outflows(rows), Inflows(rows), tolerance) <==>
      exists e, i :: MirrorPair(rows, e, i, tolerance) && m == MatchOf(e, i)
    ensures forall m :: m in AllMatches(Outflows(rows), Inflows(rows), tolerance) ==>
      |m.origin| <= 8 && |m.destination| <= 8 && 0.0 <= m.hours <= tolerance
  {
    var outs, ins := Outflows(rows), Inflows(rows);
    AllMatchesSpec(outs, ins, tolerance);
    forall m ensures m in AllMatches(outs, ins, tolerance) <==>
      exists e, i :: MirrorPair(rows, e, i, tolerance) && m == MatchOf(e, i)
    {
      if m in AllMatches(outs, ins, tolerance) {
        var e, i :| e in outs && i in ins && Mirrors(e, i, tolerance) && m == MatchOf(e, i);
        assert e in rows && i in rows;
      }
      if exists e, i :: MirrorPair(rows, e, i, tolerance) && m == MatchOf(e, i) {
        var e, i :| MirrorPair(rows, e, i, tolerance) && m == MatchOf(e, i);
        assert e in outs && i in ins;
      }
    }
  }

  // ---------------------------------------------------------------------
  // The graph

  function Key(m: Match): (string, string)
  {
    (m.origin, m.destination)
  }

  /** One iteration of the edge loop: bump an existing edge, or add it with
      weight 1 and the match's amount. */
  function AddEdge(edges: map<(string, string), Edge>, m: Match): map<(string, string), Edge>
  {
    if Key(m) in edges then edges[Key(m) := Edge(edges[Key(m)].weight + 1, edges[Key(m)].total + m.amount)]
    else edges[Key(m) := Edge(1, m.amount)]
  }

  /** The edges after folding the first matches in order. */
  function EdgeTable(ms: seq<Match>): map<(string, string), Edge>
  {
    if ms == [] then map[] else AddEdge(EdgeTable(ms[..|ms| - 1]), ms[|ms| - 1])
  }

  function SumAmounts(ms: seq<Match>): real
  {
    if ms == [] then 0.0 else ms[0].amount + SumAmounts(ms[1..])
  }

  lemma {:induction false} SumAmountsConcat(a: seq<Match>, b: seq<Match>)
    ensures SumAmounts(a + b) == SumAmounts(a) + SumAmounts(b)
  {
    if a == [] {
      assert a + b == b;
    } else {
      assert (a + b)[1..] == a[1..] + b;
      SumAmountsConcat(a[1..], b);
    }
  }

  /** The matches between one origin prefix and one destination prefix. */
  function Between(ms: seq<Match>, k: (string, string)): seq<Match>
  {
    Filter(ms, (m: Match) => Key(m) == k)
  }

  /** The graph has exactly one edge per (origen, destino) pair that some
      match has. */
  lemma {:induction false} EdgeKeys(ms: seq<Match>)
    ensures forall k :: k in EdgeTable(ms) <==> exists m :: m in ms && Key(m) == k
  {
    if ms != [] {
      var init := ms[..|ms| - 1];
      assert ms == init + [ms[|ms| - 1]];
      EdgeKeys(init);
    }
  }

  /** An edge's weight is its number of matches and its monto_total is the
      sum of their amounts. */
  lemma {:induction false} EdgeValues(ms: seq<Match>)
    ensures forall k :: k in EdgeTable(ms) ==>
      EdgeTable(ms)[k] == Edge(|Between(ms, k)|, SumAmounts(Between(ms, k)))
  {
    if ms != [] {
      var init := ms[..|ms| - 1];
      var m := ms[|ms| - 1];
      assert ms == init + [m];
      EdgeValues(init);
      EdgeKeys(init);
      forall k | k in EdgeTable(ms)
        ensures EdgeTable(ms)[k] == Edge(|Between(ms, k)|, SumAmounts(Between(ms, k)))
      {
        if k !in EdgeTable(init) {
          FilterNone(init, (x: Match) => Key(x) == k);
        }
        EdgeStep(init, m, k);
      }
    }
  }

  /** Folding one more match into the edge of `k`. */
  lemma EdgeStep(init: seq<Match>, m: Match, k: (string, string))
    requires k in EdgeTable(init) ==> EdgeTable(init)[k] == Edge(|Between(init, k)|, SumAmounts(Between(init, k)))
    requires k !in EdgeTable(init) ==> Between(init, k) == []
    requires k in EdgeTable(init + [m])
    ensures EdgeTable(init + [m])[k] == Edge(|Between(init + [m], k)|, SumAmounts(Between(init + [m], k)))
  {
    assert (init + [m])[..|init + [m]| - 1] == init;
    FilterConcat(init, [m], (x: Match) => Key(x) == k);
    SumAmountsConcat(Between(init, k), Between([m], k));
    if Key(m) != k {
      assert Between([m], k) == [];
    } else {
      assert Between([m], k) == [m];
    }
  }

  /** Every edge carries at least one match. */
  lemma EdgeWeightsPositive(ms: seq<Match>)
    ensures forall k :: k in EdgeTable(ms) ==> EdgeTable(ms)[k].weight >= 1
  {
    EdgeKeys(ms);
    EdgeValues(ms);
    forall k | k in EdgeTable(ms) ensures EdgeTable(ms)[k].weight >= 1 {
      var m :| m in ms && Key(m) == k;
      assert m in Between(ms, k);
    }
  }

  /** The graph a match list is folded into (`nx.DiGraph`, edges only). */
  class MatchGraph {
    var edges: map<(string, string), Edge>

    constructor ()
      ensures edges == map[]
    {
      edges := map[];
    }

    /** `has_edge` then bump, or `add_edge(weight=1, monto_total=monto)`. */
    method AddMatch(m: Match)
      modifies this
      ensures edges == AddEdge(old(edges), m)
      ensures Key(m) in edges && edges[Key(m)].weight >= 1
      ensures forall k :: k != Key(m) ==> (k in edges <==> k in old(edges))
      ensures forall k :: k != Key(m) && k in edges ==> edges[k] == old(edges)[k]
    {
      var k := Key(m);
      if k in edges {
        edges := edges[k := Edge(edges[k].weight + 1, edges[k].total + m.amount)];
      } else {
        edges := edges[k := Edge(1, m.amount)];
      }
    }
  }

  /** Folds the matches into a new graph, one AddMatch per match in order. */
  method FoldMatches(ms: seq<Match>) returns (g: MatchGraph)
    ensures fresh(g)
    ensures g.edges == EdgeTable(ms)
  {
    g := new MatchGraph();
    var j := 0;
    while j < |ms|
      invariant 0 <= j <= |ms|
      invariant g.edges == EdgeTable(ms[..j])
    {
      assert ms[..j + 1][..j] == ms[..j];
      g.AddMatch(ms[j]);
      j := j + 1;
    }
    assert ms[..j] == ms;
  }

  /** utils.py `crear_grafo_coincidencias` without the drawing: the matches,
      and no graph (`None`) when there are none. */
  method BuildGraph(rows: seq<Txn>, tolerance: real) returns (ms: seq<Match>, g: MatchGraph?)
    ensures ms == AllMatches(Outflows(rows), Inflows(rows), tolerance)
    ensures g == null <==> ms == []
    ensures g != null ==> fresh(g) && g.edges == EdgeTable(ms)
  {
    ms := FindMatches(rows, tolerance);
    if ms == [] {
      return ms, null;
    }
    g := FoldMatches(ms);
  }

  /** Two clients whose ids share their first eight characters become one
      node: a mirror match between them is drawn as a self-loop. */
  lemma SharedPrefixSelfLoop(rows: seq<Txn>, e: Txn, i: Txn, tolerance: real)
    requires e in Outflows(rows) && i in Inflows(rows)
    requires Mirrors(e, i, tolerance) && Prefix8(e.client) == Prefix8(i.client)
    ensures e.client != i.client
    ensures (Prefix8(e.client), Prefix8(e.client)) in EdgeTable(AllMatches(Outflows(rows), Inflows(rows), tolerance))
  {
    var ms := AllMatches(Outflows(rows), Inflows(rows), tolerance);
    AllMatchesSpec(Outflows(rows), Inflows(rows), tolerance);
    assert MatchOf(e, i) in ms;
    EdgeKeys(ms);
  }

  // ---------------------------------------------------------------------
  // utils_backup.py: no coerce, no dropna

  /** Every outflow and inflow has a date and time that parse; otherwise
      `pd.to_datetime` raises in utils_backup.py. */
  predicate Parsable(rows: seq<Txn>)
  {
    forall t :: t in rows && (t.direction == Egreso || t.direction == Ingreso) ==> Stamped(t)
  }

  /** utils_backup.py `crear_grafo_coincidencias` without the drawing:
      `parsed` is false where the parse raises. */
  method BuildGraphBackup(rows: seq<Txn>, tolerance: real) returns (parsed: bool, ms: seq<Match>, g: MatchGraph?)
    ensures parsed <==> Parsable(rows)
    ensures !parsed ==> ms == [] && g == null
    ensures parsed ==> ms == AllMatches(Outflows(rows), Inflows(rows), tolerance)
    ensures parsed ==> (g == null <==> ms == [])
    ensures parsed && g != null ==> fresh(g) && g.edges == EdgeTable(ms)
  {
    var egresos := Filter(rows, (t: Txn) => t.direction == Egreso);
    var ingresos := Filter(rows, (t: Txn) => t.direction == Ingreso);
    if !(AllStamped(egresos) && AllStamped(ingresos)) {
      return false, [], null;
    }
    BackupSelectsSameRows(rows);
    ms := MatchLoop(egresos, ingresos, tolerance);
    if ms == [] {
      return true, ms, null;
    }
    g := FoldMatches(ms);
    parsed := true;
  }

  /** The direction masks of utils_backup.py select exactly the rows utils.py
      keeps when every outflow and inflow parses, and some such row lacks a
      timestamp otherwise. */
  lemma BackupSelectsSameRows(rows: seq<Txn>)
    ensures Parsable(rows) <==>
      AllStamped(Filter(rows, (t: Txn) => t.direction == Egreso)) && AllStamped(Filter(rows, (t: Txn) => t.direction == Ingreso))
    ensures Parsable(rows) ==> Filter(rows, (t: Txn) => t.direction == Egreso) == Outflows(rows)
    ensures Parsable(rows) ==> Filter(rows, (t: Txn) => t.direction == Ingreso) == Inflows(rows)
  {
    if Parsable(rows) {
      FilterSame(rows, (t: Txn) => t.direction == Egreso, (t: Txn) => t.direction == Egreso && t.stamp.Some?);
      FilterSame(rows, (t: Txn) => t.direction == Ingreso, (t: Txn) => t.direction == Ingreso && t.stamp.Some?);
    }
  }
}
