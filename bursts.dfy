/** The burst ("explosión de pitufeo") detector: for every client and every
    one of the client's low-amount operations on the watched channels, the
    operations falling in the closed window [start, start + hours] are
    counted, and a window holding ten or more is reported.  Every start is
    tried (no skipping ahead after a hit) and repeated reports are dropped at
    the end. */
module Bursts {
  import opened Common
  import opened Tables

  predicate WatchedChannel(t: Txn)
  {
    t.channel == Some("CAJEROS AUTOMATICOS") || t.channel == Some("AGENTE BCP") || t.channel == Some("YAPE")
  }

  /** Below the amount cap, on a watched channel, with a date and time that
      parse (`errors='coerce'` then `dropna`). */
  predicate Qualifies(t: Txn, maxAmount: real)
  {
    t.amount < maxAmount && WatchedChannel(t) && t.stamp.Some?
  }

  function StampOf(t: Txn): int
  {
    if t.stamp.Some? then t.stamp.value else 0
  }

  /** Sort key for `sort_values('fecha_hora')` (ascending) as a descending rank. */
  function Earliness(t: Txn): real
  {
    -(StampOf(t) as real)
  }

  /** The qualifying operations of the case, in time order. */
  function Qualifying(rows: seq<Txn>, maxAmount: real): (r: seq<Txn>)
    ensures forall t :: t in r <==> t in rows && Qualifies(t, maxAmount)
    ensures forall t :: multiset(r)[t] == if Qualifies(t, maxAmount) then multiset(rows)[t] else 0
    ensures SortedDesc(r, Earliness)
  {
    var ops := Filter(rows, (t: Txn) => Qualifies(t, maxAmount));
    var sorted := SortDesc(ops, Earliness);
    assert forall t :: t in sorted <==> t in multiset(ops);
    assert forall t :: multiset(ops)[t] == if Qualifies(t, maxAmount) then multiset(rows)[t] else 0 by {
      forall t ensures multiset(ops)[t] == if Qualifies(t, maxAmount) then multiset(rows)[t] else 0 {
        FilterMultiset(rows, (t: Txn) => Qualifies(t, maxAmount), t);
      }
    }
    sorted
  }

  /** `df_cliente`: one client's operations. */
  function OwnOps(ops: seq<Txn>, client: string): (r: seq<Txn>)
    ensures forall t :: t in r <==> t in ops && t.client == client
    ensures forall t :: multiset(r)[t] == if t.client == client then multiset(ops)[t] else 0
  {
    var mine := (t: Txn) => t.client == client;
    assert forall t :: multiset(Filter(ops, mine))[t] == if mine(t) then multiset(ops)[t] else 0 by {
      forall t ensures multiset(Filter(ops, mine))[t] == if mine(t) then multiset(ops)[t] else 0 {
        FilterMultiset(ops, mine, t);
      }
    }
    Filter(ops, mine)
  }

  predicate InWindow(t: Txn, start: int, hours: nat)
  {
    t.stamp.Some? && start <= t.stamp.value <= start + hours * 3600
  }

  /** `ops_en_ventana`: the operations in the closed window from `start`. */
  function Window(mine: seq<Txn>, start: int, hours: nat): (r: seq<Txn>)
    ensures forall t :: t in r <==> t in mine && InWindow(t, start, hours)
  {
    Filter(mine, (t: Txn) => InWindow(t, start, hours))
  }

  /** One reported window: 8-character client prefix, start, size and amount. */
  datatype Burst = Burst(client: string, start: int, count: nat, total: real)

  function BurstAt(mine: seq<Txn>, client: string, start: int, hours: nat): Burst
  {
    var w := Window(mine, start, hours);
    Burst(Prefix8(client), start, |w|, Total(w))
  }

  /** The reports for the first `n` start positions of one client. */
  function ClientBursts(mine: seq<Txn>, client: string, hours: nat, n: nat): (r: seq<Burst>)
    requires n <= |mine|
  {
    if n == 0 then []
    else
      var b := BurstAt(mine, client, StampOf(mine[n - 1]), hours);
      ClientBursts(mine, client, hours, n - 1) + (if b.count >= 10 then [b] else [])
  }

  /** The reports for the given clients, in order. */
  function AllBursts(ops: seq<Txn>, clients: seq<string>, hours: nat): (r: seq<Burst>)
  {
    if clients == [] then []
    else
      var c := clients[|clients| - 1];
      var mine := OwnOps(ops, c);
      AllBursts(ops, clients[..|clients| - 1], hours) + ClientBursts(mine, c, hours, |mine|)
  }

  function BurstCount(b: Burst): real
  {
    b.count as real
  }

  /** The table the detector shows: distinct reports, largest windows first. */
  function BurstTable(rows: seq<Txn>, hours: nat, maxAmount: real): seq<Burst>
  {
    var ops := Qualifying(rows, maxAmount);
    SortDesc(Distinct(AllBursts(ops, GroupKeys(ops, ClientKey()), hours)), BurstCount)
  }

  // ---------------------------------------------------------------------
  // The detector's loops

  /** Tries every start position of one client's operations. */
  method ScanClient(mine: seq<Txn>, client: string, hours: nat) returns (found: seq<Burst>)
    ensures found == ClientBursts(mine, client, hours, |mine|)
  {
    found := [];
    var i := 0;
    while i < |mine|
      invariant 0 <= i <= |mine|
      invariant found == ClientBursts(mine, client, hours, i)
    {
      var b := BurstAt(mine, client, StampOf(mine[i]), hours);
      ClientBurstsStep(mine, client, hours, i, b);
      if b.count >= 10 {
        found := found + [b];
      }
      i := i + 1;
    }
  }

  lemma ClientBurstsStep(mine: seq<Txn>, client: string, hours: nat, n: nat, b: Burst)
    requires n < |mine| && b == BurstAt(mine, client, StampOf(mine[n]), hours)
    ensures ClientBursts(mine, client, hours, n + 1)
      == ClientBursts(mine, client, hours, n) + (if b.count >= 10 then [b] else [])
  {
  }

  /** The loop over `unique()` clients. */
  method ScanClients(ops: seq<Txn>, clients: seq<string>, hours: nat) returns (found: seq<Burst>)
    ensures found == AllBursts(ops, clients, hours)
  {
    found := [];
    var k := 0;
    while k < |clients|
      invariant 0 <= k <= |clients|
      invariant found == AllBursts(ops, clients[..k], hours)
    {
      var mine := OwnOps(ops, clients[k]);
      var more := ScanClient(mine, clients[k], hours);
      assert clients[..k + 1][..k] == clients[..k];
      found := found + more;
      k := k + 1;
    }
    assert clients[..|clients|] == clients;
  }

  method DetectBursts(rows: seq<Txn>, hours: nat, maxAmount: real) returns (bursts: seq<Burst>)
    ensures bursts == BurstTable(rows, hours, maxAmount)
  {
    var ops := Qualifying(rows, maxAmount);
    var found := ScanClients(ops, GroupKeys(ops, ClientKey()), hours);
    bursts := SortDesc(Distinct(found), BurstCount);
  }

  // ---------------------------------------------------------------------
  // What a report means

  /** Some start position before `n` of this client yields `b`. */
  ghost predicate StartsBefore(mine: seq<Txn>, client: string, hours: nat, n: nat, b: Burst)
  {
    exists i :: 0 <= i < n && i < |mine| && b == BurstAt(mine, client, StampOf(mine[i]), hours) && b.count >= 10
  }

  lemma {:induction false} ClientBurstsSpec(mine: seq<Txn>, client: string, hours: nat, n: nat, b: Burst)
    requires n <= |mine|
    ensures b in ClientBursts(mine, client, hours, n) <==> StartsBefore(mine, client, hours, n, b)
  {
    if n > 0 {
      ClientBurstsSpec(mine, client, hours, n - 1, b);
      var last := BurstAt(mine, client, StampOf(mine[n - 1]), hours);
      var prev := ClientBursts(mine, client, hours, n - 1);
      assert ClientBursts(mine, client, hours, n) == prev + (if last.count >= 10 then [last] else []);
      if b in ClientBursts(mine, client, hours, n) && b !in prev {
        assert b == last && last.count >= 10;
        assert StartsBefore(mine, client, hours, n, b) by {
          assert n - 1 < n && b == BurstAt(mine, client, StampOf(mine[n - 1]), hours);
        }
      }
      if StartsBefore(mine, client, hours, n, b) {
        var i :| 0 <= i < n && i < |mine| && b == BurstAt(mine, client, StampOf(mine[i]), hours) && b.count >= 10;
        if i < n - 1 {
          assert StartsBefore(mine, client, hours, n - 1, b);
        } else {
          assert b == last;
        }
      }
    }
  }

  /** Some client of the list yields `b` from one of its start positions. */
  ghost predicate FromSomeClient(ops: seq<Txn>, clients: seq<string>, hours: nat, b: Burst)
  {
    exists c :: c in clients && StartsBefore(OwnOps(ops, c), c, hours, |OwnOps(ops, c)|, b)
  }

  lemma {:induction false} AllBurstsSpec(ops: seq<Txn>, clients: seq<string>, hours: nat, b: Burst)
    ensures b in AllBursts(ops, clients, hours) <==> FromSomeClient(ops, clients, hours, b)
  {
    if clients != [] {
      var init := clients[..|clients| - 1];
      var c := clients[|clients| - 1];
      AllBurstsSpec(ops, init, hours, b);
      var mine := OwnOps(ops, c);
      ClientBurstsSpec(mine, c, hours, |mine|, b);
      assert forall x :: x in clients <==> x in init || x == c by {
        assert clients == init + [c];
      }
    }
  }

  /** The report a qualifying operation opens: its client's operations
      within `hours` hours of it, counted and summed. */
  function ReportFrom(ops: seq<Txn>, t: Txn, hours: nat): Burst
  {
    BurstAt(OwnOps(ops, t.client), t.client, StampOf(t), hours)
  }

  /** Some qualifying operation opens `b`, and `b` holds ten or more operations. */
  ghost predicate Emitted(ops: seq<Txn>, hours: nat, b: Burst)
  {
    exists t :: t in ops && b == ReportFrom(ops, t, hours) && b.count >= 10
  }

  lemma ClientsToEmitted(ops: seq<Txn>, clients: seq<string>, hours: nat, b: Burst)
    requires FromSomeClient(ops, clients, hours, b)
    ensures Emitted(ops, hours, b)
  {
    var c :| c in clients && StartsBefore(OwnOps(ops, c), c, hours, |OwnOps(ops, c)|, b);
    var mine := OwnOps(ops, c);
    var i :| 0 <= i < |mine| && b == BurstAt(mine, c, StampOf(mine[i]), hours) && b.count >= 10;
    assert mine[i] in mine;
    assert b == ReportFrom(ops, mine[i], hours);
  }

  /** Every client with a qualifying operation is among `unique()`. */
  lemma ClientListed(ops: seq<Txn>, t: Txn)
    requires t in ops
    ensures t.client in GroupKeys(ops, ClientKey())
  {
    assert ClientKey()(t) == Some(t.client);
  }

  /** The report an operation opens is one of its client's start positions. */
  lemma OpensOwnWindow(ops: seq<Txn>, t: Txn, hours: nat)
    requires t in ops && ReportFrom(ops, t, hours).count >= 10
    ensures StartsBefore(OwnOps(ops, t.client), t.client, hours, |OwnOps(ops, t.client)|, ReportFrom(ops, t, hours))
  {
    var mine := OwnOps(ops, t.client);
    assert t in mine;
    var i :| 0 <= i < |mine| && mine[i] == t;
    assert ReportFrom(ops, t, hours) == BurstAt(mine, t.client, StampOf(mine[i]), hours);
  }

  lemma EmittedToClients(ops: seq<Txn>, hours: nat, b: Burst)
    requires Emitted(ops, hours, b)
    ensures FromSomeClient(ops, GroupKeys(ops, ClientKey()), hours, b)
  {
    var t :| t in ops && b == ReportFrom(ops, t, hours) && b.count >= 10;
    ClientListed(ops, t);
    OpensOwnWindow(ops, t, hours);
  }

  /** A window is reported exactly when some qualifying operation opens it
      and it holds at least ten operations; each is reported once, largest
      first. */
  lemma BurstTableSpec(rows: seq<Txn>, hours: nat, maxAmount: real)
    ensures forall b :: b in BurstTable(rows, hours, maxAmount) <==> Emitted(Qualifying(rows, maxAmount), hours, b)
    ensures NoDuplicates(BurstTable(rows, hours, maxAmount))
    ensures SortedDesc(BurstTable(rows, hours, maxAmount), BurstCount)
  {
    var ops := Qualifying(rows, maxAmount);
    var clients := GroupKeys(ops, ClientKey());
    var all := AllBursts(ops, clients, hours);
    forall b ensures b in BurstTable(rows, hours, maxAmount) <==> Emitted(ops, hours, b) {
      BurstListed(rows, hours, maxAmount, b);
    }
    PermutationNoDuplicates(Distinct(all), BurstTable(rows, hours, maxAmount));
  }

  /** One candidate report: listed exactly when some client emits it. */
  lemma BurstListed(rows: seq<Txn>, hours: nat, maxAmount: real, b: Burst)
    ensures b in BurstTable(rows, hours, maxAmount) <==> Emitted(Qualifying(rows, maxAmount), hours, b)
  {
    var ops := Qualifying(rows, maxAmount);
    var clients := GroupKeys(ops, ClientKey());
    var all := AllBursts(ops, clients, hours);
    assert b in BurstTable(rows, hours, maxAmount) <==> b in multiset(Distinct(all));
    AllBurstsSpec(ops, clients, hours, b);
    if FromSomeClient(ops, clients, hours, b) {
      ClientsToEmitted(ops, clients, hours, b);
    }
    if Emitted(ops, hours, b) {
      EmittedToClients(ops, hours, b);
    }
  }

  /** Every report counts at least ten operations and carries the amount of
      exactly the operations of its window. */
  lemma BurstReports(rows: seq<Txn>, hours: nat, maxAmount: real)
    ensures var ops := Qualifying(rows, maxAmount);
      forall b :: b in BurstTable(rows, hours, maxAmount) ==>
        && b.count >= 10
        && exists t :: t in ops && b.client == Prefix8(t.client) && b.start == StampOf(t)
            && b.count == |Window(OwnOps(ops, t.client), b.start, hours)|
            && b.total == Total(Window(OwnOps(ops, t.client), b.start, hours))
  {
    BurstTableSpec(rows, hours, maxAmount);
  }

  /** A dense window is caught: when ten or more of a client's qualifying
      operations fall within `hours` hours from one of them, that window is
      reported (for instance 12 operations inside one hour with a two-hour
      window). */
  lemma DenseWindowReported(rows: seq<Txn>, hours: nat, maxAmount: real, t: Txn)
    requires t in Qualifying(rows, maxAmount)
    requires |Window(OwnOps(Qualifying(rows, maxAmount), t.client), StampOf(t), hours)| >= 10
    ensures ReportFrom(Qualifying(rows, maxAmount), t, hours) in BurstTable(rows, hours, maxAmount)
  {
    BurstTableSpec(rows, hours, maxAmount);
  }

  /** A client with fewer than ten qualifying operations opens no report
      (for instance nine operations, however close together). */
  lemma SparseClientSilent(rows: seq<Txn>, hours: nat, maxAmount: real, t: Txn)
    requires t in Qualifying(rows, maxAmount)
    requires |OwnOps(Qualifying(rows, maxAmount), t.client)| < 10
    ensures ReportFrom(Qualifying(rows, maxAmount), t, hours) !in BurstTable(rows, hours, maxAmount)
  {
    var ops := Qualifying(rows, maxAmount);
    BurstTableSpec(rows, hours, maxAmount);
    var mine := OwnOps(ops, t.client);
    assert |Window(mine, StampOf(t), hours)| <= |mine|;
  }
}
