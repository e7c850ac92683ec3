/** The chunked insert of `cargar_datos`: the load is registered in
    `cargas`, the rows of an uploaded sheet are written to `transacciones` in
    consecutive slices with a progress callback after each slice, and the
    connection is committed; on any failure the connection is rolled back and
    the error raised again.

    The model records what the connection and the callback observe as a trace
    of events, and what the database keeps of a trace (`Run`).  Which step
    fails, if any, is a parameter (`Fault`); whether a callback was passed is a
    flag.  pandas' `to_sql` on a plain sqlite3 connection commits when it
    returns, so every slice written also commits what came before it,
    registration included: a load that fails after its first slice leaves the
    `cargas` row and the slices already written in the database, and the
    closing rollback undoes nothing of them (`UtilsStored`, `BackupStored`).
    The single transaction the rollback is written for is `Run` without that
    per-call commit (`UtilsAtomicStored`, `BackupAtomicStored`).  Column
    renaming and memo cleaning do not affect the trace and are not modelled
    here. */
module BulkLoad {

  /** What the connection and the progress callback observe. */
  datatype Event =
    | Register               // INSERT INTO cargas
    | Insert(lo: nat, hi: nat) // to_sql of rows [lo, hi)
    | Progress(p: real)      // progress_callback(p)
    | Commit
    | Rollback

  /** The step that raises, if any. */
  datatype Fault =
    | NoFault
    | RegisterFault          // INSERT INTO cargas
    | CleanFault             // the sheet has no `Glosa` column
    | ColumnFault            // some other mapped column is missing
    | ChunkFault(k: nat)     // to_sql of chunk k
    | CommitFault            // conn.commit()

  function Min(a: nat, b: nat): nat
  {
    if a < b then a else b
  }

  function MinReal(a: real, b: real): (r: real)
    ensures r <= a && r <= b && (r == a || r == b)
  {
    if a < b then a else b
  }

  // ---------------------------------------------------------------------
  // The partition into chunks

  /** `math.ceil(n / size)`, and equally `n // size + (1 if n % size else 0)`. */
  function NumChunks(n: nat, size: nat): nat
    requires size > 0
  {
    (n + size - 1) / size
  }

  /** The row slice `[i*size, min((i+1)*size, n))` of chunk `i`. */
  function Chunk(n: nat, size: nat, i: nat): (nat, nat)
  {
    (i * size, Min(i * size + size, n))
  }

  /** The slices of the first `d` chunks, in order. */
  function ChunkList(n: nat, size: nat, d: nat): (cs: seq<(nat, nat)>)
    ensures |cs| == d
    ensures forall i :: 0 <= i < d ==> cs[i] == Chunk(n, size, i)
  {
    if d == 0 then [] else ChunkList(n, size, d - 1) + [Chunk(n, size, d - 1)]
  }

  /** All the slices of a load of `n` rows. */
  function Chunks(n: nat, size: nat): (cs: seq<(nat, nat)>)
    requires size > 0
    ensures |cs| == NumChunks(n, size)
  {
    ChunkList(n, size, NumChunks(n, size))
  }

  /** Chunk `i` exists exactly when it starts before the last row. */
  lemma ChunkCount(n: nat, size: nat, i: nat)
    requires size > 0
    ensures i < NumChunks(n, size) <==> i * size < n
  {
    var m := NumChunks(n, size);
    assert m * size <= n + size - 1 < m * size + size;
    if i < m {
      MulMono(i, m - 1, size);
      assert (m - 1) * size == m * size - size;
    } else {
      MulMono(m, i, size);
    }
  }

  lemma MulMono(a: nat, b: nat, size: nat)
    requires a <= b
    ensures a * size <= b * size
  {
  }

  /** The utils_backup.py count `n // size + (1 if n % size else 0)` is the
      same number. */
  lemma BackupCountIsCeiling(n: nat, size: nat)
    requires size > 0
    ensures n / size + (if n % size != 0 then 1 else 0) == NumChunks(n, size)
  {
    var q, r := n / size, n % size;
    assert n == q * size + r && 0 <= r < size;
    if r == 0 {
      assert n + size - 1 == q * size + (size - 1);
      RowInChunk(n + size - 1, q, size);
    } else {
      assert n + size - 1 == (q + 1) * size + (r - 1);
      RowInChunk(n + size - 1, q + 1, size);
    }
  }

  /** The chunks are consecutive and non-empty, start at row 0 and end at
      row n; there are none exactly when there are no rows. */
  lemma ChunksPartition(n: nat, size: nat)
    requires size > 0
    ensures n == 0 <==> Chunks(n, size) == []
    ensures Chunks(n, size) != [] ==> Chunks(n, size)[0].0 == 0 && Chunks(n, size)[|Chunks(n, size)| - 1].1 == n
    ensures forall i :: 0 <= i < |Chunks(n, size)| ==> Chunks(n, size)[i].0 < Chunks(n, size)[i].1
    ensures forall i :: 0 <= i < |Chunks(n, size)| - 1 ==> Chunks(n, size)[i].1 == Chunks(n, size)[i + 1].0
  {
    var cs := Chunks(n, size);
    var m := |cs|;
    forall i | 0 <= i < m ensures cs[i].0 < cs[i].1 {
      ChunkCount(n, size, i);
    }
    forall i | 0 <= i < m - 1 ensures cs[i].1 == cs[i + 1].0 {
      ChunkCount(n, size, i + 1);
    }
    if m > 0 {
      ChunkCount(n, size, m);
      ChunkCount(n, size, m - 1);
    } else {
      ChunkCount(n, size, 0);
    }
  }

  /** Row `r` lies in chunk `r / size`, which exists, and in no other. */
  lemma RowChunk(n: nat, size: nat, r: nat)
    requires size > 0 && r < n
    ensures r / size < |Chunks(n, size)|
    ensures forall i :: 0 <= i < |Chunks(n, size)| ==> (InChunk(Chunks(n, size)[i], r) <==> i == r / size)
  {
    var q := r / size;
    assert q * size <= r;
    ChunkCount(n, size, q);
    forall i | 0 <= i < |Chunks(n, size)| ensures InChunk(Chunks(n, size)[i], r) <==> i == q {
      RowInChunk(r, i, size);
    }
  }

  /** Every row lies in exactly one chunk. */
  lemma ChunksCoverRows(n: nat, size: nat)
    requires size > 0
    ensures forall r :: 0 <= r < n ==> r / size < |Chunks(n, size)|
    ensures forall r, i :: 0 <= r < n && 0 <= i < |Chunks(n, size)| ==>
      (InChunk(Chunks(n, size)[i], r) <==> i == r / size)
  {
    forall r | 0 <= r < n
      ensures r / size < |Chunks(n, size)|
      ensures forall i :: 0 <= i < |Chunks(n, size)| ==> (InChunk(Chunks(n, size)[i], r) <==> i == r / size)
    {
      RowChunk(n, size, r);
    }
  }

  predicate InChunk(c: (nat, nat), r: nat)
  {
    c.0 <= r < c.1
  }

  lemma RowInChunk(r: nat, i: nat, size: nat)
    requires size > 0
    ensures i * size <= r < i * size + size <==> i == r / size
  {
    var q := r / size;
    assert q * size <= r < q * size + size;
    if i < q {
      MulMono(i + 1, q, size);
    } else if i > q {
      MulMono(q + 1, i, size);
    }
  }

  // ---------------------------------------------------------------------
  // Projections of a trace

  /** The row slices written, in order. */
  function Inserted(t: seq<Event>): seq<(nat, nat)>
  {
    if t == [] then [] else (if t[0].Insert? then [(t[0].lo, t[0].hi)] else []) + Inserted(t[1..])
  }

  /** The values passed to the progress callback, in order. */
  function Progresses(t: seq<Event>): seq<real>
  {
    if t == [] then [] else (if t[0].Progress? then [t[0].p] else []) + Progresses(t[1..])
  }

  lemma {:induction false} InsertedConcat(a: seq<Event>, b: seq<Event>)
    ensures Inserted(a + b) == Inserted(a) + Inserted(b)
  {
    if a == [] {
      assert a + b == b;
    } else {
      var ab := a + b;
      assert ab[0] == a[0] && ab[1..] == a[1..] + b;
      InsertedConcat(a[1..], b);
      assert Inserted(ab) == (if a[0].Insert? then [(a[0].lo, a[0].hi)] else []) + Inserted(ab[1..]);
    }
  }

  lemma {:induction false} ProgressesConcat(a: seq<Event>, b: seq<Event>)
    ensures Progresses(a + b) == Progresses(a) + Progresses(b)
  {
    if a == [] {
      assert a + b == b;
    } else {
      var ab := a + b;
      assert ab[0] == a[0] && ab[1..] == a[1..] + b;
      ProgressesConcat(a[1..], b);
      assert Progresses(ab) == (if a[0].Progress? then [a[0].p] else []) + Progresses(ab[1..]);
    }
  }

  /** A Progress event's value appears among the trace's progress values. */
  lemma {:induction false} ProgressListed(t: seq<Event>, j: nat)
    requires j < |t| && t[j].Progress?
    ensures t[j].p in Progresses(t)
  {
    if j > 0 {
      ProgressListed(t[1..], j - 1);
    }
  }

  /** No event of a trace reports 1.0 when no listed progress value reaches it. */
  lemma NoFullProgress(t: seq<Event>)
    requires forall x :: x in Progresses(t) ==> x < 1.0
    ensures Progress(1.0) !in t
  {
    if Progress(1.0) in t {
      var j :| 0 <= j < |t| && t[j] == Progress(1.0);
      ProgressListed(t, j);
    }
  }

  predicate StrictlyIncreasing(s: seq<real>)
  {
    forall i, j :: 0 <= i < j < |s| ==> s[i] < s[j]
  }

  predicate NonDecreasing(s: seq<real>)
  {
    forall i, j :: 0 <= i < j < |s| ==> s[i] <= s[j]
  }

  /** Two non-decreasing runs joined where every value of the first is at
      most `bound` and every value of the second is at least `bound`. */
  lemma NonDecreasingJoin(a: seq<real>, b: seq<real>, bound: real)
    requires NonDecreasing(a) && NonDecreasing(b)
    requires forall x :: x in a ==> x <= bound
    requires forall y :: y in b ==> bound <= y
    ensures NonDecreasing(a + b)
  {
    var s := a + b;
    forall i, j | 0 <= i < j < |s| ensures s[i] <= s[j] {
      if j < |a| {
      } else if i >= |a| {
        assert s[i] == b[i - |a|] && s[j] == b[j - |a|];
      } else {
        assert s[i] in a && s[j] in b;
      }
    }
  }

  /** Whether the fault actually happens in a utils.py load of `m` chunks.
      That copy keeps only the mapped columns the sheet has (utils.py:71), so
      a missing column other than `Glosa` does not fail it. */
  predicate Fires(fault: Fault, m: nat)
  {
    fault == RegisterFault || fault == CleanFault || fault == CommitFault || (fault.ChunkFault? && fault.k < m)
  }

  /** Chunks a utils.py load writes before it stops. */
  function Done(fault: Fault, m: nat): (d: nat)
    ensures d <= m
  {
    match fault
    case RegisterFault => 0
    case CleanFault => 0
    case ChunkFault(k) => Min(k, m)
    case _ => m
  }

  /** Whether the fault happens in a utils_backup.py load of `m` chunks: that
      copy selects every mapped column (utils_backup.py:80-81), so a missing
      one fails it too. */
  predicate BackupFires(fault: Fault, m: nat)
  {
    Fires(fault, m) || fault == ColumnFault
  }

  /** Chunks a utils_backup.py load writes before it stops. */
  function BackupDone(fault: Fault, m: nat): (d: nat)
    ensures d <= m
  {
    if fault == ColumnFault then 0 else Done(fault, m)
  }

  /** A progress report, when a callback was passed. */
  function Report(callback: bool, p: real): seq<Event>
  {
    if callback then [Progress(p)] else []
  }

  // ---------------------------------------------------------------------
  // utils.py: chunks of 5000, progress (i + 1) / num_chunks

  /** Chunk `i` of `m`: its insert, then the report (i + 1) / m. */
  function UtilsStep(n: nat, callback: bool, i: nat): seq<Event>
    requires i < NumChunks(n, 5000)
  {
    [Insert(i * 5000, Min(i * 5000 + 5000, n))]
    + Report(callback, (i + 1) as real / NumChunks(n, 5000) as real)
  }

  /** The events of the first `d` chunks. */
  function UtilsChunkEvents(n: nat, callback: bool, d: nat): seq<Event>
    requires d <= NumChunks(n, 5000)
  {
    if d == 0 then [] else UtilsChunkEvents(n, callback, d - 1) + UtilsStep(n, callback, d - 1)
  }

  /** What a load observes, phase by phase. */
  function UtilsTrace(n: nat, callback: bool, fault: Fault): seq<Event>
  {
    var m := NumChunks(n, 5000);
    if fault == RegisterFault then [Rollback]
    else if fault == CleanFault then [Register, Rollback]
    else if fault.ChunkFault? && fault.k < m then [Register] + UtilsChunkEvents(n, callback, fault.k) + [Rollback]
    else if fault == CommitFault then [Register] + UtilsChunkEvents(n, callback, m) + [Rollback]
    else [Register] + UtilsChunkEvents(n, callback, m) + [Commit]
  }

  /** utils.py `cargar_datos`, lines 74-93. */
  method LoadData(n: nat, callback: bool, fault: Fault) returns (trace: seq<Event>, loaded: bool)
    ensures trace == UtilsTrace(n, callback, fault)
    ensures loaded <==> !Fires(fault, NumChunks(n, 5000))
  {
    if fault == RegisterFault {
      return [Rollback], false;
    }
    trace := [Register];
    if fault == CleanFault {
      return trace + [Rollback], false;
    }
    var numChunks := NumChunks(n, 5000);
    var i := 0;
    while i < numChunks
      invariant 0 <= i <= numChunks
      invariant fault.ChunkFault? && fault.k < numChunks ==> i <= fault.k
      invariant trace == [Register] + UtilsChunkEvents(n, callback, i)
    {
      if fault == ChunkFault(i) {
        return trace + [Rollback], false;
      }
      var startIdx := i * 5000;
      var endIdx := startIdx + 5000;
      trace := trace + [Insert(startIdx, Min(endIdx, n))];
      if callback {
        trace := trace + [Progress((i + 1) as real / numChunks as real)];
      }
      i := i + 1;
    }
    if fault == CommitFault {
      return trace + [Rollback], false;
    }
    trace := trace + [Commit];
    loaded := true;
  }

  /** The progress values of utils.py for the first `d` of `m` chunks:
      (i + 1) / m for each chunk i. */
  function UtilsProgress(m: nat, d: nat): (ps: seq<real>)
    requires d <= m
    ensures |ps| == d
    ensures forall i :: 0 <= i < d ==> ps[i] == (i + 1) as real / m as real
  {
    if d == 0 then [] else UtilsProgress(m, d - 1) + [d as real / m as real]
  }

  lemma {:induction false} UtilsInserts(n: nat, callback: bool, d: nat)
    requires d <= NumChunks(n, 5000)
    ensures Inserted(UtilsChunkEvents(n, callback, d)) == ChunkList(n, 5000, d)
  {
    if d > 0 {
      UtilsInserts(n, callback, d - 1);
      var step := UtilsStep(n, callback, d - 1);
      InsertedConcat(UtilsChunkEvents(n, callback, d - 1), step);
      InsertedConcat(step[..1], step[1..]);
      assert step == step[..1] + step[1..];
    }
  }

  lemma {:induction false} UtilsReports(n: nat, callback: bool, d: nat)
    requires d <= NumChunks(n, 5000)
    ensures Progresses(UtilsChunkEvents(n, callback, d)) == if callback then UtilsProgress(NumChunks(n, 5000), d) else []
  {
    if d > 0 {
      UtilsReports(n, callback, d - 1);
      var step := UtilsStep(n, callback, d - 1);
      ProgressesConcat(UtilsChunkEvents(n, callback, d - 1), step);
      ProgressesConcat(step[..1], step[1..]);
      assert step == step[..1] + step[1..];
    }
  }

  lemma {:induction false} UtilsUnsettled(n: nat, callback: bool, d: nat)
    requires d <= NumChunks(n, 5000)
    ensures Commit !in UtilsChunkEvents(n, callback, d) && Rollback !in UtilsChunkEvents(n, callback, d)
  {
    if d > 0 {
      UtilsUnsettled(n, callback, d - 1);
    }
  }

  /** A load that gets past the registration is Register, the chunk events
      written, and one closing event. */
  lemma UtilsTraceShape(n: nat, callback: bool, fault: Fault)
    requires fault != RegisterFault
    ensures var t := UtilsTrace(n, callback, fault);
      && |t| >= 2
      && (t[|t| - 1] == Commit || t[|t| - 1] == Rollback)
      && t == [Register] + UtilsChunkEvents(n, callback, Done(fault, NumChunks(n, 5000))) + [t[|t| - 1]]
  {
  }

  /** The opening and closing events carry no rows and no progress. */
  lemma Framed(body: seq<Event>, last: Event)
    requires last == Commit || last == Rollback
    ensures Inserted([Register] + body + [last]) == Inserted(body)
    ensures Progresses([Register] + body + [last]) == Progresses(body)
  {
    InsertedConcat([Register], body);
    InsertedConcat([Register] + body, [last]);
    ProgressesConcat([Register], body);
    ProgressesConcat([Register] + body, [last]);
  }

  /** The rows written before the load stops are the first chunks, in order,
      and the progress values are the first (i + 1) / m. */
  lemma UtilsTraceWrites(n: nat, callback: bool, fault: Fault)
    ensures Inserted(UtilsTrace(n, callback, fault)) == ChunkList(n, 5000, Done(fault, NumChunks(n, 5000)))
    ensures Progresses(UtilsTrace(n, callback, fault)) ==
      if callback then UtilsProgress(NumChunks(n, 5000), Done(fault, NumChunks(n, 5000))) else []
  {
    var d := Done(fault, NumChunks(n, 5000));
    var t := UtilsTrace(n, callback, fault);
    if fault != RegisterFault {
      UtilsTraceShape(n, callback, fault);
      UtilsInserts(n, callback, d);
      UtilsReports(n, callback, d);
      Framed(UtilsChunkEvents(n, callback, d), t[|t| - 1]);
    }
  }

  /** A load ends with Commit exactly when no step fails, and otherwise with
      Rollback and no Commit. */
  lemma UtilsTraceOutcome(n: nat, callback: bool, fault: Fault)
    ensures !Fires(fault, NumChunks(n, 5000)) ==>
      UtilsTrace(n, callback, fault)[|UtilsTrace(n, callback, fault)| - 1] == Commit && Rollback !in UtilsTrace(n, callback, fault)
    ensures Fires(fault, NumChunks(n, 5000)) ==>
      UtilsTrace(n, callback, fault)[|UtilsTrace(n, callback, fault)| - 1] == Rollback && Commit !in UtilsTrace(n, callback, fault)
  {
    UtilsUnsettled(n, callback, Done(fault, NumChunks(n, 5000)));
  }

  /** The reported progress strictly increases, stays in (0, 1], and the
      report after the last chunk is 1.0. */
  lemma UtilsProgressIncreasing(m: nat, d: nat)
    requires d <= m
    ensures StrictlyIncreasing(UtilsProgress(m, d))
    ensures forall i :: 0 <= i < d ==> 0.0 < UtilsProgress(m, d)[i] <= 1.0
    ensures d == m > 0 ==> UtilsProgress(m, d)[d - 1] == 1.0
  {
    var ps := UtilsProgress(m, d);
    forall i, j | 0 <= i < j < d ensures ps[i] < ps[j] {
      DivMono((i + 1) as real, (j + 1) as real, m as real);
    }
    forall i | 0 <= i < d ensures 0.0 < ps[i] <= 1.0 {
      DivMono((i + 1) as real, m as real, m as real);
    }
    if d == m > 0 {
      DivMono(m as real, m as real, m as real);
    }
  }

  lemma DivMono(a: real, b: real, d: real)
    requires 0.0 < a && d > 0.0
    ensures a < b ==> a / d < b / d
    ensures a <= b ==> a / d <= b / d
    ensures 0.0 < a / d
    ensures b == d ==> b / d == 1.0
  {
  }

  // ---------------------------------------------------------------------
  // utils_backup.py: chunks of 10000, staged progress capped at 0.95

  /** The loop's report after the chunk that starts at row `start`. */
  function BackupLoopProgress(start: nat, n: nat): real
    requires n > 0
  {
    MinReal(0.6 + 0.35 * (start + 10000) as real / n as real, 0.95)
  }

  lemma LoopProgressRange(start: nat, n: nat)
    requires n > 0
    ensures 0.6 < BackupLoopProgress(start, n) <= 0.95
  {
    DivMono(0.35 * (start + 10000) as real, 1.0, n as real);
  }

  lemma LoopProgressMono(a: nat, b: nat, n: nat)
    requires n > 0 && a <= b
    ensures BackupLoopProgress(a, n) <= BackupLoopProgress(b, n)
  {
    DivMono(0.35 * (a + 10000) as real, 0.35 * (b + 10000) as real, n as real);
  }

  /** The loop's reports for the first `d` chunks. */
  function BackupProgress(n: nat, d: nat): (ps: seq<real>)
    requires d <= NumChunks(n, 10000)
    ensures |ps| == d
    ensures d > 0 ==> n > 0
    ensures forall i :: 0 <= i < d ==> ps[i] == BackupLoopProgress(i * 10000, n)
  {
    if d == 0 then []
    else
      ChunkCount(n, 10000, d - 1);
      BackupProgress(n, d - 1) + [BackupLoopProgress((d - 1) * 10000, n)]
  }

  /** Reports that lie above the staged 0.6 and at most 0.95, never decreasing. */
  predicate LoopReports(ps: seq<real>)
  {
    NonDecreasing(ps) && forall x :: x in ps ==> 0.6 < x <= 0.95
  }

  /** The loop's reports lie in (0.6, 0.95] and never decrease. */
  lemma BackupProgressRange(n: nat, d: nat)
    requires d <= NumChunks(n, 10000)
    ensures LoopReports(BackupProgress(n, d))
  {
    var ps := BackupProgress(n, d);
    forall i | 0 <= i < d ensures 0.6 < ps[i] <= 0.95 {
      LoopProgressRange(i * 10000, n);
    }
    forall i, j | 0 <= i < j < d ensures ps[i] <= ps[j] {
      MulMono(i, j, 10000);
      LoopProgressMono(i * 10000, j * 10000, n);
    }
  }

  /** Chunk `i`: its insert, then the report `p`. */
  function BackupStep(n: nat, callback: bool, i: nat, p: real): seq<Event>
  {
    [Insert(i * 10000, Min(i * 10000 + 10000, n))] + Report(callback, p)
  }

  /** The events of the first `d` chunks, chunk `i` reporting `ps[i]`. */
  function BackupChunkEvents(n: nat, callback: bool, ps: seq<real>, d: nat): seq<Event>
    requires d <= |ps|
  {
    if d == 0 then [] else BackupChunkEvents(n, callback, ps, d - 1) + BackupStep(n, callback, d - 1, ps[d - 1])
  }

  /** 0.1, the INSERT INTO cargas, then 0.2 before the memos are cleaned. */
  function BackupRegistered(callback: bool): seq<Event>
  {
    Report(callback, 0.1) + [Register] + Report(callback, 0.2)
  }

  /** Then 0.4 before the columns are mapped. */
  function BackupMapped(callback: bool): seq<Event>
  {
    BackupRegistered(callback) + Report(callback, 0.4)
  }

  /** Then 0.6 before the first chunk. */
  function BackupPrelude(callback: bool): seq<Event>
  {
    BackupMapped(callback) + Report(callback, 0.6)
  }

  /** Everything up to the commit when no chunk fails. */
  function BackupWritten(n: nat, callback: bool, ps: seq<real>): seq<Event>
  {
    BackupPrelude(callback) + BackupChunkEvents(n, callback, ps, |ps|) + Report(callback, 0.95)
  }

  /** A load of `|ps|` chunks whose loop reports `ps`, phase by phase. */
  function BackupTraceWith(n: nat, callback: bool, fault: Fault, ps: seq<real>): seq<Event>
  {
    if fault == RegisterFault then Report(callback, 0.1) + [Rollback]
    else if fault == CleanFault then BackupRegistered(callback) + [Rollback]
    else if fault == ColumnFault then BackupMapped(callback) + [Rollback]
    else if fault.ChunkFault? && fault.k < |ps| then BackupPrelude(callback) + BackupChunkEvents(n, callback, ps, fault.k) + [Rollback]
    else if fault == CommitFault then BackupWritten(n, callback, ps) + [Rollback]
    else BackupWritten(n, callback, ps) + [Commit] + Report(callback, 1.0)
  }

  /** What a backup load observes. */
  function BackupTrace(n: nat, callback: bool, fault: Fault): seq<Event>
  {
    BackupTraceWith(n, callback, fault, BackupProgress(n, NumChunks(n, 10000)))
  }

  /** utils_backup.py `cargar_datos`, lines 25-110. */
  method LoadDataBackup(n: nat, callback: bool, fault: Fault) returns (trace: seq<Event>, loaded: bool)
    ensures trace == BackupTrace(n, callback, fault)
    ensures loaded <==> !BackupFires(fault, NumChunks(n, 10000))
  {
    ghost var ps := BackupProgress(n, NumChunks(n, 10000));
    trace := [];
    if callback { trace := trace + [Progress(0.1)]; }
    if fault == RegisterFault {
      return trace + [Rollback], false;
    }
    trace := trace + [Register];
    if callback { trace := trace + [Progress(0.2)]; }
    assert trace == BackupRegistered(callback);
    if fault == CleanFault {
      return trace + [Rollback], false;
    }
    if callback { trace := trace + [Progress(0.4)]; }
    assert trace == BackupMapped(callback);
    if fault == ColumnFault {
      return trace + [Rollback], false;
    }
    if callback { trace := trace + [Progress(0.6)]; }
    assert trace == BackupPrelude(callback);
    trace := InsertChunks(n, callback, fault, trace);
    if fault.ChunkFault? && fault.k < NumChunks(n, 10000) {
      return trace + [Rollback], false;
    }
    if callback { trace := trace + [Progress(0.95)]; }
    assert trace == BackupWritten(n, callback, ps);
    if fault == CommitFault {
      return trace + [Rollback], false;
    }
    trace := trace + [Commit];
    if callback { trace := trace + [Progress(1.0)]; }
    loaded := true;
  }

  /** The `for i in range(0, n, 10000)` loop of utils_backup.py; it stops at
      the chunk that fails. */
  method InsertChunks(n: nat, callback: bool, fault: Fault, trace0: seq<Event>) returns (trace: seq<Event>)
    requires fault != RegisterFault && fault != CleanFault && fault != ColumnFault
    ensures trace == trace0 + BackupChunkEvents(n, callback, BackupProgress(n, NumChunks(n, 10000)),
      Done(fault, NumChunks(n, 10000)))
  {
    ghost var m := NumChunks(n, 10000);
    ghost var ps := BackupProgress(n, m);
    trace := trace0;
    var i := 0;
    ghost var k := 0;
    while i < n
      invariant i == k * 10000
      invariant k <= m
      invariant i < n <==> k < m
      invariant k <= Done(fault, m)
      invariant trace == trace0 + BackupChunkEvents(n, callback, ps, k)
      decreases n - i
    {
      assert i / 10000 == k < m;
      if fault == ChunkFault(i / 10000) {
        return;
      }
      if fault.ChunkFault? {
        assert fault.k != k;
      }
      trace := trace + [Insert(i, Min(i + 10000, n))];
      if callback {
        var progress := LoopReport(i, n);
        trace := trace + [Progress(progress)];
      }
      assert trace == trace0 + BackupChunkEvents(n, callback, ps, k + 1);
      i, k := i + 10000, k + 1;
      ChunkCount(n, 10000, k);
    }
  }

  /** The value reported after the chunk that starts at row `start`, capped at 0.95. */
  method LoopReport(start: nat, n: nat) returns (p: real)
    requires start < n
    ensures p == BackupLoopProgress(start, n)
    ensures 0.6 < p <= 0.95
  {
    var progress := 0.6 + (0.35 * (start + 10000) as real / n as real);
    p := MinReal(progress, 0.95);
    LoopProgressRange(start, n);
  }

  lemma {:induction false} BackupInsertsChunks(n: nat, callback: bool, ps: seq<real>, d: nat)
    requires d <= |ps|
    ensures Inserted(BackupChunkEvents(n, callback, ps, d)) == ChunkList(n, 10000, d)
  {
    if d > 0 {
      BackupInsertsChunks(n, callback, ps, d - 1);
      var step := BackupStep(n, callback, d - 1, ps[d - 1]);
      InsertedConcat(BackupChunkEvents(n, callback, ps, d - 1), step);
      InsertedConcat(step[..1], step[1..]);
      assert step == step[..1] + step[1..];
    }
  }

  /** The values the callback hears from the first `d` chunks. */
  function Heard(callback: bool, ps: seq<real>, d: nat): (r: seq<real>)
    requires d <= |ps|
  {
    if d == 0 then [] else Heard(callback, ps, d - 1) + (if callback then [ps[d - 1]] else [])
  }

  lemma {:induction false} BackupReports(n: nat, callback: bool, ps: seq<real>, d: nat)
    requires d <= |ps|
    ensures Progresses(BackupChunkEvents(n, callback, ps, d)) == if callback then ps[..d] else []
  {
    BackupHeard(n, callback, ps, d);
    HeardPrefix(callback, ps, d);
  }

  lemma {:induction false} BackupHeard(n: nat, callback: bool, ps: seq<real>, d: nat)
    requires d <= |ps|
    ensures Progresses(BackupChunkEvents(n, callback, ps, d)) == Heard(callback, ps, d)
  {
    if d > 0 {
      BackupHeard(n, callback, ps, d - 1);
      var step := BackupStep(n, callback, d - 1, ps[d - 1]);
      ProgressesConcat(BackupChunkEvents(n, callback, ps, d - 1), step);
      ProgressesConcat(step[..1], step[1..]);
      assert step == step[..1] + step[1..];
    }
  }

  lemma {:induction false} HeardPrefix(callback: bool, ps: seq<real>, d: nat)
    requires d <= |ps|
    ensures Heard(callback, ps, d) == if callback then ps[..d] else []
  {
    if d > 0 {
      HeardPrefix(callback, ps, d - 1);
      if callback {
        assert ps[..d] == ps[..d - 1] + [ps[d - 1]];
      }
    }
  }

  lemma {:induction false} BackupUnsettled(n: nat, callback: bool, ps: seq<real>, d: nat)
    requires d <= |ps|
    ensures Commit !in BackupChunkEvents(n, callback, ps, d) && Rollback !in BackupChunkEvents(n, callback, ps, d)
  {
    if d > 0 {
      BackupUnsettled(n, callback, ps, d - 1);
    }
  }

  /** The facts about the events of a load so far that the later phases need:
      reports never decrease and stay at most `bound`, nothing settled yet. */
  predicate Orderly(t: seq<Event>, bound: real)
  {
    && NonDecreasing(Progresses(t))
    && (forall x :: x in Progresses(t) ==> x <= bound)
    && Commit !in t && Rollback !in t
  }

  /** Appending a run of reports that starts at or above `bound`. */
  lemma OrderlyAppend(a: seq<Event>, b: seq<Event>, bound: real, bound': real)
    requires Orderly(a, bound) && Orderly(b, bound')
    requires forall y :: y in Progresses(b) ==> bound <= y
    requires bound <= bound'
    ensures Orderly(a + b, bound')
  {
    ProgressesConcat(a, b);
    NonDecreasingJoin(Progresses(a), Progresses(b), bound);
  }

  lemma ReportOrderly(callback: bool, p: real)
    ensures Body(Report(callback, p))
    ensures Orderly(Report(callback, p), p)
    ensures forall y :: y in Progresses(Report(callback, p)) ==> p <= y
    ensures Inserted(Report(callback, p)) == []
  {
  }

  lemma PreludeOrderly(callback: bool)
    ensures Orderly(BackupRegistered(callback), 0.2) && Inserted(BackupRegistered(callback)) == []
    ensures Orderly(BackupMapped(callback), 0.4) && Inserted(BackupMapped(callback)) == []
    ensures Orderly(BackupPrelude(callback), 0.6) && Inserted(BackupPrelude(callback)) == []
  {
    var r := Report;
    var a := r(callback, 0.1) + [Register];
    var b := a + r(callback, 0.2);
    var c := b + r(callback, 0.4);
    ReportOrderly(callback, 0.1);
    ReportOrderly(callback, 0.2);
    ReportOrderly(callback, 0.4);
    ReportOrderly(callback, 0.6);
    OrderlyAppend(r(callback, 0.1), [Register], 0.1, 0.1);
    OrderlyAppend(a, r(callback, 0.2), 0.1, 0.2);
    OrderlyAppend(b, r(callback, 0.4), 0.2, 0.4);
    OrderlyAppend(c, r(callback, 0.6), 0.4, 0.6);
    InsertedConcat(r(callback, 0.1), [Register]);
    InsertedConcat(a, r(callback, 0.2));
    InsertedConcat(b, r(callback, 0.4));
    InsertedConcat(c, r(callback, 0.6));
  }

  lemma ChunkEventsOrderly(n: nat, callback: bool, ps: seq<real>, d: nat)
    requires d <= |ps| && LoopReports(ps)
    ensures Orderly(BackupChunkEvents(n, callback, ps, d), 0.95)
    ensures forall y :: y in Progresses(BackupChunkEvents(n, callback, ps, d)) ==> 0.6 <= y
  {
    BackupUnsettled(n, callback, ps, d);
    BackupReports(n, callback, ps, d);
    PrefixLoopReports(ps, d);
  }

  lemma PrefixLoopReports(ps: seq<real>, d: nat)
    requires d <= |ps| && LoopReports(ps)
    ensures LoopReports(ps[..d])
  {
    forall x | x in ps[..d] ensures 0.6 < x <= 0.95 {
      assert x in ps;
    }
  }

  /** The prelude and the chunk events of a load stopped after `d` chunks. */
  lemma PreludeAndChunks(n: nat, callback: bool, ps: seq<real>, d: nat)
    requires d <= |ps| && LoopReports(ps)
    ensures Inserted(BackupPrelude(callback) + BackupChunkEvents(n, callback, ps, d)) == ChunkList(n, 10000, d)
    ensures Orderly(BackupPrelude(callback) + BackupChunkEvents(n, callback, ps, d), 0.95)
  {
    BackupInsertsChunks(n, callback, ps, d);
    PreludeOrderly(callback);
    InsertedConcat(BackupPrelude(callback), BackupChunkEvents(n, callback, ps, d));
    ChunkEventsOrderly(n, callback, ps, d);
    OrderlyAppend(BackupPrelude(callback), BackupChunkEvents(n, callback, ps, d), 0.6, 0.95);
  }

  /** The events of a load whose every chunk was written, before the commit. */
  lemma WrittenFacts(n: nat, callback: bool, ps: seq<real>)
    requires LoopReports(ps)
    ensures Inserted(BackupWritten(n, callback, ps)) == ChunkList(n, 10000, |ps|)
    ensures Orderly(BackupWritten(n, callback, ps), 0.95)
  {
    var front := BackupPrelude(callback) + BackupChunkEvents(n, callback, ps, |ps|);
    PreludeAndChunks(n, callback, ps, |ps|);
    ReportOrderly(callback, 0.95);
    InsertedConcat(front, Report(callback, 0.95));
    OrderlyAppend(front, Report(callback, 0.95), 0.95, 0.95);
  }

  /** Closing with a rollback adds no write and no report. */
  lemma RollbackClose(t: seq<Event>)
    ensures Inserted(t + [Rollback]) == Inserted(t)
    ensures Progresses(t + [Rollback]) == Progresses(t)
  {
    InsertedConcat(t, [Rollback]);
    ProgressesConcat(t, [Rollback]);
  }

  /** Closing with a commit then 1.0 adds no write and keeps the reports in order. */
  lemma CommitClose(t: seq<Event>, callback: bool)
    requires Orderly(t, 0.95)
    ensures Inserted(t + [Commit] + Report(callback, 1.0)) == Inserted(t)
    ensures NonDecreasing(Progresses(t + [Commit] + Report(callback, 1.0)))
  {
    InsertedConcat(t, [Commit]);
    InsertedConcat(t + [Commit], Report(callback, 1.0));
    ProgressesConcat(t, [Commit]);
    ProgressesConcat(t + [Commit], Report(callback, 1.0));
    assert Progresses([Commit]) == [];
    assert Progresses(t + [Commit] + Report(callback, 1.0)) == Progresses(t) + Progresses(Report(callback, 1.0));
    NonDecreasingJoin(Progresses(t), Progresses(Report(callback, 1.0)), 1.0);
  }

  /** Every backup trace is the events up to its closing commit or rollback,
      which write the chunks done and report in order below 0.95, then the
      closing event, then the 1.0 report of a successful load. */
  lemma BackupShape(n: nat, callback: bool, fault: Fault, ps: seq<real>)
    returns (front: seq<Event>, last: Event, after: seq<Event>)
    requires LoopReports(ps)
    ensures BackupTraceWith(n, callback, fault, ps) == front + [last] + after
    ensures Orderly(front, 0.95) && Inserted(front) == ChunkList(n, 10000, BackupDone(fault, |ps|))
    ensures last == (if BackupFires(fault, |ps|) then Rollback else Commit)
    ensures after == (if BackupFires(fault, |ps|) then [] else Report(callback, 1.0))
  {
    if fault == RegisterFault || fault == CleanFault || fault == ColumnFault {
      front := BackupShapeEarly(n, callback, fault, ps);
      last, after := Rollback, [];
      assert ChunkList(n, 10000, 0) == [];
    } else {
      front, last, after := BackupShapeLate(n, callback, fault, ps);
    }
  }

  lemma BackupShapeEarly(n: nat, callback: bool, fault: Fault, ps: seq<real>) returns (front: seq<Event>)
    requires fault == RegisterFault || fault == CleanFault || fault == ColumnFault
    ensures BackupTraceWith(n, callback, fault, ps) == front + [Rollback] + []
    ensures Orderly(front, 0.95) && Inserted(front) == []
  {
    PreludeOrderly(callback);
    ReportOrderly(callback, 0.1);
    if fault == RegisterFault {
      front := Report(callback, 0.1);
      OrderlyWeaken(front, 0.1, 0.95);
    } else if fault == CleanFault {
      front := BackupRegistered(callback);
      OrderlyWeaken(front, 0.2, 0.95);
    } else {
      front := BackupMapped(callback);
      OrderlyWeaken(front, 0.4, 0.95);
    }
    assert front + [Rollback] + [] == front + [Rollback];
  }

  lemma BackupShapeLate(n: nat, callback: bool, fault: Fault, ps: seq<real>)
    returns (front: seq<Event>, last: Event, after: seq<Event>)
    requires LoopReports(ps)
    requires fault != RegisterFault && fault != CleanFault && fault != ColumnFault
    ensures BackupTraceWith(n, callback, fault, ps) == front + [last] + after
    ensures Orderly(front, 0.95) && Inserted(front) == ChunkList(n, 10000, BackupDone(fault, |ps|))
    ensures last == (if BackupFires(fault, |ps|) then Rollback else Commit)
    ensures after == (if BackupFires(fault, |ps|) then [] else Report(callback, 1.0))
  {
    if fault.ChunkFault? && fault.k < |ps| {
      front := BackupPrelude(callback) + BackupChunkEvents(n, callback, ps, fault.k);
      PreludeAndChunks(n, callback, ps, fault.k);
      last, after := Rollback, [];
    } else {
      front := BackupWritten(n, callback, ps);
      WrittenFacts(n, callback, ps);
      if fault == CommitFault {
        last, after := Rollback, [];
      } else {
        last, after := Commit, Report(callback, 1.0);
      }
    }
  }

  /** Reports at most a bound are at most any larger one. */
  lemma OrderlyWeaken(t: seq<Event>, b: real, bound: real)
    requires b <= bound && Orderly(t, b)
    ensures Orderly(t, bound)
  {
  }

  lemma BackupInsertsWith(n: nat, callback: bool, fault: Fault, ps: seq<real>)
    requires LoopReports(ps)
    ensures Inserted(BackupTraceWith(n, callback, fault, ps)) == ChunkList(n, 10000, BackupDone(fault, |ps|))
  {
    var front, last, after := BackupShape(n, callback, fault, ps);
    if last == Rollback {
      RollbackClose(front);
      assert front + [last] + after == front + [Rollback];
    } else {
      CommitClose(front, callback);
    }
  }

  lemma BackupMonotoneWith(n: nat, callback: bool, fault: Fault, ps: seq<real>)
    requires LoopReports(ps)
    ensures NonDecreasing(Progresses(BackupTraceWith(n, callback, fault, ps)))
  {
    var front, last, after := BackupShape(n, callback, fault, ps);
    if last == Rollback {
      RollbackClose(front);
      assert front + [last] + after == front + [Rollback];
    } else {
      CommitClose(front, callback);
    }
  }

  lemma BackupCompletionWith(n: nat, callback: bool, fault: Fault, ps: seq<real>)
    requires LoopReports(ps)
    ensures forall i :: 0 <= i < |BackupTraceWith(n, callback, fault, ps)| && BackupTraceWith(n, callback, fault, ps)[i] == Progress(1.0) ==>
      Commit in BackupTraceWith(n, callback, fault, ps)[..i]
  {
    var front, last, after := BackupShape(n, callback, fault, ps);
    var t := front + [last] + after;
    NoFullProgress(front);
    forall i | 0 <= i < |t| && t[i] == Progress(1.0) ensures Commit in t[..i] {
      assert i > |front|;
      assert last == Commit;
      assert t[..i][|front|] == Commit;
    }
  }

  lemma BackupOutcomeWith(n: nat, callback: bool, fault: Fault, ps: seq<real>)
    requires LoopReports(ps)
    ensures !BackupFires(fault, |ps|) ==>
      Commit in BackupTraceWith(n, callback, fault, ps) && Rollback !in BackupTraceWith(n, callback, fault, ps)
    ensures BackupFires(fault, |ps|) ==>
      BackupTraceWith(n, callback, fault, ps)[|BackupTraceWith(n, callback, fault, ps)| - 1] == Rollback
      && Commit !in BackupTraceWith(n, callback, fault, ps)
  {
    var front, last, after := BackupShape(n, callback, fault, ps);
    if last == Commit {
      ReportOrderly(callback, 1.0);
    }
  }

  /** The backup load writes the same consecutive chunks as utils.py, in
      slices of 10000 rows, up to the chunk that fails. */
  lemma BackupInserts(n: nat, callback: bool, fault: Fault)
    ensures Inserted(BackupTrace(n, callback, fault)) == ChunkList(n, 10000, BackupDone(fault, NumChunks(n, 10000)))
  {
    BackupProgressRange(n, NumChunks(n, 10000));
    BackupInsertsWith(n, callback, fault, BackupProgress(n, NumChunks(n, 10000)));
  }

  /** The backup load never reports a smaller progress than it reported before. */
  lemma BackupProgressMonotone(n: nat, callback: bool, fault: Fault)
    ensures NonDecreasing(Progresses(BackupTrace(n, callback, fault)))
  {
    BackupProgressRange(n, NumChunks(n, 10000));
    BackupMonotoneWith(n, callback, fault, BackupProgress(n, NumChunks(n, 10000)));
  }

  /** The backup load reports completion (1.0) only after the commit. */
  lemma BackupCompletionAfterCommit(n: nat, callback: bool, fault: Fault)
    ensures forall i :: 0 <= i < |BackupTrace(n, callback, fault)| && BackupTrace(n, callback, fault)[i] == Progress(1.0) ==>
      Commit in BackupTrace(n, callback, fault)[..i]
  {
    BackupProgressRange(n, NumChunks(n, 10000));
    BackupCompletionWith(n, callback, fault, BackupProgress(n, NumChunks(n, 10000)));
  }

  /** A backup load ends with Rollback and no Commit exactly when a step fails. */
  lemma BackupOutcome(n: nat, callback: bool, fault: Fault)
    ensures !BackupFires(fault, NumChunks(n, 10000)) ==>
      Commit in BackupTrace(n, callback, fault) && Rollback !in BackupTrace(n, callback, fault)
    ensures BackupFires(fault, NumChunks(n, 10000)) ==>
      BackupTrace(n, callback, fault)[|BackupTrace(n, callback, fault)| - 1] == Rollback && Commit !in BackupTrace(n, callback, fault)
  {
    BackupProgressRange(n, NumChunks(n, 10000));
    BackupOutcomeWith(n, callback, fault, BackupProgress(n, NumChunks(n, 10000)));
  }

  // ---------------------------------------------------------------------
  // What the database keeps

  /** What a load leaves in the database: whether its `cargas` row exists
      and the row slices of `transacciones`, in the order written. */
  datatype Stored = Stored(registered: bool, rows: seq<(nat, nat)>)

  /** The connection: what is committed and what the open transaction holds. */
  datatype Conn = Conn(committed: Stored, pending: Stored)

  const Nothing := Stored(false, [])
  const Fresh := Conn(Nothing, Nothing)

  /** `conn.commit()`: the open transaction joins what is committed. */
  function CommitNow(c: Conn): (r: Conn)
    ensures r.pending == Nothing
    ensures r.committed.registered <==> c.committed.registered || c.pending.registered
    ensures r.committed.rows == c.committed.rows + c.pending.rows
  {
    Conn(Stored(c.committed.registered || c.pending.registered, c.committed.rows + c.pending.rows), Nothing)
  }

  /** One event on the connection.  With `toSqlCommits`, a slice written by
      `to_sql` is committed at once, with whatever was pending before it. */
  function Apply(c: Conn, e: Event, toSqlCommits: bool): Conn
  {
    match e
    case Register => Conn(c.committed, Stored(true, c.pending.rows))
    case Insert(lo, hi) =>
      var c' := Conn(c.committed, Stored(c.pending.registered, c.pending.rows + [(lo, hi)]));
      if toSqlCommits then CommitNow(c') else c'
    case Progress(_) => c
    case Commit => CommitNow(c)
    case Rollback => Conn(c.committed, Nothing)
  }

  /** The connection after a trace. */
  function Run(c: Conn, t: seq<Event>, toSqlCommits: bool): Conn
    decreases |t|
  {
    if t == [] then c else Run(Apply(c, t[0], toSqlCommits), t[1..], toSqlCommits)
  }

  lemma {:induction false} RunConcat(c: Conn, a: seq<Event>, b: seq<Event>, toSqlCommits: bool)
    ensures Run(c, a + b, toSqlCommits) == Run(Run(c, a, toSqlCommits), b, toSqlCommits)
    decreases |a|
  {
    if a == [] {
      assert a + b == b;
    } else {
      assert (a + b)[0] == a[0] && (a + b)[1..] == a[1..] + b;
      RunConcat(Apply(c, a[0], toSqlCommits), a[1..], b, toSqlCommits);
    }
  }

  /** Events that only write slices or report progress. */
  predicate Body(t: seq<Event>)
  {
    forall e :: e in t ==> e.Insert? || e.Progress?
  }

  /** The connection after the slices `rows` are written: pending, or all
      committed when `to_sql` commits and something was written. */
  function Absorb(c: Conn, rows: seq<(nat, nat)>, toSqlCommits: bool): Conn
  {
    var c' := Conn(c.committed, Stored(c.pending.registered, c.pending.rows + rows));
    if toSqlCommits && rows != [] then CommitNow(c') else c'
  }

  /** A run of writes and reports adds its slices, in order, to the
      connection, and commits them when `to_sql` commits. */
  lemma {:induction false} RunBody(c: Conn, t: seq<Event>, toSqlCommits: bool)
    requires Body(t)
    ensures Run(c, t, toSqlCommits) == Absorb(c, Inserted(t), toSqlCommits)
    decreases |t|
  {
    if t == [] {
      AbsorbNone(c, toSqlCommits);
    } else {
      BodyTail(t);
      RunBody(Apply(c, t[0], toSqlCommits), t[1..], toSqlCommits);
      if t[0].Insert? {
        AbsorbStep(c, t[0].lo, t[0].hi, Inserted(t[1..]), toSqlCommits);
      } else {
        assert t[0].Progress?;
        assert Inserted(t) == [] + Inserted(t[1..]);
      }
    }
  }

  lemma BodyTail(t: seq<Event>)
    requires Body(t) && t != []
    ensures t[0].Insert? || t[0].Progress?
    ensures Body(t[1..])
  {
    assert t[0] in t;
    forall e | e in t[1..] ensures e.Insert? || e.Progress? {
      assert e in t;
    }
  }

  lemma AbsorbNone(c: Conn, toSqlCommits: bool)
    ensures Absorb(c, [], toSqlCommits) == c
  {
    assert c.pending.rows + [] == c.pending.rows;
  }

  /** Writing one slice, then `rest`, is writing `[slice] + rest`. */
  lemma AbsorbStep(c: Conn, lo: nat, hi: nat, rest: seq<(nat, nat)>, toSqlCommits: bool)
    ensures Absorb(Apply(c, Insert(lo, hi), toSqlCommits), rest, toSqlCommits) == Absorb(c, [(lo, hi)] + rest, toSqlCommits)
  {
    var s := (lo, hi);
    var cr, pr := c.committed.rows, c.pending.rows;
    assert pr + [s] + rest == pr + ([s] + rest);
    if toSqlCommits {
      assert cr + (pr + [s]) + ([] + rest) == cr + (pr + ([s] + rest));
      assert cr + (pr + [s]) == cr + (pr + ([s] + [])) || rest != [];
    }
  }

  /** A report changes nothing. */
  lemma RunReport(c: Conn, callback: bool, p: real, toSqlCommits: bool)
    ensures Run(c, Report(callback, p), toSqlCommits) == c
  {
    RunBody(c, Report(callback, p), toSqlCommits);
    assert c.pending.rows + [] == c.pending.rows;
  }

  lemma {:induction false} UtilsBody(n: nat, callback: bool, d: nat)
    requires d <= NumChunks(n, 5000)
    ensures Body(UtilsChunkEvents(n, callback, d))
  {
    if d > 0 {
      UtilsBody(n, callback, d - 1);
    }
  }

  lemma {:induction false} BackupBody(n: nat, callback: bool, ps: seq<real>, d: nat)
    requires d <= |ps|
    ensures Body(BackupChunkEvents(n, callback, ps, d))
  {
    if d > 0 {
      BackupBody(n, callback, ps, d - 1);
    }
  }

  /** A registered load whose body writes `Inserted(body)`, closed by `last`:
      a commit keeps the registration and every slice; a rollback keeps them
      only when `to_sql` has already committed them, and nothing otherwise.
      Either way no transaction is left open. */
  lemma RunLoad(c: Conn, body: seq<Event>, last: Event, toSqlCommits: bool)
    requires c == Conn(Nothing, Stored(true, []))
    requires Body(body) && (last == Commit || last == Rollback)
    ensures Run(c, body + [last], toSqlCommits) == Conn(
      if last == Commit || (toSqlCommits && Inserted(body) != []) then Stored(true, Inserted(body)) else Nothing,
      Nothing)
  {
    RunConcat(c, body, [last], toSqlCommits);
    RunBody(c, body, toSqlCommits);
    assert [] + Inserted(body) == Inserted(body);
    assert [last][1..] == [];
  }

  /** A utils.py load, as the code runs on sqlite3: the `cargas` row and the
      chunks written stay in the database when a later step fails, unless
      no chunk was written; only a load that fails before its first chunk
      leaves nothing. */
  lemma UtilsStored(n: nat, callback: bool, fault: Fault)
    ensures var m := NumChunks(n, 5000);
      Run(Fresh, UtilsTrace(n, callback, fault), true) ==
        Conn(Stored(!Fires(fault, m) || Done(fault, m) > 0, ChunkList(n, 5000, Done(fault, m))), Nothing)
  {
    UtilsStoredIn(n, callback, fault, true);
  }

  /** A utils.py load in one transaction: everything when it succeeds,
      nothing when a step fails. */
  lemma UtilsAtomicStored(n: nat, callback: bool, fault: Fault)
    ensures Run(Fresh, UtilsTrace(n, callback, fault), false) ==
      Conn(if Fires(fault, NumChunks(n, 5000)) then Nothing else Stored(true, Chunks(n, 5000)), Nothing)
  {
    UtilsStoredIn(n, callback, fault, false);
  }

  lemma UtilsStoredIn(n: nat, callback: bool, fault: Fault, toSqlCommits: bool)
    ensures var m := NumChunks(n, 5000); var d := Done(fault, m);
      Run(Fresh, UtilsTrace(n, callback, fault), toSqlCommits) ==
        Conn(if !Fires(fault, m) || (toSqlCommits && d > 0) then Stored(true, ChunkList(n, 5000, d)) else Nothing, Nothing)
  {
    var m := NumChunks(n, 5000);
    var d := Done(fault, m);
    var t := UtilsTrace(n, callback, fault);
    if fault == RegisterFault {
      assert t[1..] == [];
    } else {
      UtilsTraceShape(n, callback, fault);
      UtilsTraceOutcome(n, callback, fault);
      var body := UtilsChunkEvents(n, callback, d);
      var last := t[|t| - 1];
      UtilsBody(n, callback, d);
      UtilsInserts(n, callback, d);
      assert t == [Register] + (body + [last]);
      RunConcat(Fresh, [Register], body + [last], toSqlCommits);
      assert Run(Fresh, [Register], toSqlCommits) == Conn(Nothing, Stored(true, [])) by {
        assert [Register][1..] == [];
      }
      RunLoad(Conn(Nothing, Stored(true, [])), body, last, toSqlCommits);
    }
  }

  /** The trace of a failed utils.py load of 10000 rows whose second chunk
      raises: it ends in a rollback, yet the `cargas` row and the first 5000
      rows stay in the database. */
  lemma PartialLoadSurvives()
    ensures var t := UtilsTrace(10000, false, ChunkFault(1));
      && t[|t| - 1] == Rollback
      && Run(Fresh, t, true).committed == Stored(true, [(0, 5000)])
  {
    assert NumChunks(10000, 5000) == 2;
    assert Fires(ChunkFault(1), 2) && Done(ChunkFault(1), 2) == 1;
    UtilsStored(10000, false, ChunkFault(1));
    UtilsTraceOutcome(10000, false, ChunkFault(1));
    assert ChunkList(10000, 5000, 1) == [Chunk(10000, 5000, 0)];
  }

  /** A utils_backup.py load, as the code runs on sqlite3. */
  lemma BackupStored(n: nat, callback: bool, fault: Fault)
    ensures var m := NumChunks(n, 10000);
      Run(Fresh, BackupTrace(n, callback, fault), true) ==
        Conn(Stored(!BackupFires(fault, m) || BackupDone(fault, m) > 0, ChunkList(n, 10000, BackupDone(fault, m))), Nothing)
  {
    BackupProgressRange(n, NumChunks(n, 10000));
    BackupStoredWith(n, callback, fault, BackupProgress(n, NumChunks(n, 10000)), true);
  }

  /** A utils_backup.py load in one transaction. */
  lemma BackupAtomicStored(n: nat, callback: bool, fault: Fault)
    ensures Run(Fresh, BackupTrace(n, callback, fault), false) ==
      Conn(if BackupFires(fault, NumChunks(n, 10000)) then Nothing else Stored(true, Chunks(n, 10000)), Nothing)
  {
    BackupProgressRange(n, NumChunks(n, 10000));
    BackupStoredWith(n, callback, fault, BackupProgress(n, NumChunks(n, 10000)), false);
  }

  lemma BackupStoredWith(n: nat, callback: bool, fault: Fault, ps: seq<real>, toSqlCommits: bool)
    requires LoopReports(ps)
    ensures var d := BackupDone(fault, |ps|);
      Run(Fresh, BackupTraceWith(n, callback, fault, ps), toSqlCommits) ==
        Conn(if !BackupFires(fault, |ps|) || (toSqlCommits && d > 0) then Stored(true, ChunkList(n, 10000, d)) else Nothing, Nothing)
  {
    var d := BackupDone(fault, |ps|);
    var t := BackupTraceWith(n, callback, fault, ps);
    var started := Conn(Nothing, Stored(true, []));
    var a := Report(callback, 0.1) + [Register];
    RunReport(Fresh, callback, 0.1, toSqlCommits);
    if fault == RegisterFault {
      RunConcat(Fresh, Report(callback, 0.1), [Rollback], toSqlCommits);
      assert [Rollback][1..] == [];
    } else {
      RunConcat(Fresh, Report(callback, 0.1), [Register], toSqlCommits);
      assert Run(Fresh, a, toSqlCommits) == started by {
        assert [Register][1..] == [];
      }
      var body, last, after := BackupPhases(n, callback, fault, ps);
      RunConcat(Fresh, a, body + [last], toSqlCommits);
      RunLoad(started, body, last, toSqlCommits);
      RunConcat(Fresh, a + (body + [last]), after, toSqlCommits);
      RunReports(Run(Fresh, a + (body + [last]), toSqlCommits), after, toSqlCommits);
    }
  }

  /** A backup load past its registration: the events up to the closing
      commit or rollback, and the reports after it. */
  lemma BackupPhases(n: nat, callback: bool, fault: Fault, ps: seq<real>)
    returns (body: seq<Event>, last: Event, after: seq<Event>)
    requires LoopReports(ps) && fault != RegisterFault
    ensures BackupTraceWith(n, callback, fault, ps) == Report(callback, 0.1) + [Register] + (body + [last]) + after
    ensures Body(body) && Inserted(body) == ChunkList(n, 10000, BackupDone(fault, |ps|))
    ensures last == (if BackupFires(fault, |ps|) then Rollback else Commit)
    ensures Body(after) && Inserted(after) == []
  {
    var x := Report(callback, 0.1) + [Register];
    var r2, r4 := Report(callback, 0.2), Report(callback, 0.4);
    ReportOrderly(callback, 0.2);
    ReportOrderly(callback, 0.4);
    InsertedConcat(r2, r4);
    BodyConcat(r2, r4);
    Regroup(x, r2, r4);
    after := [];
    if fault == CleanFault {
      body, last := r2, Rollback;
      Regroup(x, r2, [Rollback]);
      assert ChunkList(n, 10000, 0) == [];
    } else if fault == ColumnFault {
      body, last := r2 + r4, Rollback;
      Regroup(x, r2 + r4, [Rollback]);
      assert ChunkList(n, 10000, 0) == [];
    } else {
      body, last, after := BackupPhasesLate(n, callback, fault, ps);
    }
  }

  lemma BackupPhasesLate(n: nat, callback: bool, fault: Fault, ps: seq<real>)
    returns (body: seq<Event>, last: Event, after: seq<Event>)
    requires LoopReports(ps) && fault != RegisterFault && fault != CleanFault && fault != ColumnFault
    ensures BackupTraceWith(n, callback, fault, ps) == Report(callback, 0.1) + [Register] + (body + [last]) + after
    ensures Body(body) && Inserted(body) == ChunkList(n, 10000, BackupDone(fault, |ps|))
    ensures last == (if BackupFires(fault, |ps|) then Rollback else Commit)
    ensures Body(after) && Inserted(after) == []
  {
    var d := BackupDone(fault, |ps|);
    var x := Report(callback, 0.1) + [Register];
    var r2, r4, r6 := Report(callback, 0.2), Report(callback, 0.4), Report(callback, 0.6);
    var front := BackupFront(n, callback, ps, d);
    assert BackupPrelude(callback) + BackupChunkEvents(n, callback, ps, d) == x + front;
    after := [];
    if fault.ChunkFault? && fault.k < |ps| {
      body, last := front, Rollback;
      Regroup(x, front, [Rollback]);
    } else {
      var r95 := Report(callback, 0.95);
      ReportOrderly(callback, 0.95);
      InsertedConcat(front, r95);
      BodyConcat(front, r95);
      body := front + r95;
      assert Inserted(body) == Inserted(front) + [];
      Regroup(x, front, r95);
      assert BackupWritten(n, callback, ps) == x + body;
      Regroup(x, body, [Rollback]);
      Regroup(x, body, [Commit]);
      if fault == CommitFault {
        last := Rollback;
      } else {
        last, after := Commit, Report(callback, 1.0);
        ReportOrderly(callback, 1.0);
      }
    }
  }

  /** The events after the registration and before the closing one, up to
      the end of chunk `d`. */
  lemma BackupFront(n: nat, callback: bool, ps: seq<real>, d: nat) returns (front: seq<Event>)
    requires d <= |ps|
    ensures BackupPrelude(callback) + BackupChunkEvents(n, callback, ps, d) == Report(callback, 0.1) + [Register] + front
    ensures Body(front) && Inserted(front) == ChunkList(n, 10000, d)
  {
    var x := Report(callback, 0.1) + [Register];
    var r2, r4, r6 := Report(callback, 0.2), Report(callback, 0.4), Report(callback, 0.6);
    var chunks := BackupChunkEvents(n, callback, ps, d);
    front := r2 + r4 + r6 + chunks;
    ReportOrderly(callback, 0.2);
    ReportOrderly(callback, 0.4);
    ReportOrderly(callback, 0.6);
    BackupBody(n, callback, ps, d);
    BackupInsertsChunks(n, callback, ps, d);
    InsertedConcat(r2, r4);
    InsertedConcat(r2 + r4, r6);
    InsertedConcat(r2 + r4 + r6, chunks);
    BodyConcat(r2, r4);
    BodyConcat(r2 + r4, r6);
    BodyConcat(r2 + r4 + r6, chunks);
    assert Inserted(r2 + r4 + r6) == [];
    Regroup(x, r2, r4);
    Regroup(x, r2 + r4, r6);
    Regroup(x, r2 + r4 + r6, chunks);
  }

  lemma BodyConcat(a: seq<Event>, b: seq<Event>)
    requires Body(a) && Body(b)
    ensures Body(a + b)
  {
  }

  lemma Regroup<T>(a: seq<T>, b: seq<T>, c: seq<T>)
    ensures a + b + c == a + (b + c)
    ensures a + b + [] == a + b
  {
  }

  /** Reports change nothing. */
  lemma RunReports(c: Conn, t: seq<Event>, toSqlCommits: bool)
    requires Body(t) && Inserted(t) == []
    ensures Run(c, t, toSqlCommits) == c
  {
    RunBody(c, t, toSqlCommits);
    AbsorbNone(c, toSqlCommits);
  }
}
