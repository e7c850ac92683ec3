/** The two detectors that read the words of outflow memos: shared vendors
    ("red de proveedores comunes") and memo text mining ("minería de texto en
    glosas").  Both walk the outflows row by row and word by word; the first
    appends one record per long word, the second keeps a dictionary of
    per-word tallies that it updates in place. */
module WordMining {
  import opened Common
  import opened Tables
  import opened Memo

  predicate IsOutflow(t: Txn)
  {
    t.direction == Egreso
  }

  /** `df_caso[df_caso['i_e'] == 'Egreso']`. */
  function Outflows(rows: seq<Txn>): (r: seq<Txn>)
    ensures forall t :: t in r <==> t in rows && t.direction == Egreso
    ensures forall t :: multiset(r)[t] == if t.direction == Egreso then multiset(rows)[t] else 0
  {
    assert forall t :: multiset(Filter(rows, IsOutflow))[t] == if IsOutflow(t) then multiset(rows)[t] else 0 by {
      forall t ensures multiset(Filter(rows, IsOutflow))[t] == if IsOutflow(t) then multiset(rows)[t] else 0 {
        FilterMultiset(rows, IsOutflow, t);
      }
    }
    Filter(rows, IsOutflow)
  }

  /** The words of a row's cleaned memo (`str.split()`); a null memo has none. */
  function WordsOf(t: Txn): seq<string>
  {
    if t.memo.Some? then Split(t.memo.value) else []
  }

  /** One counted word: the 8-character client prefix, the word, the row's amount. */
  datatype WordUse = WordUse(client: string, word: string, amount: Money)

  /** The uses one row contributes from the first `j` words of its memo. */
  function RowUses(t: Txn, words: seq<string>, keep: string -> bool, j: nat): seq<WordUse>
    requires j <= |words|
  {
    if j == 0 then []
    else
      var w := words[j - 1];
      RowUses(t, words, keep, j - 1) + (if keep(w) then [WordUse(Prefix8(t.client), w, t.amount)] else [])
  }

  /** The uses the first `n` rows contribute, in row order and word order. */
  function UsesIn(rows: seq<Txn>, keep: string -> bool, n: nat): seq<WordUse>
    requires n <= |rows|
  {
    if n == 0 then []
    else
      var t := rows[n - 1];
      UsesIn(rows, keep, n - 1) + RowUses(t, WordsOf(t), keep, |WordsOf(t)|)
  }

  /** Row `t` has `u.word` in its memo, the word is kept, and `u` carries
      the row's client prefix and amount. */
  predicate RowUsed(t: Txn, keep: string -> bool, u: WordUse)
  {
    u == WordUse(Prefix8(t.client), u.word, t.amount) && keep(u.word) && u.word in WordsOf(t)
  }

  /** Some row of `rows` uses the word as `u` says. */
  ghost predicate UsedBy(rows: seq<Txn>, keep: string -> bool, u: WordUse)
  {
    exists t :: t in rows && RowUsed(t, keep, u)
  }

  lemma {:induction false} RowUsesSpec(t: Txn, words: seq<string>, keep: string -> bool, j: nat, u: WordUse)
    requires j <= |words|
    ensures u in RowUses(t, words, keep, j) <==>
      u == WordUse(Prefix8(t.client), u.word, t.amount) && keep(u.word) && u.word in words[..j]
  {
    if j > 0 {
      RowUsesSpec(t, words, keep, j - 1, u);
      assert words[..j] == words[..j - 1] + [words[j - 1]];
    }
  }

  /** Adding a row adds exactly that row's uses. */
  lemma UsedBySnoc(rows: seq<Txn>, t: Txn, keep: string -> bool, u: WordUse)
    ensures UsedBy(rows + [t], keep, u) <==> UsedBy(rows, keep, u) || RowUsed(t, keep, u)
  {
    if UsedBy(rows + [t], keep, u) && !RowUsed(t, keep, u) {
      var s :| s in rows + [t] && RowUsed(s, keep, u);
      assert s in rows;
    }
    if RowUsed(t, keep, u) {
      assert t in rows + [t];
    }
    if UsedBy(rows, keep, u) {
      var s :| s in rows && RowUsed(s, keep, u);
      assert s in rows + [t];
    }
  }

  /** A use is recorded exactly when some row's memo holds a kept word. */
  lemma {:induction false} UsesInSpec(rows: seq<Txn>, keep: string -> bool, n: nat, u: WordUse)
    requires n <= |rows|
    ensures u in UsesIn(rows, keep, n) <==> UsedBy(rows[..n], keep, u)
  {
    if n > 0 {
      var t := rows[n - 1];
      UsesInSpec(rows, keep, n - 1, u);
      RowUsesSpec(t, WordsOf(t), keep, |WordsOf(t)|, u);
      assert WordsOf(t)[..|WordsOf(t)|] == WordsOf(t);
      assert rows[..n] == rows[..n - 1] + [t];
      UsedBySnoc(rows[..n - 1], t, keep, u);
    }
  }

  // ---------------------------------------------------------------------
  // Per-word reference aggregates over the uses

  /** How many uses carry the word. */
  function Mentions(us: seq<WordUse>, w: string): nat
  {
    if us == [] then 0
    else Mentions(us[..|us| - 1], w) + (if us[|us| - 1].word == w then 1 else 0)
  }

  /** The amount of the uses carrying the word. */
  function Spent(us: seq<WordUse>, w: string): (r: real)
    ensures 0.0 <= r
  {
    if us == [] then 0.0
    else Spent(us[..|us| - 1], w) + (if us[|us| - 1].word == w then us[|us| - 1].amount else 0.0)
  }

  /** The client prefixes of the uses carrying the word. */
  function Payers(us: seq<WordUse>, w: string): set<string>
  {
    set u | u in us && u.word == w :: u.client
  }

  lemma PayersSnoc(us: seq<WordUse>, u: WordUse, w: string)
    ensures Payers(us + [u], w) == Payers(us, w) + (if u.word == w then {u.client} else {})
  {
    assert forall x :: x in us + [u] <==> x in us || x == u;
  }

  /** A word is mentioned exactly when some use carries it; it then has
      between one and as many client prefixes as mentions. */
  lemma {:induction false} MentionsSpec(us: seq<WordUse>, w: string)
    ensures Mentions(us, w) > 0 <==> exists u :: u in us && u.word == w
    ensures |Payers(us, w)| <= Mentions(us, w)
    ensures Mentions(us, w) > 0 ==> |Payers(us, w)| >= 1
  {
    if us != [] {
      var init := us[..|us| - 1];
      var u := us[|us| - 1];
      assert us == init + [u];
      MentionsSpec(init, w);
      PayersSnoc(init, u, w);
      assert forall x :: x in us <==> x in init || x == u;
      if u.word == w {
        assert u.client in Payers(us, w);
      }
    }
  }

  /** A word no use carries has no prefix and no amount. */
  lemma {:induction false} Unmentioned(us: seq<WordUse>, w: string)
    requires Mentions(us, w) == 0
    ensures Payers(us, w) == {} && Spent(us, w) == 0.0
  {
    if us != [] {
      var init := us[..|us| - 1];
      Unmentioned(init, w);
      PayersSnoc(init, us[|us| - 1], w);
      assert us == init + [us[|us| - 1]];
    }
  }

  /** The word column of the uses. */
  function WordColumn(us: seq<WordUse>): (r: seq<string>)
    ensures |r| == |us|
    ensures forall i :: 0 <= i < |us| ==> r[i] == us[i].word
  {
    seq(|us|, i requires 0 <= i < |us| => us[i].word)
  }

  /** The distinct words, in order of first use. */
  function WordsUsed(us: seq<WordUse>): (r: seq<string>)
    ensures NoDuplicates(r)
    ensures forall w :: w in r <==> exists u :: u in us && u.word == w
  {
    var col := WordColumn(us);
    assert forall w :: w in col <==> exists u :: u in us && u.word == w by {
      forall w | w in col ensures exists u :: u in us && u.word == w {
        var i :| 0 <= i < |col| && col[i] == w;
        assert us[i] in us;
      }
    }
    Distinct(col)
  }

  /** Every use of the whole outflow list comes from a row, and back. */
  lemma UsesOfRows(out: seq<Txn>, keep: string -> bool, u: WordUse)
    ensures u in UsesIn(out, keep, |out|) <==> UsedBy(out, keep, u)
  {
    UsesInSpec(out, keep, |out|, u);
    assert out[..|out|] == out;
  }

  /** The client prefixes of a kept word are those of the rows whose memo
      holds it. */
  lemma PayersFromRows(out: seq<Txn>, keep: string -> bool, w: string)
    requires keep(w)
    ensures Payers(UsesIn(out, keep, |out|), w) == set t | t in out && w in WordsOf(t) :: Prefix8(t.client)
  {
    var uses := UsesIn(out, keep, |out|);
    forall c | c in Payers(uses, w) ensures exists t :: t in out && w in WordsOf(t) && c == Prefix8(t.client) {
      var u :| u in uses && u.word == w && u.client == c;
      UsesOfRows(out, keep, u);
    }
    forall t | t in out && w in WordsOf(t) ensures Prefix8(t.client) in Payers(uses, w) {
      var u := WordUse(Prefix8(t.client), w, t.amount);
      UsesOfRows(out, keep, u);
    }
  }

  // ---------------------------------------------------------------------
  // Shared vendors

  /** `len(palabra) > 4`. */
  predicate LongWord(w: string)
  {
    |w| > 4
  }

  /** One line of `df_proveedores`: the word, the set of client prefixes
      (`list(set(x))`) and the summed amount. */
  datatype VendorRow = VendorRow(word: string, clients: set<string>, total: real)

  /** `groupby('palabra')` over the collected uses. */
  function VendorTable(us: seq<WordUse>): (r: seq<VendorRow>)
    ensures |r| == |WordsUsed(us)|
  {
    var ws := WordsUsed(us);
    seq(|ws|, i requires 0 <= i < |ws| => VendorRow(ws[i], Payers(us, ws[i]), Spent(us, ws[i])))
  }

  function ClientCount(v: VendorRow): real
  {
    |v.clients| as real
  }

  /** `num_clientes >= min_clientes`. */
  function SharedByAtLeast(minClients: nat): VendorRow -> bool
  {
    (v: VendorRow) => |v.clients| >= minClients
  }

  /** The 20 most widely shared lines among those shared widely enough. */
  function TopVendors(us: seq<WordUse>, minClients: nat): (r: seq<VendorRow>)
  {
    Take(SortDesc(Filter(VendorTable(us), SharedByAtLeast(minClients)), ClientCount), 20)
  }

  datatype VendorOutcome = NoOutflows | NoWords | Vendors(rows: seq<VendorRow>)

  /** No outflows; outflows but no long word; otherwise the top vendors. */
  function SharedVendors(rows: seq<Txn>, minClients: nat): (r: VendorOutcome)
    ensures r.NoOutflows? <==> Outflows(rows) == []
  {
    var out := Outflows(rows);
    if out == [] then NoOutflows
    else
      var uses := UsesIn(out, LongWord, |out|);
      if uses == [] then NoWords else Vendors(TopVendors(uses, minClients))
  }

  /** The `iterrows` loop that fills `palabras_todas`. */
  method CollectWords(out: seq<Txn>) returns (uses: seq<WordUse>)
    ensures uses == UsesIn(out, LongWord, |out|)
  {
    uses := [];
    var i := 0;
    while i < |out|
      invariant 0 <= i <= |out|
      invariant uses == UsesIn(out, LongWord, i)
    {
      var more := CollectRow(out[i]);
      uses := uses + more;
      i := i + 1;
    }
  }

  /** The inner loop over the words of one memo. */
  method CollectRow(t: Txn) returns (more: seq<WordUse>)
    ensures more == RowUses(t, WordsOf(t), LongWord, |WordsOf(t)|)
  {
    var words := WordsOf(t);
    more := [];
    var j := 0;
    while j < |words|
      invariant 0 <= j <= |words|
      invariant more == RowUses(t, words, LongWord, j)
    {
      if |words[j]| > 4 {
        more := more + [WordUse(Prefix8(t.client), words[j], t.amount)];
      }
      j := j + 1;
    }
  }

  /** The detector: the collecting loop, then the grouping. */
  method FindSharedVendors(rows: seq<Txn>, minClients: nat) returns (r: VendorOutcome)
    ensures r == SharedVendors(rows, minClients)
  {
    var out := Outflows(rows);
    if out == [] {
      return NoOutflows;
    }
    var uses := CollectWords(out);
    if uses == [] {
      return NoWords;
    }
    var table := Filter(VendorTable(uses), SharedByAtLeast(minClients));
    r := Vendors(Take(SortDesc(table, ClientCount), 20));
  }

  /** A line of the grouping is a used word with its prefixes and amount. */
  lemma VendorLine(us: seq<WordUse>, v: VendorRow)
    requires v in VendorTable(us)
    ensures exists u :: u in us && u.word == v.word
    ensures v == VendorRow(v.word, Payers(us, v.word), Spent(us, v.word))
  {
    var ws := WordsUsed(us);
    var i :| 0 <= i < |VendorTable(us)| && VendorTable(us)[i] == v;
    assert ws[i] in ws;
  }

  /** Every used word has its line. */
  lemma VendorLineOf(us: seq<WordUse>, w: string)
    requires exists u :: u in us && u.word == w
    ensures VendorRow(w, Payers(us, w), Spent(us, w)) in VendorTable(us)
  {
    var ws := WordsUsed(us);
    assert w in ws;
    var i :| 0 <= i < |ws| && ws[i] == w;
    assert VendorTable(us)[i] == VendorRow(w, Payers(us, w), Spent(us, w));
  }

  lemma VendorTableDistinct(us: seq<WordUse>)
    ensures NoDuplicates(VendorTable(us))
  {
    var ws := WordsUsed(us);
    var table := VendorTable(us);
    forall i, j | 0 <= i < j < |table| ensures table[i] != table[j] {
      assert table[i].word == ws[i] && table[j].word == ws[j];
    }
  }

  /** At most 20 lines, most-shared first, none repeated. */
  lemma TopVendorsShape(us: seq<WordUse>, minClients: nat)
    ensures |TopVendors(us, minClients)| <= 20
    ensures SortedDesc(TopVendors(us, minClients), ClientCount)
    ensures NoDuplicates(TopVendors(us, minClients))
  {
    var kept := Filter(VendorTable(us), SharedByAtLeast(minClients));
    var sorted := SortDesc(kept, ClientCount);
    VendorTableDistinct(us);
    FilterNoDuplicates(VendorTable(us), SharedByAtLeast(minClients));
    PermutationNoDuplicates(kept, sorted);
    TakeNoDuplicates(sorted, 20);
  }

  /** A shown line is a line of the grouping shared widely enough. */
  lemma TopVendor(us: seq<WordUse>, minClients: nat, v: VendorRow)
    requires v in TopVendors(us, minClients)
    ensures v in VendorTable(us) && |v.clients| >= minClients
  {
    var kept := Filter(VendorTable(us), SharedByAtLeast(minClients));
    assert v in multiset(SortDesc(kept, ClientCount));
  }

  /** Each reported vendor is a long word of some outflow memo, shared by at
      least `minClients` prefixes, with its prefixes and amount; at most 20
      lines, most-shared first, one line per word. */
  lemma VendorsRows(rows: seq<Txn>, minClients: nat)
    requires SharedVendors(rows, minClients).Vendors?
    ensures var out := Outflows(rows);
      var uses := UsesIn(out, LongWord, |out|);
      var t := SharedVendors(rows, minClients).rows;
      && |t| <= 20
      && SortedDesc(t, ClientCount)
      && NoDuplicates(t)
      && forall v :: v in t ==>
        && |v.word| > 4
        && |v.clients| >= minClients
        && v.clients == Payers(uses, v.word)
        && v.total == Spent(uses, v.word)
        && exists u :: u in uses && u.word == v.word
  {
    var out := Outflows(rows);
    var uses := UsesIn(out, LongWord, |out|);
    TopVendorsShape(uses, minClients);
    forall v | v in TopVendors(uses, minClients)
      ensures |v.word| > 4 && |v.clients| >= minClients
      ensures v == VendorRow(v.word, Payers(uses, v.word), Spent(uses, v.word))
      ensures exists u :: u in uses && u.word == v.word
    {
      TopVendor(uses, minClients, v);
      VendorLine(uses, v);
      var u :| u in uses && u.word == v.word;
      UsesOfRows(out, LongWord, u);
    }
  }

  /** A long word shared by at least `minClients` prefixes that is not
      reported was crowded out: 20 lines are shown, each shared at least as
      widely. */
  lemma VendorsComplete(rows: seq<Txn>, minClients: nat, w: string)
    requires SharedVendors(rows, minClients).Vendors?
    requires var out := Outflows(rows);
      var uses := UsesIn(out, LongWord, |out|);
      (exists u :: u in uses && u.word == w) && |Payers(uses, w)| >= minClients
    requires forall v :: v in SharedVendors(rows, minClients).rows ==> v.word != w
    ensures var out := Outflows(rows);
      var uses := UsesIn(out, LongWord, |out|);
      var t := SharedVendors(rows, minClients).rows;
      |t| == 20 && forall v :: v in t ==> |v.clients| >= |Payers(uses, w)|
  {
    var out := Outflows(rows);
    TopVendorsComplete(UsesIn(out, LongWord, |out|), minClients, w);
  }

  /** The same over the collected uses. */
  lemma TopVendorsComplete(uses: seq<WordUse>, minClients: nat, w: string)
    requires (exists u :: u in uses && u.word == w) && |Payers(uses, w)| >= minClients
    requires forall v :: v in TopVendors(uses, minClients) ==> v.word != w
    ensures |TopVendors(uses, minClients)| == 20
    ensures forall v :: v in TopVendors(uses, minClients) ==> |v.clients| >= |Payers(uses, w)|
  {
    var kept := Filter(VendorTable(uses), SharedByAtLeast(minClients));
    var sorted := SortDesc(kept, ClientCount);
    var x := VendorRow(w, Payers(uses, w), Spent(uses, w));
    VendorLineOf(uses, w);
    assert x in kept;
    assert x in multiset(sorted);
    assert x !in Take(sorted, 20);
    TakeRanked(sorted, ClientCount, 20);
  }

  // ---------------------------------------------------------------------
  // Memo text mining

  /** The per-word entry of `palabras_freq`. */
  datatype Tally = Tally(count: nat, clients: set<string>, amount: real)

  /** The three in-place updates of one word's entry, creating it first. */
  function Bump(freq: map<string, Tally>, u: WordUse): map<string, Tally>
  {
    var prior := if u.word in freq then freq[u.word] else Tally(0, {}, 0.0);
    freq[u.word := Tally(prior.count + 1, prior.clients + {u.client}, prior.amount + u.amount)]
  }

  /** The dictionary after the given uses, in order. */
  function Tallies(us: seq<WordUse>): map<string, Tally>
  {
    if us == [] then map[] else Bump(Tallies(us[..|us| - 1]), us[|us| - 1])
  }

  /** Every entry holds exactly its word's mention count, prefixes and amount,
      and only mentioned words have an entry. */
  lemma {:induction false} TalliesSpec(us: seq<WordUse>, w: string)
    ensures w in Tallies(us) <==> Mentions(us, w) > 0
    ensures w in Tallies(us) ==> Tallies(us)[w] == Tally(Mentions(us, w), Payers(us, w), Spent(us, w))
  {
    if us != [] {
      var init := us[..|us| - 1];
      var u := us[|us| - 1];
      TalliesSpec(init, w);
      if u.word == w {
        PayersSnoc(init, u, w);
        assert us == init + [u];
        if Mentions(init, w) == 0 {
          Unmentioned(init, w);
        }
      }
    }
  }

  /** `len(palabra) > 4 and palabra not in excluir`. */
  function Unexcluded(excl: seq<string>): string -> bool
  {
    (w: string) => |w| > 4 && w !in excl
  }

  /** One more use extends the dictionary by `Bump` and the insertion order
      by the word exactly when it had no entry. */
  lemma AddUse(us: seq<WordUse>, u: WordUse)
    ensures Tallies(us + [u]) == Bump(Tallies(us), u)
    ensures WordsUsed(us + [u]) == if u.word in Tallies(us) then WordsUsed(us) else WordsUsed(us) + [u.word]
  {
    assert (us + [u])[..|us|] == us;
    assert WordColumn(us + [u])[..|us|] == WordColumn(us);
    TalliesSpec(us, u.word);
    MentionsSpec(us, u.word);
  }

  /** One word of `palabras_freq` updated in place: its entry is created when
      missing, then its count, prefixes and amount are bumped. */
  method Record(freq: map<string, Tally>, order: seq<string>, u: WordUse)
    returns (updated: map<string, Tally>, seen: seq<string>)
    ensures updated == Bump(freq, u)
    ensures seen == if u.word in freq then order else order + [u.word]
  {
    updated, seen := freq, order;
    var w := u.word;
    if w !in updated {
      seen := seen + [w];
      updated := updated[w := Tally(0, {}, 0.0)];
    }
    updated := updated[w := updated[w].(count := updated[w].count + 1)];
    updated := updated[w := updated[w].(clients := updated[w].clients + {u.client})];
    updated := updated[w := updated[w].(amount := updated[w].amount + u.amount)];
  }

  /** The uses of one more row follow those of the rows before it. */
  lemma UsesInStep(out: seq<Txn>, keep: string -> bool, i: nat)
    requires i < |out|
    ensures UsesIn(out, keep, i + 1) == UsesIn(out, keep, i) + RowUses(out[i], WordsOf(out[i]), keep, |WordsOf(out[i])|)
  {
  }

  /** One more word of a memo adds its use when the word is kept. */
  lemma NextUses(before: seq<WordUse>, t: Txn, words: seq<string>, keep: string -> bool, j: nat)
    requires j < |words|
    ensures before + RowUses(t, words, keep, j + 1) ==
      before + RowUses(t, words, keep, j) + (if keep(words[j]) then [WordUse(Prefix8(t.client), words[j], t.amount)] else [])
  {
  }

  /** One word of a memo: tallied when it is long and not excluded. */
  method TallyWord(t: Txn, words: seq<string>, j: nat, excl: seq<string>, ghost before: seq<WordUse>,
                   freq: map<string, Tally>, order: seq<string>)
    returns (updated: map<string, Tally>, seen: seq<string>)
    requires j < |words|
    requires freq == Tallies(before + RowUses(t, words, Unexcluded(excl), j))
    requires order == WordsUsed(before + RowUses(t, words, Unexcluded(excl), j))
    ensures updated == Tallies(before + RowUses(t, words, Unexcluded(excl), j + 1))
    ensures seen == WordsUsed(before + RowUses(t, words, Unexcluded(excl), j + 1))
  {
    ghost var done := before + RowUses(t, words, Unexcluded(excl), j);
    NextUses(before, t, words, Unexcluded(excl), j);
    var w := words[j];
    if |w| > 4 && w !in excl {
      var u := WordUse(Prefix8(t.client), w, t.amount);
      assert Unexcluded(excl)(w);
      assert before + RowUses(t, words, Unexcluded(excl), j + 1) == done + [u];
      AddUse(done, u);
      updated, seen := Record(freq, order, u);
    } else {
      assert !Unexcluded(excl)(w);
      assert before + RowUses(t, words, Unexcluded(excl), j + 1) == done;
      updated, seen := freq, order;
    }
  }

  /** The inner loop: a present memo's words are tallied in order; a null
      memo is skipped (`pd.notna`). */
  method TallyMemo(t: Txn, excl: seq<string>, ghost before: seq<WordUse>,
                   freq: map<string, Tally>, order: seq<string>)
    returns (updated: map<string, Tally>, seen: seq<string>)
    requires freq == Tallies(before) && order == WordsUsed(before)
    ensures updated == Tallies(before + RowUses(t, WordsOf(t), Unexcluded(excl), |WordsOf(t)|))
    ensures seen == WordsUsed(before + RowUses(t, WordsOf(t), Unexcluded(excl), |WordsOf(t)|))
  {
    updated, seen := freq, order;
    if t.memo.None? {
      assert before + RowUses(t, WordsOf(t), Unexcluded(excl), |WordsOf(t)|) == before;
      return;
    }
    var words := Split(t.memo.value);
    assert before + RowUses(t, words, Unexcluded(excl), 0) == before;
    var j := 0;
    while j < |words|
      invariant 0 <= j <= |words|
      invariant updated == Tallies(before + RowUses(t, words, Unexcluded(excl), j))
      invariant seen == WordsUsed(before + RowUses(t, words, Unexcluded(excl), j))
    {
      updated, seen := TallyWord(t, words, j, excl, before, updated, seen);
      j := j + 1;
    }
  }

  /** The loop that fills `palabras_freq`; `order` is the dictionary's
      insertion order. */
  method TallyWords(out: seq<Txn>, excl: seq<string>) returns (freq: map<string, Tally>, order: seq<string>)
    ensures freq == Tallies(UsesIn(out, Unexcluded(excl), |out|))
    ensures order == WordsUsed(UsesIn(out, Unexcluded(excl), |out|))
  {
    freq := map[];
    order := [];
    var i := 0;
    while i < |out|
      invariant 0 <= i <= |out|
      invariant freq == Tallies(UsesIn(out, Unexcluded(excl), i))
      invariant order == WordsUsed(UsesIn(out, Unexcluded(excl), i))
    {
      UsesInStep(out, Unexcluded(excl), i);
      freq, order := TallyMemo(out[i], excl, UsesIn(out, Unexcluded(excl), i), freq, order);
      i := i + 1;
    }
  }

  /** One line of `df_palabras`. */
  datatype MiningRow = MiningRow(word: string, freq: nat, clients: nat, total: real)

  /** The frame built from `palabras_freq.items()`. */
  function MiningTable(freq: map<string, Tally>, order: seq<string>): (r: seq<MiningRow>)
    requires forall w :: w in order ==> w in freq
    ensures |r| == |order|
  {
    seq(|order|, i requires 0 <= i < |order| =>
      MiningRow(order[i], freq[order[i]].count, |freq[order[i]].clients|, freq[order[i]].amount))
  }

  lemma TalliesCover(us: seq<WordUse>)
    ensures forall w :: w in WordsUsed(us) ==> w in Tallies(us)
  {
    forall w | w in WordsUsed(us) ensures w in Tallies(us) {
      TalliesSpec(us, w);
      MentionsSpec(us, w);
    }
  }

  /** The frame of the dictionary the uses leave behind. */
  function TallyTable(us: seq<WordUse>): seq<MiningRow>
  {
    TalliesCover(us);
    MiningTable(Tallies(us), WordsUsed(us))
  }

  predicate Widespread(r: MiningRow)
  {
    r.clients >= 2
  }

  function SharedBy(r: MiningRow): real
  {
    r.clients as real
  }

  /** `Num Clientes >= 2`, sorted by it, first 30. */
  function TopWords(us: seq<WordUse>): seq<MiningRow>
  {
    Take(SortDesc(Filter(TallyTable(us), Widespread), SharedBy), 30)
  }

  /** The counted words of the outflows: long and not excluded. */
  function Counted(out: seq<Txn>, text: string): seq<WordUse>
  {
    UsesIn(out, Unexcluded(TermList(text)), |out|)
  }

  datatype MiningOutcome = NoOutflowRows | MissingColumn | Mined(rows: seq<MiningRow>)

  /** The detector as written: with outflows but no counted word the
      dictionary is empty, the frame has no `Num Clientes` column and the
      filter on it raises `KeyError`. */
  function TextMiningAsWritten(rows: seq<Txn>, text: string): MiningOutcome
  {
    var out := Outflows(rows);
    if out == [] then NoOutflowRows
    else if Counted(out, text) == [] then MissingColumn
    else Mined(TopWords(Counted(out, text)))
  }

  /** The detector with an empty dictionary giving an empty table. */
  function TextMining(rows: seq<Txn>, text: string): (r: MiningOutcome)
    ensures !r.MissingColumn?
    ensures r.NoOutflowRows? <==> Outflows(rows) == []
  {
    var out := Outflows(rows);
    if out == [] then NoOutflowRows else Mined(TopWords(Counted(out, text)))
  }

  /** The detector: the tallying loop, then the frame, filter and sort. */
  method MineText(rows: seq<Txn>, text: string) returns (r: MiningOutcome)
    ensures r == TextMining(rows, text)
  {
    var out := Outflows(rows);
    if out == [] {
      return NoOutflowRows;
    }
    var excl := TermList(text);
    var freq, order := TallyWords(out, excl);
    TalliesCover(UsesIn(out, Unexcluded(excl), |out|));
    var table := Filter(MiningTable(freq, order), Widespread);
    r := Mined(Take(SortDesc(table, SharedBy), 30));
  }

  /** An outflow whose memo is the single short word `PAGO` makes the
      detector as written fail, whatever the exclusion list. */
  lemma TextMiningKeyError(text: string)
    ensures var t := Txn("12345678901", "DNI", None, None, "SOLES", None, None, "2024-01-02", 0, None,
                         Some("PAGO"), None, None, None, None, 50.0, Egreso);
      TextMiningAsWritten([t], text) == MissingColumn
  {
    var t := Txn("12345678901", "DNI", None, None, "SOLES", None, None, "2024-01-02", 0, None,
                 Some("PAGO"), None, None, None, None, 50.0, Egreso);
    assert Outflows([t]) == [t];
    assert forall i :: 0 <= i < 4 ==> !IsSpace("PAGO"[i]);
    assert WordLength("PAGO") == 4;
    assert "PAGO"[4..] == [] && "PAGO"[..4] == "PAGO";
    assert !IsSpace("PAGO"[0]);
    assert Split("PAGO") == ["PAGO"];
    assert WordsOf(t) == ["PAGO"];
    assert !Unexcluded(TermList(text))("PAGO");
    assert RowUses(t, ["PAGO"], Unexcluded(TermList(text)), 1) == [];
    assert Counted([t], text) == UsesIn([t], Unexcluded(TermList(text)), 0) + RowUses(t, WordsOf(t), Unexcluded(TermList(text)), 1);
    assert Counted([t], text) == [];
  }

  /** Wherever the detector as written does not fail, the corrected one
      gives the same result; where it fails, the corrected one reports no
      word. */
  lemma TextMiningCorrected(rows: seq<Txn>, text: string)
    ensures TextMiningAsWritten(rows, text) != MissingColumn ==> TextMining(rows, text) == TextMiningAsWritten(rows, text)
    ensures TextMiningAsWritten(rows, text) == MissingColumn ==> TextMining(rows, text) == Mined([])
  {
    var out := Outflows(rows);
    if out != [] && Counted(out, text) == [] {
      assert WordsUsed([]) == [];
    }
  }

  /** A line of the frame is a counted word with its mention count, prefix
      count and amount. */
  lemma MiningLine(us: seq<WordUse>, r: MiningRow)
    requires r in TallyTable(us)
    ensures Mentions(us, r.word) > 0
    ensures r == MiningRow(r.word, Mentions(us, r.word), |Payers(us, r.word)|, Spent(us, r.word))
  {
    var ws := WordsUsed(us);
    var i :| 0 <= i < |TallyTable(us)| && TallyTable(us)[i] == r;
    assert ws[i] in ws;
    TalliesSpec(us, r.word);
    MentionsSpec(us, r.word);
  }

  /** Every counted word has its line. */
  lemma MiningLineOf(us: seq<WordUse>, w: string)
    requires Mentions(us, w) > 0
    ensures MiningRow(w, Mentions(us, w), |Payers(us, w)|, Spent(us, w)) in TallyTable(us)
  {
    var ws := WordsUsed(us);
    MentionsSpec(us, w);
    TalliesSpec(us, w);
    assert w in ws;
    var i :| 0 <= i < |ws| && ws[i] == w;
    assert TallyTable(us)[i] == MiningRow(w, Mentions(us, w), |Payers(us, w)|, Spent(us, w));
  }

  lemma TallyTableDistinct(us: seq<WordUse>)
    ensures NoDuplicates(TallyTable(us))
  {
    var ws := WordsUsed(us);
    var table := TallyTable(us);
    forall i, j | 0 <= i < j < |table| ensures table[i] != table[j] {
      assert table[i].word == ws[i] && table[j].word == ws[j];
    }
  }

  /** At most 30 lines, most-shared first, none repeated. */
  lemma TopWordsShape(us: seq<WordUse>)
    ensures |TopWords(us)| <= 30
    ensures SortedDesc(TopWords(us), SharedBy)
    ensures NoDuplicates(TopWords(us))
  {
    var kept := Filter(TallyTable(us), Widespread);
    var sorted := SortDesc(kept, SharedBy);
    TallyTableDistinct(us);
    FilterNoDuplicates(TallyTable(us), Widespread);
    PermutationNoDuplicates(kept, sorted);
    TakeNoDuplicates(sorted, 30);
  }

  /** A shown line is a line of the frame shared by two prefixes or more. */
  lemma TopWord(us: seq<WordUse>, r: MiningRow)
    requires r in TopWords(us)
    ensures r in TallyTable(us) && r.clients >= 2
  {
    var kept := Filter(TallyTable(us), Widespread);
    assert r in multiset(SortDesc(kept, SharedBy));
  }

  /** Each reported word is long, not excluded, occurs in some outflow memo,
      is shared by at least two prefixes and mentioned at least as often as
      it has prefixes; at most 30 lines, most-shared first, one per word. */
  lemma TextMiningRows(rows: seq<Txn>, text: string)
    requires TextMining(rows, text).Mined?
    ensures var uses := Counted(Outflows(rows), text);
      var t := TextMining(rows, text).rows;
      && |t| <= 30
      && SortedDesc(t, SharedBy)
      && NoDuplicates(t)
      && forall r :: r in t ==>
        && |r.word| > 4
        && r.word !in TermList(text)
        && 2 <= r.clients <= r.freq
        && r.freq == Mentions(uses, r.word)
        && r.clients == |Payers(uses, r.word)|
        && r.total == Spent(uses, r.word)
  {
    var out := Outflows(rows);
    var uses := Counted(out, text);
    TopWordsShape(uses);
    forall r | r in TopWords(uses)
      ensures |r.word| > 4 && r.word !in TermList(text) && 2 <= r.clients <= r.freq
      ensures r == MiningRow(r.word, Mentions(uses, r.word), |Payers(uses, r.word)|, Spent(uses, r.word))
    {
      TopWord(uses, r);
      MiningLine(uses, r);
      MentionsSpec(uses, r.word);
      var u :| u in uses && u.word == r.word;
      UsesOfRows(out, Unexcluded(TermList(text)), u);
    }
  }

  /** A counted word shared by at least two prefixes that is not reported
      was crowded out: 30 lines are shown, each shared at least as widely. */
  lemma TextMiningComplete(rows: seq<Txn>, text: string, w: string)
    requires TextMining(rows, text).Mined?
    requires var uses := Counted(Outflows(rows), text);
      Mentions(uses, w) > 0 && |Payers(uses, w)| >= 2
    requires forall r :: r in TextMining(rows, text).rows ==> r.word != w
    ensures var uses := Counted(Outflows(rows), text);
      var t := TextMining(rows, text).rows;
      |t| == 30 && forall r :: r in t ==> r.clients >= |Payers(uses, w)|
  {
    var uses := Counted(Outflows(rows), text);
    var kept := Filter(TallyTable(uses), Widespread);
    var sorted := SortDesc(kept, SharedBy);
    var x := MiningRow(w, Mentions(uses, w), |Payers(uses, w)|, Spent(uses, w));
    MiningLineOf(uses, w);
    assert x in kept;
    assert x in multiset(sorted);
    assert x !in Take(sorted, 30);
    TakeRanked(sorted, SharedBy, 30);
  }

  /** An excluded word, or one of four characters or fewer, is never counted. */
  lemma ExcludedNeverCounted(rows: seq<Txn>, text: string, w: string)
    requires w in TermList(text) || |w| <= 4
    ensures Mentions(Counted(Outflows(rows), text), w) == 0
  {
    var out := Outflows(rows);
    var uses := Counted(out, text);
    MentionsSpec(uses, w);
    if u :| u in uses && u.word == w {
      UsesOfRows(out, Unexcluded(TermList(text)), u);
    }
  }
}
