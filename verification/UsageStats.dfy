/**
 Token and cost accounting: the per-(provider, model) accumulator and the two-level
 statistics object a session owns (server/application/domain/model/usage_stats.py).

 `Stats` is the value a nested dictionary holds. The classes keep the dictionaries of
 the inner level as objects of their own, so that sharing between the two
 accumulators is something the proofs have to exclude.
 */
module UsageStats {
  import opened Wrappers

  datatype TokensUsage = TokensUsage(prompt: nat, completion: nat)

  datatype TokensCost = TokensCost(prompt: real, completion: real, total: real)

  datatype ModelStats = ModelStats(usage: TokensUsage, cost: Option<TokensCost>)

  type Stats = map<string, map<string, ModelStats>>

  /** One call of `add_stats`. */
  datatype Entry = Entry(provider: string, model: string, stats: ModelStats)

  // ---------- Combining two amounts ----------

  function AddUsage(a: TokensUsage, b: TokensUsage): TokensUsage {
    TokensUsage(a.prompt + b.prompt, a.completion + b.completion)
  }

  /** A missing cost counts as zero unless both are missing. */
  function AddCost(a: Option<TokensCost>, b: Option<TokensCost>): Option<TokensCost> {
    if a.None? && b.None? then
      None
    else
      var x := if a.Some? then a.value else TokensCost(0.0, 0.0, 0.0);
      var y := if b.Some? then b.value else TokensCost(0.0, 0.0, 0.0);
      Some(TokensCost(x.prompt + y.prompt, x.completion + y.completion, x.total + y.total))
  }

  function Merge(a: ModelStats, b: ModelStats): ModelStats {
    ModelStats(AddUsage(a.usage, b.usage), AddCost(a.cost, b.cost))
  }

  /** `Merge` with an absent row as the identity. */
  function Join(a: Option<ModelStats>, b: Option<ModelStats>): Option<ModelStats> {
    if a.None? then b else if b.None? then a else Some(Merge(a.value, b.value))
  }

  // ---------- The accumulator as a function of the calls made ----------

  function Lookup(s: Stats, provider: string, model: string): Option<ModelStats> {
    if provider in s && model in s[provider] then Some(s[provider][model]) else None
  }

  function Row(s: Stats, provider: string): map<string, ModelStats> {
    if provider in s then s[provider] else map[]
  }

  function AddToRow(row: map<string, ModelStats>, model: string, stats: ModelStats): map<string, ModelStats> {
    row[model := if model in row then Merge(row[model], stats) else stats]
  }

  /** The effect of one `add_stats` call. */
  function Add(s: Stats, e: Entry): Stats {
    s[e.provider := AddToRow(Row(s, e.provider), e.model, e.stats)]
  }

  /** The effect of a sequence of `add_stats` calls. */
  function Accumulate(s: Stats, log: seq<Entry>): Stats {
    if log == [] then s else Add(Accumulate(s, log[..|log| - 1]), log[|log| - 1])
  }

  /** What a log says about one pair, read front to back and without any map. */
  function Total(log: seq<Entry>, provider: string, model: string): Option<ModelStats> {
    if log == [] then
      None
    else
      var rest := Total(log[1..], provider, model);
      if log[0].provider == provider && log[0].model == model then Join(Some(log[0].stats), rest) else rest
  }

  lemma {:induction false} TotalSnoc(log: seq<Entry>, e: Entry, provider: string, model: string)
    ensures Total(log + [e], provider, model)
         == Join(Total(log, provider, model), Total([e], provider, model))
  {
    if log == [] {
      assert log + [e] == [e];
    } else {
      assert (log + [e])[1..] == log[1..] + [e];
      TotalSnoc(log[1..], e, provider, model);
    }
  }

  lemma LookupAdd(s: Stats, e: Entry, provider: string, model: string)
    ensures Lookup(Add(s, e), provider, model) == Join(Lookup(s, provider, model), Total([e], provider, model))
  {
    assert [e][1..] == [];
  }

  lemma JoinAssociative(a: Option<ModelStats>, b: Option<ModelStats>, c: Option<ModelStats>)
    ensures Join(Join(a, b), c) == Join(a, Join(b, c))
  {
  }

  /** Conservation: every pair holds its initial amount plus everything the log recorded for it. */
  lemma {:induction false} Conservation(s: Stats, log: seq<Entry>, provider: string, model: string)
    ensures Lookup(Accumulate(s, log), provider, model)
         == Join(Lookup(s, provider, model), Total(log, provider, model))
  {
    if log != [] {
      var n := |log| - 1;
      Conservation(s, log[..n], provider, model);
      LookupAdd(Accumulate(s, log[..n]), log[n], provider, model);
      JoinAssociative(Lookup(s, provider, model), Total(log[..n], provider, model), Total([log[n]], provider, model));
      TotalSnoc(log[..n], log[n], provider, model);
      assert log == log[..n] + [log[n]];
    }
  }

  // ---------- Amounts as plain sums ----------

  predicate Concerns(e: Entry, provider: string, model: string) {
    e.provider == provider && e.model == model
  }

  ghost predicate SomeEntry(log: seq<Entry>, provider: string, model: string) {
    exists i :: 0 <= i < |log| && Concerns(log[i], provider, model)
  }

  /** The tokens a log records for a pair, added up. */
  function Spent(log: seq<Entry>, provider: string, model: string): TokensUsage {
    if log == [] then
      TokensUsage(0, 0)
    else
      var n := |log| - 1;
      var before := Spent(log[..n], provider, model);
      if !Concerns(log[n], provider, model) then before else
        TokensUsage(before.prompt + log[n].stats.usage.prompt, before.completion + log[n].stats.usage.completion)
  }

  /** The costs a log records for a pair, added up; an entry without a cost adds nothing. */
  function Charged(log: seq<Entry>, provider: string, model: string): TokensCost {
    if log == [] then
      TokensCost(0.0, 0.0, 0.0)
    else
      var n := |log| - 1;
      var before := Charged(log[..n], provider, model);
      if !Concerns(log[n], provider, model) || log[n].stats.cost.None? then before else
        var cost := log[n].stats.cost.value;
        TokensCost(before.prompt + cost.prompt, before.completion + cost.completion, before.total + cost.total)
  }

  /**
   A row exists exactly for a pair the log mentions, shows the sum of its tokens and the
   sum of its costs, and lacks a cost exactly when none of its entries has one.
   */
  lemma {:induction false} AmountsAreSums(log: seq<Entry>, provider: string, model: string)
    ensures var row := Lookup(Accumulate(map[], log), provider, model);
            && (row.Some? <==> SomeEntry(log, provider, model))
            && (row.Some? ==>
                  && row.value.usage == Spent(log, provider, model)
                  && (row.value.cost.Some? <==>
                        exists i :: 0 <= i < |log| && Concerns(log[i], provider, model) && log[i].stats.cost.Some?)
                  && (row.value.cost.Some? ==> row.value.cost.value == Charged(log, provider, model)))
    ensures var row := Lookup(Accumulate(map[], log), provider, model);
            row.None? ==> Spent(log, provider, model) == TokensUsage(0, 0)
    ensures var row := Lookup(Accumulate(map[], log), provider, model);
            row.None? || row.value.cost.None? ==> Charged(log, provider, model) == TokensCost(0.0, 0.0, 0.0)
  {
    if log != [] {
      var n := |log| - 1;
      AmountsAreSums(log[..n], provider, model);
      hide Add;
      LookupAdd(Accumulate(map[], log[..n]), log[n], provider, model);
      assert [log[n]][1..] == [];
    }
  }

  lemma SomeEntryConcat(a: seq<Entry>, b: seq<Entry>, provider: string, model: string)
    ensures SomeEntry(a + b, provider, model) <==> SomeEntry(a, provider, model) || SomeEntry(b, provider, model)
  {
    if i :| 0 <= i < |a| && Concerns(a[i], provider, model) {
      assert Concerns((a + b)[i], provider, model);
    }
    if i :| 0 <= i < |b| && Concerns(b[i], provider, model) {
      assert Concerns((a + b)[|a| + i], provider, model);
    }
  }

  lemma {:induction false} SpentConcat(a: seq<Entry>, b: seq<Entry>, provider: string, model: string)
    ensures Spent(a + b, provider, model).prompt
         == Spent(a, provider, model).prompt + Spent(b, provider, model).prompt
    ensures Spent(a + b, provider, model).completion
         == Spent(a, provider, model).completion + Spent(b, provider, model).completion
  {
    if b == [] {
      assert a + b == a;
    } else {
      var n := |b| - 1;
      assert (a + b)[..|a + b| - 1] == a + b[..n];
      SpentConcat(a, b[..n], provider, model);
    }
  }

  lemma AccumulateSnoc(s: Stats, log: seq<Entry>, e: Entry)
    ensures Accumulate(s, log + [e]) == Add(Accumulate(s, log), e)
  {
    assert (log + [e])[..|log|] == log;
  }

  lemma {:induction false} AccumulateConcat(s: Stats, a: seq<Entry>, b: seq<Entry>)
    ensures Accumulate(s, a + b) == Accumulate(Accumulate(s, a), b)
  {
    if b == [] {
      assert a + b == a;
    } else {
      var n := |b| - 1;
      assert (a + b)[..|a + b| - 1] == a + b[..n];
      AccumulateConcat(s, a, b[..n]);
    }
  }

  // ---------- Order does not matter ----------

  lemma AddToRowCommutes(row: map<string, ModelStats>, a: Entry, b: Entry)
    ensures AddToRow(AddToRow(row, a.model, a.stats), b.model, b.stats)
         == AddToRow(AddToRow(row, b.model, b.stats), a.model, a.stats)
  {
  }

  lemma AddCommutes(s: Stats, a: Entry, b: Entry)
    ensures Add(Add(s, a), b) == Add(Add(s, b), a)
  {
    if a.provider == b.provider {
      AddToRowCommutes(Row(s, a.provider), a, b);
    }
  }

  lemma {:induction false} MoveToEnd(s: Stats, log: seq<Entry>, i: nat)
    requires i < |log|
    ensures Accumulate(s, log) == Add(Accumulate(s, log[..i] + log[i + 1..]), log[i])
    decreases |log|
  {
    hide Add;
    var n := |log| - 1;
    if i == n {
      assert log[..i] + log[i + 1..] == log[..n];
    } else {
      var rest := log[..i] + log[i + 1..];
      assert rest[..n - 1] == log[..n][..i] + log[..n][i + 1..];
      assert rest[n - 1] == log[n];
      MoveToEnd(s, log[..n], i);
      AddCommutes(Accumulate(s, rest[..n - 1]), log[i], log[n]);
    }
  }

  lemma WithoutOne(log: seq<Entry>, i: nat)
    requires i < |log|
    ensures multiset(log[..i] + log[i + 1..]) == multiset(log) - multiset{log[i]}
  {
    assert log == log[..i] + [log[i]] + log[i + 1..];
  }

  /** The statistics depend only on which completions were recorded, not on their order. */
  lemma {:induction false} OrderIrrelevant(s: Stats, a: seq<Entry>, b: seq<Entry>)
    requires multiset(a) == multiset(b)
    ensures Accumulate(s, a) == Accumulate(s, b)
    decreases |a|
  {
    hide Add;
    assert |a| == |multiset(a)| == |multiset(b)| == |b|;
    if a != [] {
      var n := |a| - 1;
      var x := a[n];
      assert x in multiset(b);
      var i :| 0 <= i < |b| && b[i] == x;
      var rest := b[..i] + b[i + 1..];
      WithoutOne(a, n);
      WithoutOne(b, i);
      assert a[..n] + a[n + 1..] == a[..n];
      OrderIrrelevant(s, a[..n], rest);
      MoveToEnd(s, b, i);
    }
  }

  // ---------- Growth ----------

  ghost predicate NoMore(a: Option<ModelStats>, b: Option<ModelStats>) {
    a.Some? ==> b.Some? && a.value.usage.prompt <= b.value.usage.prompt
                && a.value.usage.completion <= b.value.usage.completion
  }

  /** A longer log never shows a smaller amount for any pair. */
  lemma TotalsGrow(s: Stats, log: seq<Entry>, more: seq<Entry>, provider: string, model: string)
    ensures NoMore(Lookup(Accumulate(s, log), provider, model),
                   Lookup(Accumulate(s, log + more), provider, model))
  {
    AccumulateConcat(s, log, more);
    Conservation(Accumulate(s, log), more, provider, model);
  }

  /** Summing what each turn reported on its own, one turn after the other. */
  function SumOfTurns(turns: seq<seq<Entry>>, provider: string, model: string): Option<ModelStats> {
    if turns == [] then
      None
    else
      var n := |turns| - 1;
      Join(SumOfTurns(turns[..n], provider, model), Lookup(Accumulate(map[], turns[n]), provider, model))
  }

  /** Lifecycle growth is exactly the sum of the per-invocation statistics of the turns. */
  lemma {:induction false} LifecycleIsSumOfTurns(s: Stats, turns: seq<seq<Entry>>, provider: string, model: string)
    ensures Lookup(Accumulate(s, Flatten(turns)), provider, model)
         == Join(Lookup(s, provider, model), SumOfTurns(turns, provider, model))
  {
    if turns != [] {
      var n := |turns| - 1;
      LifecycleIsSumOfTurns(s, turns[..n], provider, model);
      AccumulateConcat(s, Flatten(turns[..n]), turns[n]);
      Conservation(Accumulate(s, Flatten(turns[..n])), turns[n], provider, model);
      Conservation(map[], turns[n], provider, model);
      JoinAssociative(Lookup(s, provider, model), SumOfTurns(turns[..n], provider, model),
                      Total(turns[n], provider, model));
    }
  }

  // ---------- The mutable objects ----------

  /** An inner dictionary, model name to statistics; `provider` is the key it is kept under. */
  class ModelTable {
    var rows: map<string, ModelStats>
    ghost const provider: string

    constructor (ghost provider: string, rows: map<string, ModelStats>)
      ensures this.rows == rows && this.provider == provider
    {
      this.rows := rows;
      this.provider := provider;
    }
  }

  /** The outer dictionary, provider name to inner dictionary. */
  class ProviderTables {
    var tables: map<string, ModelTable>

    constructor (tables: map<string, ModelTable>)
      ensures this.tables == tables
    {
      this.tables := tables;
    }
  }

  /** Each provider has a table of its own. */
  ghost predicate OwnTables(data: map<string, ModelTable>) {
    forall p :: p in data ==> data[p].provider == p
  }

  function RowsOf(data: map<string, ModelTable>): Stats
    reads data.Values
  {
    map p | p in data :: data[p].rows
  }

  class UsageStatsAccumulator {
    const data: ProviderTables
    ghost var Repr: set<object>

    ghost predicate Valid()
      reads this, Repr
      ensures Valid() ==> this in Repr
    {
      && this in Repr && data in Repr
      && (forall p :: p in data.tables ==> data.tables[p] in Repr)
      && OwnTables(data.tables)
    }

    function Contents(): Stats
      reads this, Repr
      requires Valid()
    {
      RowsOf(data.tables)
    }

    /** Keeps the dictionaries it is given; it does not copy them. */
    constructor (data: ProviderTables)
      requires OwnTables(data.tables)
      ensures Valid() && this.data == data && Repr == {this, data} + data.tables.Values
      ensures Contents() == RowsOf(data.tables)
    {
      this.data := data;
      Repr := {this, data} + data.tables.Values;
    }

    /** Clears the outer dictionary in place: whoever else holds it finds it empty. The inner ones are untouched. */
    method Zero()
      requires Valid()
      modifies data
      ensures Valid() && data.tables == map[] && Contents() == map[]
    {
      data.tables := map[];
    }

    /** The provider's dictionary, made on first use. */
    method TableFor(provider: string) returns (table: ModelTable)
      requires Valid()
      modifies this`Repr, data
      ensures Valid() && fresh(Repr - old(Repr)) && old(Repr) <= Repr
      ensures provider in data.tables && data.tables[provider] == table
      ensures provider in old(data.tables) ==> data.tables == old(data.tables)
      ensures provider !in old(data.tables) ==> && fresh(table) && table.rows == map[]
                                                && data.tables == old(data.tables)[provider := table]
    {
      if provider !in data.tables {
        table := new ModelTable(provider, map[]);
        Repr := Repr + {table};
        data.tables := data.tables[provider := table];
      }
      table := data.tables[provider];
    }

    method AddStats(e: Entry)
      requires Valid()
      modifies Repr
      ensures Valid() && fresh(Repr - old(Repr)) && Contents() == Add(old(Contents()), e)
    {
      var table := TableFor(e.provider);
      if e.model !in table.rows {
        table.rows := table.rows[e.model := e.stats];
        return;
      }
      table.rows := table.rows[e.model := Merge(table.rows[e.model], e.stats)];
    }
  }

  /**
   The lifecycle total and the current invocation. `log` remembers every call since
   construction, `mark` how long it was when the current invocation began. Their
   footprints are disjoint: no table is reachable from both levels.
   */
  class SessionUsageStats {
    const lifecycle: UsageStatsAccumulator
    const current: UsageStatsAccumulator
    ghost var initial: Stats
    ghost var log: seq<Entry>
    ghost var mark: nat
    ghost var Repr: set<object>

    ghost predicate Separate()
      reads this, Repr
    {
      && {this, lifecycle, current} <= Repr
      && lifecycle.Repr <= Repr && current.Repr <= Repr
      && lifecycle.Repr !! current.Repr
      && this !in lifecycle.Repr && this !in current.Repr
      && lifecycle.Valid()
      && current.Valid()
    }

    ghost predicate Valid()
      reads this, Repr
      ensures Valid() ==> this in Repr && mark <= |log|
    {
      && Separate()
      && mark <= |log|
      && lifecycle.Contents() == LifecycleTotal()
      && current.Contents() == CurrentInvocation()
    }

    ghost function LifecycleTotal(): Stats
      reads this
    {
      Accumulate(initial, log)
    }

    ghost function CurrentInvocation(): Stats
      reads this
      requires mark <= |log|
    {
      Accumulate(map[], log[mark..])
    }

    constructor (data: ProviderTables)
      requires OwnTables(data.tables)
      ensures Valid() && fresh(Repr - {data} - data.tables.Values)
      ensures initial == RowsOf(data.tables)
      ensures log == [] && mark == 0
    {
      initial := RowsOf(data.tables);
      log := [];
      mark := 0;
      var none := new ProviderTables(map[]);
      lifecycle := new UsageStatsAccumulator(data);
      current := new UsageStatsAccumulator(none);
      Repr := {this, lifecycle, data, current, none} + data.tables.Values;
      new;
      hide RowsOf, OwnTables;
      assert Separate();
    }

    method AddToBoth(e: Entry)
      requires Separate()
      modifies Repr
      ensures Separate() && fresh(Repr - old(Repr))
      ensures current.Contents() == Add(old(current.Contents()), e)
      ensures lifecycle.Contents() == Add(old(lifecycle.Contents()), e)
      ensures log == old(log) && mark == old(mark) && initial == old(initial)
    {
      hide Add, RowsOf, OwnTables;
      current.AddStats(e);
      lifecycle.AddStats(e);
      Repr := Repr + lifecycle.Repr + current.Repr;
    }

    /** Both levels take the entry; neither can see the other's tables. */
    method AddStats(e: Entry)
      requires Valid()
      modifies Repr
      ensures Valid() && fresh(Repr - old(Repr))
      ensures log == old(log) + [e] && mark == old(mark) && initial == old(initial)
    {
      hide Accumulate, Add;
      AccumulateSnoc(initial, log, e);
      AccumulateSnoc(map[], log[mark..], e);
      assert (log + [e])[mark..] == log[mark..] + [e];
      AddToBoth(e);
      log := log + [e];
    }

    method BeginInvocation()
      requires Valid()
      modifies Repr
      ensures Valid() && Repr == old(Repr)
      ensures log == old(log) && mark == |log| && initial == old(initial)
    {
      current.Zero();
      mark := |log|;
    }

    method CurrentInvocationData() returns (d: Stats)
      requires Valid()
      ensures d == CurrentInvocation()
    {
      d := current.Contents();
    }

    method LifecycleTotalData() returns (d: Stats)
      requires Valid()
      ensures d == LifecycleTotal()
    {
      d := lifecycle.Contents();
    }
  }
}
