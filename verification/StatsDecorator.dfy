/**
 The accounting pass-through around an LLM port
 (server/application/domain/model/llm_stats_decorator.py).
 */
module StatsDecorator {
  import opened Wrappers
  import opened UsageStats
  import opened Billing
  import opened LlmPort

  predicate ValidBilling(b: Option<ModelBilling>) {
    b.Some? ==> b.value.Valid()
  }

  function EntryOf(b: Option<ModelBilling>, e: Event): Entry
    requires ValidBilling(b) && e.CompletionDone?
  {
    Entry(e.provider, e.model, ModelStats(e.usage, CostBy(b, e.usage)))
  }

  /** One entry per completion event, in order. */
  function EntriesOf(b: Option<ModelBilling>, events: seq<Event>): seq<Entry>
    requires ValidBilling(b)
  {
    if events == [] then
      []
    else
      var n := |events| - 1;
      EntriesOf(b, events[..n]) + (if events[n].CompletionDone? then [EntryOf(b, events[n])] else [])
  }

  lemma EntriesSnoc(b: Option<ModelBilling>, events: seq<Event>, e: Event)
    requires ValidBilling(b)
    ensures EntriesOf(b, events + [e])
         == EntriesOf(b, events) + (if e.CompletionDone? then [EntryOf(b, e)] else [])
  {
    assert (events + [e])[..|events|] == events;
  }

  /** How a port's calls are recorded: not in this session's statistics at all, or with the given billing. */
  datatype Meter = Unmetered | Metered(billing: Option<ModelBilling>) {
    predicate Valid() {
      Metered? ==> ValidBilling(billing)
    }
  }

  function MeteredEntries(m: Meter, events: seq<Event>): seq<Entry>
    requires m.Valid()
  {
    if m.Metered? then EntriesOf(m.billing, events) else []
  }

  /** A log extended by the entries of a run of events. */
  ghost function Logged(log: seq<Entry>, b: Option<ModelBilling>, events: seq<Event>): seq<Entry>
    requires ValidBilling(b)
  {
    log + EntriesOf(b, events)
  }

  lemma LoggedNone(log: seq<Entry>, b: Option<ModelBilling>)
    requires ValidBilling(b)
    ensures Logged(log, b, []) == log
  {}

  lemma LoggedNext(log: seq<Entry>, b: Option<ModelBilling>, events: seq<Event>, i: nat)
    requires ValidBilling(b) && i < |events|
    ensures events[..i + 1] == events[..i] + [events[i]]
    ensures Logged(log, b, events[..i + 1])
         == Logged(log, b, events[..i]) + (if events[i].CompletionDone? then [EntryOf(b, events[i])] else [])
  {
    hide EntriesOf;
    hide EntryOf;
    assert events[..i + 1] == events[..i] + [events[i]];
    EntriesSnoc(b, events[..i], events[i]);
  }

  /** A call that obeys the port contract is recorded once when it completes, and at most once when cut. */
  lemma {:induction false} RecordedOnce(b: Option<ModelBilling>, s: Stream)
    requires ValidBilling(b) && Conforming(s)
    ensures |EntriesOf(b, s.events)| <= 1
    ensures s.complete ==>
              var done := s.events[|s.events| - 1];
              && |EntriesOf(b, s.events)| == 1
              && EntriesOf(b, s.events)[0].provider == done.provider
              && EntriesOf(b, s.events)[0].model == done.model
              && EntriesOf(b, s.events)[0].stats.usage == done.usage
  {
    if s.events != [] {
      var n := |s.events| - 1;
      NothingRecorded(b, s.events[..n]);
    }
  }

  lemma {:induction false} NothingRecorded(b: Option<ModelBilling>, events: seq<Event>)
    requires ValidBilling(b)
    requires forall i :: 0 <= i < |events| ==> events[i].TextChunk?
    ensures EntriesOf(b, events) == []
  {
    if events != [] {
      NothingRecorded(b, events[..|events| - 1]);
    }
  }

  // ---------- What is recorded is what was reported ----------

  /** The completion events among the events, in order. */
  function Dones(events: seq<Event>): (ds: seq<Event>)
    ensures forall i :: 0 <= i < |ds| ==> ds[i].CompletionDone?
  {
    if events == [] then
      []
    else
      var n := |events| - 1;
      Dones(events[..n]) + if events[n].CompletionDone? then [events[n]] else []
  }

  /** Entry by entry, the recorded pair and usage are those of the completion event. */
  lemma {:induction false} EntriesReport(b: Option<ModelBilling>, events: seq<Event>)
    requires ValidBilling(b)
    ensures |EntriesOf(b, events)| == |Dones(events)|
    ensures forall i :: 0 <= i < |Dones(events)| ==>
              && EntriesOf(b, events)[i].provider == Dones(events)[i].provider
              && EntriesOf(b, events)[i].model == Dones(events)[i].model
              && EntriesOf(b, events)[i].stats.usage == Dones(events)[i].usage
  {
    if events != [] {
      EntriesReport(b, events[..|events| - 1]);
    }
  }

  predicate ReportsFor(e: Event, provider: string, model: string) {
    e.CompletionDone? && e.provider == provider && e.model == model
  }

  /** The tokens the completion events report for a pair, added up. */
  function Reported(events: seq<Event>, provider: string, model: string): TokensUsage {
    if events == [] then
      TokensUsage(0, 0)
    else
      var n := |events| - 1;
      var before := Reported(events[..n], provider, model);
      if !ReportsFor(events[n], provider, model) then before else
        TokensUsage(before.prompt + events[n].usage.prompt, before.completion + events[n].usage.completion)
  }

  ghost predicate SomeReport(events: seq<Event>, provider: string, model: string) {
    exists i :: 0 <= i < |events| && ReportsFor(events[i], provider, model)
  }

  lemma SomeReportConcat(x: seq<Event>, y: seq<Event>, provider: string, model: string)
    ensures SomeReport(x + y, provider, model) <==> SomeReport(x, provider, model) || SomeReport(y, provider, model)
  {
    if i :| 0 <= i < |x| && ReportsFor(x[i], provider, model) {
      assert ReportsFor((x + y)[i], provider, model);
    }
    if i :| 0 <= i < |y| && ReportsFor(y[i], provider, model) {
      assert ReportsFor((x + y)[|x| + i], provider, model);
    }
  }

  /** A log records for a pair what the events report for it. */
  ghost predicate Accounts(log: seq<Entry>, events: seq<Event>, provider: string, model: string) {
    && Spent(log, provider, model) == Reported(events, provider, model)
    && (SomeEntry(log, provider, model) <==> SomeReport(events, provider, model))
  }

  lemma {:induction false} EntriesAccount(b: Option<ModelBilling>, events: seq<Event>, provider: string, model: string)
    requires ValidBilling(b)
    ensures Accounts(EntriesOf(b, events), events, provider, model)
  {
    if events != [] {
      var n := |events| - 1;
      var e := events[n];
      EntriesAccount(b, events[..n], provider, model);
      assert events == events[..n] + [e];
      EntriesSnoc(b, events[..n], e);
      EntryAccounts(b, e, provider, model);
      AccountsConcat(EntriesOf(b, events[..n]), events[..n],
                     if e.CompletionDone? then [EntryOf(b, e)] else [], [e], provider, model);
    }
  }

  lemma EntryAccounts(b: Option<ModelBilling>, e: Event, provider: string, model: string)
    requires ValidBilling(b)
    ensures Accounts(if e.CompletionDone? then [EntryOf(b, e)] else [], [e], provider, model)
  {
    assert [e][..0] == [];
    if e.CompletionDone? {
      var log := [EntryOf(b, e)];
      assert log[..0] == [];
      assert Concerns(log[0], provider, model) <==> ReportsFor([e][0], provider, model);
    }
  }

  /** Two accounted logs, one after the other. */
  lemma AccountsConcat(a: seq<Entry>, x: seq<Event>, b: seq<Entry>, y: seq<Event>, provider: string, model: string)
    requires Accounts(a, x, provider, model) && Accounts(b, y, provider, model)
    ensures Accounts(a + b, x + y, provider, model)
  {
    hide Spent, Reported, SomeEntry, SomeReport;
    SpentConcat(a, b, provider, model);
    ReportedConcat(x, y, provider, model);
    SomeReportConcat(x, y, provider, model);
    SomeEntryConcat(a, b, provider, model);
  }

  lemma {:induction false} ReportedConcat(x: seq<Event>, y: seq<Event>, provider: string, model: string)
    ensures Reported(x + y, provider, model).prompt
         == Reported(x, provider, model).prompt + Reported(y, provider, model).prompt
    ensures Reported(x + y, provider, model).completion
         == Reported(x, provider, model).completion + Reported(y, provider, model).completion
  {
    if y == [] {
      assert x + y == x;
    } else {
      var n := |y| - 1;
      assert (x + y)[..|x + y| - 1] == x + y[..n];
      ReportedConcat(x, y[..n], provider, model);
    }
  }

  /** Under the pricing table the billing came from, every recorded entry is priced by that table. */
  lemma {:induction false} EntriesPriced(t: Pricing, c: CompletionConfig, events: seq<Event>)
    requires ValidPricing(t) && Keyed(events, c)
    ensures ValidBilling(BillingFor(t, c.provider, c.model))
    ensures PricedLog(t, EntriesOf(BillingFor(t, c.provider, c.model), events))
  {
    if events != [] {
      EntriesPriced(t, c, events[..|events| - 1]);
    }
  }

  class LlmStatsDecorator {
    const stats: SessionUsageStats
    const billing: Option<ModelBilling>

    constructor (stats: SessionUsageStats, billing: Option<ModelBilling>)
      ensures this.stats == stats && this.billing == billing
    {
      this.stats := stats;
      this.billing := billing;
    }

    method Observe(event: Event)
      requires stats.Valid() && ValidBilling(billing)
      modifies stats.Repr
      ensures stats.Valid() && fresh(stats.Repr - old(stats.Repr))
      ensures stats.log == old(stats.log) + (if event.CompletionDone? then [EntryOf(billing, event)] else [])
      ensures stats.mark == old(stats.mark) && stats.initial == old(stats.initial)
    {
      if event.CompletionDone? {
        stats.AddStats(EntryOf(billing, event));
      }
    }

    /**
     Forwards the wrapped port's events unchanged. Because the wrapped stream may end
     anywhere, the postcondition also says where recording happens: whichever event was
     forwarded last, the entries of all completion events forwarded so far are in.
     */
    method Acompletion(inner: Stream) returns (out: Stream)
      requires stats.Valid() && ValidBilling(billing)
      modifies stats.Repr
      ensures out == inner
      ensures stats.Valid() && fresh(stats.Repr - old(stats.Repr))
      ensures stats.log == old(stats.log) + EntriesOf(billing, inner.events)
      ensures stats.mark == old(stats.mark) && stats.initial == old(stats.initial)
    {
      hide SessionUsageStats.Valid;
      hide EntriesOf;
      hide EntryOf;
      ghost var log := stats.log;
      LoggedNone(log, billing);
      var events: seq<Event> := [];
      var i := 0;
      while i < |inner.events|
        invariant 0 <= i <= |inner.events|
        invariant events == inner.events[..i]
        invariant stats.Valid() && fresh(stats.Repr - old(stats.Repr))
        invariant stats.log == Logged(log, billing, inner.events[..i])
        invariant stats.mark == old(stats.mark) && stats.initial == old(stats.initial)
      {
        hide Logged;
        LoggedNext(log, billing, inner.events, i);
        Observe(inner.events[i]);
        events := events + [inner.events[i]];
        i := i + 1;
      }
      assert inner.events[..i] == inner.events;
      return Stream(events, inner.complete);
    }
  }
}
