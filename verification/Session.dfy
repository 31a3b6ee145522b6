/**
 The session and its context strategy as the mutable objects they are
 (server/application/domain/model/session.py and context_strategy/), each method proved
 against the value-level turn of `Conversation`.
 */
module Session {
  import opened Wrappers
  import opened UsageStats
  import opened Billing
  import opened LlmPort
  import opened StatsDecorator
  import opened Records
  import opened ContextStrategy
  import opened Conversation

  /** Stands for the three strategy classes; `kind` is which of them this object is. */
  class Strategy {
    const kind: Kind
    const config: CompletionConfig
    /** The accounting decorator, or nothing for a port whose calls this session's statistics do not see. */
    const llm: Option<LlmStatsDecorator>
    var records: seq<Record>
    var summary: Summary

    ghost predicate Valid()
      reads this
    {
      ValidState(kind, summary) && Meter().Valid()
    }

    ghost function Meter(): Meter {
      if llm.Some? then Metered(llm.value.billing) else Unmetered
    }

    /** The statistics are this object's, if it accounts anywhere. */
    ghost predicate AccountsTo(usage: SessionUsageStats) {
      llm.Some? ==> llm.value.stats == usage
    }

    constructor (kind: Kind, summary: Summary, records: seq<Record>, llm: Option<LlmStatsDecorator>,
                 config: CompletionConfig)
      requires ValidState(kind, summary) && (llm.Some? ==> ValidBilling(llm.value.billing))
      ensures Valid()
      ensures this.kind == kind && this.summary == summary && this.records == records
      ensures this.llm == llm && this.config == config
    {
      this.kind := kind;
      this.summary := summary;
      this.records := records;
      this.llm := llm;
      this.config := config;
    }

    method AddUserQuery(content: string, id: Id)
      modifies this`records
      ensures records == Append(old(records), id, Message(User, content))
    {
      var prev := if records == [] then None else Some(records[|records| - 1].id);
      records := records + [Record(id, prev, Message(User, content))];
    }

    method AddModelResponse(content: string, id: Id)
      modifies this`records
      ensures records == Append(old(records), id, Message(Assistant, content))
    {
      var prev := if records == [] then None else Some(records[|records| - 1].id);
      records := records + [Record(id, prev, Message(Assistant, content))];
    }

    /** The search both `get_context` and `update_context` make for the anchor. */
    method FindAnchor() returns (n: nat)
      ensures n == AnchorEnd(records, summary.anchor)
    {
      if summary.anchor.None? {
        return 0;
      }
      var i := 0;
      while i < |records|
        invariant 0 <= i <= |records|
        invariant EndOf(records[..i], summary.anchor.value) == 0
      {
        assert records[..i + 1] == records[..i] + [records[i]];
        EndOfAppend(records[..i], records[i], summary.anchor.value);
        if records[i].id == summary.anchor.value {
          EndOfStable(records, i + 1, summary.anchor.value);
          return i + 1;
        }
        i := i + 1;
      }
      assert records[..i] == records;
      return 0;
    }

    method GetContext() returns (context: seq<Message>)
      requires Valid()
      ensures context == Context(kind, records, summary)
    {
      match kind {
        case Dummy =>
          context := Messages(records);
        case SlidingWindow(w) =>
          context := Messages(LastN(records, w));
        case Rolling(_, _) =>
          if summary.anchor.None? {
            return Messages(records);
          }
          var n := FindAnchor();
          context := Messages(records[n..]);
          if summary.text != "" {
            context := [Message(User, summary.text)] + context;
          }
      }
    }

    /** The request to make, if the records after the anchor fill a window. */
    method DigestIfDue() returns (asked: Option<Request>)
      requires Valid()
      ensures asked == if Due(kind, records, summary)
                       then Some(DigestRequest(kind, config, DigestInput(records, summary))) else None
      ensures asked.Some? ==> records != []
    {
      if !kind.Rolling? {
        return None;
      }
      var n := FindAnchor();
      if |records| - n < kind.window {
        return None;
      }
      var input := Messages(records[n..]);
      if summary.text != "" {
        input := [Message(User, summary.text)] + input;
      }
      assert input == DigestInput(records, summary);
      asked := Some(DigestRequest(kind, config, input));
    }

    /**
     Condenses the records after the anchor when there are at least a window of them.
     The anchor is read from the records after the model has answered. A call that is cut
     short leaves the summary as it was, with its usage recorded where the port is metered.
     */
    method UpdateContext(reply: Stream, ghost usage: SessionUsageStats)
      returns (asked: Option<Request>, completed: bool)
      requires Valid() && AccountsTo(usage) && usage.Valid() && this !in usage.Repr
      modifies this`summary, usage.Repr
      ensures Valid() && usage.Valid() && fresh(usage.Repr - old(usage.Repr))
      ensures asked == if Due(kind, records, old(summary))
                       then Some(DigestRequest(kind, config, DigestInput(records, old(summary)))) else None
      ensures completed <==> (asked.Some? ==> reply.complete)
      ensures asked.Some? && completed ==> records != [] && summary == Condensed(records, Flatten(Texts(reply.events)))
      ensures !(asked.Some? && completed) ==> summary == old(summary)
      ensures asked.None? ==> usage.log == old(usage.log)
      ensures asked.Some? ==> usage.log == old(usage.log) + MeteredEntries(Meter(), reply.events)
      ensures usage.mark == old(usage.mark) && usage.initial == old(usage.initial)
    {
      hide SessionUsageStats.Valid, EntriesOf, Context, DigestInput, AnchorEnd, Texts, Flatten, LastStop;
      asked := DigestIfDue();
      completed := true;
      if asked.Some? {
        var out := reply;
        if llm.Some? {
          out := llm.value.Acompletion(reply);
        }
        var text, _, _ := ReadAll(out.events);
        completed := out.complete;
        if completed {
          summary := Summary(text, Some(records[|records| - 1].id));
        }
      }
    }
  }

  lemma {:induction false} EndOfStable(rs: seq<Record>, n: nat, id: Id)
    requires n <= |rs| && EndOf(rs[..n], id) > 0
    ensures EndOf(rs, id) == EndOf(rs[..n], id)
  {
    if n == |rs| {
      assert rs[..n] == rs;
    } else {
      assert rs[..|rs| - 1][..n] == rs[..n];
      EndOfStable(rs[..|rs| - 1], n, id);
    }
  }

  /** Reading an event stream to its end: the text so far, the fragments, the last stop reason. */
  method ReadAll(events: seq<Event>) returns (text: string, chunks: seq<string>, stop: Option<StopReason>)
    ensures chunks == Texts(events) && text == Flatten(chunks) && stop == LastStop(events)
  {
    text, chunks, stop := "", [], None;
    var i := 0;
    while i < |events|
      invariant 0 <= i <= |events|
      invariant chunks == Texts(events[..i]) && text == Flatten(chunks) && stop == LastStop(events[..i])
    {
      assert events[..i + 1][..i] == events[..i];
      match events[i] {
        case TextChunk(t) =>
          assert (chunks + [t])[..|chunks|] == chunks;
          text := text + t;
          chunks := chunks + [t];
        case CompletionDone(_, _, _, r) =>
          stop := Some(r);
      }
      i := i + 1;
    }
    assert events[..i] == events;
  }

  class Session {
    const id: string
    const createdAt: nat
    const config: CompletionConfig
    const usage: SessionUsageStats
    const llm: LlmStatsDecorator
    var strategy: Strategy

    /** Both decorators account to one statistics object. */
    ghost predicate Valid()
      reads this, strategy, usage, usage.Repr
    {
      && usage.Valid()
      && this !in usage.Repr && strategy !in usage.Repr
      && llm.stats == usage && ValidBilling(llm.billing)
      && strategy.AccountsTo(usage)
      && strategy.Valid()
    }

    ghost function View(): Conv
      reads this, strategy, usage
      requires usage.mark <= |usage.log|
      ensures Valid() ==> View().Valid()
    {
      Conv(id, createdAt, config, llm.billing, strategy.config, strategy.Meter(),
           strategy.kind, strategy.summary, strategy.records,
           usage.LifecycleTotal(), usage.CurrentInvocation())
    }

    constructor (id: string, createdAt: nat, config: CompletionConfig, billing: Option<ModelBilling>,
                 usage: SessionUsageStats, strategy: Strategy)
      requires usage.Valid() && strategy.Valid() && strategy !in usage.Repr && strategy.AccountsTo(usage)
      requires ValidBilling(billing)
      ensures Valid() && this.usage == usage && this.strategy == strategy && fresh(llm)
      ensures View() == Conv(id, createdAt, config, billing, strategy.config, strategy.Meter(),
                             strategy.kind, strategy.summary, strategy.records,
                             usage.LifecycleTotal(), usage.CurrentInvocation())
    {
      this.id := id;
      this.createdAt := createdAt;
      this.config := config;
      this.usage := usage;
      this.llm := new LlmStatsDecorator(usage, billing);
      this.strategy := strategy;
    }

    /** Up to the first suspension: reset the invocation, record the query, project the context. */
    method Open(prompt: string, id: Id) returns (context: seq<Message>)
      requires Valid()
      modifies strategy, usage.Repr
      ensures Valid() && fresh(usage.Repr - old(usage.Repr)) && strategy == old(strategy)
      ensures View() == Begin(old(View()), prompt, id)
      ensures context == Context(View().kind, View().records, View().summary)
    {
      usage.BeginInvocation();
      strategy.AddUserQuery(prompt, id);
      assert usage.log[usage.mark..] == [];
      context := strategy.GetContext();
    }

    /** The main model call, as far as it gets. */
    method Listen(main: Stream) returns (text: string, chunks: seq<string>, stop: Option<StopReason>)
      requires Valid()
      modifies usage.Repr
      ensures Valid() && fresh(usage.Repr - old(usage.Repr)) && strategy == old(strategy)
      ensures View() == Bill(old(View()), EntriesOf(llm.billing, main.events))
      ensures chunks == Texts(main.events) && text == Flatten(chunks) && stop == LastStop(main.events)
    {
      hide SessionUsageStats.Valid;
      BillsTheLog(usage.initial, usage.log, usage.mark, EntriesOf(llm.billing, main.events));
      var out := llm.Acompletion(main);
      text, chunks, stop := ReadAll(out.events);
    }

    /** After the last text event: store the answer and let the strategy update itself. */
    method Close(text: string, id: Id, digest: Stream) returns (asked: Option<Request>, completed: bool)
      requires Valid()
      modifies strategy, usage.Repr
      ensures Valid() && fresh(usage.Repr - old(usage.Repr)) && strategy == old(strategy)
      ensures var answered := Answer(old(View()), id, text);
              var due := Due(answered.kind, answered.records, answered.summary);
              && asked == (if due then Some(DigestRequest(answered.kind, answered.strategyConfig,
                                              DigestInput(answered.records, answered.summary))) else None)
              && completed == (due ==> digest.complete)
              && View() == if !due then answered else
                   var billed := Bill(answered, MeteredEntries(answered.strategyMeter, digest.events));
                   if digest.complete then Condense(billed, Flatten(Texts(digest.events))) else billed
    {
      hide SessionUsageStats.Valid;
      strategy.AddModelResponse(text, id);
      ghost var answered := View();
      assert answered == Answer(old(View()), id, text);
      BillsTheLog(usage.initial, usage.log, usage.mark, MeteredEntries(strategy.Meter(), digest.events));
      asked, completed := strategy.UpdateContext(digest, usage);
    }

    /** One turn: its effect and everything it shows are those of `Play`, wherever a call is cut. */
    method Acompletion(s: Script) returns (seen: Observation)
      requires Valid()
      modifies strategy, usage.Repr
      ensures Valid() && fresh(usage.Repr - old(usage.Repr)) && strategy == old(strategy)
      ensures View() == Play(old(View()), s).conv
      ensures seen == Play(old(View()), s).seen
    {
      var context := Open(s.prompt, s.queryId);
      var text, chunks, stop := Listen(s.main);
      if !s.main.complete {
        return Observation(context, chunks, None, None);
      }
      var asked, completed := Close(text, s.answerId, s.digest);
      if !completed {
        return Observation(context, chunks, asked, None);
      }
      var data := usage.CurrentInvocationData();
      return Observation(context, chunks, asked,
                         Some(Done(GetOr(stop, Stop), if data == map[] then None else Some(data))));
    }

    /** The session as a value, read through its properties. */
    method State() returns (c: Conv)
      requires Valid()
      ensures c == View()
    {
      var lifecycle := usage.LifecycleTotalData();
      var current := usage.CurrentInvocationData();
      var meter := if strategy.llm.Some? then Metered(strategy.llm.value.billing) else Unmetered;
      c := Conv(id, createdAt, config, llm.billing, strategy.config, meter,
                strategy.kind, strategy.summary, strategy.records, lifecycle, current);
    }

    /** The records move over; type, window, prompt and summary come from the given strategy. */
    method SetMessageContextStrategy(other: Strategy)
      requires Valid() && other.Valid() && other.AccountsTo(usage)
      modifies this`strategy
      ensures Valid() && fresh(strategy) && strategy.records == old(strategy.records)
      ensures strategy.kind == other.kind && strategy.summary == other.summary
      ensures strategy.config == other.config && strategy.llm == other.llm
      ensures View() == Do(old(View()), Switch(other.kind, other.summary, other.config, other.Meter()))
    {
      var records := strategy.records;
      BuildInvertsMetadata(other.kind, other.summary);
      var built := Build(TypeName(other.kind), GetMetadata(other.kind, other.summary)).value;
      strategy := new Strategy(built.0, built.1, records, other.llm, other.config);
    }
  }

  lemma BillsTheLog(initial: Stats, log: seq<Entry>, mark: nat, es: seq<Entry>)
    requires mark <= |log|
    ensures Accumulate(initial, log + es) == Accumulate(Accumulate(initial, log), es)
    ensures Accumulate(map[], (log + es)[mark..]) == Accumulate(Accumulate(map[], log[mark..]), es)
  {
    AccumulateConcat(initial, log, es);
    AccumulateConcat(map[], log[mark..], es);
    assert (log + es)[mark..] == log[mark..] + es;
  }
}
