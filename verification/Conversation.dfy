/**
 A session as a value, one whole turn of it, and what holds over any sequence of turns
 and strategy switches (server/application/domain/model/session.py).

 A turn is driven by a `Script`: what the client asks, what the two model calls do, and
 which new ids are drawn. A model call that is not complete abandons the turn where it
 stands; its partial effects stay.
 */
module Conversation {
  import opened Wrappers
  import opened UsageStats
  import opened Billing
  import opened LlmPort
  import opened StatsDecorator
  import opened Records
  import opened ContextStrategy

  datatype Conv = Conv(
    id: string, createdAt: nat,
    config: CompletionConfig, billing: Option<ModelBilling>,
    strategyConfig: CompletionConfig, strategyMeter: Meter,
    kind: Kind, summary: Summary, records: seq<Record>,
    lifecycle: Stats, current: Stats)
  {
    predicate Valid() {
      ValidBilling(billing) && strategyMeter.Valid() && kind.Valid() && (!kind.Rolling? ==> summary == NO_SUMMARY)
    }
  }

  datatype Script = Script(prompt: string, queryId: Id, main: Stream, answerId: Id, digest: Stream)

  /** The final event of a turn; `statistics` is left out when nothing was recorded. */
  datatype Done = Done(stop: StopReason, statistics: Option<Stats>)

  /** Everything a turn shows to the outside. */
  datatype Observation = Observation(
    request: seq<Message>, chunks: seq<string>, digestRequest: Option<Request>, done: Option<Done>)

  datatype TurnResult = TurnResult(conv: Conv, seen: Observation)

  // ---------- The pieces of a turn, each between two suspension points ----------

  function Begin(c: Conv, prompt: string, id: Id): Conv {
    c.(current := map[], records := Append(c.records, id, Message(User, prompt)))
  }

  function Bill(c: Conv, es: seq<Entry>): Conv {
    c.(current := Accumulate(c.current, es), lifecycle := Accumulate(c.lifecycle, es))
  }

  function Answer(c: Conv, id: Id, text: string): Conv {
    c.(records := Append(c.records, id, Message(Assistant, text)))
  }

  function Condense(c: Conv, reply: string): Conv
    requires c.records != []
  {
    c.(summary := Condensed(c.records, reply))
  }

  function DoneOf(c: Conv, main: Stream): Done {
    Done(GetOr(LastStop(main.events), Stop), if c.current == map[] then None else Some(c.current))
  }

  /** One turn from the query to the done event, or to the point where a call was cut short. */
  function Play(c: Conv, s: Script): TurnResult
    requires c.Valid()
  {
    var begun := Begin(c, s.prompt, s.queryId);
    var request := Context(begun.kind, begun.records, begun.summary);
    var chunks := Texts(s.main.events);
    var heard := Bill(begun, EntriesOf(c.billing, s.main.events));
    if !s.main.complete then
      TurnResult(heard, Observation(request, chunks, None, None))
    else
      var answered := Answer(heard, s.answerId, Flatten(chunks));
      if !Due(answered.kind, answered.records, answered.summary) then
        TurnResult(answered, Observation(request, chunks, None, Some(DoneOf(answered, s.main))))
      else
        var asked := DigestRequest(c.kind, c.strategyConfig, DigestInput(answered.records, answered.summary));
        var digested := Bill(answered, MeteredEntries(c.strategyMeter, s.digest.events));
        if !s.digest.complete then
          TurnResult(digested, Observation(request, chunks, Some(asked), None))
        else
          var condensed := Condense(digested, Flatten(Texts(s.digest.events)));
          TurnResult(condensed, Observation(request, chunks, Some(asked), Some(DoneOf(condensed, s.main))))
  }

  /** A turn changes the records, the summary and the statistics, and nothing else. */
  lemma PlayFrame(c: Conv, s: Script)
    requires c.Valid()
    ensures var r := Play(c, s).conv;
            r == c.(records := r.records, summary := r.summary, lifecycle := r.lifecycle, current := r.current)
    ensures Play(c, s).conv.Valid()
  {
    hide Accumulate, EntriesOf, Append, Context, Flatten, DigestInput, DigestRequest, Texts;
  }

  // ---------- Text ----------

  /**
   A completed turn stores exactly the text it streamed; an abandoned one stores the
   query and either the whole answer or none of it.
   */
  lemma TextConserved(c: Conv, s: Script)
    requires c.Valid()
    ensures var r := Play(c, s);
            var asked := Append(c.records, s.queryId, Message(User, s.prompt));
            var sent := Flatten(r.seen.chunks);
            && sent == Flatten(Texts(s.main.events))
            && (!s.main.complete ==> r.seen.done.None? && r.conv.records == asked)
            && (s.main.complete ==> r.conv.records == Append(asked, s.answerId, Message(Assistant, sent)))
            && (r.seen.done.Some? ==> s.main.complete)
  {
    hide Accumulate, EntriesOf, Append, Context, Flatten, Due, DigestInput, DigestRequest, Texts;
  }

  lemma TextsPrefix(heard: seq<Event>, rest: seq<Event>)
    ensures Flatten(Texts(heard)) <= Flatten(Texts(heard + rest))
  {
    TextsConcat(heard, rest);
    FlattenConcat(Texts(heard), Texts(rest));
  }

  lemma {:induction false} TextsConcat(a: seq<Event>, b: seq<Event>)
    ensures Texts(a + b) == Texts(a) + Texts(b)
  {
    if b == [] {
      assert a + b == a;
    } else {
      var n := |b| - 1;
      assert a + b == (a + b[..n]) + [b[n]];
      TextsConcat(a, b[..n]);
      TextsSnoc(a + b[..n], b[n]);
    }
  }

  // ---------- Accounting ----------

  /** The entries a turn records, whether it completes or not. */
  function TurnLog(c: Conv, s: Script): seq<Entry>
    requires c.Valid()
  {
    EntriesOf(c.billing, s.main.events)
    + if Play(c, s).seen.digestRequest.Some? then MeteredEntries(c.strategyMeter, s.digest.events) else []
  }

  /**
   However the turn ends, both levels grew by its log and by nothing else, the current
   level from empty; a done event reports exactly that log.
   */
  lemma TurnAccounting(c: Conv, s: Script)
    requires c.Valid()
    ensures var r := Play(c, s);
            && r.conv.lifecycle == Accumulate(c.lifecycle, TurnLog(c, s))
            && r.conv.current == Accumulate(map[], TurnLog(c, s))
            && (r.seen.done.Some? ==>
                  r.seen.done.value.statistics == if TurnLog(c, s) == [] then None
                                                  else Some(Accumulate(map[], TurnLog(c, s))))
  {
    var main := EntriesOf(c.billing, s.main.events);
    var digest := MeteredEntries(c.strategyMeter, s.digest.events);
    AccumulateConcat(c.lifecycle, main, digest);
    AccumulateConcat(map[], main, digest);
    assert main + [] == main;
    NothingOnlyFromNothing(TurnLog(c, s));
  }

  /** The events of a turn that its session's statistics see. */
  function Heard(c: Conv, s: Script): seq<Event>
    requires c.Valid()
  {
    s.main.events + if Play(c, s).seen.digestRequest.Some? && c.strategyMeter.Metered? then s.digest.events else []
  }

  /**
   The statistics of a turn show, for every pair, exactly the tokens that the completion
   events of its two calls report; the pairs shown are those that some event names.
   */
  lemma TurnReports(c: Conv, s: Script, provider: string, model: string)
    requires c.Valid()
    ensures var r := Play(c, s);
            var row := Lookup(r.conv.current, provider, model);
            && (row.Some? <==> SomeReport(Heard(c, s), provider, model))
            && (row.Some? ==> row.value.usage == Reported(Heard(c, s), provider, model))
            && (r.seen.done.Some? ==> GetOr(r.seen.done.value.statistics, map[]) == r.conv.current)
  {
    TurnAccounting(c, s);
    AmountsAreSums(TurnLog(c, s), provider, model);
    assert Accounts(TurnLog(c, s), Heard(c, s), provider, model) by {
      TurnAccounts(c, s, provider, model);
    }
    if Play(c, s).seen.done.Some? {
      DoneShowsCurrent(c, s);
    }
  }

  lemma DoneShowsCurrent(c: Conv, s: Script)
    requires c.Valid() && Play(c, s).seen.done.Some?
    ensures GetOr(Play(c, s).seen.done.value.statistics, map[]) == Play(c, s).conv.current
  {
    hide EntriesOf, Accumulate, Append, Context, Due, DigestInput, DigestRequest, Flatten, Texts;
  }

  lemma TurnAccounts(c: Conv, s: Script, provider: string, model: string)
    requires c.Valid()
    ensures Accounts(TurnLog(c, s), Heard(c, s), provider, model)
  {
    hide Play, Accounts;
    EntriesAccount(c.billing, s.main.events, provider, model);
    var main := EntriesOf(c.billing, s.main.events);
    if Play(c, s).seen.digestRequest.Some? && c.strategyMeter.Metered? {
      EntriesAccount(c.strategyMeter.billing, s.digest.events, provider, model);
      AccountsConcat(main, s.main.events, EntriesOf(c.strategyMeter.billing, s.digest.events), s.digest.events,
                     provider, model);
    } else {
      assert main + [] == main && s.main.events + [] == s.main.events;
    }
  }

  lemma NothingOnlyFromNothing(log: seq<Entry>)
    ensures Accumulate(map[], log) == map[] <==> log == []
  {
    if log != [] {
      assert log[|log| - 1].provider in Accumulate(map[], log);
    }
  }

  /** With ports that keep their contract, each completed and metered model call of a turn is recorded exactly once. */
  lemma RecordedOncePerCall(c: Conv, s: Script)
    requires c.Valid() && Conforming(s.main) && Conforming(s.digest)
    ensures var r := Play(c, s);
            r.seen.done.Some? ==>
              |TurnLog(c, s)| == if r.seen.digestRequest.Some? && c.strategyMeter.Metered? then 2 else 1
    ensures |TurnLog(c, s)| <= if s.main.complete then 2 else 1
  {
    hide EntriesOf, Accumulate, Append, Context, Texts, Flatten, DigestInput, Due;
    RecordedOnce(c.billing, s.main);
    if c.strategyMeter.Metered? {
      RecordedOnce(c.strategyMeter.billing, s.digest);
    }
  }

  lemma {:induction false} TextsOfChunks(events: seq<Event>)
    requires forall i :: 0 <= i < |events| ==> events[i].TextChunk?
    ensures |Texts(events)| == |events|
    ensures forall i :: 0 <= i < |events| ==> Texts(events)[i] == events[i].text
  {
    if events != [] {
      TextsOfChunks(events[..|events| - 1]);
    }
  }

  /**
   With ports that keep their contract the session keeps it too: a completed main call
   yields its chunks one for one, and exactly one done event carrying its stop reason
   unless the digest is cut; a cut main call yields the chunks heard and no done event.
   */
  lemma EventGrammar(c: Conv, s: Script)
    requires c.Valid() && Conforming(s.main)
    ensures var seen := Play(c, s).seen;
            && |seen.chunks| <= |s.main.events| <= |seen.chunks| + 1
            && (forall i :: 0 <= i < |seen.chunks| ==>
                  s.main.events[i].TextChunk? && seen.chunks[i] == s.main.events[i].text)
            && (s.main.complete ==> |seen.chunks| == |s.main.events| - 1)
            && (seen.done.Some? <==> s.main.complete && (seen.digestRequest.Some? ==> s.digest.complete))
            && (seen.done.Some? ==> seen.done.value.stop == s.main.events[|s.main.events| - 1].stop)
  {
    hide EntriesOf, Accumulate, Append, Context, Flatten, DigestInput, Due;
    if s.main.events != [] {
      TextsOfChunks(s.main.events[..|s.main.events| - 1]);
    }
  }

  // ---------- What the models are sent ----------

  lemma MessagesAppend(rs: seq<Record>, id: Id, m: Message)
    ensures Messages(Append(rs, id, m)) == Messages(rs) + [m]
  {
  }

  /** The whole history and the query just asked. */
  function Asked(c: Conv, prompt: string): (all: seq<Message>)
    ensures |all| == |c.records| + 1
    ensures forall i :: 0 <= i < |c.records| ==> all[i] == c.records[i].message
    ensures all[|c.records|] == Message(User, prompt)
  {
    Messages(c.records) + [Message(User, prompt)]
  }

  lemma MessagesLength(rs: seq<Record>)
    ensures |Messages(rs)| == |rs|
  {
  }

  lemma TailLength(rs: seq<Record>, s: Summary)
    ensures |Tail(rs, s)| == |rs| - AnchorEnd(rs, s.anchor)
  {
  }

  lemma MessagesFrom(rs: seq<Record>, i: nat)
    requires i <= |rs|
    ensures Messages(rs[i..]) == Messages(rs)[i..]
  {
  }

  /**
   The request of a turn, message by message: the whole history, its last `window`
   messages, or the summary text, if there is one, and all messages after the anchor; the
   query is always the last.
   */
  lemma RequestIs(c: Conv, s: Script)
    requires c.Valid() && c.summary.anchor != Some(s.queryId)
    ensures var request := Play(c, s).seen.request;
            var all := Asked(c, s.prompt);
            match c.kind
            case Dummy => request == all
            case SlidingWindow(w) => request == if |all| <= w then all else all[|all| - w..]
            case Rolling(_, _) =>
              var n := AnchorEnd(c.records, c.summary.anchor);
              var shown := c.summary.anchor.Some? && c.summary.text != "";
              request == (if shown then [Message(User, c.summary.text)] else []) + all[n..]
  {
    var rs := Append(c.records, s.queryId, Message(User, s.prompt));
    assert Messages(rs) == Asked(c, s.prompt) by {
      MessagesAppend(c.records, s.queryId, Message(User, s.prompt));
    }
    assert Play(c, s).seen.request == Context(c.kind, rs, c.summary) by {
      RequestIsContext(c, s);
    }
    hide Play, Append;
    match c.kind {
      case Dummy =>
      case SlidingWindow(w) =>
        if |rs| > w {
          MessagesFrom(rs, |rs| - w);
        }
      case Rolling(_, _) =>
        AnchorUnmoved(c.records, c.summary, s.queryId, Message(User, s.prompt));
        SummaryReachesModel(c.kind, rs, c.summary);
        MessagesFrom(rs, AnchorEnd(rs, c.summary.anchor));
    }
  }

  lemma RequestIsContext(c: Conv, s: Script)
    requires c.Valid()
    ensures Play(c, s).seen.request
         == Context(c.kind, Append(c.records, s.queryId, Message(User, s.prompt)), c.summary)
  {
    hide EntriesOf, Accumulate, Append, Context, Due, DigestInput, Flatten, Texts;
  }

  lemma AnchorUnmoved(rs: seq<Record>, s: Summary, id: Id, m: Message)
    requires s.anchor != Some(id)
    ensures AnchorEnd(Append(rs, id, m), s.anchor) == AnchorEnd(rs, s.anchor)
  {
    TailAppend(rs, s, id, m);
  }

  /**
   For an exact rolling summary: the last summarisation's reply, if it is not empty, then
   every message not yet summarised, then the query.
   */
  lemma RollingRequest(c: Conv, s: Script, segs: seq<Segment>)
    requires c.Valid() && c.kind.Rolling? && c.summary.anchor != Some(s.queryId)
    requires Exact(c.kind.window, c.records, c.summary, segs)
    ensures |Covered(segs)| <= |c.records|
    ensures Play(c, s).seen.request
         == (if LastReply(segs) == "" then [] else [Message(User, LastReply(segs))])
            + Asked(c, s.prompt)[|Covered(segs)|..]
  {
    hide Play;
    RequestIs(c, s);
  }

  /** Whatever the strategy, the last message the model gets is the query just asked. */
  lemma RequestEndsInQuery(c: Conv, s: Script)
    requires c.Valid() && c.summary.anchor != Some(s.queryId)
    ensures var request := Play(c, s).seen.request;
            request != [] && request[|request| - 1] == Message(User, s.prompt)
  {
    hide Play;
    RequestIs(c, s);
  }

  /**
   The summarisation of a turn happens exactly when the answer is complete and at least a
   window of records lies after the anchor. It is asked with the strategy's own prompt and
   system prompt, and is shown the summary text, if any, and every message after the
   anchor, the new query and answer included.
   */
  lemma DigestIs(c: Conv, s: Script)
    requires c.Valid() && c.summary.anchor != Some(s.queryId) && c.summary.anchor != Some(s.answerId)
    ensures var seen := Play(c, s).seen;
            var n := AnchorEnd(c.records, c.summary.anchor);
            var all := Asked(c, s.prompt) + [Message(Assistant, Flatten(Texts(s.main.events)))];
            && (seen.digestRequest.Some? <==> s.main.complete && c.kind.Rolling? && |all| - n >= c.kind.window)
            && (seen.digestRequest.Some? ==>
                  && seen.digestRequest.value.prompt == c.kind.prompt
                  && (seen.digestRequest.value.system.None? <==>
                        c.strategyConfig.systemPrompt.None? || c.strategyConfig.systemPrompt.value == "")
                  && (seen.digestRequest.value.system.Some? ==>
                        seen.digestRequest.value.system == c.strategyConfig.systemPrompt)
                  && seen.digestRequest.value.input
                     == (if c.summary.text == "" then [] else [Message(User, c.summary.text)]) + all[n..])
  {
    hide Play, Append, AnchorEnd, Tail, Context, DigestInput, Flatten, Texts, Messages;
    var query, answer := Message(User, s.prompt), Message(Assistant, Flatten(Texts(s.main.events)));
    var asked := Append(c.records, s.queryId, query);
    var rs := Append(asked, s.answerId, answer);
    MessagesAppend(c.records, s.queryId, query);
    MessagesAppend(asked, s.answerId, answer);
    AnchorUnmoved(c.records, c.summary, s.queryId, query);
    AnchorUnmoved(asked, c.summary, s.answerId, answer);
    DigestIsInput(c, s);
    var n := AnchorEnd(rs, c.summary.anchor);
    assert |Tail(rs, c.summary)| == |rs| - n && |rs| == |c.records| + 2 by {
      TailLength(rs, c.summary);
      MessagesLength(rs);
      MessagesLength(c.records);
    }
    if c.kind.Rolling? {
      SummaryReachesModel(c.kind, rs, c.summary);
      MessagesFrom(rs, n);
      assert [] + Messages(rs[n..]) == Messages(rs[n..]);
    }
  }

  lemma DigestIsInput(c: Conv, s: Script)
    requires c.Valid()
    ensures var rs := Append(Append(c.records, s.queryId, Message(User, s.prompt)),
                             s.answerId, Message(Assistant, Flatten(Texts(s.main.events))));
            Play(c, s).seen.digestRequest
            == if s.main.complete && Due(c.kind, rs, c.summary)
               then Some(DigestRequest(c.kind, c.strategyConfig, DigestInput(rs, c.summary)))
               else None
  {
    hide EntriesOf, Accumulate, Append, Context, Due, DigestInput, DigestRequest, Flatten, Texts;
  }

  /** The summary after a turn is the reply to its summarisation, anchored at the answer; without one, the old one. */
  lemma SummaryAfter(c: Conv, s: Script)
    requires c.Valid()
    ensures Play(c, s).conv.summary
         == if Play(c, s).seen.digestRequest.Some? && s.digest.complete
            then Summary(Flatten(Texts(s.digest.events)), Some(s.answerId))
            else c.summary
  {
    hide EntriesOf, Accumulate, Context, Due, DigestInput, DigestRequest, Flatten, Texts;
  }

  // ---------- Sequences of turns and switches ----------

  /** `Switch` replaces the strategy by one in the given state. */
  datatype Op =
    | Turn(script: Script)
    | Switch(kind: Kind, summary: Summary, config: CompletionConfig, meter: Meter)
  {
    ghost predicate Valid() {
      Switch? ==> ValidState(kind, summary) && meter.Valid()
    }
  }

  ghost predicate ValidOps(ops: seq<Op>) {
    forall i :: 0 <= i < |ops| ==> ops[i].Valid()
  }

  ghost function Do(c: Conv, op: Op): (r: Conv)
    requires c.Valid() && op.Valid()
    ensures r.Valid()
  {
    match op
    case Turn(s) => Play(c, s).conv
    case Switch(k, s, config, m) =>
      c.(kind := k, summary := s, strategyConfig := config, strategyMeter := m)
  }

  ghost function Run(c: Conv, ops: seq<Op>): (r: Conv)
    requires c.Valid() && ValidOps(ops)
    ensures r.Valid()
  {
    if ops == [] then c else Do(Run(c, ops[..|ops| - 1]), ops[|ops| - 1])
  }

  /** What the turns of a run show, in order. */
  ghost function Observed(c: Conv, ops: seq<Op>): seq<Observation>
    requires c.Valid() && ValidOps(ops)
  {
    if ops == [] then
      []
    else
      var n := |ops| - 1;
      Observed(c, ops[..n]) + if ops[n].Turn? then [Play(Run(c, ops[..n]), ops[n].script).seen] else []
  }

  /** The chronological queries and complete answers. */
  function Spoken(ops: seq<Op>): seq<Message> {
    if ops == [] then
      []
    else
      var n := |ops| - 1;
      Spoken(ops[..n]) + if ops[n].Switch? then [] else
        var s := ops[n].script;
        [Message(User, s.prompt)] + if s.main.complete then [Message(Assistant, Flatten(Texts(s.main.events)))] else []
  }

  /** What each turn of a run recorded, finished and abandoned turns alike. */
  ghost function TurnLogs(c: Conv, ops: seq<Op>): seq<seq<Entry>>
    requires c.Valid() && ValidOps(ops)
  {
    if ops == [] then
      []
    else
      var n := |ops| - 1;
      TurnLogs(c, ops[..n]) + if ops[n].Turn? then [TurnLog(Run(c, ops[..n]), ops[n].script)] else []
  }

  lemma {:induction false} LedgerOfRun(c: Conv, ops: seq<Op>)
    requires c.Valid() && ValidOps(ops)
    ensures Run(c, ops).lifecycle == Accumulate(c.lifecycle, Flatten(TurnLogs(c, ops)))
  {
    hide Play, TurnLog;
    if ops != [] {
      var n := |ops| - 1;
      LedgerOfRun(c, ops[..n]);
      if ops[n].Turn? {
        var s := ops[n].script;
        var log := TurnLog(Run(c, ops[..n]), s);
        TurnAccounting(Run(c, ops[..n]), s);
        AccumulateConcat(c.lifecycle, Flatten(TurnLogs(c, ops[..n])), log);
        assert TurnLogs(c, ops)[..|TurnLogs(c, ops[..n])|] == TurnLogs(c, ops[..n]);
      } else {
        assert TurnLogs(c, ops) == TurnLogs(c, ops[..n]);
      }
    }
  }

  /**
   Over any run, each pair's lifecycle total is its initial amount plus, turn by turn,
   what that turn's own statistics show; for a finished turn these are the statistics of
   its done event.
   */
  lemma RunAccounting(c: Conv, ops: seq<Op>, provider: string, model: string)
    requires c.Valid() && ValidOps(ops)
    ensures Lookup(Run(c, ops).lifecycle, provider, model)
         == Join(Lookup(c.lifecycle, provider, model), SumOfTurns(TurnLogs(c, ops), provider, model))
  {
    LedgerOfRun(c, ops);
    LifecycleIsSumOfTurns(c.lifecycle, TurnLogs(c, ops), provider, model);
  }

  /** The stored history is what was said, whatever strategies were in force and whatever was abandoned. */
  lemma {:induction false} HistoryIsWhatWasSaid(c: Conv, ops: seq<Op>)
    requires c.Valid() && ValidOps(ops)
    ensures Messages(Run(c, ops).records) == Messages(c.records) + Spoken(ops)
  {
    if ops != [] {
      var n := |ops| - 1;
      hide Play, Append;
      HistoryIsWhatWasSaid(c, ops[..n]);
      var before := Run(c, ops[..n]);
      if ops[n].Turn? {
        var s := ops[n].script;
        TextConserved(before, s);
        var asked := Append(before.records, s.queryId, Message(User, s.prompt));
        MessagesAppend(before.records, s.queryId, Message(User, s.prompt));
        MessagesAppend(asked, s.answerId, Message(Assistant, Flatten(Texts(s.main.events))));
      }
    }
  }

  /**
   Every context is at most one summary message followed by a suffix of the history: the
   whole of it for the dummy strategy, the last `window` records for the sliding window,
   the records after the anchor for the rolling summary. The summary message is there
   exactly when a rolling summary has an anchor and a text.
   */
  lemma ContextIsSuffix(k: Kind, rs: seq<Record>, s: Summary)
    requires k.Valid()
    ensures exists i, lead :: 0 <= i <= |rs| && Context(k, rs, s) == lead + Messages(rs[i..])
              && (lead == [] || lead == [Message(User, s.text)])
              && (lead != [] <==> k.Rolling? && s.anchor.Some? && s.text != "")
              && (k.Dummy? ==> i == 0)
              && (k.SlidingWindow? ==> |rs| - i == if |rs| <= k.window then |rs| else k.window)
              && (k.Rolling? ==> i == AnchorEnd(rs, s.anchor))
  {
    var i := match k
      case Dummy => 0
      case SlidingWindow(w) => if |rs| <= w then 0 else |rs| - w
      case Rolling(_, _) => AnchorEnd(rs, s.anchor);
    var lead := if k.Rolling? && s.anchor.Some? then Lead(s.text) else [];
    assert rs[0..] == rs;
    assert Context(k, rs, s) == lead + Messages(rs[i..]);
  }

  /** New ids are new: to the history, to the anchor in force, and to each other. */
  ghost predicate FreshScript(c: Conv, s: Script) {
    FreshId(c.records, s.queryId) && FreshId(c.records, s.answerId) && s.queryId != s.answerId
  }

  ghost predicate FreshRun(c: Conv, ops: seq<Op>)
    requires c.Valid() && ValidOps(ops)
  {
    forall n :: 0 <= n < |ops| && ops[n].Turn? ==> FreshScript(Run(c, ops[..n]), ops[n].script)
  }

  lemma TurnKeepsChain(rs: seq<Record>, s: Script)
    requires Chain(rs) && FreshId(rs, s.queryId) && FreshId(rs, s.answerId) && s.queryId != s.answerId
    ensures var asked := Append(rs, s.queryId, Message(User, s.prompt));
            Chain(asked) && Chain(Append(asked, s.answerId, Message(Assistant, Flatten(Texts(s.main.events)))))
  {
    AppendKeepsChain(rs, s.queryId, Message(User, s.prompt));
  }

  /** The record chain survives turns, abandoned turns and switches. */
  lemma {:induction false} ChainKept(c: Conv, ops: seq<Op>)
    requires c.Valid() && ValidOps(ops)
    requires Chain(c.records) && FreshRun(c, ops)
    ensures Chain(Run(c, ops).records)
  {
    if ops != [] {
      var n := |ops| - 1;
      hide Play, Append, Chain;
      assert FreshRun(c, ops[..n]) by {
        assert forall m :: 0 <= m < n ==> ops[..n][..m] == ops[..m];
      }
      ChainKept(c, ops[..n]);
      if ops[n].Turn? {
        var before := Run(c, ops[..n]);
        var s := ops[n].script;
        assert FreshScript(before, s);
        TextConserved(before, s);
        TurnKeepsChain(before.records, s);
      }
    }
  }

  // ---------- Bisimulation ----------

  function ErasePath(c: CompletionConfig): CompletionConfig {
    c.(systemPromptPath := None)
  }

  /** What the future can depend on: everything but the last invocation's statistics and the prompt file names. */
  function Erase(c: Conv): Conv {
    c.(current := map[], config := ErasePath(c.config), strategyConfig := ErasePath(c.strategyConfig))
  }

  function NoPaths(c: Conv): Conv {
    c.(config := ErasePath(c.config), strategyConfig := ErasePath(c.strategyConfig))
  }

  /** A turn never looks at the prompt file names. */
  lemma PathsIrrelevant(c: Conv, s: Script)
    requires c.Valid()
    ensures Play(NoPaths(c), s).seen == Play(c, s).seen
    ensures Play(NoPaths(c), s).conv == NoPaths(Play(c, s).conv)
  {
    hide Accumulate, EntriesOf, Append, Context, Flatten, Due, DigestInput, Texts;
    var begun := Begin(c, s.prompt, s.queryId);
    assert Begin(NoPaths(c), s.prompt, s.queryId) == NoPaths(begun);
    var es := EntriesOf(c.billing, s.main.events);
    assert Bill(NoPaths(begun), es) == NoPaths(Bill(begun, es));
    var heard := Bill(begun, es);
    var text := Flatten(Texts(s.main.events));
    assert Answer(NoPaths(heard), s.answerId, text) == NoPaths(Answer(heard, s.answerId, text));
    var answered := Answer(heard, s.answerId, text);
    var ds := MeteredEntries(c.strategyMeter, s.digest.events);
    assert Bill(NoPaths(answered), ds) == NoPaths(Bill(answered, ds));
  }

  lemma SameTurn(a: Conv, b: Conv, s: Script)
    requires a.Valid() && b.Valid() && Erase(a) == Erase(b)
    ensures Play(a, s).seen == Play(b, s).seen
    ensures Erase(Play(a, s).conv) == Erase(Play(b, s).conv)
  {
    PathsIrrelevant(a, s);
    PathsIrrelevant(b, s);
    CurrentIrrelevant(NoPaths(a), s);
    CurrentIrrelevant(NoPaths(b), s);
    assert NoPaths(a).(current := map[]) == Erase(a) == Erase(b) == NoPaths(b).(current := map[]);
    assert NoPaths(Play(a, s).conv) == NoPaths(Play(b, s).conv);
    assert Erase(Play(a, s).conv) == NoPaths(Play(a, s).conv).(current := map[]);
  }

  /** A turn forgets the statistics of the invocation before it. */
  lemma CurrentIrrelevant(c: Conv, s: Script)
    requires c.Valid()
    ensures Play(c.(current := map[]), s) == Play(c, s)
  {
    assert Begin(c.(current := map[]), s.prompt, s.queryId) == Begin(c, s.prompt, s.queryId);
  }

  /** Sessions that agree up to `Erase` show the same for every future and keep agreeing. */
  lemma {:induction false} Bisimilar(a: Conv, b: Conv, ops: seq<Op>)
    requires a.Valid() && b.Valid() && Erase(a) == Erase(b)
    requires ValidOps(ops)
    ensures Observed(a, ops) == Observed(b, ops)
    ensures Erase(Run(a, ops)) == Erase(Run(b, ops))
  {
    if ops != [] {
      var n := |ops| - 1;
      Bisimilar(a, b, ops[..n]);
      if ops[n].Turn? {
        SameTurn(Run(a, ops[..n]), Run(b, ops[..n]), ops[n].script);
      }
    }
  }
}
