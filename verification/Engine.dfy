/**
 The turn machine: one session advanced by single steps, each the code between two
 suspension points of `Session.acompletion` and `SummaryStrategy.update_context`. Steps
 of several turns may interleave here; what keeps them apart is the server's business.

 `Engine` carries, beside the session, what the theorems speak about: the completed
 summarisations, every entry ever recorded, and how many turns were abandoned since the
 last completed `update_context`.
 */
module Engine {
  import opened Wrappers
  import opened UsageStats
  import opened Billing
  import opened LlmPort
  import opened StatsDecorator
  import opened Records
  import opened ContextStrategy
  import opened Conversation

  datatype Engine = Engine(conv: Conv, segs: seq<Segment>, log: seq<Entry>, debt: nat)

  datatype Phase =
    | Ready(prompt: string)
    | Streaming(request: seq<Message>, chunks: seq<string>)
    | Digesting(start: nat, upto: nat, input: seq<Message>, parts: seq<string>)
    | Closing     // the done event is out, the session is not yet written to disk
    | Finished
    | Abandoned
  {
    predicate Over() {
      Finished? || Abandoned?
    }
  }

  datatype Act =
    | Start(queryId: Id)
    | Hear(event: Event)
    | EndAnswer(answerId: Id)
    | HearDigest(digestEvent: Event)
    | EndDigest
    | Abandon

  /** Drawn ids are new; completion events name the model that was asked. */
  ghost predicate CanDo(e: Engine, p: Phase, a: Act) {
    match a
    case Start(id) => p.Ready? && FreshId(e.conv.records, id)
    case Hear(ev) => p.Streaming? && Keyed([ev], e.conv.config)
    case EndAnswer(id) => p.Streaming? && FreshId(e.conv.records, id)
    case HearDigest(ev) => p.Digesting? && Keyed([ev], e.conv.strategyConfig)
    case EndDigest => p.Digesting? && WellShaped(e, p)
    case Abandon => !p.Over()
  }

  /** A digest under way belongs to a summary strategy and covers stored records. */
  predicate WellShaped(e: Engine, p: Phase) {
    p.Digesting? ==> e.conv.kind.Rolling? && e.conv.records != [] && p.start <= p.upto <= |e.conv.records|
  }

  function Recorded(e: Engine, es: seq<Entry>): Engine {
    e.(conv := Bill(e.conv, es), log := e.log + es)
  }

  function TextOf(ev: Event): seq<string> {
    if ev.TextChunk? then [ev.text] else []
  }

  function Act1(e: Engine, p: Phase, a: Act): (Engine, Phase)
    requires e.conv.Valid()
    requires match a
             case Start(_) => p.Ready?
             case Hear(_) => p.Streaming?
             case EndAnswer(_) => p.Streaming?
             case HearDigest(_) => p.Digesting?
             case EndDigest => p.Digesting? && WellShaped(e, p)
             case Abandon => !p.Over()
  {
    match a
    case Start(id) =>
      var c := Begin(e.conv, p.prompt, id);
      (e.(conv := c), Streaming(Context(c.kind, c.records, c.summary), []))
    case Hear(ev) =>
      (Recorded(e, EntriesOf(e.conv.billing, [ev])), p.(chunks := p.chunks + TextOf(ev)))
    case EndAnswer(id) =>
      var c := Answer(e.conv, id, Flatten(p.chunks));
      if Due(c.kind, c.records, c.summary) then
        (e.(conv := c),
         Digesting(AnchorEnd(c.records, c.summary.anchor), |c.records|, DigestInput(c.records, c.summary), []))
      else
        (e.(conv := c, debt := 0), Closing)
    case HearDigest(ev) =>
      (Recorded(e, MeteredEntries(e.conv.strategyMeter, [ev])), p.(parts := p.parts + TextOf(ev)))
    case EndDigest =>
      var reply := Flatten(p.parts);
      (e.(conv := Condense(e.conv, reply), debt := 0,
          segs := e.segs + [Segment(e.conv.records[p.start..p.upto], p.input, reply)]),
       Closing)
    case Abandon =>
      (if p.Streaming? || p.Digesting? then e.(debt := e.debt + 1) else e, Abandoned)
  }

  // ---------- What every step keeps ----------

  /** Billing comes from the table in use. */
  ghost predicate BilledBy(t: Pricing, c: Conv) {
    && c.billing == BillingFor(t, c.config.provider, c.config.model)
    && c.strategyMeter == Metered(BillingFor(t, c.strategyConfig.provider, c.strategyConfig.model))
  }

  /**
   What holds of a session even when turns overlap: an intact record chain, statistics
   that are exactly the recorded entries at table prices, an anchor among the records.
   */
  ghost predicate Tallied(t: Pricing, e: Engine) {
    && ValidPricing(t)
    && e.conv.Valid()
    && BilledBy(t, e.conv)
    && Chain(e.conv.records)
    && e.conv.lifecycle == Accumulate(map[], e.log)
    && PricedLog(t, e.log)
    && (e.conv.summary.anchor.Some? ==> !FreshId(e.conv.records, e.conv.summary.anchor.value))
  }

  /** What holds of a session whose turns do not overlap, whatever phase its turn is in. */
  ghost predicate Sound(t: Pricing, e: Engine) {
    && Tallied(t, e)
    && (e.conv.kind.Rolling? ==> Exact(e.conv.kind.window, e.conv.records, e.conv.summary, e.segs))
  }

  /** The verbatim tail: less than a window, up to what abandoned and running turns added. */
  ghost predicate TailWithin(e: Engine, extra: nat) {
    e.conv.kind.Rolling? ==>
      |Tail(e.conv.records, e.conv.summary)| < e.conv.kind.window + extra + 2 * e.debt
  }

  /** In particular: a request carries at most w + 1 + 2c messages, and the digest reaches to the last record. */
  ghost predicate PhaseSound(e: Engine, p: Phase) {
    match p
    case Streaming(request, _) =>
      TailWithin(e, 1) && (e.conv.kind.Rolling? ==> |request| <= e.conv.kind.window + 1 + 2 * e.debt)
    case Digesting(start, upto, input, _) =>
      && TailWithin(e, 2)
      && e.conv.kind.Rolling?
      && start == AnchorEnd(e.conv.records, e.conv.summary.anchor)
      && upto == |e.conv.records|
      && upto - start >= e.conv.kind.window
      && input == DigestInput(e.conv.records, e.conv.summary)
    case Closing => TailWithin(e, 0) && e.debt == 0
    case _ => TailWithin(e, 0)
  }

  lemma {:induction false} PricedConcat(t: Pricing, a: seq<Entry>, b: seq<Entry>)
    requires ValidPricing(t) && PricedLog(t, a) && PricedLog(t, b)
    ensures PricedLog(t, a + b)
  {
    forall i | 0 <= i < |a + b| ensures Priced(t, (a + b)[i].provider, (a + b)[i].model, (a + b)[i].stats) {
      if i >= |a| {
        assert (a + b)[i] == b[i - |a|];
      }
    }
  }

  lemma RecordedTallied(t: Pricing, e: Engine, c: CompletionConfig, ev: Event)
    requires Tallied(t, e) && Keyed([ev], c)
    ensures Tallied(t, Recorded(e, EntriesOf(BillingFor(t, c.provider, c.model), [ev])))
  {
    var es := EntriesOf(BillingFor(t, c.provider, c.model), [ev]);
    EntriesPriced(t, c, [ev]);
    PricedConcat(t, e.log, es);
    AccumulateConcat(map[], e.log, es);
  }

  lemma AppendTallied(t: Pricing, e: Engine, id: Id, m: Message, current: Stats)
    requires Tallied(t, e) && FreshId(e.conv.records, id)
    ensures Tallied(t, e.(conv := e.conv.(records := Append(e.conv.records, id, m), current := current)))
  {
    AppendKeepsChain(e.conv.records, id, m);
    if e.conv.summary.anchor.Some? && !FreshId(e.conv.records, e.conv.summary.anchor.value) {
      var i :| 0 <= i < |e.conv.records| && e.conv.records[i].id == e.conv.summary.anchor.value;
      assert Append(e.conv.records, id, m)[i].id == e.conv.summary.anchor.value;
    }
  }

  /** Every step of every turn, disturbed or not. */
  lemma StepTallied(t: Pricing, e: Engine, p: Phase, a: Act)
    requires Tallied(t, e) && WellShaped(e, p) && CanDo(e, p, a)
    ensures var r := Act1(e, p, a); Tallied(t, r.0) && WellShaped(r.0, r.1)
  {
    match a {
      case Start(id) =>
        AppendTallied(t, e, id, Message(User, p.prompt), map[]);
      case Hear(ev) =>
        RecordedTallied(t, e, e.conv.config, ev);
      case EndAnswer(id) =>
        AppendTallied(t, e, id, Message(Assistant, Flatten(p.chunks)), e.conv.current);
      case HearDigest(ev) =>
        RecordedTallied(t, e, e.conv.strategyConfig, ev);
      case _ =>
    }
  }

  lemma AppendExact(t: Pricing, e: Engine, id: Id, m: Message)
    requires Sound(t, e) && FreshId(e.conv.records, id) && e.conv.kind.Rolling?
    ensures var rs := Append(e.conv.records, id, m);
            && Exact(e.conv.kind.window, rs, e.conv.summary, e.segs)
            && |Tail(rs, e.conv.summary)| == |Tail(e.conv.records, e.conv.summary)| + 1
  {
    ExactAppend(e.conv.kind.window, e.conv.records, e.conv.summary, e.segs, id, m);
    TailAppend(e.conv.records, e.conv.summary, id, m);
  }

  lemma DigestInputIs(rs: seq<Record>, s: Summary)
    ensures DigestInput(rs, s) == Lead(s.text) + Messages(rs[AnchorEnd(rs, s.anchor)..|rs|])
  {
  }

  /** The anchor read when the digest ends is the right one: no record was appended meanwhile. */
  lemma DigestExact(t: Pricing, e: Engine, p: Phase, reply: string)
    requires Sound(t, e) && p.Digesting? && PhaseSound(e, p)
    ensures WellShaped(e, p)
    ensures Exact(e.conv.kind.window, e.conv.records, Condensed(e.conv.records, reply),
                  e.segs + [Segment(e.conv.records[p.start..p.upto], p.input, reply)])
  {
    hide Exact, Accumulate, PricedLog, DigestInput, Flatten;
    DigestInputIs(e.conv.records, e.conv.summary);
    AnchorSoundIff(e.conv.kind.window, e.conv.records, e.conv.summary, e.segs, p.upto, p.input, reply);
  }

  lemma CondensedTail(rs: seq<Record>, reply: string)
    requires Chain(rs) && rs != []
    ensures Tail(rs, Condensed(rs, reply)) == []
  {
    EndOfMember(rs, |rs| - 1);
  }

  /** The digest's last step leaves an empty tail behind an anchor on the last record. */
  lemma DigestCloses(t: Pricing, e: Engine, p: Phase)
    requires Sound(t, e) && p.Digesting? && WellShaped(e, p)
    ensures Act1(e, p, EndDigest).1 == Closing
    ensures PhaseSound(Act1(e, p, EndDigest).0, Closing)
  {
    hide Exact, Accumulate, PricedLog, Flatten, Tail, Chain;
    CondensedTail(e.conv.records, Flatten(p.parts));
  }

  lemma DigestSound(t: Pricing, e: Engine, p: Phase)
    requires Sound(t, e) && p.Digesting? && PhaseSound(e, p)
    ensures CanDo(e, p, EndDigest)
    ensures var r := Act1(e, p, EndDigest); Sound(t, r.0) && PhaseSound(r.0, r.1)
  {
    hide Exact, Tallied, Flatten, Condensed, PhaseSound;
    ShapedWhenSound(t, e, p);
    StepTallied(t, e, p, EndDigest);
    DigestExact(t, e, p, Flatten(p.parts));
    DigestCloses(t, e, p);
  }

  /** Every step of the turn in charge keeps the session sound and its bounds, wherever it is abandoned. */
  lemma StepSound(t: Pricing, e: Engine, p: Phase, a: Act)
    requires Sound(t, e) && PhaseSound(e, p) && CanDo(e, p, a)
    ensures var r := Act1(e, p, a); Sound(t, r.0) && PhaseSound(r.0, r.1)
  {
    hide Exact, Tallied, Accumulate, EntriesOf, Append, Flatten, Texts;
    ShapedWhenSound(t, e, p);
    if a.EndDigest? {
      DigestSound(t, e, p);
    } else {
      StepTallied(t, e, p, a);
      if a.Start? && e.conv.kind.Rolling? {
        AppendExact(t, e, a.queryId, Message(User, p.prompt));
      } else if a.EndAnswer? && e.conv.kind.Rolling? {
        AppendExact(t, e, a.answerId, Message(Assistant, Flatten(p.chunks)));
      }
    }
  }

  lemma ShapedWhenSound(t: Pricing, e: Engine, p: Phase)
    requires Sound(t, e) && PhaseSound(e, p)
    ensures e.conv.Valid() && WellShaped(e, p)
  {
  }

  // ---------- Growth ----------

  /** `a` is an earlier state of the session whose later state is `b`. */
  ghost predicate Behind(a: Engine, b: Engine) {
    && a.conv.records <= b.conv.records
    && a.log <= b.log
    && a.segs <= b.segs
  }

  /** Records, recorded usage and summaries only ever grow, also when turns overlap. */
  lemma StepGrows(e: Engine, p: Phase, a: Act)
    requires e.conv.Valid() && CanDo(e, p, a) && WellShaped(e, p)
    ensures Behind(e, Act1(e, p, a).0) && Act1(e, p, a).0.conv.Valid() && WellShaped(Act1(e, p, a).0, Act1(e, p, a).1)
    ensures var c := Act1(e, p, a).0.conv;
            c == e.conv.(records := c.records, summary := c.summary, lifecycle := c.lifecycle, current := c.current)
  {
  }

  /** An earlier state shows no larger amount for any pair, neither in tokens nor in cost. */
  lemma BehindShowsLess(t: Pricing, a: Engine, b: Engine, provider: string, model: string)
    requires Behind(a, b) && Tallied(t, a) && Tallied(t, b)
    ensures AtMost(Lookup(a.conv.lifecycle, provider, model), Lookup(b.conv.lifecycle, provider, model))
  {
    hide Accumulate, PricedLog, Chain, AtMost;
    assert b.log == a.log + b.log[|a.log|..];
    AmountsGrow(t, a.log, b.log[|a.log|..], provider, model);
  }

  // ---------- The steps of one undisturbed turn make up `Play` ----------

  function HearAll(e: Engine, p: Phase, events: seq<Event>): (Engine, Phase)
    requires e.conv.Valid() && p.Streaming?
    ensures HearAll(e, p, events).0.conv.Valid() && HearAll(e, p, events).1.Streaming?
  {
    if events == [] then (e, p) else
      var r := HearAll(e, p, events[..|events| - 1]);
      Act1(r.0, r.1, Hear(events[|events| - 1]))
  }

  function HearAllDigest(e: Engine, p: Phase, events: seq<Event>): (Engine, Phase)
    requires e.conv.Valid() && p.Digesting?
    ensures HearAllDigest(e, p, events).0.conv.Valid() && HearAllDigest(e, p, events).1.Digesting?
  {
    if events == [] then (e, p) else
      var r := HearAllDigest(e, p, events[..|events| - 1]);
      Act1(r.0, r.1, HearDigest(events[|events| - 1]))
  }

  lemma RecordedNothing(e: Engine)
    ensures Recorded(e, []) == e
  {
    assert e.log + [] == e.log;
  }

  lemma {:induction false} HearAllIs(e: Engine, p: Phase, events: seq<Event>)
    requires e.conv.Valid() && p.Streaming?
    ensures HearAll(e, p, events)
         == (Recorded(e, EntriesOf(e.conv.billing, events)), p.(chunks := p.chunks + Texts(events)))
  {
    hide Accumulate, Append, Context, Flatten;
    if events == [] {
      RecordedNothing(e);
      assert p.chunks + Texts(events) == p.chunks;
    } else {
      var n := |events| - 1;
      HearAllIs(e, p, events[..n]);
      OneMore(e, Metered(e.conv.billing), events[..n], events[n]);
      assert p.chunks + Texts(events) == p.chunks + Texts(events[..n]) + TextOf(events[n]);
    }
  }

  lemma {:induction false} HearAllDigestIs(e: Engine, p: Phase, events: seq<Event>)
    requires e.conv.Valid() && p.Digesting?
    ensures HearAllDigest(e, p, events)
         == (Recorded(e, MeteredEntries(e.conv.strategyMeter, events)), p.(parts := p.parts + Texts(events)))
  {
    hide Accumulate, Append, Context, Flatten;
    if events == [] {
      RecordedNothing(e);
      assert p.parts + Texts(events) == p.parts;
    } else {
      var n := |events| - 1;
      HearAllDigestIs(e, p, events[..n]);
      OneMore(e, e.conv.strategyMeter, events[..n], events[n]);
      assert p.parts + Texts(events) == p.parts + Texts(events[..n]) + TextOf(events[n]);
    }
  }

  lemma RecordedConcat(e: Engine, x: seq<Entry>, y: seq<Entry>)
    ensures Recorded(Recorded(e, x), y) == Recorded(e, x + y)
  {
    AccumulateConcat(e.conv.current, x, y);
    AccumulateConcat(e.conv.lifecycle, x, y);
    assert e.log + x + y == e.log + (x + y);
  }

  lemma OneMore(e: Engine, m: Meter, events: seq<Event>, ev: Event)
    requires e.conv.Valid() && m.Valid()
    ensures Recorded(Recorded(e, MeteredEntries(m, events)), MeteredEntries(m, [ev]))
         == Recorded(e, MeteredEntries(m, events + [ev]))
  {
    if m.Metered? {
      EntriesSnoc(m.billing, events, ev);
      EntriesSnoc(m.billing, [], ev);
      assert [] + [ev] == [ev];
    }
    RecordedConcat(e, MeteredEntries(m, events), MeteredEntries(m, [ev]));
  }

  /** A script's steps one after the other; where a call is cut short, the turn is abandoned. */
  function Drive(e: Engine, s: Script): (Engine, Phase)
    requires e.conv.Valid()
  {
    var begun := Act1(e, Ready(s.prompt), Start(s.queryId));
    var heard := HearAll(begun.0, begun.1, s.main.events);
    if !s.main.complete then
      Act1(heard.0, heard.1, Abandon)
    else
      var answered := Act1(heard.0, heard.1, EndAnswer(s.answerId));
      if answered.1.Closing? then
        answered
      else
        var digested := HearAllDigest(answered.0, answered.1, s.digest.events);
        if !s.digest.complete then
          Act1(digested.0, digested.1, Abandon)
        else
          HearAllDigestIs(answered.0, answered.1, s.digest.events);
          Act1(digested.0, digested.1, EndDigest)
  }

  /**
   The machine's steps, run without interference, are the session method's turn: the same
   request to the model, the same session afterwards, the same entries recorded.
   */
  lemma DriveIsPlay(e: Engine, s: Script)
    requires e.conv.Valid()
    ensures var r := Drive(e, s);
            && r.0.conv == Play(e.conv, s).conv
            && (r.1.Closing? <==> Play(e.conv, s).seen.done.Some?)
            && (r.1.Abandoned? <==> Play(e.conv, s).seen.done.None?)
            && r.0.log == e.log + TurnLog(e.conv, s)
            && r.0.debt == (if r.1.Closing? then 0 else e.debt + 1)
    ensures Act1(e, Ready(s.prompt), Start(s.queryId)).1 == Streaming(Play(e.conv, s).seen.request, [])
  {
    hide Accumulate, EntriesOf, Append, Context, Flatten, Due, AnchorEnd, DigestInput, DigestRequest, Texts, LastStop;
    var begun := Act1(e, Ready(s.prompt), Start(s.queryId));
    HearAllIs(begun.0, begun.1, s.main.events);
    var heard := HearAll(begun.0, begun.1, s.main.events);
    var es := EntriesOf(e.conv.billing, s.main.events);
    assert begun.1.chunks + Texts(s.main.events) == Texts(s.main.events);
    assert es + [] == es;
    if s.main.complete {
      var answered := Act1(heard.0, heard.1, EndAnswer(s.answerId));
      if answered.1.Digesting? {
        var ds := MeteredEntries(e.conv.strategyMeter, s.digest.events);
        assert e.log + es + ds == e.log + (es + ds);
        assert answered.1.parts + Texts(s.digest.events) == Texts(s.digest.events);
        HearAllDigestIs(answered.0, answered.1, s.digest.events);
      }
    }
  }

  /**
   A summarisation is remembered as it was: the records after the anchor, which it
   covered, what the turn showed the model, and what the model replied.
   */
  lemma DriveRemembers(e: Engine, s: Script)
    requires e.conv.Valid()
    ensures var seen := Play(e.conv, s).seen;
            var rs := Play(e.conv, s).conv.records;
            Drive(e, s).0.segs == if seen.digestRequest.None? || seen.done.None? then e.segs else
              e.segs + [Segment(rs[AnchorEnd(rs, e.conv.summary.anchor)..], seen.digestRequest.value.input,
                                Flatten(Texts(s.digest.events)))]
  {
    hide Accumulate, EntriesOf, Append, Context, Flatten, Due, AnchorEnd, DigestInput, Texts, LastStop, TurnLog;
    var begun := Act1(e, Ready(s.prompt), Start(s.queryId));
    HearAllIs(begun.0, begun.1, s.main.events);
    var heard := HearAll(begun.0, begun.1, s.main.events);
    assert begun.1.chunks + Texts(s.main.events) == Texts(s.main.events);
    if s.main.complete {
      var answered := Act1(heard.0, heard.1, EndAnswer(s.answerId));
      if answered.1.Digesting? {
        assert answered.1.parts + Texts(s.digest.events) == Texts(s.digest.events);
        HearAllDigestIs(answered.0, answered.1, s.digest.events);
        var rs := answered.0.conv.records;
        assert rs[answered.1.start..|rs|] == rs[answered.1.start..];
      }
    }
  }
}
