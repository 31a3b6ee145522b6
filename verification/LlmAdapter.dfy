/**
 The adapter in front of the provider SDK (server/adapter/outbound/llm/llm_adapter.py):
 its chunk loop against a declarative reading of the chunks, and the port contract it
 keeps for every provider behaviour.
 */
module LlmAdapter {
  import opened Wrappers
  import opened UsageStats
  import opened LlmPort

  /** `delta` and `finish` are empty when the SDK object carries nothing there. */
  datatype Choice = Choice(delta: string, finish: string)

  datatype Chunk = Chunk(usage: Option<TokensUsage>, choice: Option<Choice>)

  datatype Response = Response(usage: TokensUsage, text: string, finish: string)

  /** What the provider answers in either mode; a missing response or `!complete` is an exception. */
  datatype Provider = Provider(response: Option<Response>, chunks: seq<Chunk>, complete: bool)

  function ParseStop(s: string): Option<StopReason> {
    if s == "stop" then Some(Stop)
    else if s == "length" then Some(Length)
    else if s == "tool_calls" then Some(ToolCalls)
    else if s == "content_filter" then Some(ContentFilter)
    else None
  }

  /** The names of the stop reasons. */
  function StopName(r: StopReason): string {
    match r
    case Stop => "stop"
    case Length => "length"
    case ToolCalls => "tool_calls"
    case ContentFilter => "content_filter"
  }

  /** A name is read as the stop reason it names, and anything else is refused. */
  lemma ParseStopInvertsName(s: string, r: StopReason)
    ensures ParseStop(s) == Some(r) <==> s == StopName(r)
  {
  }

  // ---------- Declarative reading of a chunk sequence ----------

  predicate Finishes(c: Chunk) {
    c.choice.Some? && c.choice.value.finish != ""
  }

  /** A finish reason outside the enumeration raises ValueError inside the loop. */
  predicate Unreadable(c: Chunk) {
    Finishes(c) && ParseStop(c.choice.value.finish).None?
  }

  /** The loop reads exactly the first `k` chunks. */
  ghost predicate ReadsUpTo(chunks: seq<Chunk>, k: int) {
    && 0 <= k <= |chunks|
    && (forall i :: 0 <= i < k ==> !Unreadable(chunks[i]))
    && (k < |chunks| ==> Unreadable(chunks[k]))
  }

  /** The non-empty deltas, in order. */
  function Deltas(chunks: seq<Chunk>): seq<string> {
    if chunks == [] then
      []
    else
      var n := |chunks| - 1;
      var c := chunks[n].choice;
      Deltas(chunks[..n]) + (if c.Some? && c.value.delta != "" then [c.value.delta] else [])
  }

  ghost predicate UsageAt(chunks: seq<Chunk>, i: int, u: TokensUsage) {
    0 <= i < |chunks| && chunks[i].usage == Some(u) && forall j :: i < j < |chunks| ==> chunks[j].usage.None?
  }

  /** `u` is the usage of the last chunk carrying one, or zero when none does. */
  ghost predicate LastUsage(chunks: seq<Chunk>, u: TokensUsage) {
    || (u == TokensUsage(0, 0) && forall i :: 0 <= i < |chunks| ==> chunks[i].usage.None?)
    || exists i :: UsageAt(chunks, i, u)
  }

  /** A finish reason of stop is read as length when the completion used up the limit. */
  function StopGiven(c: Chunk, maxTokens: nat, seen: TokensUsage): StopReason
    requires Finishes(c) && !Unreadable(c)
  {
    var named := ParseStop(c.choice.value.finish).value;
    if named == Stop && seen.completion == maxTokens then Length else named
  }

  /** Chunk `i` finishes with `stop`, given the usage `seen` by then. */
  ghost predicate FinishGives(chunks: seq<Chunk>, i: int, maxTokens: nat, seen: TokensUsage, stop: StopReason)
    requires 0 <= i < |chunks|
  {
    && Finishes(chunks[i]) && !Unreadable(chunks[i])
    && LastUsage(chunks[..i + 1], seen)
    && stop == StopGiven(chunks[i], maxTokens, seen)
  }

  ghost predicate FinishAt(chunks: seq<Chunk>, i: int, maxTokens: nat, seen: TokensUsage, stop: StopReason) {
    && 0 <= i < |chunks|
    && FinishGives(chunks, i, maxTokens, seen, stop)
    && forall j :: i < j < |chunks| ==> !Finishes(chunks[j])
  }

  /** `stop` is what the last finishing chunk gives, or Stop when none finishes. */
  ghost predicate LastFinish(chunks: seq<Chunk>, maxTokens: nat, stop: StopReason) {
    || (stop == Stop && forall i :: 0 <= i < |chunks| ==> !Finishes(chunks[i]))
    || exists i, seen :: FinishAt(chunks, i, maxTokens, seen, stop)
  }

  lemma LastUsageExtends(chunks: seq<Chunk>, c: Chunk, u: TokensUsage)
    requires LastUsage(chunks, u)
    ensures LastUsage(chunks + [c], if c.usage.Some? then c.usage.value else u)
  {
    if c.usage.Some? {
      assert UsageAt(chunks + [c], |chunks|, c.usage.value);
    } else if i :| UsageAt(chunks, i, u) {
      assert UsageAt(chunks + [c], i, u);
    }
  }

  lemma LastFinishExtends(chunks: seq<Chunk>, c: Chunk, maxTokens: nat, stop: StopReason, seen: TokensUsage)
    requires LastFinish(chunks, maxTokens, stop)
    requires LastUsage(chunks + [c], seen)
    requires !Unreadable(c)
    ensures LastFinish(chunks + [c], maxTokens, if Finishes(c) then StopGiven(c, maxTokens, seen) else stop)
  {
    var all := chunks + [c];
    if Finishes(c) {
      assert all[..|chunks| + 1] == all;
      assert FinishAt(all, |chunks|, maxTokens, seen, StopGiven(c, maxTokens, seen));
    } else if i, before :| FinishAt(chunks, i, maxTokens, before, stop) {
      assert all[..i + 1] == chunks[..i + 1];
      assert FinishAt(all, i, maxTokens, before, stop);
    }
  }

  lemma DeltasSnoc(chunks: seq<Chunk>, c: Chunk)
    ensures Deltas(chunks + [c])
         == Deltas(chunks) + (if c.choice.Some? && c.choice.value.delta != "" then [c.choice.value.delta] else [])
  {
    assert (chunks + [c])[..|chunks|] == chunks;
  }

  /** The loop's variables after reading `read`. */
  ghost predicate ReadSoFar(read: seq<Chunk>, maxTokens: nat, events: seq<Event>, usage: TokensUsage,
                            stop: StopReason)
  {
    && (forall i :: 0 <= i < |read| ==> !Unreadable(read[i]))
    && (forall i :: 0 <= i < |events| ==> events[i].TextChunk?)
    && Texts(events) == Deltas(read)
    && LastUsage(read, usage)
    && LastFinish(read, maxTokens, stop)
  }

  lemma ReadOneMore(read: seq<Chunk>, c: Chunk, maxTokens: nat, events: seq<Event>, usage: TokensUsage,
                    stop: StopReason)
    requires ReadSoFar(read, maxTokens, events, usage, stop) && !Unreadable(c)
    ensures var usage' := if c.usage.Some? then c.usage.value else usage;
            var stop' := if Finishes(c) then StopGiven(c, maxTokens, usage') else stop;
            var events' := if c.choice.Some? && c.choice.value.delta != ""
                           then events + [TextChunk(c.choice.value.delta)] else events;
            ReadSoFar(read + [c], maxTokens, events', usage', stop')
  {
    LastUsageExtends(read, c, usage);
    LastFinishExtends(read, c, maxTokens, stop, if c.usage.Some? then c.usage.value else usage);
    DeltasSnoc(read, c);
    if c.choice.Some? {
      TextsSnoc(events, TextChunk(c.choice.value.delta));
    }
  }

  /**
   What the streaming branch makes of the chunks: the text is the concatenation of the
   deltas read; a complete reading ends in one completion event with the last usage and
   the last finish reason; an unreadable finish reason cuts the stream before its
   chunk's delta.
   */
  ghost predicate Reading(provider: string, config: CompletionConfig, chunks: seq<Chunk>, complete: bool, s: Stream) {
    exists k :: ReadsUpTo(chunks, k) && ReadingOf(provider, config, chunks[..k], complete && k == |chunks|, s)
  }

  ghost predicate ReadingOf(provider: string, config: CompletionConfig, read: seq<Chunk>, complete: bool, s: Stream) {
    && s.complete == complete
    && exists texts, usage, stop ::
         && ReadSoFar(read, config.maxTokens, texts, usage, stop)
         && s.events == texts + if complete then [CompletionDone(provider, config.model, usage, stop)] else []
  }

  lemma ReadingConforms(provider: string, config: CompletionConfig, chunks: seq<Chunk>, complete: bool, s: Stream)
    requires Reading(provider, config, chunks, complete, s) && config.provider == provider
    ensures Conforming(s) && Keyed(s.events, config)
  {
  }

  /** The text of the stream is the text of the chunks read, all of them when it is complete. */
  lemma ReadingText(provider: string, config: CompletionConfig, chunks: seq<Chunk>, complete: bool, s: Stream)
    returns (k: nat)
    requires Reading(provider, config, chunks, complete, s)
    ensures ReadsUpTo(chunks, k) && Texts(s.events) == Deltas(chunks[..k])
    ensures s.complete <==> complete && k == |chunks|
  {
    k :| ReadsUpTo(chunks, k) && ReadingOf(provider, config, chunks[..k], complete && k == |chunks|, s);
    var texts, usage, stop :|
      && ReadSoFar(chunks[..k], config.maxTokens, texts, usage, stop)
      && s.events == texts + if s.complete then [CompletionDone(provider, config.model, usage, stop)] else [];
    TextsSnoc(texts, CompletionDone(provider, config.model, usage, stop));
    assert texts + [] == texts;
  }

  ghost predicate LastFinishing(chunks: seq<Chunk>, i: int) {
    0 <= i < |chunks| && Finishes(chunks[i]) && forall j :: i < j < |chunks| ==> !Finishes(chunks[j])
  }

  lemma LastUsageUnique(chunks: seq<Chunk>, u: TokensUsage, v: TokensUsage)
    requires LastUsage(chunks, u) && LastUsage(chunks, v)
    ensures u == v
  {
    if i :| UsageAt(chunks, i, u) {
      if j :| UsageAt(chunks, j, v) {
        assert i == j;
      }
    }
  }

  lemma FinishUnique(chunks: seq<Chunk>, maxTokens: nat, stop: StopReason, i: int, seen: TokensUsage)
    requires LastFinish(chunks, maxTokens, stop) && LastFinishing(chunks, i) && LastUsage(chunks[..i + 1], seen)
    ensures !Unreadable(chunks[i]) && stop == StopGiven(chunks[i], maxTokens, seen)
  {
    hide LastUsage;
    var j, before :| FinishAt(chunks, j, maxTokens, before, stop);
    assert i == j;
    LastUsageUnique(chunks[..i + 1], seen, before);
  }

  /** "stop" is read as length exactly when the completion tokens equal the limit; the other reasons as named. */
  ghost predicate ReadsAs(name: string, atLimit: bool, stop: StopReason) {
    && (stop == Length <==> name == "length" || (name == "stop" && atLimit))
    && (stop == Stop <==> name == "stop" && !atLimit)
    && (stop == ToolCalls <==> name == "tool_calls")
    && (stop == ContentFilter <==> name == "content_filter")
  }

  lemma StopGivenReads(c: Chunk, maxTokens: nat, seen: TokensUsage)
    requires Finishes(c) && !Unreadable(c)
    ensures ReadsAs(c.choice.value.finish, seen.completion == maxTokens, StopGiven(c, maxTokens, seen))
  {
  }

  /**
   How a stream that is read to its end ends: with the last usage seen, and with the
   reason the last finishing chunk names, given the usage seen by then.
   */
  lemma StopOfReading(provider: string, config: CompletionConfig, chunks: seq<Chunk>, s: Stream)
    requires Reading(provider, config, chunks, true, s) && s.complete
    ensures s.events != []
    ensures var done := s.events[|s.events| - 1];
            && done.CompletionDone? && done.provider == provider && done.model == config.model
            && LastUsage(chunks, done.usage)
            && ((forall i :: 0 <= i < |chunks| ==> !Finishes(chunks[i])) ==> done.stop == Stop)
            && (forall i, seen :: LastFinishing(chunks, i) && LastUsage(chunks[..i + 1], seen) ==>
                  ReadsAs(chunks[i].choice.value.finish, seen.completion == config.maxTokens, done.stop))
  {
    var k :| ReadsUpTo(chunks, k) && ReadingOf(provider, config, chunks[..k], true && k == |chunks|, s);
    assert chunks[..k] == chunks;
    var texts, usage, stop :|
      && ReadSoFar(chunks, config.maxTokens, texts, usage, stop)
      && s.events == texts + [CompletionDone(provider, config.model, usage, stop)];
    assert s.events[|s.events| - 1] == CompletionDone(provider, config.model, usage, stop);
    NoFinishStops(chunks, config.maxTokens, stop);
    assert LastFinish(chunks, config.maxTokens, stop);
    hide LastUsage, LastFinish, ReadsAs, StopGiven, ReadsUpTo, ReadingOf, Reading, Finishes;
    forall i, seen | LastFinishing(chunks, i) && LastUsage(chunks[..i + 1], seen)
      ensures Finishes(chunks[i]) && ReadsAs(chunks[i].choice.value.finish, seen.completion == config.maxTokens, stop)
    {
      FinishUnique(chunks, config.maxTokens, stop, i, seen);
      StopGivenReads(chunks[i], config.maxTokens, seen);
    }
  }

  lemma NoFinishStops(chunks: seq<Chunk>, maxTokens: nat, stop: StopReason)
    requires LastFinish(chunks, maxTokens, stop)
    ensures (forall i :: 0 <= i < |chunks| ==> !Finishes(chunks[i])) ==> stop == Stop
  {
  }

  // ---------- The adapter ----------

  class LlmAdapter {
    const provider: string

    constructor (provider: string)
      ensures this.provider == provider
    {
      this.provider := provider;
    }

    method ReadChunks(config: CompletionConfig, chunks: seq<Chunk>, complete: bool) returns (s: Stream)
      ensures Reading(provider, config, chunks, complete, s)
    {
      var usage := TokensUsage(0, 0);
      var stop := Stop;
      var events: seq<Event> := [];
      var i := 0;
      while i < |chunks|
        invariant 0 <= i <= |chunks|
        invariant ReadSoFar(chunks[..i], config.maxTokens, events, usage, stop)
      {
        var chunk := chunks[i];
        assert chunks[..i + 1] == chunks[..i] + [chunk];
        if !Unreadable(chunk) {
          ReadOneMore(chunks[..i], chunk, config.maxTokens, events, usage, stop);
        }
        i := i + 1;
        if chunk.usage.Some? {
          usage := chunk.usage.value;
        }
        if chunk.choice.None? {
          continue;
        }
        var choice := chunk.choice.value;
        if choice.finish != "" {
          if ParseStop(choice.finish).None? {
            CutShort(config, chunks, i - 1, complete, events);
            return Stream(events, false);
          }
          stop := ParseStop(choice.finish).value;
          if stop == Stop && config.maxTokens == usage.completion {
            stop := Length;
          }
        }
        if choice.delta != "" {
          events := events + [TextChunk(choice.delta)];
        }
      }
      s := Stream(events + if complete then [CompletionDone(provider, config.model, usage, stop)] else [], complete);
      assert ReadsUpTo(chunks, |chunks|);
      assert ReadingOf(provider, config, chunks[..|chunks|], complete, s);
    }

    lemma CutShort(config: CompletionConfig, chunks: seq<Chunk>, k: nat, complete: bool, events: seq<Event>)
      requires k < |chunks| && Unreadable(chunks[k])
      requires exists usage, stop :: ReadSoFar(chunks[..k], config.maxTokens, events, usage, stop)
      ensures Reading(provider, config, chunks, complete, Stream(events, false))
    {
      assert forall i :: 0 <= i < k ==> chunks[..k][i] == chunks[i];
      assert ReadsUpTo(chunks, k);
      assert events + [] == events;
      assert ReadingOf(provider, config, chunks[..k], false, Stream(events, false));
    }

    /**
     One call. The streaming API is used only when preferred and no output schema is
     set. Whatever the provider does, the result obeys the port contract and names the
     configured provider and model; a configuration for another provider raises before
     any event.
     */
    method Acompletion(config: CompletionConfig, prefersStream: bool, p: Provider) returns (s: Stream)
      ensures Conforming(s) && Keyed(s.events, config)
      ensures config.provider != provider ==> s == Stream([], false)
      ensures config.provider == provider && !(prefersStream && !config.structured) ==>
                match p.response
                case None => s == Stream([], false)
                case Some(r) =>
                  var stop := if r.finish == "" then Some(Stop) else ParseStop(r.finish);
                  && Texts(s.events) == [r.text]
                  && (s.complete <==> stop.Some?)
                  && (s.complete ==>
                        |s.events| == 2 && s.events[1] == CompletionDone(provider, config.model, r.usage, stop.value))
      ensures config.provider == provider && prefersStream && !config.structured ==>
                Reading(provider, config, p.chunks, p.complete, s)
    {
      if config.provider != provider {
        return Stream([], false);
      }
      if prefersStream && !config.structured {
        s := ReadChunks(config, p.chunks, p.complete);
        ReadingConforms(provider, config, p.chunks, p.complete, s);
        return;
      }
      if p.response.None? {
        return Stream([], false);
      }
      var r := p.response.value;
      var events := [TextChunk(r.text)];
      TextsSnoc([], TextChunk(r.text));
      var stop := if r.finish == "" then Some(Stop) else ParseStop(r.finish);
      if stop.None? {
        return Stream(events, false);
      }
      var done := CompletionDone(provider, config.model, r.usage, stop.value);
      TextsSnoc(events, done);
      s := Stream(events + [done], true);
    }
  }
}
