/**
 The use cases that put sessions together and drive them
 (server/application/domain/service/), and the frames a client sees of a turn
 (`_stream_response` in server/adapter/inbound/web/ws_handler.py).
 */
module Services {
  import opened Wrappers
  import opened UsageStats
  import opened Billing
  import opened LlmPort
  import LlmAdapter
  import opened StatsDecorator
  import opened Records
  import opened ContextStrategy
  import opened Conversation
  import opened Session
  import opened Persistence

  datatype ServiceError =
    | UnknownDefaultStrategy
    | CannotBuild(build: BuildError)
    | Repository(repository: RepositoryError)

  datatype StrategyDefaults = StrategyDefaults(config: CompletionConfig, metadata: Metadata)

  /** New dictionary objects, an outer one and one per provider, for stored statistics. */
  method LoadTables(s: Stats) returns (data: ProviderTables)
    ensures fresh(data) && fresh(data.tables.Values)
    ensures OwnTables(data.tables) && RowsOf(data.tables) == s
  {
    var tables: map<string, ModelTable> := map[];
    var todo := s.Keys;
    while todo != {}
      invariant todo <= s.Keys
      invariant tables.Keys == s.Keys - todo
      invariant OwnTables(tables)
      invariant forall p :: p in tables ==> fresh(tables[p])
      invariant forall p :: p in tables ==> tables[p].rows == s[p]
      decreases |todo|
    {
      var p :| p in todo;
      var table := new ModelTable(p, s[p]);
      tables := tables[p := table];
      todo := todo - {p};
    }
    data := new ProviderTables(tables);
  }

  /** A session from a state: both decorators share one new statistics object. */
  method Restore(t: Pricing, state: SessionState) returns (r: Result<Session, BuildError>)
    requires ValidPricing(t)
    ensures r.Success? <==> Revived(t, state).Success?
    ensures r.Failure? ==> r.error == Revived(t, state).error
    ensures r.Success? ==> && fresh(r.value) && fresh(r.value.strategy) && fresh(r.value.usage.Repr)
                           && r.value.Valid() && r.value.View() == Revived(t, state).value
  {
    var info := state.info;
    var built := Build(info.strategyType, info.metadata);
    BuildSucceedsIff(info.strategyType, info.metadata);
    if built.Failure? {
      return Failure(built.error);
    }
    var data := LoadTables(GetOr(info.statistics, map[]));
    var usage := new SessionUsageStats(data);
    var strategyBilling := BillingFor(t, info.strategyConfig.provider, info.strategyConfig.model);
    var strategyLlm := new LlmStatsDecorator(usage, strategyBilling);
    var strategy := new Strategy(built.value.0, built.value.1, state.records, Some(strategyLlm), info.strategyConfig);
    var billing := BillingFor(t, info.config.provider, info.config.model);
    var session := new Session(info.id, info.createdAt, info.config, billing, usage, strategy);
    return Success(session);
  }

  /** `CompletionConfig.__copy__`: a copy does not keep the prompt path. */
  function Copied(c: CompletionConfig): CompletionConfig {
    c.(systemPromptPath := None)
  }

  /** The state of a session that has just been created. */
  function Initial(id: string, now: nat, config: CompletionConfig, strategyType: string, defaults: StrategyDefaults)
    : SessionState
  {
    SessionState(SessionInfo(id, now, Copied(config), None, strategyType, defaults.metadata, Copied(defaults.config)),
                 [])
  }

  /** Creates and stores a session; on any error storage is as before. */
  method CreateSession(repo: SessionFileAdapter, t: Pricing, id: string, now: nat, config: CompletionConfig,
                       defaults: map<string, StrategyDefaults>, strategyType: string)
    returns (r: Result<Session, ServiceError>)
    requires ValidPricing(t)
    modifies repo
    ensures r.Failure? ==> repo.dirs == old(repo.dirs)
    ensures r.Success? <==> strategyType in defaults && id !in old(repo.dirs)
                            && Revived(t, Initial(id, now, config, strategyType, defaults[strategyType])).Success?
    ensures r.Success? ==> && r.value.Valid() && fresh(r.value.usage.Repr)
                           && r.value.View()
                                == Revived(t, Initial(id, now, config, strategyType, defaults[strategyType])).value
                           && repo.dirs == old(repo.dirs)[id := Written(repo.digest, map[], r.value.View())]
  {
    if strategyType !in defaults {
      return Failure(UnknownDefaultStrategy);
    }
    var restored := Restore(t, Initial(id, now, config, strategyType, defaults[strategyType]));
    if restored.Failure? {
      return Failure(CannotBuild(restored.error));
    }
    var session := restored.value;
    var state := session.State();
    var stored := repo.CreateSession(state);
    if stored.Failure? {
      return Failure(Repository(stored.error));
    }
    return Success(session);
  }

  /**
   A new session has the given identity and both configurations without their prompt
   paths, prices from the table, the strategy the metadata describe, and nothing else.
   */
  lemma CreatedIs(t: Pricing, id: string, now: nat, config: CompletionConfig, strategyType: string,
                  defaults: StrategyDefaults)
    requires Revived(t, Initial(id, now, config, strategyType, defaults)).Success?
    ensures var c := Revived(t, Initial(id, now, config, strategyType, defaults)).value;
            && c.id == id && c.createdAt == now
            && c.config == config.(systemPromptPath := None)
            && c.strategyConfig == defaults.config.(systemPromptPath := None)
            && c.billing == BillingFor(t, config.provider, config.model)
            && c.strategyMeter == Metered(BillingFor(t, defaults.config.provider, defaults.config.model))
            && TypeName(c.kind) == strategyType
            && Build(strategyType, defaults.metadata) == Success((c.kind, c.summary))
            && c.records == [] && c.lifecycle == map[] && c.current == map[]
  {
    BuildSucceedsIff(strategyType, defaults.metadata);
  }

  /** A new session's billing and paths are in order, so every restart theorem applies to it. */
  lemma CreatedIsWired(t: Pricing, digest: string -> string, id: string, now: nat, config: CompletionConfig,
                       strategyType: string, defaults: StrategyDefaults)
    requires ValidPricing(t) && Revived(t, Initial(id, now, config, strategyType, defaults)).Success?
    ensures Wired(t, digest, Revived(t, Initial(id, now, config, strategyType, defaults)).value)
  {
    BuildSucceedsIff(strategyType, defaults.metadata);
  }

  method GetSession(repo: SessionFileAdapter, t: Pricing, id: string) returns (r: Result<Session, ServiceError>)
    requires ValidPricing(t)
    ensures r.Success? <==> id in repo.dirs && Reloaded(t, repo.dirs[id]).Some?
    ensures r.Success? ==> && r.value.Valid() && fresh(r.value.usage.Repr)
                           && r.value.View() == Reloaded(t, repo.dirs[id]).value
  {
    var state := repo.GetSession(id);
    if state.Failure? {
      return Failure(Repository(state.error));
    }
    var restored := Restore(t, state.value);
    if restored.Failure? {
      return Failure(CannotBuild(restored.error));
    }
    return Success(restored.value);
  }

  // ---------- Sending a message ----------

  datatype Frame =
    | ChunkFrame(delta: string)
    | DoneFrame(provider: string, model: string, stats: ModelStats, stop: StopReason)

  ghost predicate AllDone(frames: seq<Frame>, stats: Stats, stop: StopReason) {
    forall f :: f in frames ==> f.DoneFrame? && f.stop == stop && Lookup(stats, f.provider, f.model) == Some(f.stats)
  }

  ghost predicate OncePerPair(frames: seq<Frame>)
    requires forall f :: f in frames ==> f.DoneFrame?
  {
    forall i, j :: 0 <= i < j < |frames| ==>
      frames[i].provider != frames[j].provider || frames[i].model != frames[j].model
  }

  /** Exactly one frame per (provider, model) pair of the done event, in some order. */
  ghost predicate ReportsDone(frames: seq<Frame>, done: Done) {
    var stats := GetOr(done.statistics, map[]);
    && AllDone(frames, stats, done.stop) && OncePerPair(frames)
    && forall p, m :: Lookup(stats, p, m).Some? ==> DoneFrame(p, m, stats[p][m], done.stop) in frames
  }

  method DoneFrames(done: Done) returns (frames: seq<Frame>)
    ensures ReportsDone(frames, done)
  {
    var stats := GetOr(done.statistics, map[]);
    frames := [];
    var providers := stats.Keys;
    while providers != {}
      invariant providers <= stats.Keys
      invariant AllDone(frames, stats, done.stop) && OncePerPair(frames)
      invariant forall f :: f in frames ==> f.provider !in providers
      invariant forall p, m :: p !in providers && Lookup(stats, p, m).Some? ==>
                  DoneFrame(p, m, stats[p][m], done.stop) in frames
      decreases |providers|
    {
      var p :| p in providers;
      ghost var before := frames;
      var models := stats[p].Keys;
      while models != {}
        invariant models <= stats[p].Keys && before <= frames
        invariant AllDone(frames, stats, done.stop) && OncePerPair(frames)
        invariant forall f :: f in frames ==> f.provider !in providers || (f.provider == p && f.model !in models)
        invariant forall m :: m in stats[p] && m !in models ==> DoneFrame(p, m, stats[p][m], done.stop) in frames
        decreases |models|
      {
        var m :| m in models;
        frames := frames + [DoneFrame(p, m, stats[p][m], done.stop)];
        models := models - {m};
      }
      providers := providers - {p};
    }
  }

  /** The frames of a turn: its chunks one for one, then the frames of its done event, if any. */
  ghost predicate FramesOf(frames: seq<Frame>, seen: Observation) {
    var n := |seen.chunks|;
    && n <= |frames|
    && frames[..n] == Chunked(seen.chunks)
    && (seen.done.None? ==> |frames| == n)
    && (seen.done.Some? ==> ReportsDone(frames[n..], seen.done.value))
  }

  /**
   One stream task: the turn's frames go out as they come; the session is written only
   after the done event has been taken (`drained`) and only if its directory still exists.
   */
  method StreamResponse(session: Session, repo: SessionFileAdapter, s: Script, drained: bool)
    returns (frames: seq<Frame>, saved: bool)
    requires session.Valid() && repo !in session.usage.Repr
    modifies session.strategy, session.usage.Repr, repo
    ensures session.Valid()
    ensures var turn := Play(old(session.View()), s);
            && session.View() == turn.conv
            && saved == (turn.seen.done.Some? && drained && session.id in old(repo.dirs))
            && repo.dirs == (if saved then
                               old(repo.dirs)[session.id := Written(repo.digest, old(repo.dirs)[session.id], turn.conv)]
                             else old(repo.dirs))
            && FramesOf(frames, turn.seen)
    ensures Received(frames) == Flatten(Texts(s.main.events))
  {
    hide SessionUsageStats.Valid, Play, Written;
    EndToEndText(session.View(), s);
    var seen := session.Acompletion(s);
    ghost var before := old(session.View());
    assert seen == Play(before, s).seen;
    frames := Chunked(seen.chunks);
    saved := false;
    if seen.done.Some? {
      var last := DoneFrames(seen.done.value);
      frames := frames + last;
      if drained {
        var state := session.State();
        var r := repo.UpdateSession(state);
        saved := r.Success?;
      }
    }
    assert FramesOf(frames, seen);
  }

  function Chunked(chunks: seq<string>): seq<Frame> {
    seq(|chunks|, i requires 0 <= i < |chunks| => ChunkFrame(chunks[i]))
  }

  /** The text a client puts together from its chunk frames. */
  function Received(frames: seq<Frame>): string {
    if frames == [] then "" else
      var n := |frames| - 1;
      Received(frames[..n]) + if frames[n].ChunkFrame? then frames[n].delta else ""
  }

  lemma {:induction false} ReceivedIsSent(chunks: seq<string>)
    ensures Received(Chunked(chunks)) == Flatten(chunks)
  {
    if chunks != [] {
      var n := |chunks| - 1;
      assert Chunked(chunks)[..n] == Chunked(chunks[..n]);
      ReceivedIsSent(chunks[..n]);
    }
  }

  lemma {:induction false} DoneFramesAddNoText(frames: seq<Frame>, done: seq<Frame>)
    requires forall f :: f in done ==> f.DoneFrame?
    ensures Received(frames + done) == Received(frames)
  {
    if done == [] {
      assert frames + done == frames;
    } else {
      var n := |done| - 1;
      assert (frames + done)[..|frames + done| - 1] == frames + done[..n];
      assert done[n] in done;
      DoneFramesAddNoText(frames, done[..n]);
    }
  }

  /** The frames carry the turn's chunks and no other text. */
  lemma FramesCarryChunks(frames: seq<Frame>, seen: Observation)
    requires FramesOf(frames, seen)
    ensures Received(frames) == Flatten(seen.chunks)
  {
    var n := |seen.chunks|;
    assert frames == frames[..n] + frames[n..];
    ReceivedIsSent(seen.chunks);
    if seen.done.Some? {
      DoneFramesAddNoText(frames[..n], frames[n..]);
    } else {
      assert frames[..n] == frames;
    }
  }

  /**
   End to end: the text of a turn's frames is the text of the model's events; in a
   completed turn it is also the stored answer, and an abandoned turn stores no part of
   an answer.
   */
  lemma EndToEndText(c: Conv, s: Script)
    requires c.Valid()
    ensures var turn := Play(c, s);
            forall frames :: FramesOf(frames, turn.seen) ==>
              && Received(frames) == Flatten(Texts(s.main.events))
              && (s.main.complete ==>
                    && turn.conv.records != []
                    && turn.conv.records[|turn.conv.records| - 1].message == Message(Assistant, Received(frames)))
              && (!s.main.complete ==> turn.conv.records == Append(c.records, s.queryId, Message(User, s.prompt)))
  {
    TextConserved(c, s);
    forall frames | FramesOf(frames, Play(c, s).seen) ensures Received(frames) == Flatten(Play(c, s).seen.chunks) {
      FramesCarryChunks(frames, Play(c, s).seen);
    }
  }

  /**
   From the provider's chunks to the client and the disk: when a streaming answer is
   read to its end, the client's text and the stored answer are the concatenated deltas.
   */
  lemma ProviderTextReachesClient(c: Conv, s: Script, provider: string, chunks: seq<LlmAdapter.Chunk>, complete: bool,
                                  frames: seq<Frame>)
    requires c.Valid() && LlmAdapter.Reading(provider, c.config, chunks, complete, s.main)
    requires FramesOf(frames, Play(c, s).seen)
    ensures var turn := Play(c, s);
            var text := Received(frames);
            && (exists k :: LlmAdapter.ReadsUpTo(chunks, k) && text == Flatten(LlmAdapter.Deltas(chunks[..k])))
            && (turn.seen.done.Some? ==>
                  && |turn.conv.records| == |c.records| + 2
                  && text == Flatten(LlmAdapter.Deltas(chunks))
                  && Message(Assistant, text) == turn.conv.records[|c.records| + 1].message)
  {
    var k := LlmAdapter.ReadingText(provider, c.config, chunks, complete, s.main);
    EndToEndText(c, s);
    TextConserved(c, s);
    assert Received(frames) == Flatten(LlmAdapter.Deltas(chunks[..k]));
    if s.main.complete {
      assert chunks[..k] == chunks;
    }
  }

  /**
   Cut short anywhere, by the provider, an unreadable chunk or the client walking away
   from what the adapter yields, a turn has sent a prefix of the provider's text.
   */
  lemma CutTextIsPrefix(c: Conv, s: Script, provider: string, chunks: seq<LlmAdapter.Chunk>, complete: bool,
                        whole: Stream, frames: seq<Frame>)
    requires c.Valid() && LlmAdapter.Reading(provider, c.config, chunks, complete, whole)
    requires s.main.events <= whole.events && FramesOf(frames, Play(c, s).seen)
    ensures Received(frames) <= Flatten(LlmAdapter.Deltas(chunks))
  {
    hide Play, FramesOf, LlmAdapter.Reading, Append, Received, Flatten, LlmAdapter.Deltas, Texts;
    ReadTextIsPrefix(c.config, provider, chunks, complete, whole);
    FramesCarryChunks(frames, Play(c, s).seen);
    TextConserved(c, s);
    var rest := whole.events[|s.main.events|..];
    assert whole.events == s.main.events + rest;
    TextsPrefix(s.main.events, rest);
  }

  lemma ReadTextIsPrefix(config: CompletionConfig, provider: string, chunks: seq<LlmAdapter.Chunk>, complete: bool,
                         s: Stream)
    requires LlmAdapter.Reading(provider, config, chunks, complete, s)
    ensures Flatten(Texts(s.events)) <= Flatten(LlmAdapter.Deltas(chunks))
  {
    var k := LlmAdapter.ReadingText(provider, config, chunks, complete, s);
    assert chunks == chunks[..k] + chunks[k..];
    DeltasConcat(chunks[..k], chunks[k..]);
    FlattenConcat(LlmAdapter.Deltas(chunks[..k]), LlmAdapter.Deltas(chunks[k..]));
  }

  lemma {:induction false} DeltasConcat(a: seq<LlmAdapter.Chunk>, b: seq<LlmAdapter.Chunk>)
    ensures LlmAdapter.Deltas(a + b) == LlmAdapter.Deltas(a) + LlmAdapter.Deltas(b)
  {
    if b == [] {
      assert a + b == a;
    } else {
      var n := |b| - 1;
      assert a + b == (a + b[..n]) + [b[n]];
      DeltasConcat(a, b[..n]);
      LlmAdapter.DeltasSnoc(a + b[..n], b[n]);
    }
  }
}
