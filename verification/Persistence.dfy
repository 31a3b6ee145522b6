/**
 The session directory (server/adapter/outbound/persistence/session_file_adapter.py and
 server/common/config_loader.py): what is written, what is read back, and exactly when a
 restart loses nothing.

 A directory is a map from file names to contents and every write is all-or-nothing.
 JSON files are kept as the values they encode; prompt files are text, read back with
 Python's newline translation.
 */
module Persistence {
  import opened Wrappers
  import opened UsageStats
  import opened Billing
  import opened LlmPort
  import opened StatsDecorator
  import opened Records
  import opened ContextStrategy
  import opened Conversation

  datatype SessionInfo = SessionInfo(
    id: string, createdAt: nat, config: CompletionConfig, statistics: Option<Stats>,
    strategyType: string, metadata: Metadata, strategyConfig: CompletionConfig)

  datatype File = Info(info: SessionInfo) | History(records: seq<Record>) | Text(text: string)

  type Directory = map<string, File>

  const SESSION_INFO := "session_info"
  const SESSION_MESSAGES := "session_messages"

  datatype SessionState = SessionState(info: SessionInfo, records: seq<Record>)

  datatype RepositoryError = AlreadyExists | NotFound | PromptUnreadable

  // ---------- Prompt files ----------

  /** Reading in text mode turns every carriage return, alone or before a newline, into a newline. */
  function ReadText(s: string): (r: string)
    ensures '\r' !in r
  {
    if s == "" then ""
    else if s[0] == '\r' then "\n" + ReadText(if |s| > 1 && s[1] == '\n' then s[2..] else s[1..])
    else [s[0]] + ReadText(s[1..])
  }

  lemma {:induction false} ReadTextExactIff(s: string)
    ensures ReadText(s) == s <==> '\r' !in s
  {
    if '\r' !in s && s != "" {
      ReadTextExactIff(s[1..]);
      assert s == [s[0]] + s[1..];
    }
  }

  lemma {:induction false} ReadTextConcat(a: string, b: string)
    requires a != "" && b != "" ==> a[|a| - 1] != '\r' || b[0] != '\n'
    ensures ReadText(a + b) == ReadText(a) + ReadText(b)
    decreases |a|
  {
    if a == "" {
      assert a + b == b;
    } else {
      var k := if a[0] == '\r' && |a| > 1 && a[1] == '\n' then 2 else 1;
      assert (a + b)[k..] == a[k..] + b;
      ReadTextConcat(a[k..], b);
    }
  }

  /**
   Newline translation in full: the three line endings read as a newline, any other
   character as itself, and a text piece by piece as long as no line ending is cut.
   */
  lemma ReadTextIsTranslation(a: string, b: string, x: char)
    ensures ReadText("\r\n") == "\n" && ReadText("\r") == "\n" && ReadText("") == ""
    ensures x != '\r' ==> ReadText([x]) == [x]
    ensures a == "" || b == "" || a[|a| - 1] != '\r' || b[0] != '\n' ==> ReadText(a + b) == ReadText(a) + ReadText(b)
  {
    assert "\r\n"[2..] == "" && "\r"[1..] == "" && [x][1..] == "";
    if a == "" || b == "" || a[|a| - 1] != '\r' || b[0] != '\n' {
      ReadTextConcat(a, b);
    }
  }

  function DigestName(digest: string -> string, prompt: string): string {
    "system_prompt_" + digest(prompt) + ".txt"
  }

  predicate HasPrompt(c: CompletionConfig) {
    c.systemPrompt.Some? && c.systemPrompt.value != ""
  }

  /** The file a configuration's prompt goes to: its recorded path, or the digest name. */
  function PromptFile(digest: string -> string, c: CompletionConfig): string
    requires HasPrompt(c)
  {
    if c.systemPromptPath.Some? && c.systemPromptPath.value != "" then c.systemPromptPath.value
    else DigestName(digest, c.systemPrompt.value)
  }

  /** `serialize_completion_config`: the prompt moves to a file, the configuration keeps the name. */
  function Serialized(digest: string -> string, c: CompletionConfig): CompletionConfig {
    if HasPrompt(c) then c.(systemPrompt := None, systemPromptPath := Some(PromptFile(digest, c))) else c
  }

  function WithPrompt(digest: string -> string, d: Directory, c: CompletionConfig): Directory {
    if HasPrompt(c) then d[PromptFile(digest, c) := Text(c.systemPrompt.value)] else d
  }

  /** `resolve_completion_config`: a recorded path is read relative to the directory. */
  function Resolved(d: Directory, c: CompletionConfig): Result<CompletionConfig, RepositoryError> {
    if c.systemPromptPath.Some? && c.systemPromptPath.value != "" then
      var name := c.systemPromptPath.value;
      if name in d && d[name].Text? then Success(c.(systemPrompt := Some(ReadText(d[name].text))))
      else Failure(PromptUnreadable)
    else
      Success(c)
  }

  // ---------- Writing and reading a session ----------

  function InfoOf(digest: string -> string, c: Conv): SessionInfo {
    SessionInfo(c.id, c.createdAt, Serialized(digest, c.config),
                if c.lifecycle == map[] then None else Some(c.lifecycle),
                TypeName(c.kind), GetMetadata(c.kind, c.summary), Serialized(digest, c.strategyConfig))
  }

  /** The directory after writing a session into it; files of other names stay. */
  function Written(digest: string -> string, d: Directory, c: Conv): Directory {
    WithPrompt(digest, WithPrompt(digest, d, c.config), c.strategyConfig)
      [SESSION_INFO := Info(InfoOf(digest, c))][SESSION_MESSAGES := History(c.records)]
  }

  /** Writing a session replaces its own files and leaves every other file as it was. */
  lemma WritesOnlyItsFiles(digest: string -> string, d: Directory, c: Conv, name: string)
    requires name != SESSION_INFO && name != SESSION_MESSAGES
    requires HasPrompt(c.config) ==> name != PromptFile(digest, c.config)
    requires HasPrompt(c.strategyConfig) ==> name != PromptFile(digest, c.strategyConfig)
    ensures (name in Written(digest, d, c) <==> name in d) && (name in d ==> Written(digest, d, c)[name] == d[name])
  {
  }

  /**
   Where a prompt is stored: in the file its configuration already names, else in a file
   named by its digest, and nowhere else; the stored configuration keeps the name only. A
   configuration without a prompt is stored as it is.
   */
  lemma StoredPrompt(digest: string -> string, d: Directory, c: Conv)
    ensures HasPrompt(c.strategyConfig) ==>
              var stored := InfoOf(digest, c).strategyConfig;
              && stored == c.strategyConfig.(systemPrompt := None, systemPromptPath := stored.systemPromptPath)
              && stored.systemPromptPath.Some? && stored.systemPromptPath.value != ""
              && (c.strategyConfig.systemPromptPath.Some? && c.strategyConfig.systemPromptPath.value != "" ==>
                    stored.systemPromptPath == c.strategyConfig.systemPromptPath)
              && var name, w := stored.systemPromptPath.value, Written(digest, d, c);
                 name != SESSION_INFO && name != SESSION_MESSAGES ==>
                   name in w && w[name] == Text(c.strategyConfig.systemPrompt.value)
    ensures HasPrompt(c.config) ==>
              var stored := InfoOf(digest, c).config;
              && stored == c.config.(systemPrompt := None, systemPromptPath := stored.systemPromptPath)
              && stored.systemPromptPath.Some? && stored.systemPromptPath.value != ""
              && (c.config.systemPromptPath.Some? && c.config.systemPromptPath.value != "" ==>
                    stored.systemPromptPath == c.config.systemPromptPath)
    ensures !HasPrompt(c.config) ==> InfoOf(digest, c).config == c.config
    ensures !HasPrompt(c.strategyConfig) ==> InfoOf(digest, c).strategyConfig == c.strategyConfig
  {
    if HasPrompt(c.config) {
      assert |DigestName(digest, c.config.systemPrompt.value)| > 0;
    }
    if HasPrompt(c.strategyConfig) {
      assert |DigestName(digest, c.strategyConfig.systemPrompt.value)| > 0;
    }
  }

  function ReadBack(d: Directory): Result<SessionState, RepositoryError> {
    if SESSION_INFO !in d || !d[SESSION_INFO].Info? then
      Failure(NotFound)
    else
      var info := d[SESSION_INFO].info;
      match Resolved(d, info.config)
      case Failure(e) => Failure(e)
      case Success(config) =>
        match Resolved(d, info.strategyConfig)
        case Failure(e) => Failure(e)
        case Success(strategyConfig) =>
          if SESSION_MESSAGES !in d || !d[SESSION_MESSAGES].History? then
            Failure(NotFound)
          else
            var resolved := info.(config := config, strategyConfig := strategyConfig);
            Success(SessionState(resolved, d[SESSION_MESSAGES].records))
  }

  /** A live session from its stored state: new billing from the table, an empty current invocation. */
  function Revived(t: Pricing, s: SessionState): Result<Conv, BuildError> {
    match Build(s.info.strategyType, s.info.metadata)
    case Failure(e) => Failure(e)
    case Success(strategy) =>
      Success(Conv(s.info.id, s.info.createdAt,
                   s.info.config, BillingFor(t, s.info.config.provider, s.info.config.model),
                   s.info.strategyConfig,
                   Metered(BillingFor(t, s.info.strategyConfig.provider, s.info.strategyConfig.model)),
                   strategy.0, strategy.1, s.records, GetOr(s.info.statistics, map[]), map[]))
  }

  /** A restart: read the directory back and rebuild. */
  function Reloaded(t: Pricing, d: Directory): Option<Conv> {
    var state := ReadBack(d);
    if state.Failure? then None else
      var c := Revived(t, state.value);
      if c.Failure? then None else Some(c.value)
  }

  // ---------- When a restart loses nothing ----------

  /** The path is unset, or names the configuration's own prompt. */
  ghost predicate OwnPath(digest: string -> string, c: CompletionConfig) {
    || c.systemPromptPath.None?
    || c.systemPromptPath.value == ""
    || (HasPrompt(c) && c.systemPromptPath.value == DigestName(digest, c.systemPrompt.value))
  }

  /** The session's billing comes from the table in use and its prompt paths are its own. */
  ghost predicate Wired(t: Pricing, digest: string -> string, c: Conv) {
    && ValidPricing(t)
    && c.Valid()
    && c.billing == BillingFor(t, c.config.provider, c.config.model)
    && c.strategyMeter == Metered(BillingFor(t, c.strategyConfig.provider, c.strategyConfig.model))
    && OwnPath(digest, c.config)
    && OwnPath(digest, c.strategyConfig)
  }

  ghost predicate PlainPrompt(c: CompletionConfig) {
    HasPrompt(c) ==> '\r' !in c.systemPrompt.value
  }

  /**
   No prompt holds a carriage return, and if the two prompts of the session have the
   same digest they are the same prompt.
   */
  ghost predicate PromptsSafe(digest: string -> string, c: Conv) {
    && PlainPrompt(c.config)
    && PlainPrompt(c.strategyConfig)
    && (HasPrompt(c.config) && HasPrompt(c.strategyConfig)
        && digest(c.config.systemPrompt.value) == digest(c.strategyConfig.systemPrompt.value)
        ==> c.config.systemPrompt == c.strategyConfig.systemPrompt)
  }

  lemma DigestNameInjective(digest: string -> string, p: string, q: string)
    ensures DigestName(digest, p) == DigestName(digest, q) <==> digest(p) == digest(q)
    ensures DigestName(digest, p) != SESSION_INFO && DigestName(digest, p) != SESSION_MESSAGES
  {
    var a, b := DigestName(digest, p), DigestName(digest, q);
    assert a[1] == 'y' && SESSION_INFO[1] == 'e' && SESSION_MESSAGES[1] == 'e';
    assert |a| == 14 + |digest(p)| + 4 && |b| == 14 + |digest(q)| + 4;
    if a == b {
      assert digest(p) == a[14..|a| - 4] == b[14..|b| - 4] == digest(q);
    }
  }

  lemma OwnPathFile(digest: string -> string, c: CompletionConfig)
    requires OwnPath(digest, c) && HasPrompt(c)
    ensures PromptFile(digest, c) == DigestName(digest, c.systemPrompt.value)
    ensures PromptFile(digest, c) != ""
    ensures PromptFile(digest, c) != SESSION_INFO && PromptFile(digest, c) != SESSION_MESSAGES
  {
    DigestNameInjective(digest, c.systemPrompt.value, c.systemPrompt.value);
  }

  /** What a configuration comes back as from a directory holding its prompt file. */
  lemma ResolveSerialized(digest: string -> string, d: Directory, c: CompletionConfig, text: string)
    requires OwnPath(digest, c)
    requires HasPrompt(c) ==> PromptFile(digest, c) in d && d[PromptFile(digest, c)] == Text(text)
    ensures var r := Resolved(d, Serialized(digest, c));
            && r.Success?
            && (!HasPrompt(c) ==> r.value == c)
            && (HasPrompt(c) ==> r.value == c.(systemPrompt := Some(ReadText(text)),
                                               systemPromptPath := Some(PromptFile(digest, c))))
  {
    if HasPrompt(c) {
      OwnPathFile(digest, c);
    }
  }

  function ErasePrompts(info: SessionInfo): SessionInfo {
    info.(config := info.config.(systemPrompt := None), strategyConfig := info.strategyConfig.(systemPrompt := None))
  }

  /** Everything but the prompts comes back as it was written; what the prompts come back as, `ReloadedIs` says. */
  lemma ReadsWhatWasWritten(digest: string -> string, d: Directory, c: Conv)
    requires OwnPath(digest, c.config) && OwnPath(digest, c.strategyConfig)
    ensures var r := ReadBack(Written(digest, d, c));
            && r.Success?
            && r.value.records == c.records
            && ErasePrompts(r.value.info) == ErasePrompts(InfoOf(digest, c))
  {
    var w := Written(digest, d, c);
    if HasPrompt(c.config) {
      OwnPathFile(digest, c.config);
    }
    if HasPrompt(c.strategyConfig) {
      OwnPathFile(digest, c.strategyConfig);
    }
    var shared := HasPrompt(c.config) && HasPrompt(c.strategyConfig)
                  && PromptFile(digest, c.config) == PromptFile(digest, c.strategyConfig);
    ResolveSerialized(digest, w, c.config,
                      if shared then c.strategyConfig.systemPrompt.value else GetOr(c.config.systemPrompt, ""));
    ResolveSerialized(digest, w, c.strategyConfig, GetOr(c.strategyConfig.systemPrompt, ""));
  }

  /** Saving and reloading always succeeds; this is the session that comes back. */
  lemma ReloadedIs(t: Pricing, digest: string -> string, d: Directory, c: Conv)
    requires Wired(t, digest, c)
    ensures var shared := HasPrompt(c.config) && HasPrompt(c.strategyConfig)
                          && PromptFile(digest, c.config) == PromptFile(digest, c.strategyConfig);
            var main := if !HasPrompt(c.config) then c.config else
                          c.config.(systemPrompt := Some(ReadText(if shared then c.strategyConfig.systemPrompt.value
                                                                  else c.config.systemPrompt.value)),
                                    systemPromptPath := Some(PromptFile(digest, c.config)));
            var own := if !HasPrompt(c.strategyConfig) then c.strategyConfig else
                         c.strategyConfig.(systemPrompt := Some(ReadText(c.strategyConfig.systemPrompt.value)),
                                           systemPromptPath := Some(PromptFile(digest, c.strategyConfig)));
            Reloaded(t, Written(digest, d, c)) == Some(c.(current := map[], config := main, strategyConfig := own))
  {
    hide ReadText, Written, ReadBack, Revived, Resolved, Serialized, OwnPath, InfoOf;
    var shared := HasPrompt(c.config) && HasPrompt(c.strategyConfig)
                  && PromptFile(digest, c.config) == PromptFile(digest, c.strategyConfig);
    var main := if !HasPrompt(c.config) then c.config else
                  c.config.(systemPrompt := Some(ReadText(if shared then c.strategyConfig.systemPrompt.value
                                                          else c.config.systemPrompt.value)),
                            systemPromptPath := Some(PromptFile(digest, c.config)));
    var own := if !HasPrompt(c.strategyConfig) then c.strategyConfig else
                 c.strategyConfig.(systemPrompt := Some(ReadText(c.strategyConfig.systemPrompt.value)),
                                   systemPromptPath := Some(PromptFile(digest, c.strategyConfig)));
    PromptsReadBack(digest, d, c);
    ReadBackIs(digest, d, c, main, own);
    RevivedIs(t, digest, c, main, own);
  }

  /** Both prompt files are in place; where they are the same file, the strategy's prompt is in it. */
  lemma PromptsReadBack(digest: string -> string, d: Directory, c: Conv)
    requires OwnPath(digest, c.config) && OwnPath(digest, c.strategyConfig)
    ensures var shared := HasPrompt(c.config) && HasPrompt(c.strategyConfig)
                          && PromptFile(digest, c.config) == PromptFile(digest, c.strategyConfig);
            && Resolved(Written(digest, d, c), Serialized(digest, c.config))
               == Success(if !HasPrompt(c.config) then c.config else
                            c.config.(systemPrompt := Some(ReadText(if shared then c.strategyConfig.systemPrompt.value
                                                                    else c.config.systemPrompt.value)),
                                      systemPromptPath := Some(PromptFile(digest, c.config))))
            && Resolved(Written(digest, d, c), Serialized(digest, c.strategyConfig))
               == Success(if !HasPrompt(c.strategyConfig) then c.strategyConfig else
                            c.strategyConfig.(systemPrompt := Some(ReadText(c.strategyConfig.systemPrompt.value)),
                                              systemPromptPath := Some(PromptFile(digest, c.strategyConfig))))
  {
    hide ReadText;
    var w := Written(digest, d, c);
    if HasPrompt(c.config) {
      OwnPathFile(digest, c.config);
    }
    if HasPrompt(c.strategyConfig) {
      OwnPathFile(digest, c.strategyConfig);
    }
    hide DigestName;
    var shared := HasPrompt(c.config) && HasPrompt(c.strategyConfig)
                  && PromptFile(digest, c.config) == PromptFile(digest, c.strategyConfig);
    var mainText := if shared then c.strategyConfig.systemPrompt.value else GetOr(c.config.systemPrompt, "");
    ResolveSerialized(digest, w, c.config, mainText);
    ResolveSerialized(digest, w, c.strategyConfig, GetOr(c.strategyConfig.systemPrompt, ""));
  }

  lemma ReadBackIs(digest: string -> string, d: Directory, c: Conv, main: CompletionConfig, own: CompletionConfig)
    requires Resolved(Written(digest, d, c), Serialized(digest, c.config)) == Success(main)
    requires Resolved(Written(digest, d, c), Serialized(digest, c.strategyConfig)) == Success(own)
    ensures ReadBack(Written(digest, d, c))
         == Success(SessionState(InfoOf(digest, c).(config := main, strategyConfig := own), c.records))
  {
    hide Resolved, Serialized, WithPrompt;
    assert SESSION_INFO[8] == 'i' && SESSION_MESSAGES[8] == 'm';
  }

  lemma RevivedIs(t: Pricing, digest: string -> string, c: Conv, main: CompletionConfig, own: CompletionConfig)
    requires Wired(t, digest, c)
    requires main.provider == c.config.provider && main.model == c.config.model
    requires own.provider == c.strategyConfig.provider && own.model == c.strategyConfig.model
    ensures Revived(t, SessionState(InfoOf(digest, c).(config := main, strategyConfig := own), c.records))
         == Success(c.(current := map[], config := main, strategyConfig := own))
  {
    BuildInvertsMetadata(c.kind, c.summary);
  }

  /**
   A restart gives back the live session, up to prompt file names and the statistics of
   the last invocation, if and only if its prompts are safe.
   */
  lemma RestartFaithfulIff(t: Pricing, digest: string -> string, d: Directory, c: Conv)
    requires Wired(t, digest, c)
    ensures Reloaded(t, Written(digest, d, c)).Some?
    ensures Erase(Reloaded(t, Written(digest, d, c)).value) == Erase(c) <==> PromptsSafe(digest, c)
  {
    ReloadedIs(t, digest, d, c);
    if HasPrompt(c.config) {
      OwnPathFile(digest, c.config);
      ReadTextExactIff(c.config.systemPrompt.value);
    }
    if HasPrompt(c.strategyConfig) {
      OwnPathFile(digest, c.strategyConfig);
      ReadTextExactIff(c.strategyConfig.systemPrompt.value);
      if HasPrompt(c.config) {
        DigestNameInjective(digest, c.config.systemPrompt.value, c.strategyConfig.systemPrompt.value);
      }
    }
  }

  /** The precondition of the next restart holds again after a faithful one. */
  lemma RestartKeepsWired(t: Pricing, digest: string -> string, d: Directory, c: Conv)
    requires Wired(t, digest, c) && PromptsSafe(digest, c)
    ensures var r := Reloaded(t, Written(digest, d, c));
            r.Some? && Wired(t, digest, r.value) && PromptsSafe(digest, r.value) && Erase(r.value) == Erase(c)
  {
    RestartFaithfulIff(t, digest, d, c);
    ReloadedIs(t, digest, d, c);
    var r := Reloaded(t, Written(digest, d, c)).value;
    assert r.config.systemPrompt == Erase(r).config.systemPrompt == c.config.systemPrompt;
    assert r.strategyConfig.systemPrompt == Erase(r).strategyConfig.systemPrompt == c.strategyConfig.systemPrompt;
    if HasPrompt(c.config) {
      OwnPathFile(digest, c.config);
    }
    if HasPrompt(c.strategyConfig) {
      OwnPathFile(digest, c.strategyConfig);
    }
  }

  // ---------- Any number of restarts ----------

  function Turns(scripts: seq<Script>): seq<Op> {
    seq(|scripts|, i requires 0 <= i < |scripts| => Turn(scripts[i]))
  }

  lemma TurnKeepsWired(t: Pricing, digest: string -> string, c: Conv, s: Script)
    requires Wired(t, digest, c) && PromptsSafe(digest, c)
    ensures Wired(t, digest, Play(c, s).conv) && PromptsSafe(digest, Play(c, s).conv)
  {
    hide Play;
    PlayFrame(c, s);
  }

  lemma {:induction false} TurnsKeepWired(t: Pricing, digest: string -> string, c: Conv, scripts: seq<Script>)
    requires Wired(t, digest, c) && PromptsSafe(digest, c)
    ensures ValidOps(Turns(scripts))
    ensures Wired(t, digest, Run(c, Turns(scripts))) && PromptsSafe(digest, Run(c, Turns(scripts)))
  {
    hide Play, PromptsSafe;
    if scripts != [] {
      var n := |scripts| - 1;
      TurnsKeepWired(t, digest, c, scripts[..n]);
      assert Turns(scripts)[..n] == Turns(scripts[..n]);
      TurnKeepsWired(t, digest, Run(c, Turns(scripts[..n])), scripts[n]);
      assert Run(c, Turns(scripts)) == Play(Run(c, Turns(scripts[..n])), scripts[n]).conv;
    }
  }

  /** A session that is saved to its directory and reloaded after every phase, and what its turns show. */
  ghost function WithRestarts(t: Pricing, digest: string -> string, d: Directory, c: Conv, phases: seq<seq<Script>>)
    : (Conv, Directory, seq<Observation>)
    requires Wired(t, digest, c) && PromptsSafe(digest, c)
    ensures var (r, _, _) := WithRestarts(t, digest, d, c, phases); Wired(t, digest, r) && PromptsSafe(digest, r)
  {
    if phases == [] then
      (c, d, [])
    else
      var n := |phases| - 1;
      var (before, dir, shown) := WithRestarts(t, digest, d, c, phases[..n]);
      TurnsKeepWired(t, digest, before, phases[n]);
      var after := Run(before, Turns(phases[n]));
      RestartKeepsWired(t, digest, dir, after);
      var saved := Written(digest, dir, after);
      (Reloaded(t, saved).value, saved, shown + Observed(before, Turns(phases[n])))
  }

  lemma {:induction false} RunConcat(c: Conv, a: seq<Op>, b: seq<Op>)
    requires c.Valid() && ValidOps(a) && ValidOps(b)
    ensures Run(c, a + b) == Run(Run(c, a), b)
    ensures Observed(c, a + b) == Observed(c, a) + Observed(Run(c, a), b)
  {
    if b == [] {
      assert a + b == a;
    } else {
      var n := |b| - 1;
      assert (a + b)[..|a + b| - 1] == a + b[..n];
      RunConcat(c, a, b[..n]);
    }
  }

  /**
   Restarting any number of times is invisible: the restarted session shows, turn by
   turn, what the session that was never restarted shows, and ends in the same state up
   to `Erase`.
   */
  lemma {:induction false} RestartsInvisible(t: Pricing, digest: string -> string, d: Directory, c: Conv,
                                             phases: seq<seq<Script>>)
    requires Wired(t, digest, c) && PromptsSafe(digest, c)
    ensures ValidOps(Turns(Flatten(phases)))
    ensures var (restarted, _, shown) := WithRestarts(t, digest, d, c, phases);
            && shown == Observed(c, Turns(Flatten(phases)))
            && Erase(restarted) == Erase(Run(c, Turns(Flatten(phases))))
  {
    hide Play, Written, Reloaded, PromptsSafe, OwnPath;
    if phases != [] {
      var n := |phases| - 1;
      RestartsInvisible(t, digest, d, c, phases[..n]);
      var (before, dir, shown) := WithRestarts(t, digest, d, c, phases[..n]);
      var live := Run(c, Turns(Flatten(phases[..n])));
      TurnsKeepWired(t, digest, before, phases[n]);
      Bisimilar(before, live, Turns(phases[n]));
      RestartKeepsWired(t, digest, dir, Run(before, Turns(phases[n])));
      assert Turns(Flatten(phases)) == Turns(Flatten(phases[..n])) + Turns(phases[n]);
      RunConcat(c, Turns(Flatten(phases[..n])), Turns(phases[n]));
    }
  }

  // ---------- The adapter ----------

  class SessionFileAdapter {
    const digest: string -> string
    var dirs: map<string, Directory>

    constructor (digest: string -> string)
      ensures this.digest == digest && dirs == map[]
    {
      this.digest := digest;
      dirs := map[];
    }

    /** One configuration into a directory: the prompt's file, and the configuration to store. */
    method SerializeConfig(id: string, c: CompletionConfig) returns (data: CompletionConfig)
      requires id in dirs
      modifies this
      ensures data == Serialized(digest, c)
      ensures dirs == old(dirs)[id := WithPrompt(digest, old(dirs)[id], c)]
    {
      data := c;
      if HasPrompt(c) {
        var name := PromptFile(digest, c);
        dirs := dirs[id := dirs[id][name := Text(c.systemPrompt.value)]];
        data := data.(systemPrompt := None, systemPromptPath := Some(name));
      }
    }

    method WriteSessionFiles(c: Conv)
      requires c.id in dirs
      modifies this
      ensures dirs == old(dirs)[c.id := Written(digest, old(dirs)[c.id], c)]
    {
      var config := SerializeConfig(c.id, c.config);
      var strategyConfig := SerializeConfig(c.id, c.strategyConfig);
      var info := SessionInfo(c.id, c.createdAt, config, if c.lifecycle == map[] then None else Some(c.lifecycle),
                              TypeName(c.kind), GetMetadata(c.kind, c.summary), strategyConfig);
      dirs := dirs[c.id := dirs[c.id][SESSION_INFO := Info(info)]];
      dirs := dirs[c.id := dirs[c.id][SESSION_MESSAGES := History(c.records)]];
    }

    method CreateSession(c: Conv) returns (r: Result<(), RepositoryError>)
      modifies this
      ensures r == if c.id in old(dirs) then Failure(AlreadyExists) else Success(())
      ensures dirs == if c.id in old(dirs) then old(dirs) else old(dirs)[c.id := Written(digest, map[], c)]
    {
      if c.id in dirs {
        return Failure(AlreadyExists);
      }
      dirs := dirs[c.id := map[]];
      WriteSessionFiles(c);
      return Success(());
    }

    /** Never creates a directory: a session deleted in the meantime stays deleted. */
    method UpdateSession(c: Conv) returns (r: Result<(), RepositoryError>)
      modifies this
      ensures r == if c.id in old(dirs) then Success(()) else Failure(NotFound)
      ensures dirs == if c.id in old(dirs) then old(dirs)[c.id := Written(digest, old(dirs)[c.id], c)] else old(dirs)
    {
      if c.id !in dirs {
        return Failure(NotFound);
      }
      WriteSessionFiles(c);
      return Success(());
    }

    method DeleteSession(id: string) returns (r: Result<(), RepositoryError>)
      modifies this
      ensures r == if id in old(dirs) then Success(()) else Failure(NotFound)
      ensures dirs == old(dirs) - {id}
    {
      if id !in dirs {
        return Failure(NotFound);
      }
      dirs := dirs - {id};
      return Success(());
    }

    /** One stored configuration with its prompt read back in. */
    method ResolveConfig(id: string, raw: CompletionConfig) returns (r: Result<CompletionConfig, RepositoryError>)
      requires id in dirs
      ensures r == Resolved(dirs[id], raw)
    {
      if raw.systemPromptPath.None? || raw.systemPromptPath.value == "" {
        return Success(raw);
      }
      var name := raw.systemPromptPath.value;
      if name !in dirs[id] || !dirs[id][name].Text? {
        return Failure(PromptUnreadable);
      }
      var text := ReadText(dirs[id][name].text);
      return Success(raw.(systemPrompt := Some(text)));
    }

    /**
     File by file; the first that is missing or unreadable decides the error. Of a
     directory written by this adapter it gives back what was written, prompts apart.
     */
    method GetSession(id: string) returns (r: Result<SessionState, RepositoryError>)
      ensures r == if id in dirs then ReadBack(dirs[id]) else Failure(NotFound)
      ensures forall d, c :: id in dirs && dirs[id] == Written(digest, d, c) && OwnPath(digest, c.config)
                             && OwnPath(digest, c.strategyConfig) ==>
                r.Success? && r.value.records == c.records
                && ErasePrompts(r.value.info) == ErasePrompts(InfoOf(digest, c))
    {
      forall d, c | id in dirs && dirs[id] == Written(digest, d, c) && OwnPath(digest, c.config)
                    && OwnPath(digest, c.strategyConfig)
        ensures ReadBack(dirs[id]).Success? && ReadBack(dirs[id]).value.records == c.records
        ensures ErasePrompts(ReadBack(dirs[id]).value.info) == ErasePrompts(InfoOf(digest, c))
      {
        ReadsWhatWasWritten(digest, d, c);
      }
      if id !in dirs || SESSION_INFO !in dirs[id] || !dirs[id][SESSION_INFO].Info? {
        return Failure(NotFound);
      }
      var info := dirs[id][SESSION_INFO].info;
      var config := ResolveConfig(id, info.config);
      if config.Failure? {
        return Failure(config.error);
      }
      info := info.(config := config.value);
      var strategyConfig := ResolveConfig(id, info.strategyConfig);
      if strategyConfig.Failure? {
        return Failure(strategyConfig.error);
      }
      info := info.(strategyConfig := strategyConfig.value);
      if SESSION_MESSAGES !in dirs[id] || !dirs[id][SESSION_MESSAGES].History? {
        return Failure(NotFound);
      }
      return Success(SessionState(info, dirs[id][SESSION_MESSAGES].records));
    }
  }
}
