/**
 The server's disk against the session files: what `Server` assumes of storage, that a
 load gives back what was last written, is what the files deliver.
 */
module Recovery {
  import opened Billing
  import opened Conversation
  import opened Persistence
  import opened Server
  import opened StorageSafety

  /** On every run every session object is in the state the restart theorems ask for. */
  lemma RoomsAreWired(t: Pricing, digest: string -> string, ss: seq<Server>, es: seq<ServerEvent>, n: nat, i: nat)
    requires IsRun(t, ss, es) && n < |ss| && i < |ss[n].rooms|
    ensures Wired(t, digest, ss[n].rooms[i].engine.conv)
  {
    RunsAreShaped(t, ss, es, n);
    ShapedIsWired(t, digest, ss[n].rooms[i]);
  }

  lemma ShapedIsWired(t: Pricing, digest: string -> string, r: Room)
    requires Shaped(t, r)
    ensures Wired(t, digest, r.engine.conv)
  {
    assert NoPaths(r.engine.conv).config.systemPromptPath.None?;
  }

  /** The server after a session is written, the process restarts, and the session is loaded. */
  ghost function Recovered(t: Pricing, s: Server, i: nat, k: nat): Server
    requires Enabled(t, s, Persist(i, k)) && s.rooms[i].id in s.disk
    ensures |Recovered(t, s, i, k).rooms| == |s.rooms| + 1
  {
    var written := Apply(t, s, Persist(i, k));
    var restarted := Apply(t, written, Restart);
    Apply(t, restarted, Load(s.rooms[i].id))
  }

  /** No sequence of turns and switches tells the two apart. */
  ghost predicate SameFuture(a: Conv, b: Conv) {
    a.Valid() && b.Valid() && forall ops :: ValidOps(ops) ==> Observed(a, ops) == Observed(b, ops)
  }

  /**
   A session object that is written, and loaded by another process, comes back in the
   files as the server's disk has it, if and only if its prompts are safe. `actual` is
   the object in the process, whose prompt paths may be set from an earlier load; the
   object that comes back is fit for the next restart and shows the same for all futures.
   */
  lemma LoadIsReload(t: Pricing, digest: string -> string, d: Directory, s: Server, i: nat, k: nat, actual: Conv)
    requires Enabled(t, s, Persist(i, k)) && s.rooms[i].id in s.disk
    requires Wired(t, digest, actual) && Erase(actual) == Erase(s.rooms[i].engine.conv)
    ensures var loaded := Recovered(t, s, i, k).rooms[|s.rooms|].engine.conv;
            var back := Reloaded(t, Written(digest, d, actual));
            && loaded == Erase(actual)
            && back.Some?
            && (Erase(back.value) == loaded <==> PromptsSafe(digest, actual))
            && (PromptsSafe(digest, actual) ==>
                  Wired(t, digest, back.value) && PromptsSafe(digest, back.value) && SameFuture(back.value, loaded))
  {
    hide Written, Reloaded, PromptsSafe, Play;
    RestartFaithfulIff(t, digest, d, actual);
    if PromptsSafe(digest, actual) {
      RestartKeepsWired(t, digest, d, actual);
      var back := Reloaded(t, Written(digest, d, actual)).value;
      forall ops | ValidOps(ops) ensures Observed(back, ops) == Observed(Erase(actual), ops) {
        Bisimilar(back, Erase(actual), ops);
      }
    }
  }
}
