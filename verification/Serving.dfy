/**
 A message served from the client's frame to the disk: on the server, a turn that no other
 stream of its session object disturbs is the session method's turn, from whichever
 reachable state it starts and whatever the rest of the server has been doing.
 */
module Serving {
  import opened Wrappers
  import opened Billing
  import opened LlmPort
  import opened ContextStrategy
  import opened Conversation
  import opened Engine
  import opened Server
  import opened StorageSafety
  import opened Paths

  /** The room with the engine and the phase of task `k` as given; its past may be longer. */
  ghost predicate Shows(r': Room, r: Room, k: nat, x: (Engine, Phase)) {
    && k < |r.tasks|
    && r'.engine == x.0 && r'.tasks == r.tasks[k := x.1]
    && r'.id == r.id && r'.handlers == r.handlers && r'.ws == r.ws && r'.stream == r.stream
  }

  /** One more step of the task. */
  lemma StepOn(r: Room, evs: seq<LocalEvent>, mid: Room, k: nat, a: Act)
    returns (evs': seq<LocalEvent>, r': Room)
    requires Leads(r, evs, mid) && LocalEnabled(mid, Step(k, a)) && NoHandshakes(evs)
    ensures Leads(r, evs', r') && NoHandshakes(evs')
    ensures Shows(r', mid, k, Act1(mid.engine, mid.tasks[k], a))
  {
    evs', r' := Then(r, evs, mid, Step(k, a));
  }

  lemma {:induction false} HearInRoom(r: Room, evs: seq<LocalEvent>, mid: Room, k: nat, events: seq<Event>)
    returns (evs': seq<LocalEvent>, r': Room)
    requires Leads(r, evs, mid) && NoHandshakes(evs)
    requires mid.engine.conv.Valid() && k < |mid.tasks| && mid.tasks[k].Streaming?
    requires Keyed(events, mid.engine.conv.config)
    ensures Leads(r, evs', r') && NoHandshakes(evs')
    ensures Shows(r', mid, k, HearAll(mid.engine, mid.tasks[k], events))
    decreases |events|
  {
    hide Leads, Local;
    evs', r' := evs, mid;
    if events != [] {
      var n := |events| - 1;
      evs', r' := HearInRoom(r, evs, mid, k, events[..n]);
      HearAllIs(mid.engine, mid.tasks[k], events[..n]);
      evs', r' := StepOn(r, evs', r', k, Hear(events[n]));
    }
  }

  lemma {:induction false} HearDigestInRoom(r: Room, evs: seq<LocalEvent>, mid: Room, k: nat, events: seq<Event>)
    returns (evs': seq<LocalEvent>, r': Room)
    requires Leads(r, evs, mid) && NoHandshakes(evs)
    requires mid.engine.conv.Valid() && k < |mid.tasks| && mid.tasks[k].Digesting?
    requires Keyed(events, mid.engine.conv.strategyConfig)
    ensures Leads(r, evs', r') && NoHandshakes(evs')
    ensures Shows(r', mid, k, HearAllDigest(mid.engine, mid.tasks[k], events))
    decreases |events|
  {
    hide Leads, Local;
    evs', r' := evs, mid;
    if events != [] {
      var n := |events| - 1;
      evs', r' := HearDigestInRoom(r, evs, mid, k, events[..n]);
      HearAllDigestIs(mid.engine, mid.tasks[k], events[..n]);
      evs', r' := StepOn(r, evs', r', k, HearDigest(events[n]));
    }
  }

  /** The ids a turn draws are new, and its calls name the models asked. */
  ghost predicate Possible(e: Engine, s: Script) {
    && FreshScript(e.conv, s)
    && Keyed(s.main.events, e.conv.config) && Keyed(s.digest.events, e.conv.strategyConfig)
  }

  /** The steps of a turn in a room, each call as far as it gets. */
  lemma DriveInRoom(r: Room, k: nat, s: Script) returns (evs: seq<LocalEvent>, r': Room)
    requires k < |r.tasks| && r.tasks[k] == Ready(s.prompt) && r.engine.conv.Valid() && Possible(r.engine, s)
    ensures Leads(r, evs, r') && NoHandshakes(evs) && Shows(r', r, k, Drive(r.engine, s))
  {
    hide Leads, Local, Shows, Context, AnchorEnd, Flatten, Texts;
    StandsStill(r);
    var x, p := r.engine, r.tasks[k];
    StartEnabled(r, k, s);
    evs, r' := StepOn(r, [], r, k, Start(s.queryId));
    ShowsIs(r', r, k, Act1(x, p, Start(s.queryId)));
    var begun := Act1(x, p, Start(s.queryId));
    var mid := r';
    evs, r' := HearInRoom(r, evs, mid, k, s.main.events);
    ShowsOn(r', mid, r, k, begun, HearAll(begun.0, begun.1, s.main.events));
    HearAllIs(begun.0, begun.1, s.main.events);
    var heard := HearAll(begun.0, begun.1, s.main.events);
    if !s.main.complete {
      evs, r' := Continue(r, evs, r', k, heard, Abandon);
      return;
    }
    evs, r' := Continue(r, evs, r', k, heard, EndAnswer(s.answerId));
    var answered := Act1(heard.0, heard.1, EndAnswer(s.answerId));
    if answered.1.Closing? {
      return;
    }
    mid := r';
    ShowsIs(mid, r, k, answered);
    evs, r' := HearDigestInRoom(r, evs, mid, k, s.digest.events);
    ShowsOn(r', mid, r, k, answered, HearAllDigest(answered.0, answered.1, s.digest.events));
    HearAllDigestIs(answered.0, answered.1, s.digest.events);
    var digested := HearAllDigest(answered.0, answered.1, s.digest.events);
    evs, r' := Continue(r, evs, r', k, digested, if s.digest.complete then EndDigest else Abandon);
  }

  lemma StartEnabled(r: Room, k: nat, s: Script)
    requires k < |r.tasks| && r.tasks[k] == Ready(s.prompt) && r.engine.conv.Valid() && Possible(r.engine, s)
    ensures LocalEnabled(r, Step(k, Start(s.queryId)))
  {
  }

  lemma ShowsIs(r': Room, r: Room, k: nat, x: (Engine, Phase))
    requires Shows(r', r, k, x)
    ensures k < |r'.tasks| && r'.engine == x.0 && r'.tasks[k] == x.1
  {
  }

  lemma ShowsOn(r'': Room, r': Room, r: Room, k: nat, x: (Engine, Phase), y: (Engine, Phase))
    requires Shows(r', r, k, x) && Shows(r'', r', k, y)
    ensures Shows(r'', r, k, y)
  {
  }

  /** One more step, from the engine and phase reached so far. */
  lemma Continue(r: Room, evs: seq<LocalEvent>, mid: Room, k: nat, x: (Engine, Phase), a: Act)
    returns (evs': seq<LocalEvent>, r': Room)
    requires Leads(r, evs, mid) && NoHandshakes(evs) && Shows(mid, r, k, x)
    requires x.0.conv.Valid() && CanDo(x.0, x.1, a)
    ensures Leads(r, evs', r') && NoHandshakes(evs') && Shows(r', r, k, Act1(x.0, x.1, a))
  {
    evs', r' := StepOn(r, evs, mid, k, a);
    ShowsOn(r', mid, r, k, x, Act1(x.0, x.1, a));
  }

  /** A served message, as far as its turn gets. */
  lemma ServeInRoom(r: Room, h: nat, s: Script) returns (evs: seq<LocalEvent>, r': Room)
    requires Is(r, h, Serving) && !Busy(r) && r.engine.conv.Valid() && Possible(r.engine, s)
    ensures Leads(r, evs, r') && NoHandshakes(evs) && evs != [] && evs[0] == SendFrame(h, s.prompt)
    ensures r'.id == r.id && r'.engine == Drive(r.engine, s).0 && r'.tasks == r.tasks + [Drive(r.engine, s).1]
  {
    hide Leads, Drive;
    StandsStill(r);
    var first, mid := Then(r, [], r, SendFrame(h, s.prompt));
    var rest;
    rest, r' := DriveInRoom(mid, |r.tasks|, s);
    LeadsConcat(r, first, mid, rest, r');
    evs := first + rest;
  }

  /**
   From any reachable state a served message can run undisturbed, and then the session is
   as the session method leaves it; a finished turn is on disk as such, if the session's
   directory is still there, and the turn's task ends accordingly; an abandoned turn
   writes nothing.
   */
  lemma ServedTurn(t: Pricing, ss: seq<Server>, es: seq<ServerEvent>, i: nat, h: nat, s: Script)
    returns (ss': seq<Server>, es': seq<ServerEvent>)
    requires IsRun(t, ss, es) && Live(Last(ss), i)
    requires var r := Last(ss).rooms[i]; Is(r, h, Serving) && !Busy(r) && Possible(r.engine, s)
    ensures Last(ss).rooms[i].engine.conv.Valid()
    ensures IsRun(t, ss', es') && es < es' && es'[|es|] == InRoom(i, SendFrame(h, s.prompt))
    ensures i < |Last(ss').rooms|
    ensures var r, r' := Last(ss).rooms[i], Last(ss').rooms[i];
            var turn := Play(r.engine.conv, s);
            var written := turn.seen.done.Some? && r.id in Last(ss).disk;
            && r'.engine.conv == turn.conv
            && r'.tasks == r.tasks + [if written then Finished else Abandoned]
            && Last(ss').disk.Keys == Last(ss).disk.Keys
            && (forall x :: x in Last(ss).disk && !(written && x == r.id) ==> Last(ss').disk[x] == Last(ss).disk[x])
            && (written ==> Last(ss').disk[r.id].conv == Erase(turn.conv))
  {
    hide Leads, Drive, Play, Shaped, Apply, Enabled, Possible;
    var r := Last(ss).rooms[i];
    RunsAreShaped(t, ss, es, |es|);
    assert Shaped(t, r);
    ShapedIsValid(t, r);
    var evs, mid := ServeInRoom(r, h, s);
    DriveIsPlay(r.engine, s);
    var before := Last(ss);
    ss', es' := Lift(t, ss, es, i, evs, mid);
    if Play(r.engine.conv, s).seen.done.Some? {
      var e := Persist(i, |r.tasks|);
      PersistTurn(t, Last(ss'), i, |r.tasks|);
      Extend(t, ss', es', e);
      ss', es' := ss' + [Apply(t, Last(ss'), e)], es' + [e];
    }
  }

  /** The write at the end of a finished turn. */
  lemma PersistTurn(t: Pricing, s: Server, i: nat, k: nat)
    requires Live(s, i) && k < |s.rooms[i].tasks| && s.rooms[i].tasks[k].Closing?
    ensures Enabled(t, s, Persist(i, k))
    ensures var r, s' := s.rooms[i], Apply(t, s, Persist(i, k));
            var written := r.id in s.disk;
            && s'.rooms == s.rooms[i := r.(tasks := r.tasks[k := if written then Finished else Abandoned])]
            && s'.disk == if written then s.disk[r.id := Saved(r.engine)] else s.disk
  {
  }

  lemma ShapedIsValid(t: Pricing, r: Room)
    requires Shaped(t, r)
    ensures r.engine.conv.Valid()
  {
  }
}
