/**
 What holds of a session object, or of a session id, on every run in which none of its
 handshakes completes while a socket is attached: one stream at a time, sound anchors,
 exact summaries, bounded requests. Nothing is asked of other sessions. `Races` shows
 that the condition is exact, event by event.
 */
module StreamSafety {
  import opened Wrappers
  import opened Billing
  import opened LlmPort
  import opened Records
  import opened ContextStrategy
  import opened Conversation
  import opened Engine
  import opened Server

  /** An unfinished task is the registered one, and whoever serves the room holds the socket. */
  ghost predicate Control(r: Room) {
    && (forall k :: 0 <= k < |r.tasks| && !r.tasks[k].Over() ==> r.stream == Some(k))
    && (r.stream.Some? ==> r.stream.value < |r.tasks| && r.ws.Some?)
    && (r.ws.Some? ==> r.ws.value < |r.handlers|
                       && (r.handlers[r.ws.value].Serving? || r.handlers[r.ws.value].Draining?))
    && (forall h :: 0 <= h < |r.handlers| && (r.handlers[h].Serving? || r.handlers[h].Draining?) ==> r.ws == Some(h))
    && (forall h :: 0 <= h < |r.handlers| && r.handlers[h].Draining? ==> r.stream == Some(r.handlers[h].task))
  }

  /** The session is sound and every unfinished task is where its phase says. */
  ghost predicate Good(t: Pricing, r: Room) {
    && Control(r)
    && Sound(t, r.engine)
    && (forall k :: 0 <= k < |r.tasks| && !r.tasks[k].Over() ==> PhaseSound(r.engine, r.tasks[k]))
    && ((forall k :: 0 <= k < |r.tasks| ==> r.tasks[k].Over()) ==> TailWithin(r.engine, 0))
  }

  /** What is on disk was saved with its update completed. */
  ghost predicate GoodSnapshot(t: Pricing, e: Engine) {
    Sound(t, e) && TailWithin(e, 0)
  }

  /** Every session object of the id is good, and so is what is stored of it. */
  ghost predicate AllGood(t: Pricing, s: Server, id: string) {
    && (forall i :: 0 <= i < |s.rooms| && s.rooms[i].id == id ==> Good(t, s.rooms[i]))
    && (id in s.disk ==> GoodSnapshot(t, s.disk[id]))
  }

  // ---------- The condition ----------

  /** No handshake of room `i` completes on a taken socket. */
  ghost predicate FreeAt(s: Server, e: ServerEvent, i: nat) {
    e.InRoom? && e.i == i && e.event.AcceptDone? && i < |s.rooms| ==> s.rooms[i].ws.None?
  }

  /** No handshake of any session object of the id completes on a taken socket. */
  ghost predicate FreeFor(s: Server, e: ServerEvent, id: string) {
    e.InRoom? && e.event.AcceptDone? && e.i < |s.rooms| && s.rooms[e.i].id == id ==> s.rooms[e.i].ws.None?
  }

  ghost function FreeAtRoom(i: nat): (Server, ServerEvent) -> bool {
    (s: Server, e: ServerEvent) => FreeAt(s, e, i)
  }

  ghost function FreeForId(id: string): (Server, ServerEvent) -> bool {
    (s: Server, e: ServerEvent) => FreeFor(s, e, id)
  }

  lemma ControlKept(r: Room, ev: LocalEvent)
    requires Control(r) && LocalEnabled(r, ev)
    requires ev.AcceptDone? ==> r.ws.None?
    ensures Control(Local(r, ev))
  {
    hide Act1, CanDo;
    if ev.Step? {
      assert !r.tasks[ev.k].Over() by {
        NotOver(r, ev);
      }
    }
  }

  lemma NotOver(r: Room, ev: LocalEvent)
    requires LocalEnabled(r, ev) && ev.Step?
    ensures !r.tasks[ev.k].Over()
  {
  }

  lemma StepGood(t: Pricing, r: Room, k: nat, a: Act)
    requires Good(t, r) && LocalEnabled(r, Step(k, a))
    ensures Good(t, Local(r, Step(k, a)))
  {
    hide Sound, PhaseSound, TailWithin, Act1;
    ControlKept(r, Step(k, a));
    NotOver(r, Step(k, a));
    StepSound(t, r.engine, r.tasks[k], a);
    var x := Act1(r.engine, r.tasks[k], a);
    if x.1.Over() {
      OverTail(x.0, x.1);
    }
  }

  lemma OverTail(e: Engine, p: Phase)
    requires PhaseSound(e, p) && p.Over()
    ensures TailWithin(e, 0)
  {
  }

  lemma LocalGood(t: Pricing, r: Room, ev: LocalEvent)
    requires Good(t, r) && LocalEnabled(r, ev)
    requires ev.AcceptDone? ==> r.ws.None?
    ensures Good(t, Local(r, ev))
  {
    if ev.Step? {
      StepGood(t, r, ev.k, ev.act);
    } else {
      ControlKept(r, ev);
      hide Sound, Act1, CanDo, Control;
      var r' := Local(r, ev);
      assert forall k :: 0 <= k < |r.tasks| ==> r'.tasks[k] == r.tasks[k];
      if ev.SendFrame? && !Busy(r) {
        assert forall k :: 0 <= k < |r.tasks| ==> r.tasks[k].Over() by {
          IdleWhenNotBusy(r);
        }
        assert !r'.tasks[|r.tasks|].Over();
      }
    }
  }

  lemma IdleWhenNotBusy(r: Room)
    requires Control(r) && !Busy(r)
    ensures forall k :: 0 <= k < |r.tasks| ==> r.tasks[k].Over()
  {
  }

  lemma SavedSound(t: Pricing, e: Engine)
    requires Sound(t, e)
    ensures Sound(t, Saved(e)) && (TailWithin(e, 0) ==> TailWithin(Saved(e), 0))
  {
    hide Exact, Chain, PricedLog;
  }

  lemma SavedGood(t: Pricing, r: Room, k: nat)
    requires Good(t, r) && k < |r.tasks| && r.tasks[k].Closing?
    ensures GoodSnapshot(t, Saved(r.engine))
    ensures Good(t, r.(tasks := r.tasks[k := Finished])) && Good(t, r.(tasks := r.tasks[k := Abandoned]))
  {
    hide Sound, Saved;
    assert PhaseSound(r.engine, r.tasks[k]);
    hide TailWithin;
    SavedSound(t, r.engine);
  }

  lemma OpenedGood(t: Pricing, e: Engine)
    requires GoodSnapshot(t, e)
    ensures Good(t, Opened(e))
  {
  }

  lemma FreshGood(t: Pricing, c: Conv)
    requires Fresh(t, c)
    ensures GoodSnapshot(t, Engine(c, [], [], 0)) && GoodSnapshot(t, Saved(Engine(c, [], [], 0)))
  {
    if c.kind.Rolling? {
      ExactAtStart(c.kind.window);
    }
  }

  lemma OpenGood(t: Pricing, s: Server, e: ServerEvent, id: string)
    requires Named(s) && AllGood(t, s, id) && Enabled(t, s, e) && (e.Create? || e.Load?)
    ensures AllGood(t, Apply(t, s, e), id)
  {
    hide Good, GoodSnapshot, Fresh, Saved;
    if e.Create? {
      FreshGood(t, e.conv);
      OpenedGood(t, Engine(e.conv, [], [], 0));
    } else if e.id == id {
      OpenedGood(t, s.disk[id]);
    }
  }

  lemma EventGood(t: Pricing, s: Server, e: ServerEvent, id: string)
    requires Named(s) && AllGood(t, s, id) && FreeFor(s, e, id) && Enabled(t, s, e)
    ensures AllGood(t, Apply(t, s, e), id)
  {
    hide Named, Good, GoodSnapshot, Local, LocalEnabled, Fresh, Saved, Admit;
    match e {
      case InRoom(i, ev) =>
        LocalKeepsId(s.rooms[i], ev);
        if s.rooms[i].id == id {
          LocalGood(t, s.rooms[i], ev);
        }
      case Persist(i, k) =>
        if s.rooms[i].id == id {
          SavedGood(t, s.rooms[i], k);
        }
      case DeleteBegin(_) =>
      case DeleteEnd(_) =>
      case Restart =>
      case _ =>
        OpenGood(t, s, e, id);
    }
  }

  lemma RunsAreGood(t: Pricing, ss: seq<Server>, es: seq<ServerEvent>, n: nat, id: string)
    requires IsRun(t, ss, es) && n < |ss| && Obeys(ss, es, 0, n, FreeForId(id))
    ensures AllGood(t, ss[n], id)
  {
    hide Apply, Enabled, AllGood, Named, FreeFor;
    var inv := (s: Server) => Named(s) && AllGood(t, s, id);
    forall s, e | inv(s) && FreeForId(id)(s, e) && Enabled(t, s, e) ensures inv(Apply(t, s, e)) {
      EventNamed(t, s, e);
      EventGood(t, s, e, id);
    }
    assert inv(BOOTED) by {
      BootedGood(t, id);
    }
    Along(t, ss, es, 0, n, FreeForId(id), inv);
  }

  lemma BootedGood(t: Pricing, id: string)
    ensures Named(BOOTED) && AllGood(t, BOOTED, id)
  {
  }

  /** For the control of one room its own handshakes are all that matters. */
  ghost predicate ControlAt(s: Server, i: nat) {
    i < |s.rooms| ==> Control(s.rooms[i])
  }

  lemma EventControl(t: Pricing, s: Server, e: ServerEvent, i: nat)
    requires ControlAt(s, i) && FreeAt(s, e, i) && Enabled(t, s, e)
    ensures ControlAt(Apply(t, s, e), i)
  {
    hide Local, LocalEnabled, Fresh;
    match e {
      case InRoom(j, ev) =>
        if i == j {
          ControlKept(s.rooms[i], ev);
        }
      case _ =>
    }
  }

  lemma RunsAreControlled(t: Pricing, ss: seq<Server>, es: seq<ServerEvent>, n: nat, i: nat)
    requires IsRun(t, ss, es) && n < |ss| && Obeys(ss, es, 0, n, FreeAtRoom(i))
    ensures ControlAt(ss[n], i)
  {
    hide Apply, Enabled, Control, FreeAt;
    var inv := (s: Server) => ControlAt(s, i);
    forall s, e | inv(s) && FreeAtRoom(i)(s, e) && Enabled(t, s, e) ensures inv(Apply(t, s, e)) {
      EventControl(t, s, e, i);
    }
    Along(t, ss, es, 0, n, FreeAtRoom(i), inv);
  }

  // ---------- What it means ----------

  /** At most one unfinished stream task; it has a socket; without a socket there is no task. */
  ghost predicate SingleStream(r: Room) {
    && (forall j, k :: 0 <= j < |r.tasks| && 0 <= k < |r.tasks| && !r.tasks[j].Over() && !r.tasks[k].Over() ==> j == k)
    && (forall k :: 0 <= k < |r.tasks| && !r.tasks[k].Over() ==> r.ws.Some?)
    && (r.ws.None? ==> r.stream.None?)
  }

  /** Between building a digest's input and reading the anchor no record has been appended. */
  ghost predicate AnchorsSafe(r: Room) {
    forall k :: 0 <= k < |r.tasks| && r.tasks[k].Digesting? ==>
      && r.tasks[k].upto == |r.engine.conv.records|
      && r.tasks[k].input == DigestInput(r.engine.conv.records, r.engine.conv.summary)
  }

  /** Every record is in a completed summarisation or in the verbatim tail, once and in order. */
  ghost predicate NothingLost(r: Room) {
    r.engine.conv.kind.Rolling? ==>
      Covered(r.engine.segs) + Tail(r.engine.conv.records, r.engine.conv.summary) == r.engine.conv.records
  }

  /** One stream at a time in a room whose own handshakes never took a taken socket; other rooms may do as they like. */
  lemma OneStream(t: Pricing, ss: seq<Server>, es: seq<ServerEvent>, n: nat, i: nat)
    requires IsRun(t, ss, es) && n < |ss| && i < |ss[n].rooms| && Obeys(ss, es, 0, n, FreeAtRoom(i))
    ensures SingleStream(ss[n].rooms[i])
  {
    RunsAreControlled(t, ss, es, n, i);
  }

  // ---------- Handshakes one at a time ----------

  /** A handshake of the room is under way. */
  predicate Shaking(r: Room) {
    Accepting in r.handlers
  }

  /** No client connects to room `i` while the handshake of another is under way. */
  ghost function NoOverlap(i: nat): (Server, ServerEvent) -> bool {
    (s: Server, e: ServerEvent) => e == InRoom(i, Connect) && i < |s.rooms| ==> !Shaking(s.rooms[i])
  }

  /** At most one handshake is under way, and the socket is free for it. */
  ghost predicate OneHandshake(r: Room) {
    && (forall g, h :: 0 <= g < h < |r.handlers| ==> !r.handlers[g].Accepting? || !r.handlers[h].Accepting?)
    && (Shaking(r) ==> r.ws.None?)
  }

  ghost predicate OneHandshakeAt(s: Server, i: nat) {
    i < |s.rooms| ==> OneHandshake(s.rooms[i])
  }

  lemma HandshakeKept(r: Room, ev: LocalEvent)
    requires OneHandshake(r) && LocalEnabled(r, ev) && (ev.Connect? ==> !Shaking(r))
    ensures OneHandshake(Local(r, ev))
  {
    hide Act1, CanDo;
    var r' := Local(r, ev);
    assert forall h :: 0 <= h < |r.handlers| && r'.handlers[h].Accepting? ==> r.handlers[h].Accepting?;
    if ev.AcceptDone? {
      assert r.handlers[ev.h] == Accepting;
    }
  }

  lemma EventOneHandshake(t: Pricing, s: Server, e: ServerEvent, i: nat)
    requires OneHandshakeAt(s, i) && NoOverlap(i)(s, e) && Enabled(t, s, e)
    ensures OneHandshakeAt(Apply(t, s, e), i)
  {
    hide Local, LocalEnabled, Fresh;
    if e.InRoom? && e.i == i {
      HandshakeKept(s.rooms[i], e.event);
    }
  }

  lemma OneHandshakeIsFree(t: Pricing, s: Server, e: ServerEvent, i: nat)
    requires OneHandshakeAt(s, i) && Enabled(t, s, e)
    ensures FreeAt(s, e, i)
  {
  }

  /**
   A connection that finds a socket attached is refused, so overlapping handshakes are the
   only way to a taken socket: where none overlap, every handshake completes on a free
   socket, and the room has one stream at a time.
   */
  lemma OnlyOverlapsCollide(t: Pricing, ss: seq<Server>, es: seq<ServerEvent>, n: nat, i: nat)
    requires IsRun(t, ss, es) && n < |ss| && i < |ss[n].rooms| && Obeys(ss, es, 0, n, NoOverlap(i))
    ensures Obeys(ss, es, 0, n, FreeAtRoom(i)) && SingleStream(ss[n].rooms[i])
  {
    hide Apply, Enabled, OneHandshakeAt, FreeAt;
    var inv := (s: Server) => OneHandshakeAt(s, i);
    forall s, e | inv(s) && NoOverlap(i)(s, e) && Enabled(t, s, e) ensures inv(Apply(t, s, e)) {
      EventOneHandshake(t, s, e, i);
    }
    assert inv(BOOTED) by {
      BootedFree(i);
    }
    forall m | 0 <= m < n ensures FreeAtRoom(i)(ss[m], es[m]) {
      Along(t, ss, es, 0, m, NoOverlap(i), inv);
      OneHandshakeIsFree(t, ss[m], es[m], i);
    }
    OneStream(t, ss, es, n, i);
  }

  lemma BootedFree(i: nat)
    ensures OneHandshakeAt(BOOTED, i)
  {
  }

  lemma GoodMeans(t: Pricing, r: Room)
    requires Good(t, r)
    ensures AnchorsSafe(r) && NothingLost(r)
  {
    if r.engine.conv.kind.Rolling? {
      var c := r.engine.conv;
      PartitionOfHistory(c.kind.window, c.kind.prompt, c.records, c.summary, r.engine.segs);
    }
  }

  /** Safe anchors and complete summaries in every session object of the id, in every state of every such run. */
  lemma AnchorsSound(t: Pricing, ss: seq<Server>, es: seq<ServerEvent>, n: nat, i: nat)
    requires IsRun(t, ss, es) && n < |ss| && i < |ss[n].rooms|
    requires Obeys(ss, es, 0, n, FreeForId(ss[n].rooms[i].id))
    ensures AnchorsSafe(ss[n].rooms[i]) && NothingLost(ss[n].rooms[i])
  {
    RunsAreGood(t, ss, es, n, ss[n].rooms[i].id);
    GoodMeans(t, ss[n].rooms[i]);
  }

  /**
   The rolling summary over all runs: the text is the last reply of an exact chain of
   summarisations over consecutive segments of at least a window each, the context is
   that text followed by the uncovered records, and the number of summarisations times
   the window never exceeds the number of records.
   */
  lemma RollingSummaryExact(t: Pricing, ss: seq<Server>, es: seq<ServerEvent>, n: nat, i: nat)
    requires IsRun(t, ss, es) && n < |ss| && i < |ss[n].rooms|
    requires Obeys(ss, es, 0, n, FreeForId(ss[n].rooms[i].id))
    requires ss[n].rooms[i].engine.conv.kind.Rolling?
    ensures var e := ss[n].rooms[i].engine;
            var c := e.conv;
            && c.kind.Valid()
            && Exact(c.kind.window, c.records, c.summary, e.segs)
            && Covered(e.segs) + Tail(c.records, c.summary) == c.records
            && Context(c.kind, c.records, c.summary)
               == (if LastReply(e.segs) == "" then [] else [Message(User, LastReply(e.segs))])
                  + Messages(c.records[|Covered(e.segs)|..])
            && |e.segs| * c.kind.window <= |c.records|
  {
    RunsAreGood(t, ss, es, n, ss[n].rooms[i].id);
    var e := ss[n].rooms[i].engine;
    assert Good(t, ss[n].rooms[i]);
    PartitionOfHistory(e.conv.kind.window, e.conv.kind.prompt, e.conv.records, e.conv.summary, e.segs);
    AmortisedCost(e.conv.kind.window, e.conv.records, e.conv.summary, e.segs);
  }

  /** A request of a summary session after c abandoned turns carries at most w + 1 + 2c messages. */
  lemma RequestsBounded(t: Pricing, ss: seq<Server>, es: seq<ServerEvent>, n: nat, i: nat, k: nat)
    requires IsRun(t, ss, es) && n < |ss| && i < |ss[n].rooms|
    requires Obeys(ss, es, 0, n, FreeForId(ss[n].rooms[i].id))
    requires var r := ss[n].rooms[i]; k < |r.tasks| && r.tasks[k].Streaming? && r.engine.conv.kind.Rolling?
    ensures var r := ss[n].rooms[i]; |r.tasks[k].request| <= r.engine.conv.kind.window + 1 + 2 * r.engine.debt
  {
    RunsAreGood(t, ss, es, n, ss[n].rooms[i].id);
    assert Good(t, ss[n].rooms[i]);
    assert PhaseSound(ss[n].rooms[i].engine, ss[n].rooms[i].tasks[k]);
  }
}
