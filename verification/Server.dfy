/**
 The server as interleaved steps (server/adapter/inbound/web/ws_handler.py and
 session_routes.py, server/application/domain/service/send_message.py). One event is the
 code between two suspension points of one handler or stream task.

 A `Room` is one `SessionConnections` object together with the handlers serving it and
 the stream tasks ever created for it. Cancelling a task and every failure are the same
 event here, `Step(k, Abandon)`, possible whenever the task is unfinished.
 */
module Server {
  import opened Wrappers
  import opened Billing
  import opened ContextStrategy
  import opened Conversation
  import opened Engine

  datatype Handler =
    | Accepting            // found no socket attached, waiting for the handshake
    | Serving              // in the receive loop
    | Draining(task: nat)  // disconnected, waiting for the cancelled task to end
    | Gone

  /** `past` lists, as it would be written to disk, every state the session has been in. */
  datatype Room = Room(
    id: string, engine: Engine, tasks: seq<Phase>, handlers: seq<Handler>,
    ws: Option<nat>, stream: Option<nat>, past: seq<Engine>)

  datatype LocalEvent =
    | Connect
    | AcceptDone(h: nat)
    | AcceptFailed(h: nat)
    | SendFrame(h: nat, content: string)
    | OtherFrame(h: nat)     // ping, cancel or an unparsable frame
    | Disconnect(h: nat)
    | Drained(h: nat)
    | Step(k: nat, act: Act)

  /** What the session directory holds of a session, prompt file names aside. */
  function Saved(e: Engine): Engine {
    e.(conv := Erase(e.conv))
  }

  function Opened(e: Engine): Room {
    Room(e.conv.id, e, [], [], None, None, [Saved(e)])
  }

  /** The registered stream task is still running. */
  predicate Busy(r: Room) {
    r.stream.Some? && r.stream.value < |r.tasks| && !r.tasks[r.stream.value].Over()
  }

  predicate Is(r: Room, h: nat, p: Handler) {
    h < |r.handlers| && r.handlers[h] == p
  }

  ghost predicate LocalEnabled(r: Room, ev: LocalEvent) {
    match ev
    case Connect => true
    case AcceptDone(h) => Is(r, h, Accepting)
    case AcceptFailed(h) => Is(r, h, Accepting)
    case SendFrame(h, _) => Is(r, h, Serving)
    case OtherFrame(h) => Is(r, h, Serving)
    case Disconnect(h) => Is(r, h, Serving)
    case Drained(h) =>
      && h < |r.handlers| && r.handlers[h].Draining?
      && r.handlers[h].task < |r.tasks| && r.tasks[r.handlers[h].task].Over()
    case Step(k, a) => k < |r.tasks| && r.engine.conv.Valid() && CanDo(r.engine, r.tasks[k], a)
  }

  ghost function Local(r: Room, ev: LocalEvent): Room
    requires LocalEnabled(r, ev)
  {
    match ev
    case Connect => if r.ws.Some? then r else r.(handlers := r.handlers + [Accepting])
    case AcceptDone(h) => r.(handlers := r.handlers[h := Serving], ws := Some(h))
    case AcceptFailed(h) => r.(handlers := r.handlers[h := Gone])
    case SendFrame(_, content) =>
      if Busy(r) then r else r.(tasks := r.tasks + [Ready(content)], stream := Some(|r.tasks|))
    case OtherFrame(_) => r
    case Disconnect(h) =>
      if Busy(r) then r.(handlers := r.handlers[h := Draining(r.stream.value)])
      else r.(handlers := r.handlers[h := Gone], ws := None, stream := None)
    case Drained(h) => r.(handlers := r.handlers[h := Gone], ws := None, stream := None)
    case Step(k, a) =>
      var x := Act1(r.engine, r.tasks[k], a);
      r.(engine := x.0, tasks := r.tasks[k := x.1], past := r.past + [Saved(x.0)])
  }

  // ---------- The whole server ----------

  /**
   Session objects are never forgotten here: those before `boot` belong to processes that
   have ended. `deleting` holds an id once for every delete request waiting for its
   socket to close.
   */
  datatype Server = Server(
    rooms: seq<Room>, boot: nat, registry: map<string, nat>, disk: map<string, Engine>, deleting: multiset<string>)

  const BOOTED := Server([], 0, map[], map[], multiset{})

  /** Room `i` belongs to the running process. */
  predicate Live(s: Server, i: int) {
    s.boot <= i < |s.rooms|
  }

  datatype ServerEvent =
    | Create(conv: Conv)
    | Load(id: string)
    | InRoom(i: nat, event: LocalEvent)
    | Persist(room: nat, task: nat)
    | DeleteBegin(id: string)
    | DeleteEnd(id: string)
    | Restart

  /** A session as `create_session` builds it. */
  ghost predicate Fresh(t: Pricing, c: Conv) {
    && ValidPricing(t) && c.Valid() && BilledBy(t, c) && Erase(c) == c
    && c.records == [] && c.summary == NO_SUMMARY && c.lifecycle == map[]
  }

  ghost predicate Enabled(t: Pricing, s: Server, e: ServerEvent) {
    match e
    case Create(c) => Fresh(t, c) && c.id !in s.registry && c.id !in s.disk
    case Load(id) => id !in s.registry && id in s.disk
    case InRoom(i, ev) =>
      && Live(s, i) && LocalEnabled(s.rooms[i], ev)
      && (ev.Connect? ==> s.rooms[i].id in s.registry && s.registry[s.rooms[i].id] == i)
    case Persist(i, k) => Live(s, i) && k < |s.rooms[i].tasks| && s.rooms[i].tasks[k].Closing?
    case DeleteBegin(_) => true
    case DeleteEnd(id) => id in s.deleting
    case Restart => true
  }

  ghost function Admit(s: Server, id: string, e: Engine): Server {
    s.(rooms := s.rooms + [Opened(e)], registry := s.registry[id := |s.rooms|])
  }

  ghost function Apply(t: Pricing, s: Server, e: ServerEvent): Server
    requires Enabled(t, s, e)
  {
    match e
    case Create(c) =>
      var e0 := Engine(c, [], [], 0);
      Admit(s, c.id, e0).(disk := s.disk[c.id := Saved(e0)])
    case Load(id) => Admit(s, id, s.disk[id])
    case InRoom(i, ev) => s.(rooms := s.rooms[i := Local(s.rooms[i], ev)])
    case Persist(i, k) =>
      // update_session: refused when the directory is gone, and the task fails with it
      var r := s.rooms[i];
      if r.id in s.disk then
        s.(rooms := s.rooms[i := r.(tasks := r.tasks[k := Finished])], disk := s.disk[r.id := Saved(r.engine)])
      else
        s.(rooms := s.rooms[i := r.(tasks := r.tasks[k := Abandoned])])
    case DeleteBegin(id) =>
      var popped := s.(registry := s.registry - {id});
      if id in s.registry && s.registry[id] < |s.rooms| && s.rooms[s.registry[id]].ws.Some? then
        popped.(deleting := s.deleting + multiset{id})
      else
        popped.(disk := s.disk - {id})
    case DeleteEnd(id) => s.(disk := s.disk - {id}, deleting := s.deleting - multiset{id})
    case Restart => s.(boot := |s.rooms|, registry := map[], deleting := multiset{})
  }

  // ---------- Runs ----------

  /** The states passed through, and the events between them. */
  ghost predicate IsPath(t: Pricing, ss: seq<Server>, es: seq<ServerEvent>) {
    && |ss| == |es| + 1
    && forall i :: 0 <= i < |es| ==> Enabled(t, ss[i], es[i]) && ss[i + 1] == Apply(t, ss[i], es[i])
  }

  /** A finite run from start-up. */
  ghost predicate IsRun(t: Pricing, ss: seq<Server>, es: seq<ServerEvent>) {
    IsPath(t, ss, es) && ss[0] == BOOTED
  }

  ghost function Last(ss: seq<Server>): Server {
    if ss == [] then BOOTED else ss[|ss| - 1]
  }

  /** The events from position `from` to before `to` were ones `ok` admits in the states they happened in. */
  ghost predicate Obeys(ss: seq<Server>, es: seq<ServerEvent>, from: nat, to: nat, ok: (Server, ServerEvent) -> bool) {
    |ss| == |es| + 1 && forall i :: from <= i < to && i < |es| ==> ok(ss[i], es[i])
  }

  /** A path from `s` that begins with `e` and goes on with events `ok` admits. */
  ghost predicate Follows(t: Pricing, s: Server, e: ServerEvent, ok: (Server, ServerEvent) -> bool,
                          ss: seq<Server>, es: seq<ServerEvent>) {
    IsPath(t, ss, es) && Obeys(ss, es, 1, |es|, ok) && es != [] && ss[0] == s && es[0] == e
  }

  /** However things go on after `e`, as long as `ok` is obeyed from then on, `p` holds. */
  ghost predicate Always(t: Pricing, s: Server, e: ServerEvent, ok: (Server, ServerEvent) -> bool, p: Server -> bool) {
    forall ss, es :: Follows(t, s, e, ok, ss, es) ==> p(Last(ss))
  }

  lemma Extend(t: Pricing, ss: seq<Server>, es: seq<ServerEvent>, e: ServerEvent)
    requires IsPath(t, ss, es) && Enabled(t, Last(ss), e)
    ensures IsPath(t, ss + [Apply(t, Last(ss), e)], es + [e])
  {
  }

  /** What every admitted event keeps holds along the path. */
  lemma {:induction false} Along(t: Pricing, ss: seq<Server>, es: seq<ServerEvent>, from: nat, n: nat,
                                 ok: (Server, ServerEvent) -> bool, inv: Server -> bool)
    requires IsPath(t, ss, es) && from <= n < |ss| && inv(ss[from]) && Obeys(ss, es, from, n, ok)
    requires forall s, e :: inv(s) && ok(s, e) && Enabled(t, s, e) ==> inv(Apply(t, s, e))
    ensures inv(ss[n])
  {
    if from < n {
      Along(t, ss, es, from, n - 1, ok, inv);
    }
  }

  /** A property that `e` establishes and every admitted event keeps holds always. */
  lemma KeptAlways(t: Pricing, s: Server, e: ServerEvent, ok: (Server, ServerEvent) -> bool,
                   inv: Server -> bool, p: Server -> bool)
    requires Enabled(t, s, e) && inv(Apply(t, s, e))
    requires forall s, e :: inv(s) && ok(s, e) && Enabled(t, s, e) ==> inv(Apply(t, s, e))
    requires forall s :: inv(s) ==> p(s)
    ensures Always(t, s, e, ok, p)
  {
    forall ss, es | Follows(t, s, e, ok, ss, es) ensures p(Last(ss)) {
      Along(t, ss, es, 1, |es|, ok, inv);
    }
  }

  // ---------- Names ----------

  /** Everything is kept under its own id, and what is registered belongs to the running process. */
  ghost predicate Named(s: Server) {
    && s.boot <= |s.rooms|
    && (forall i :: 0 <= i < |s.rooms| ==> s.rooms[i].engine.conv.id == s.rooms[i].id)
    && (forall id :: id in s.disk ==> s.disk[id].conv.id == id)
    && (forall id :: id in s.registry ==> Live(s, s.registry[id]) && s.rooms[s.registry[id]].id == id)
  }

  lemma LocalKeepsId(r: Room, ev: LocalEvent)
    requires LocalEnabled(r, ev)
    ensures Local(r, ev).id == r.id && Local(r, ev).engine.conv.id == r.engine.conv.id
  {
  }

  lemma ReplaceNamed(s: Server, i: nat, r: Room)
    requires Named(s) && i < |s.rooms| && r.id == s.rooms[i].id && r.engine.conv.id == r.id
    ensures Named(s.(rooms := s.rooms[i := r]))
  {
  }

  lemma AdmitNamed(s: Server, id: string, e: Engine)
    requires Named(s) && e.conv.id == id
    ensures Named(Admit(s, id, e))
  {
  }

  lemma StoreNamed(s: Server, id: string, e: Engine)
    requires Named(s) && e.conv.id == id
    ensures Named(s.(disk := s.disk[id := Saved(e)]))
  {
  }

  lemma RemoveNamed(s: Server, id: string, deleting: multiset<string>)
    requires Named(s)
    ensures Named(s.(disk := s.disk - {id}, deleting := deleting))
    ensures Named(s.(registry := s.registry - {id}, deleting := deleting))
  {
  }

  lemma OwnNames(s: Server)
    requires Named(s)
    ensures forall i :: 0 <= i < |s.rooms| ==> s.rooms[i].engine.conv.id == s.rooms[i].id
    ensures forall id :: id in s.disk ==> s.disk[id].conv.id == id
    ensures Named(s.(boot := |s.rooms|, registry := map[], deleting := multiset{}))
  {
  }

  lemma PersistNamed(t: Pricing, s: Server, i: nat, k: nat)
    requires Named(s) && Enabled(t, s, Persist(i, k))
    ensures Named(Apply(t, s, Persist(i, k)))
  {
    hide Named, Saved;
    OwnNames(s);
    var r := s.rooms[i];
    ReplaceNamed(s, i, r.(tasks := r.tasks[k := Abandoned]));
    var s' := s.(rooms := s.rooms[i := r.(tasks := r.tasks[k := Finished])]);
    ReplaceNamed(s, i, r.(tasks := r.tasks[k := Finished]));
    StoreNamed(s', r.id, r.engine);
  }

  lemma EventNamed(t: Pricing, s: Server, e: ServerEvent)
    requires Named(s) && Enabled(t, s, e)
    ensures Named(Apply(t, s, e))
  {
    hide Local, LocalEnabled, Fresh, Admit, Named, Saved;
    OwnNames(s);
    match e {
      case Create(c) =>
        var s' := s.(disk := s.disk[c.id := Saved(Engine(c, [], [], 0))]);
        StoreNamed(s, c.id, Engine(c, [], [], 0));
        AdmitNamed(s', c.id, Engine(c, [], [], 0));
        AdmitThenStore(s, c.id, Engine(c, [], [], 0));
      case Load(id) =>
        AdmitNamed(s, id, s.disk[id]);
      case InRoom(i, ev) =>
        LocalKeepsId(s.rooms[i], ev);
        ReplaceNamed(s, i, Local(s.rooms[i], ev));
      case Persist(i, k) =>
        PersistNamed(t, s, i, k);
      case DeleteBegin(id) =>
        RemoveNamed(s, id, s.deleting);
        RemoveNamed(s, id, s.deleting + multiset{id});
        RemoveNamed(s.(registry := s.registry - {id}), id, s.deleting);
      case DeleteEnd(id) =>
        RemoveNamed(s, id, s.deleting - multiset{id});
      case Restart =>
    }
  }

  lemma AdmitThenStore(s: Server, id: string, e: Engine)
    ensures Admit(s, id, e).(disk := s.disk[id := Saved(e)]) == Admit(s.(disk := s.disk[id := Saved(e)]), id, e)
  {
  }

  /** On every run, without any condition. */
  lemma RunsAreNamed(t: Pricing, ss: seq<Server>, es: seq<ServerEvent>, n: nat)
    requires IsRun(t, ss, es) && n < |ss|
    ensures Named(ss[n])
  {
    hide Apply, Enabled;
    forall s, e | Named(s) && Enabled(t, s, e) ensures Named(Apply(t, s, e)) {
      EventNamed(t, s, e);
    }
    Along(t, ss, es, 0, n, (s, e) => true, Named);
  }
}
