/**
 Which events the code would have to refuse. Each theorem takes a state the server can
 reach and an event possible there, and says exactly when a guarantee survives every way
 things can go on after it: if the condition fails, the proof constructs the interleaving
 that breaks the guarantee. The runs at the end reach such states from start-up.
 */
module Races {
  import opened Wrappers
  import opened UsageStats
  import opened Billing
  import opened LlmPort
  import opened StatsDecorator
  import opened Records
  import opened ContextStrategy
  import opened Conversation
  import opened Engine
  import opened Server
  import opened StreamSafety
  import opened StorageSafety
  import opened Paths

  // ---------- A handshake that completes on a taken socket ----------

  /** Handler `g` waits for a task that has ended, `h` serves, nothing is running. */
  ghost predicate Divided(r: Room, g: nat, h: nat) {
    && g != h && Is(r, h, Serving)
    && g < |r.handlers| && r.handlers[g].Draining? && r.handlers[g].task < |r.tasks|
    && (forall k :: 0 <= k < |r.tasks| ==> r.tasks[k].Over())
    && r.engine.conv.Valid()
  }

  /** Up to the count of abandoned turns. */
  ghost predicate SameSession(a: Engine, b: Engine) {
    a == b.(debt := a.debt)
  }

  /** The earlier client disconnects, and its stream ends. */
  lemma Divide(q: Room, h: nat) returns (evs: seq<LocalEvent>, r: Room, g: nat)
    requires Control(q) && Is(q, h, Accepting) && q.ws.Some? && q.engine.conv.Valid()
    ensures Leads(Local(q, AcceptDone(h)), evs, r) && NoHandshakes(evs)
    ensures Divided(r, g, h) && SameSession(r.engine, q.engine)
  {
    hide Leads;
    g := q.ws.value;
    var start := Local(q, AcceptDone(h));
    evs, r := [], start;
    assert Leads(start, evs, r) by {
      StandsStill(start);
    }
    if q.handlers[g].Serving? {
      if !Busy(r) {
        evs, r := Then(start, evs, r, SendFrame(g, ""));
      }
      evs, r := Then(start, evs, r, Disconnect(g));
    }
    var k := r.handlers[g].task;
    if !r.tasks[k].Over() {
      evs, r := Then(start, evs, r, Step(k, Abandon));
    }
  }

  /**
   The later client starts a stream; the earlier one's clean-up then forgets it, so that
   the later client may start another beside it.
   */
  lemma TwoAtOnce(r: Room, g: nat, h: nat) returns (evs: seq<LocalEvent>, r': Room)
    requires Divided(r, g, h)
    ensures Leads(r, evs, r') && NoHandshakes(evs) && r'.engine == r.engine
    ensures r'.tasks == r.tasks + [Ready("b"), Ready("c")]
  {
    hide Leads;
    evs, r' := [], r;
    assert Leads(r, evs, r') by {
      StandsStill(r);
    }
    assert !Busy(r);
    evs, r' := Then(r, evs, r', SendFrame(h, "b"));
    evs, r' := Then(r, evs, r', Drained(g));
    evs, r' := Then(r, evs, r', SendFrame(h, "c"));
  }

  ghost predicate TwoRunning(r: Room) {
    exists j, k :: 0 <= j < k < |r.tasks| && !r.tasks[j].Over() && !r.tasks[k].Over()
  }

  lemma TwoStreamsFrom(q: Room, h: nat) returns (evs: seq<LocalEvent>, r: Room)
    requires Control(q) && Is(q, h, Accepting) && q.ws.Some? && q.engine.conv.Valid()
    ensures Leads(Local(q, AcceptDone(h)), evs, r) && NoHandshakes(evs)
    ensures TwoRunning(r) && !SingleStream(r)
  {
    var first, mid, g := Divide(q, h);
    var second;
    second, r := TwoAtOnce(mid, g, h);
    LeadsConcat(Local(q, AcceptDone(h)), first, mid, second, r);
    evs := first + second;
    assert r.tasks[|mid.tasks|] == Ready("b") && r.tasks[|mid.tasks| + 1] == Ready("c");
  }

  ghost predicate StreamAt(s: Server, i: nat) {
    i < |s.rooms| && SingleStream(s.rooms[i])
  }

  lemma HandshakeEnabled(t: Pricing, s: Server, i: nat, h: nat)
    requires Enabled(t, s, InRoom(i, AcceptDone(h)))
    ensures Live(s, i) && Is(s.rooms[i], h, Accepting) && LocalEnabled(s.rooms[i], AcceptDone(h))
    ensures Live(Apply(t, s, InRoom(i, AcceptDone(h))), i)
    ensures Apply(t, s, InRoom(i, AcceptDone(h))).rooms[i] == Local(s.rooms[i], AcceptDone(h))
  {
  }

  lemma RoomIsValid(t: Pricing, ss: seq<Server>, es: seq<ServerEvent>, i: nat)
    requires IsRun(t, ss, es) && i < |Last(ss).rooms|
    ensures Shaped(t, Last(ss).rooms[i]) && Last(ss).rooms[i].engine.conv.Valid()
  {
    RunsAreShaped(t, ss, es, |es|);
    assert Shaped(t, Last(ss).rooms[i]);
  }

  lemma OneStreamIfFree(t: Pricing, s: Server, i: nat, h: nat)
    requires Enabled(t, s, InRoom(i, AcceptDone(h))) && Control(s.rooms[i]) && s.rooms[i].ws.None?
    ensures Always(t, s, InRoom(i, AcceptDone(h)), FreeAtRoom(i), (s: Server) => StreamAt(s, i))
  {
    hide Apply, Enabled, Control, SingleStream;
    var e := InRoom(i, AcceptDone(h));
    var inv := (s: Server) => i < |s.rooms| && Control(s.rooms[i]);
    forall s, e | inv(s) && FreeAtRoom(i)(s, e) && Enabled(t, s, e) ensures inv(Apply(t, s, e)) {
      EventControl(t, s, e, i);
      NeverFewer(t, s, e);
    }
    forall s | inv(s) ensures StreamAt(s, i) {
      ControlIsSingle(s.rooms[i]);
    }
    HandshakeEnabled(t, s, i, h);
    EventControl(t, s, e, i);
    KeptAlways(t, s, e, FreeAtRoom(i), inv, (s: Server) => StreamAt(s, i));
  }

  lemma ControlIsSingle(r: Room)
    requires Control(r)
    ensures SingleStream(r)
  {
  }

  lemma NeverFewer(t: Pricing, s: Server, e: ServerEvent)
    requires Enabled(t, s, e)
    ensures |s.rooms| <= |Apply(t, s, e).rooms|
  {
  }

  /**
   One stream at a time. In any state in which the room's handshakes have so far found
   the socket free, the completion of one more keeps the room to a single stream, however
   things go on with free sockets, if and only if it too finds the socket free.
   */
  lemma SingleStreamIff(t: Pricing, ss: seq<Server>, es: seq<ServerEvent>, i: nat, h: nat)
    requires IsRun(t, ss, es) && Obeys(ss, es, 0, |es|, FreeAtRoom(i))
    requires Enabled(t, Last(ss), InRoom(i, AcceptDone(h)))
    ensures Always(t, Last(ss), InRoom(i, AcceptDone(h)), FreeAtRoom(i), (s: Server) => StreamAt(s, i))
       <==> Last(ss).rooms[i].ws.None?
  {
    hide Apply, Enabled, Control, SingleStream, Shaped, Leads;
    var s, e := Last(ss), InRoom(i, AcceptDone(h));
    HandshakeEnabled(t, s, i, h);
    RunsAreControlled(t, ss, es, |es|, i);
    RoomIsValid(t, ss, es, i);
    if s.rooms[i].ws.None? {
      OneStreamIfFree(t, s, i, h);
    } else {
      var evs, r := TwoStreamsFrom(s.rooms[i], h);
      var ss', es' := After(t, s, e, i, evs, r);
      assert Follows(t, s, e, FreeAtRoom(i), ss', es');
      assert !StreamAt(Last(ss'), i);
    }
  }

  // ---------- What a second stream does to the summary ----------

  lemma AppendSound(t: Pricing, e: Engine, id: Id, m: Message, current: Stats)
    requires Sound(t, e) && e.conv.kind.Rolling? && FreshId(e.conv.records, id)
    ensures var rs := Append(e.conv.records, id, m);
            && Sound(t, e.(conv := e.conv.(records := rs, current := current)))
            && |Tail(rs, e.conv.summary)| == |Tail(e.conv.records, e.conv.summary)| + 1
            && |rs| == |e.conv.records| + 1
  {
    hide Accumulate, PricedLog, Chain, Exact;
    AppendTallied(t, e, id, m, current);
    AppendExact(t, e, id, m);
  }

  /** A turn abandoned just after its query was recorded: the tail has grown by one. */
  lemma PadOnce(t: Pricing, r: Room, g: nat, h: nat) returns (evs: seq<LocalEvent>, r': Room)
    requires Divided(r, g, h) && Sound(t, r.engine) && r.engine.conv.kind.Rolling?
    ensures Leads(r, evs, r') && NoHandshakes(evs)
    ensures Divided(r', g, h) && Sound(t, r'.engine) && r'.engine.conv.kind == r.engine.conv.kind
    ensures |Tail(r'.engine.conv.records, r'.engine.conv.summary)|
         == |Tail(r.engine.conv.records, r.engine.conv.summary)| + 1
  {
    hide Leads, Tallied, Exact, Tail, Context, Append;
    var id := SomeFresh(r.engine.conv.records);
    AppendSound(t, r.engine, id, Message(User, ""), map[]);
    assert Leads(r, [], r) by {
      StandsStill(r);
    }
    assert !Busy(r);
    var n := |r.tasks|;
    evs, r' := Then(r, [], r, SendFrame(h, ""));
    evs, r' := Then(r, evs, r', Step(n, Start(id)));
    var asked := r'.engine;
    evs, r' := Then(r, evs, r', Step(n, Abandon));
    SoundWhenSame(t, r'.engine, asked);
  }

  lemma {:induction false} Pad(t: Pricing, r: Room, g: nat, h: nat, m: nat) returns (evs: seq<LocalEvent>, r': Room)
    requires Divided(r, g, h) && Sound(t, r.engine) && r.engine.conv.kind.Rolling?
    ensures Leads(r, evs, r') && NoHandshakes(evs)
    ensures Divided(r', g, h) && Sound(t, r'.engine) && r'.engine.conv.kind == r.engine.conv.kind
    ensures |Tail(r'.engine.conv.records, r'.engine.conv.summary)| >= m
  {
    evs, r' := [], r;
    if m > 0 {
      hide Divided, Sound, Tail, Leads;
      var first, mid := Pad(t, r, g, h, m - 1);
      var last;
      last, r' := PadOnce(t, mid, g, h);
      LeadsConcat(r, first, mid, last, r');
      evs := first + last;
    }
  }

  /** Two streams have been started; the history is long enough for the first to condense it. */
  ghost predicate Racing(t: Pricing, r: Room, j: nat) {
    && j + 1 < |r.tasks| && r.tasks[j] == Ready("b") && r.tasks[j + 1] == Ready("c")
    && r.engine.conv.Valid() && Sound(t, r.engine) && r.engine.conv.kind.Rolling?
    && |Tail(r.engine.conv.records, r.engine.conv.summary)| >= r.engine.conv.kind.window
  }

  lemma RaceFrom(t: Pricing, q: Room, h: nat) returns (evs: seq<LocalEvent>, r: Room, j: nat)
    requires Good(t, q) && Is(q, h, Accepting) && q.ws.Some? && q.engine.conv.kind.Rolling?
    ensures Leads(Local(q, AcceptDone(h)), evs, r) && NoHandshakes(evs)
    ensures Racing(t, r, j)
  {
    var start := Local(q, AcceptDone(h));
    var a, x, g := Divide(q, h);
    SoundWhenSame(t, x.engine, q.engine);
    hide Divided, Sound, Leads, Local, Good, Control;
    var b, y := Pad(t, x, g, h, x.engine.conv.kind.window);
    LeadsConcat(start, a, x, b, y);
    var c;
    c, r := TwoAtOnce(y, g, h);
    LeadsConcat(start, a + b, y, c, r);
    evs, j := a + b + c, |y.tasks|;
    assert y.engine.conv.Valid() by {
      ValidWhenDivided(y, g, h);
    }
  }

  lemma ValidWhenDivided(r: Room, g: nat, h: nat)
    requires Divided(r, g, h)
    ensures r.engine.conv.Valid()
  {
  }

  lemma SoundWhenSame(t: Pricing, a: Engine, b: Engine)
    requires SameSession(a, b) && Sound(t, b)
    ensures Sound(t, a)
  {
  }

  /** One of the two streams is condensing the history when the other records its query. */
  ghost predicate Overtaken(t: Pricing, r: Room, j: nat) {
    && j < |r.tasks| && r.tasks[j].Digesting? && r.tasks[j].upto + 1 == |r.engine.conv.records|
    && r.engine.conv.Valid() && Sound(t, r.engine) && r.engine.conv.kind.Rolling?
    && r.tasks[j].start == AnchorEnd(r.engine.conv.records, r.engine.conv.summary.anchor) <= r.tasks[j].upto
  }

  lemma Overtake(t: Pricing, r: Room, j: nat) returns (evs: seq<LocalEvent>, r': Room)
    requires Racing(t, r, j)
    ensures Leads(r, evs, r') && NoHandshakes(evs) && Overtaken(t, r', j)
  {
    hide Leads, Tallied, Exact, Context, Append;
    var c := r.engine.conv;
    var q := SomeFresh(c.records);
    AppendSound(t, r.engine, q, Message(User, "b"), map[]);
    assert Leads(r, [], r) by {
      StandsStill(r);
    }
    evs, r' := Then(r, [], r, Step(j, Start(q)));
    var asked := r'.engine;
    var a := SomeFresh(asked.conv.records);
    AppendSound(t, asked, a, Message(Assistant, Flatten(r'.tasks[j].chunks)), asked.conv.current);
    evs, r' := Then(r, evs, r', Step(j, EndAnswer(a)));
    var digesting := r'.engine;
    var z := SomeFresh(digesting.conv.records);
    AppendSound(t, digesting, z, Message(User, "c"), map[]);
    evs, r' := Then(r, evs, r', Step(j + 1, Start(z)));
  }

  /** The anchor, read after the call, points past that query: it is in neither summary nor context. */
  lemma Lose(t: Pricing, r: Room, j: nat)
    requires Overtaken(t, r, j)
    ensures LocalEnabled(r, Step(j, EndDigest)) && !NothingLost(Local(r, Step(j, EndDigest)))
  {
    hide Flatten;
    var c, p := r.engine.conv, r.tasks[j];
    var seg := Segment(c.records[p.start..p.upto], p.input, Flatten(p.parts));
    var all := r.engine.segs + [seg];
    CondensedTail(c.records, Flatten(p.parts));
    assert all[..|r.engine.segs|] == r.engine.segs;
    assert |Covered(all)| == p.upto;
  }

  ghost predicate NothingLostAt(s: Server, i: nat) {
    i < |s.rooms| && NothingLost(s.rooms[i])
  }

  ghost predicate AnchorsSafeAt(s: Server, i: nat) {
    i < |s.rooms| && AnchorsSafe(s.rooms[i])
  }

  lemma EventGoodAt(t: Pricing, s: Server, e: ServerEvent, i: nat)
    requires i < |s.rooms| && Good(t, s.rooms[i]) && FreeAt(s, e, i) && Enabled(t, s, e)
    ensures i < |Apply(t, s, e).rooms| && Good(t, Apply(t, s, e).rooms[i])
  {
    hide Good, Local, LocalEnabled, Fresh, Saved;
    match e {
      case InRoom(k, ev) =>
        if k == i {
          LocalGood(t, s.rooms[i], ev);
        }
      case Persist(k, n) =>
        if k == i {
          SavedGood(t, s.rooms[i], n);
        }
      case _ =>
    }
  }

  lemma SummarySafeIfFree(t: Pricing, s: Server, i: nat, h: nat)
    requires Enabled(t, s, InRoom(i, AcceptDone(h))) && Good(t, s.rooms[i]) && s.rooms[i].ws.None?
    ensures Always(t, s, InRoom(i, AcceptDone(h)), FreeAtRoom(i), (s: Server) => NothingLostAt(s, i))
    ensures Always(t, s, InRoom(i, AcceptDone(h)), FreeAtRoom(i), (s: Server) => AnchorsSafeAt(s, i))
  {
    hide Apply, Enabled, Good, NothingLost, AnchorsSafe;
    var e := InRoom(i, AcceptDone(h));
    var inv := (s: Server) => i < |s.rooms| && Good(t, s.rooms[i]);
    forall s, e | inv(s) && FreeAtRoom(i)(s, e) && Enabled(t, s, e) ensures inv(Apply(t, s, e)) {
      EventGoodAt(t, s, e, i);
    }
    forall s | inv(s) ensures NothingLostAt(s, i) && AnchorsSafeAt(s, i) {
      GoodMeans(t, s.rooms[i]);
    }
    HandshakeEnabled(t, s, i, h);
    EventGoodAt(t, s, e, i);
    KeptAlways(t, s, e, FreeAtRoom(i), inv, (s: Server) => NothingLostAt(s, i));
    KeptAlways(t, s, e, FreeAtRoom(i), inv, (s: Server) => AnchorsSafeAt(s, i));
  }

  /** A session object never becomes a summary session; without one there is nothing to lose. */
  ghost predicate Plain(t: Pricing, s: Server, i: nat) {
    AllShaped(t, s) && i < |s.rooms| && !s.rooms[i].engine.conv.kind.Rolling?
  }

  lemma KindKept(r: Room, ev: LocalEvent)
    requires LocalEnabled(r, ev)
    ensures Local(r, ev).engine.conv.kind == r.engine.conv.kind
  {
    hide Accumulate, Append, Context, Flatten, AnchorEnd, Due;
  }

  lemma EventKeepsKind(t: Pricing, s: Server, e: ServerEvent, i: nat)
    requires i < |s.rooms| && Enabled(t, s, e)
    ensures i < |Apply(t, s, e).rooms| && Apply(t, s, e).rooms[i].engine.conv.kind == s.rooms[i].engine.conv.kind
  {
    hide Fresh, Saved, Local, LocalEnabled;
    if e.InRoom? {
      KindKept(s.rooms[e.i], e.event);
    }
  }

  lemma EventPlain(t: Pricing, s: Server, e: ServerEvent, i: nat)
    requires Plain(t, s, i) && Enabled(t, s, e)
    ensures Plain(t, Apply(t, s, e), i)
  {
    hide AllShaped, Apply, Enabled;
    EventShaped(t, s, e);
    EventKeepsKind(t, s, e, i);
  }

  lemma PlainIsSafe(t: Pricing, s: Server, i: nat)
    requires Plain(t, s, i)
    ensures NothingLostAt(s, i) && AnchorsSafeAt(s, i)
  {
    assert Shaped(t, s.rooms[i]);
  }

  lemma SummarySafeIfPlain(t: Pricing, s: Server, e: ServerEvent, i: nat)
    requires Enabled(t, s, e) && Plain(t, s, i)
    ensures Always(t, s, e, FreeAtRoom(i), (s: Server) => NothingLostAt(s, i))
    ensures Always(t, s, e, FreeAtRoom(i), (s: Server) => AnchorsSafeAt(s, i))
  {
    hide Apply, Enabled, Plain, NothingLostAt, AnchorsSafeAt;
    var inv := (s: Server) => Plain(t, s, i);
    forall s, e | inv(s) && FreeAtRoom(i)(s, e) && Enabled(t, s, e) ensures inv(Apply(t, s, e)) {
      EventPlain(t, s, e, i);
    }
    forall s | inv(s) ensures NothingLostAt(s, i) && AnchorsSafeAt(s, i) {
      PlainIsSafe(t, s, i);
    }
    EventPlain(t, s, e, i);
    KeptAlways(t, s, e, FreeAtRoom(i), inv, (s: Server) => NothingLostAt(s, i));
    KeptAlways(t, s, e, FreeAtRoom(i), inv, (s: Server) => AnchorsSafeAt(s, i));
  }

  lemma GoodAtEnd(t: Pricing, ss: seq<Server>, es: seq<ServerEvent>, i: nat)
    requires IsRun(t, ss, es) && i < |Last(ss).rooms| && Obeys(ss, es, 0, |es|, FreeForId(Last(ss).rooms[i].id))
    ensures Good(t, Last(ss).rooms[i]) && AllShaped(t, Last(ss))
  {
    RunsAreGood(t, ss, es, |es|, Last(ss).rooms[i].id);
    RunsAreShaped(t, ss, es, |es|);
  }

  /** In a summary session the completed handshake opens the way to an unsafe anchor, and from there to a lost query. */
  lemma AnchorsUnsafe(t: Pricing, s: Server, i: nat, h: nat)
    returns (ss: seq<Server>, es: seq<ServerEvent>, lost: seq<Server>, events: seq<ServerEvent>)
    requires Enabled(t, s, InRoom(i, AcceptDone(h))) && Good(t, s.rooms[i])
    requires s.rooms[i].ws.Some? && s.rooms[i].engine.conv.kind.Rolling?
    ensures Follows(t, s, InRoom(i, AcceptDone(h)), FreeAtRoom(i), ss, es) && !AnchorsSafeAt(Last(ss), i)
    ensures Follows(t, s, InRoom(i, AcceptDone(h)), FreeAtRoom(i), lost, events) && !NothingLostAt(Last(lost), i)
  {
    hide Apply, Enabled, Good, NothingLost, Leads, Racing, Local, LocalEnabled;
    var e := InRoom(i, AcceptDone(h));
    HandshakeEnabled(t, s, i, h);
    var start := Local(s.rooms[i], AcceptDone(h));
    var a, x, j := RaceFrom(t, s.rooms[i], h);
    var b, y := Overtake(t, x, j);
    LeadsConcat(start, a, x, b, y);
    ss, es := After(t, s, e, i, a + b, y);
    assert Follows(t, s, e, FreeAtRoom(i), ss, es);
    Lose(t, y, j);
    var all, z := Then(start, a + b, y, Step(j, EndDigest));
    lost, events := After(t, s, e, i, all, z);
    assert Follows(t, s, e, FreeAtRoom(i), lost, events);
  }

  /**
   No record is lost between summary and context. In any state in which the handshakes of
   a session id have so far found the socket free, the completion of one more keeps every
   record in summary or context, however things go on with free sockets, if and only if
   it too finds the socket free or the session keeps no summary.
   */
  lemma NothingLostIff(t: Pricing, ss: seq<Server>, es: seq<ServerEvent>, i: nat, h: nat)
    requires IsRun(t, ss, es) && Enabled(t, Last(ss), InRoom(i, AcceptDone(h)))
    requires Obeys(ss, es, 0, |es|, FreeForId(Last(ss).rooms[i].id))
    ensures Always(t, Last(ss), InRoom(i, AcceptDone(h)), FreeAtRoom(i), (s: Server) => NothingLostAt(s, i))
       <==> Last(ss).rooms[i].ws.None? || !Last(ss).rooms[i].engine.conv.kind.Rolling?
  {
    hide Apply, Enabled, Good, NothingLostAt, AnchorsSafeAt, Obeys, IsRun;
    HandshakeEnabled(t, Last(ss), i, h);
    GoodAtEnd(t, ss, es, i);
    if Last(ss).rooms[i].ws.None? {
      SummarySafeIfFree(t, Last(ss), i, h);
    } else if !Last(ss).rooms[i].engine.conv.kind.Rolling? {
      SummarySafeIfPlain(t, Last(ss), InRoom(i, AcceptDone(h)), i);
    } else {
      var _, _, ss', es' := AnchorsUnsafe(t, Last(ss), i, h);
    }
  }

  /** No record is appended between building a digest's input and reading the anchor, under the same condition. */
  lemma AnchorsSafeIff(t: Pricing, ss: seq<Server>, es: seq<ServerEvent>, i: nat, h: nat)
    requires IsRun(t, ss, es) && Enabled(t, Last(ss), InRoom(i, AcceptDone(h)))
    requires Obeys(ss, es, 0, |es|, FreeForId(Last(ss).rooms[i].id))
    ensures Always(t, Last(ss), InRoom(i, AcceptDone(h)), FreeAtRoom(i), (s: Server) => AnchorsSafeAt(s, i))
       <==> Last(ss).rooms[i].ws.None? || !Last(ss).rooms[i].engine.conv.kind.Rolling?
  {
    hide Apply, Enabled, Good, NothingLostAt, AnchorsSafeAt, Obeys, IsRun;
    HandshakeEnabled(t, Last(ss), i, h);
    GoodAtEnd(t, ss, es, i);
    if Last(ss).rooms[i].ws.None? {
      SummarySafeIfFree(t, Last(ss), i, h);
    } else if !Last(ss).rooms[i].engine.conv.kind.Rolling? {
      SummarySafeIfPlain(t, Last(ss), InRoom(i, AcceptDone(h)), i);
    } else {
      var ss', es', _, _ := AnchorsUnsafe(t, Last(ss), i, h);
    }
  }

  // ---------- An id used again while an old stream can still write ----------

  /** A stream about to write a session other than `other`. */
  ghost predicate AboutToWrite(r: Room, k: nat, other: Conv) {
    k < |r.tasks| && r.tasks[k].Closing? && Saved(r.engine).conv != other
  }

  /** An id new to both histories. */
  lemma FreshForBoth(a: seq<Record>, b: seq<Record>) returns (id: Id)
    ensures FreshId(a, id) && FreshId(b, id)
  {
    id := SomeFresh(a + b);
    assert forall i :: 0 <= i < |a| ==> (a + b)[i] == a[i];
    assert forall i :: 0 <= i < |b| ==> (a + b)[|a| + i] == b[i];
  }

  lemma ShapedParts(t: Pricing, r: Room)
    requires Shaped(t, r)
    ensures r.engine.conv.Valid() && forall k :: 0 <= k < |r.tasks| ==> WellShaped(r.engine, r.tasks[k])
  {
  }

  /** A digest can end with a reply that gives the session a summary other than `other` has. */
  lemma DigestToWrite(t: Pricing, r: Room, k: nat, other: Conv) returns (evs: seq<LocalEvent>, r': Room)
    requires Shaped(t, r) && k < |r.tasks| && r.tasks[k].Digesting?
    ensures Leads(r, evs, r') && r'.id == r.id && AboutToWrite(r', k, other)
  {
    hide Leads, Tallied, Accumulate;
    ShapedParts(t, r);
    assert Leads(r, [], r) by {
      StandsStill(r);
    }
    var said := TextChunk("." + other.summary.text);
    var heard := Step(k, HearDigest(said));
    LocalShaped(t, r, heard);
    evs, r' := Then(r, [], r, heard);
    ShapedParts(t, r');
    evs, r' := Then(r, evs, r', Step(k, EndDigest));
    assert |r'.engine.conv.summary.text| > |other.summary.text|;
  }

  /** A stream can end with an answer that `other` has not. */
  lemma AnswerToWrite(t: Pricing, r: Room, k: nat, other: Conv) returns (evs: seq<LocalEvent>, r': Room)
    requires Shaped(t, r) && k < |r.tasks| && r.tasks[k].Streaming?
    ensures Leads(r, evs, r') && r'.id == r.id && AboutToWrite(r', k, other)
  {
    hide Leads, Tallied, Flatten;
    ShapedParts(t, r);
    assert Leads(r, [], r) by {
      StandsStill(r);
    }
    var a := FreshForBoth(r.engine.conv.records, other.records);
    var answered := Step(k, EndAnswer(a));
    LocalShaped(t, r, answered);
    var mid;
    evs, mid := Then(r, [], r, answered);
    r' := mid;
    if mid.tasks[k].Digesting? {
      var more;
      more, r' := DigestToWrite(t, mid, k, other);
      LeadsConcat(r, evs, mid, more, r');
      evs := evs + more;
    } else {
      assert mid.engine.conv.records[|r.engine.conv.records|].id == a;
    }
  }

  lemma StartToWrite(t: Pricing, r: Room, k: nat, other: Conv) returns (evs: seq<LocalEvent>, r': Room)
    requires Shaped(t, r) && k < |r.tasks| && r.tasks[k].Ready?
    ensures Leads(r, evs, r') && r'.id == r.id && AboutToWrite(r', k, other)
  {
    hide Leads, Tallied, Context, AboutToWrite;
    ShapedParts(t, r);
    assert Leads(r, [], r) by {
      StandsStill(r);
    }
    var q := SomeFresh(r.engine.conv.records);
    var started := Step(k, Start(q));
    LocalShaped(t, r, started);
    var first, mid := Then(r, [], r, started);
    hide Shaped, Local, LocalEnabled;
    var more;
    more, r' := AnswerToWrite(t, mid, k, other);
    LeadsConcat(r, first, mid, more, r');
    evs := first + more;
  }

  /** A handler that serves, or is about to, can start a stream. */
  lemma ServeToWrite(t: Pricing, r: Room, h: nat, other: Conv) returns (evs: seq<LocalEvent>, r': Room, k: nat)
    requires Shaped(t, r) && h < |r.handlers| && (r.handlers[h].Accepting? || r.handlers[h].Serving?)
    ensures Leads(r, evs, r') && r'.id == r.id && AboutToWrite(r', k, other)
  {
    hide Leads, Tallied, Shaped, AboutToWrite;
    ShapedParts(t, r);
    evs, r' := [], r;
    assert Leads(r, [], r) by {
      StandsStill(r);
    }
    if r.handlers[h].Accepting? {
      LocalShaped(t, r', AcceptDone(h));
      evs, r' := Then(r, evs, r', AcceptDone(h));
    }
    if Busy(r') {
      LocalShaped(t, r', Step(r'.stream.value, Abandon));
      evs, r' := Then(r, evs, r', Step(r'.stream.value, Abandon));
    }
    k := |r'.tasks|;
    LocalShaped(t, r', SendFrame(h, ""));
    evs, r' := Then(r, evs, r', SendFrame(h, ""));
    var mid := r';
    hide Local, LocalEnabled;
    var more;
    more, r' := StartToWrite(t, mid, k, other);
    LeadsConcat(r, evs, mid, more, r');
    evs := evs + more;
  }

  /** A room that is not harmless can be driven to write something else. */
  lemma DriveToWrite(t: Pricing, r: Room, other: Conv) returns (evs: seq<LocalEvent>, r': Room, k: nat)
    requires Shaped(t, r) && !Harmless(r, other)
    ensures Leads(r, evs, r') && r'.id == r.id && AboutToWrite(r', k, other)
  {
    hide Leads, Shaped, Erase;
    if h :| 0 <= h < |r.handlers| && (r.handlers[h].Accepting? || r.handlers[h].Serving?) {
      evs, r', k := ServeToWrite(t, r, h, other);
    } else {
      var n :| 0 <= n < |r.tasks| && !r.tasks[n].Over() && !(r.tasks[n].Closing? && Erase(r.engine.conv) == other);
      k := n;
      match r.tasks[k] {
        case Ready(_) =>
          evs, r' := StartToWrite(t, r, k, other);
        case Streaming(_, _) =>
          evs, r' := AnswerToWrite(t, r, k, other);
        case Digesting(_, _, _, _) =>
          evs, r' := DigestToWrite(t, r, k, other);
        case Closing =>
          evs, r' := [], r;
          StandsStill(r);
      }
    }
  }

  /** Room `j` is about to write what the registered session of the id, opened as `start`, has never been. */
  ghost predicate AboutToDiverge(w: Server, j: nat, k: nat, id: string, start: Conv) {
    && id in w.disk && id in w.registry && w.registry[id] < |w.rooms| && w.registry[id] != j
    && (forall c :: WasIn(w.rooms[w.registry[id]].past, c) <==> c == start)
    && Live(w, j) && w.rooms[j].id == id && AboutToWrite(w.rooms[j], k, start)
  }

  lemma WriteDiverges(t: Pricing, w: Server, j: nat, k: nat, id: string, start: Conv)
    requires AboutToDiverge(w, j, k, id, start)
    ensures Enabled(t, w, Persist(j, k)) && !DiskIsPast(Apply(t, w, Persist(j, k)), id)
  {
    hide WasIn, Saved;
  }

  lemma OpenedElsewhere(t: Pricing, s: Server, e: ServerEvent, id: string, j: nat, k: nat, r: Room)
    requires Kept(t, s) && Enabled(t, s, e) && Opens(e, id) && Live(s, j)
    requires r.id == id && AboutToWrite(r, k, Snapshot(s, e))
    ensures j < |Apply(t, s, e).rooms|
    ensures AboutToDiverge(Apply(t, s, e).(rooms := Apply(t, s, e).rooms[j := r]), j, k, id, Snapshot(s, e))
  {
    OpenedPast(t, s, e, id);
    StillLive(t, s, e, j);
    hide Apply, Kept, Enabled, WasIn, AboutToWrite;
  }

  /** After the id is opened, the old session object can still be driven to that write. */
  lemma WriteAhead(t: Pricing, s: Server, e: ServerEvent, id: string, j: nat)
    returns (ss: seq<Server>, es: seq<ServerEvent>, k: nat)
    requires Kept(t, s) && Enabled(t, s, e) && Opens(e, id)
    requires Live(s, j) && s.rooms[j].id == id && !Harmless(s.rooms[j], Snapshot(s, e))
    ensures Follows(t, s, e, CleanFor(id), ss, es)
    ensures AboutToDiverge(Last(ss), j, k, id, Snapshot(s, e))
  {
    hide Shaped, Harmless, Leads, AboutToWrite, Apply, Enabled, Kept, AboutToDiverge, WasIn;
    HasSnapshot(t, s, e, id);
    OpenedPast(t, s, e, id);
    StillLive(t, s, e, j);
    ShapedRoom(t, s, j);
    var evs, r;
    evs, r, k := DriveToWrite(t, s.rooms[j], Snapshot(s, e));
    OpenedElsewhere(t, s, e, id, j, k, r);
    ss, es := After(t, s, e, j, evs, r);
    forall n | 1 <= n < |es| ensures CleanFor(id)(ss[n], es[n]) {
      assert !Opens(es[n], id);
    }
    FollowsFrom(t, s, e, CleanFor(id), ss, es);
  }

  lemma HasSnapshot(t: Pricing, s: Server, e: ServerEvent, id: string)
    requires Enabled(t, s, e) && Opens(e, id)
    ensures e.Create? || (e.Load? && e.id in s.disk)
  {
  }

  /** The write replaces the new session's files. */
  lemma Overwrites(t: Pricing, s: Server, e: ServerEvent, id: string, j: nat)
    returns (ss: seq<Server>, es: seq<ServerEvent>)
    requires Kept(t, s) && Enabled(t, s, e) && Opens(e, id)
    requires Live(s, j) && s.rooms[j].id == id && !Harmless(s.rooms[j], Snapshot(s, e))
    ensures Follows(t, s, e, CleanFor(id), ss, es) && !DiskIsPast(Last(ss), id)
    ensures es != [] && es[|es| - 1].Persist? && es[|es| - 1].room == j
  {
    hide AboutToDiverge, Harmless, Apply, Enabled, Kept, Follows, DiskIsPast, Last;
    HasSnapshot(t, s, e, id);
    var start := Snapshot(s, e);
    var k;
    ss, es, k := WriteAhead(t, s, e, id, j);
    var w := Last(ss);
    WriteDiverges(t, w, j, k, id, start);
    assert CleanFor(id)(w, Persist(j, k));
    hide Snapshot, Clean;
    ss, es := ExtendFollows(t, s, e, CleanFor(id), ss, es, Persist(j, k));
  }

  lemma ExtendFollows(t: Pricing, s: Server, e: ServerEvent, ok: (Server, ServerEvent) -> bool,
                      ss: seq<Server>, es: seq<ServerEvent>, x: ServerEvent)
    returns (ss': seq<Server>, es': seq<ServerEvent>)
    requires Follows(t, s, e, ok, ss, es) && Enabled(t, Last(ss), x) && ok(Last(ss), x)
    ensures Follows(t, s, e, ok, ss', es') && Last(ss') == Apply(t, Last(ss), x) && es' == es + [x]
  {
    hide Apply, Enabled;
    Extend(t, ss, es, x);
    ss', es' := ss + [Apply(t, Last(ss), x)], es + [x];
  }

  lemma StillLive(t: Pricing, s: Server, e: ServerEvent, j: nat)
    requires Enabled(t, s, e) && (e.Create? || e.Load?) && Live(s, j)
    ensures Live(Apply(t, s, e), j)
  {
  }

  lemma ShapedRoom(t: Pricing, s: Server, j: nat)
    requires Kept(t, s) && j < |s.rooms|
    ensures Shaped(t, s.rooms[j])
  {
  }

  lemma FollowsFrom(t: Pricing, s: Server, e: ServerEvent, ok: (Server, ServerEvent) -> bool,
                    ss: seq<Server>, es: seq<ServerEvent>)
    requires IsPath(t, ss, es) && Obeys(ss, es, 1, |es|, ok) && es != [] && ss[0] == s && es[0] == e
    ensures Follows(t, s, e, ok, ss, es)
  {
  }

  /** A session object just opened has one past state, the one it was opened as. */
  lemma OpenedPast(t: Pricing, s: Server, e: ServerEvent, id: string)
    requires Kept(t, s) && Enabled(t, s, e) && Opens(e, id)
    ensures var s' := Apply(t, s, e);
            && id in s'.disk && id in s'.registry && s'.registry[id] == |s.rooms| == |s'.rooms| - 1
            && (forall c :: WasIn(s'.rooms[|s.rooms|].past, c) <==> c == Snapshot(s, e))
            && (forall i :: 0 <= i < |s.rooms| ==> s'.rooms[i] == s.rooms[i])
  {
    hide Shaped, Tallied;
    var past := Apply(t, s, e).rooms[|s.rooms|].past;
    assert past[0].conv == Snapshot(s, e) by {
      if e.Load? {
        assert Stored(t, id, s.disk[id]);
      }
    }
  }

  lemma LagsIfClean(t: Pricing, s: Server, e: ServerEvent, id: string)
    requires Kept(t, s) && Enabled(t, s, e) && Opens(e, id) && Clean(s, e, id)
    ensures Always(t, s, e, CleanFor(id), (s: Server) => DiskIsPast(s, id))
  {
    hide Apply, Enabled, Named, AllShaped, Lagging, DiskIsPast, Clean;
    var inv := (s: Server) => Kept(t, s) && Lagging(s, id);
    forall s, e | inv(s) && CleanFor(id)(s, e) && Enabled(t, s, e) ensures inv(Apply(t, s, e)) {
      EventKept(t, s, e);
      EventLags(t, s, e, id);
    }
    forall s | inv(s) ensures DiskIsPast(s, id) {
      LaggingIsPast(s, id);
    }
    EventKept(t, s, e);
    OpenLags(t, s, e, id);
    KeptAlways(t, s, e, CleanFor(id), inv, (s: Server) => DiskIsPast(s, id));
  }

  lemma LaggingIsPast(s: Server, id: string)
    requires Lagging(s, id)
    ensures DiskIsPast(s, id)
  {
  }

  /**
   The disk never diverges. In any reachable state, creating or loading an id keeps what
   is stored for it a past or present state of the registered session, however things go
   on with clean reuse of the id, if and only if every live earlier session object of the
   id is harmless: no client can start a stream in it, and its unfinished streams, if
   any, are about to write just the session being opened.
   */
  lemma DiskIsPastIff(t: Pricing, ss: seq<Server>, es: seq<ServerEvent>, e: ServerEvent, id: string)
    requires IsRun(t, ss, es) && Opens(e, id) && Enabled(t, Last(ss), e)
    ensures Always(t, Last(ss), e, CleanFor(id), (s: Server) => DiskIsPast(s, id))
       <==> OthersHarmless(Last(ss), id, |Last(ss).rooms|, Snapshot(Last(ss), e))
  {
    hide Apply, Kept, DiskIsPast, Harmless;
    var s := Last(ss);
    RunsAreKept(t, ss, es, |es|);
    if OthersHarmless(s, id, |s.rooms|, Snapshot(s, e)) {
      LagsIfClean(t, s, e, id);
    } else {
      var j :| Live(s, j) && j != |s.rooms| && s.rooms[j].id == id && !Harmless(s.rooms[j], Snapshot(s, e));
      var ss', es' := Overwrites(t, s, e, id, j);
    }
  }

  // ---------- An id used again while a delete of it is under way ----------

  lemma StoredIfWaiting(t: Pricing, s: Server, e: ServerEvent, id: string)
    requires Named(s) && Enabled(t, s, e) && Opens(e, id) && id !in s.deleting
    ensures Always(t, s, e, WaitsFor(id), (s: Server) => RegistryStored(s, id))
  {
    hide Apply, Enabled, Named, Unclaimed, RegistryStored, Waits;
    var inv := (s: Server) => Named(s) && Unclaimed(s, id);
    forall s, e | inv(s) && WaitsFor(id)(s, e) && Enabled(t, s, e) ensures inv(Apply(t, s, e)) {
      EventNamed(t, s, e);
      EventUnclaimed(t, s, e, id);
    }
    forall s | inv(s) ensures RegistryStored(s, id) {
      UnclaimedIsStored(s, id);
    }
    EventNamed(t, s, e);
    OpensUnclaimed(t, s, e, id);
    KeptAlways(t, s, e, WaitsFor(id), inv, (s: Server) => RegistryStored(s, id));
  }

  /** The end of the pending delete takes the new session's directory away. */
  lemma LosesDirectory(t: Pricing, s: Server, e: ServerEvent, id: string)
    returns (ss: seq<Server>, es: seq<ServerEvent>)
    requires Enabled(t, s, e) && Opens(e, id) && id in s.deleting
    ensures Follows(t, s, e, WaitsFor(id), ss, es) && !RegistryStored(Last(ss), id)
  {
    hide Fresh, Saved;
    var s' := Apply(t, s, e);
    ss, es := [s, s', Apply(t, s', DeleteEnd(id))], [e, DeleteEnd(id)];
  }

  /**
   Every registered session is stored. In any reachable state, creating or loading an id
   keeps the registered session stored under its own id, however things go on with opens
   of the id that wait for its deletes, if and only if no delete of it is under way.
   */
  lemma RegistryStoredIff(t: Pricing, ss: seq<Server>, es: seq<ServerEvent>, e: ServerEvent, id: string)
    requires IsRun(t, ss, es) && Opens(e, id) && Enabled(t, Last(ss), e)
    ensures Always(t, Last(ss), e, WaitsFor(id), (s: Server) => RegistryStored(s, id)) <==> id !in Last(ss).deleting
  {
    hide Apply, Enabled, Named, RegistryStored;
    RunsAreNamed(t, ss, es, |es|);
    if id in Last(ss).deleting {
      var ss', es' := LosesDirectory(t, Last(ss), e, id);
    } else {
      StoredIfWaiting(t, Last(ss), e, id);
    }
  }

  // ---------- Runs from start-up that get there ----------

  const SAMPLE_CONFIG := CompletionConfig("p", "m", 1, None, None, Sampling(None, None, None, None), false)

  /** A new session "x" that summarises after every record. */
  function Sample(t: Pricing): Conv {
    Conv("x", 0, SAMPLE_CONFIG, BillingFor(t, "p", "m"), SAMPLE_CONFIG, Metered(BillingFor(t, "p", "m")),
         Rolling(1, "s"), NO_SUMMARY, [], map[], map[])
  }

  function NewEngine(t: Pricing): Engine {
    Engine(Sample(t), [], [], 0)
  }

  lemma SampleFresh(t: Pricing)
    requires ValidPricing(t)
    ensures Fresh(t, Sample(t)) && Erase(Sample(t)) == Sample(t)
  {
  }

  /** One more event. */
  lemma Next(t: Pricing, ss: seq<Server>, es: seq<ServerEvent>, e: ServerEvent)
    returns (ss': seq<Server>, es': seq<ServerEvent>)
    requires IsRun(t, ss, es) && Enabled(t, Last(ss), e)
    ensures IsRun(t, ss', es') && ss' == ss + [Apply(t, Last(ss), e)] && es' == es + [e]
    ensures |ss'| == |es'| + 1
  {
    hide Apply, Enabled;
    Extend(t, ss, es, e);
    ss', es' := ss + [Apply(t, Last(ss), e)], es + [e];
  }

  /** A run and a path from its end are a run. */
  lemma {:induction false} Joined(t: Pricing, ss: seq<Server>, es: seq<ServerEvent>, more: seq<Server>,
                                  events: seq<ServerEvent>)
    requires IsRun(t, ss, es) && IsPath(t, more, events) && more[0] == Last(ss)
    ensures IsRun(t, ss + more[1..], es + events) && Last(ss + more[1..]) == Last(more)
  {
    hide Apply, Enabled;
    var all, evs := ss + more[1..], es + events;
    forall i | 0 <= i < |evs| ensures Enabled(t, all[i], evs[i]) && all[i + 1] == Apply(t, all[i], evs[i]) {
      if i < |es| {
        assert all[i] == ss[i] && all[i + 1] == ss[i + 1] && evs[i] == es[i];
      } else {
        assert all[i] == more[i - |es|] && all[i + 1] == more[i - |es| + 1] && evs[i] == events[i - |es|];
      }
    }
  }

  /** The server with the sample session stored and registered, its room as given. */
  function Hosting(t: Pricing, r: Room): Server {
    Server([r], 0, map["x" := 0], map["x" := NewEngine(t)], multiset{})
  }

  function SampleRoom(t: Pricing, tasks: seq<Phase>, handlers: seq<Handler>, ws: Option<nat>, stream: Option<nat>): Room
  {
    Room("x", NewEngine(t), tasks, handlers, ws, stream, [NewEngine(t)])
  }

  lemma Created(t: Pricing) returns (ss: seq<Server>, es: seq<ServerEvent>)
    requires ValidPricing(t)
    ensures IsRun(t, ss, es) && Last(ss) == Hosting(t, SampleRoom(t, [], [], None, None))
    ensures es == [Create(Sample(t))] && |ss| == 2
  {
    SampleFresh(t);
    assert IsRun(t, [BOOTED], []);
    ss, es := Next(t, [BOOTED], [], Create(Sample(t)));
    assert Saved(NewEngine(t)) == NewEngine(t);
  }

  /** One more event in the only room. */
  lemma NextInRoom(t: Pricing, ss: seq<Server>, es: seq<ServerEvent>, r: Room, ev: LocalEvent)
    returns (ss': seq<Server>, es': seq<ServerEvent>)
    requires IsRun(t, ss, es) && Last(ss) == Hosting(t, r) && r.id == "x" && LocalEnabled(r, ev)
    ensures IsRun(t, ss', es') && ss' == ss + [Hosting(t, Local(r, ev))] && es' == es + [InRoom(0, ev)]
    ensures |ss'| == |es'| + 1
  {
    hide Local, LocalEnabled;
    ss', es' := Next(t, ss, es, InRoom(0, ev));
    assert [r][0 := Local(r, ev)] == [Local(r, ev)];
  }

  /** Two clients find the socket free before either handshake completes. */
  lemma TwoAccepting(t: Pricing) returns (ss: seq<Server>, es: seq<ServerEvent>)
    requires ValidPricing(t)
    ensures IsRun(t, ss, es) && |ss| == 4 && es == [Create(Sample(t)), InRoom(0, Connect), InRoom(0, Connect)]
    ensures ss[3] == Hosting(t, SampleRoom(t, [], [Accepting, Accepting], None, None))
  {
    hide IsRun;
    ss, es := Created(t);
    ss, es := NextInRoom(t, ss, es, SampleRoom(t, [], [], None, None), Connect);
    assert [] + [Accepting] == [Accepting];
    ss, es := NextInRoom(t, ss, es, SampleRoom(t, [], [Accepting], None, None), Connect);
    assert [Accepting] + [Accepting] == [Accepting, Accepting];
  }

  /** The first one's handshake completes. */
  lemma SocketTaken(t: Pricing) returns (ss: seq<Server>, es: seq<ServerEvent>)
    requires ValidPricing(t)
    ensures IsRun(t, ss, es) && Obeys(ss, es, 0, |es|, FreeAtRoom(0)) && Obeys(ss, es, 0, |es|, FreeForId("x"))
    ensures Last(ss) == Hosting(t, SampleRoom(t, [], [Serving, Accepting], Some(0), None))
    ensures Enabled(t, Last(ss), InRoom(0, AcceptDone(1)))
  {
    hide IsRun;
    ss, es := TwoAccepting(t);
    ss, es := NextInRoom(t, ss, es, SampleRoom(t, [], [Accepting, Accepting], None, None), AcceptDone(0));
    assert [Accepting, Accepting][0 := Serving] == [Serving, Accepting];
    assert LocalEnabled(SampleRoom(t, [], [Serving, Accepting], Some(0), None), AcceptDone(1));
  }

  /** So two streams of one session can run at once, */
  lemma TwoStreams(t: Pricing) returns (ss: seq<Server>, es: seq<ServerEvent>)
    requires ValidPricing(t)
    ensures IsRun(t, ss, es) && |Last(ss).rooms| == 1 && TwoRunning(Last(ss).rooms[0])
  {
    hide IsRun, Leads, TwoRunning;
    ss, es := SocketTaken(t);
    var e := InRoom(0, AcceptDone(1));
    HandshakeEnabled(t, Last(ss), 0, 1);
    var evs, r := TwoStreamsFrom(Last(ss).rooms[0], 1);
    var more, events := After(t, Last(ss), e, 0, evs, r);
    Joined(t, ss, es, more, events);
    ss, es := ss + more[1..], es + events;
  }

  /** and a recorded query can be lost between summary and context. */
  lemma LostQuery(t: Pricing) returns (ss: seq<Server>, es: seq<ServerEvent>)
    requires ValidPricing(t)
    ensures IsRun(t, ss, es) && !NothingLostAt(Last(ss), 0)
  {
    hide Always, IsRun;
    ss, es := SocketTaken(t);
    NothingLostIff(t, ss, es, 0, 1);
    ss, es := BadRun(t, ss, es, InRoom(0, AcceptDone(1)), FreeAtRoom(0), (s: Server) => NothingLostAt(s, 0));
  }

  /** What does not always hold after a reachable state fails on some run. */
  lemma BadRun(t: Pricing, ss: seq<Server>, es: seq<ServerEvent>, e: ServerEvent,
               ok: (Server, ServerEvent) -> bool, p: Server -> bool)
    returns (ss': seq<Server>, es': seq<ServerEvent>)
    requires IsRun(t, ss, es) && !Always(t, Last(ss), e, ok, p)
    ensures IsRun(t, ss', es') && !p(Last(ss'))
  {
    var more, events :| Follows(t, Last(ss), e, ok, more, events) && !p(Last(more));
    Joined(t, ss, es, more, events);
    ss', es' := ss + more[1..], es + events;
  }

  /** A connected client has sent a message when a delete of the session begins. */
  lemma DeleteWhileStreaming(t: Pricing) returns (ss: seq<Server>, es: seq<ServerEvent>)
    requires ValidPricing(t)
    ensures IsRun(t, ss, es)
    ensures Last(ss) == Server([SampleRoom(t, [Ready("a")], [Serving], Some(0), Some(0))], 0, map[],
                               map["x" := NewEngine(t)], multiset{"x"})
  {
    hide IsRun;
    ss, es := Created(t);
    ss, es := NextInRoom(t, ss, es, SampleRoom(t, [], [], None, None), Connect);
    assert [] + [Accepting] == [Accepting];
    ss, es := NextInRoom(t, ss, es, SampleRoom(t, [], [Accepting], None, None), AcceptDone(0));
    assert [Accepting][0 := Serving] == [Serving];
    ss, es := NextInRoom(t, ss, es, SampleRoom(t, [], [Serving], Some(0), None), SendFrame(0, "a"));
    assert [] + [Ready("a")] == [Ready("a")];
    assert Last(ss) == Hosting(t, SampleRoom(t, [Ready("a")], [Serving], Some(0), Some(0)));
    ss, es := Next(t, ss, es, DeleteBegin("x"));
  }

  /** The session is deleted and created again: its old stream can write into the new session's directory. */
  lemma OldStreamOverwrites(t: Pricing) returns (ss: seq<Server>, es: seq<ServerEvent>)
    requires ValidPricing(t)
    ensures IsRun(t, ss, es) && !DiskIsPast(Last(ss), "x")
    ensures Create(Sample(t)) in es && es[|es| - 1].Persist? && es[|es| - 1].room == 0
  {
    hide IsRun, Follows;
    SampleFresh(t);
    ss, es := DeleteWhileStreaming(t);
    ss, es := Next(t, ss, es, DeleteEnd("x"));
    var s, e := Last(ss), Create(Sample(t));
    assert s.rooms == [SampleRoom(t, [Ready("a")], [Serving], Some(0), Some(0))];
    assert Live(s, 0) && s.rooms[0].handlers[0].Serving?;
    assert !Harmless(s.rooms[0], Sample(t));
    RunsAreKept(t, ss, es, |es|);
    var more, events := Overwrites(t, s, e, "x", 0);
    assert IsPath(t, more, events) && more[0] == s && events[0] == e by {
      FollowsIs(t, s, e, CleanFor("x"), more, events);
    }
    Joined(t, ss, es, more, events);
    ss, es := ss + more[1..], es + events;
    assert events[0] in events;
  }

  lemma FollowsIs(t: Pricing, s: Server, e: ServerEvent, ok: (Server, ServerEvent) -> bool,
                  ss: seq<Server>, es: seq<ServerEvent>)
    requires Follows(t, s, e, ok, ss, es)
    ensures IsPath(t, ss, es) && es != [] && ss[0] == s && es[0] == e
  {
  }

  /** A load while the delete waits for the socket registers a session whose directory is about to go. */
  lemma LoadDuringDelete(t: Pricing) returns (ss: seq<Server>, es: seq<ServerEvent>)
    requires ValidPricing(t)
    ensures IsRun(t, ss, es) && |es| >= 2 && es[|es| - 2..] == [Load("x"), DeleteEnd("x")]
    ensures "x" in Last(ss).registry && Last(ss).registry["x"] == 1 && "x" !in Last(ss).disk
    ensures |Last(ss).rooms| == 2 && Last(ss).rooms[1] == Opened(NewEngine(t)) && !RegistryStored(Last(ss), "x")
  {
    hide IsRun;
    ss, es := DeleteWhileStreaming(t);
    ss, es := Next(t, ss, es, Load("x"));
    ss, es := Next(t, ss, es, DeleteEnd("x"));
  }

  /** So does a create, once a second delete has removed the directory without waiting. */
  lemma CreateDuringDelete(t: Pricing) returns (ss: seq<Server>, es: seq<ServerEvent>)
    requires ValidPricing(t)
    ensures IsRun(t, ss, es) && |es| >= 2 && es[|es| - 2..] == [Create(Sample(t)), DeleteEnd("x")]
    ensures "x" in Last(ss).registry && Last(ss).registry["x"] == 1 && "x" !in Last(ss).disk
    ensures |Last(ss).rooms| == 2 && Last(ss).rooms[1] == Opened(NewEngine(t)) && !RegistryStored(Last(ss), "x")
  {
    hide IsRun;
    SampleFresh(t);
    hide Fresh;
    ss, es := DeleteWhileStreaming(t);
    ss, es := Next(t, ss, es, DeleteBegin("x"));
    ss, es := Next(t, ss, es, Create(Sample(t)));
    ss, es := Next(t, ss, es, DeleteEnd("x"));
  }
}
