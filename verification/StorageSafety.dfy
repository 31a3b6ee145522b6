/**
 What the disk and the registry promise over runs: a stored session lags behind the live
 one and never diverges, deleted ids stay away, a registered session is stored. Every
 condition concerns one id only. None of this needs single streams.
 */
module StorageSafety {
  import opened UsageStats
  import opened Billing
  import opened Records
  import opened Conversation
  import opened Engine
  import opened Server

  // ---------- Session objects and their past ----------

  /** The session's bookkeeping, and a past whose states are all behind the present one. */
  ghost predicate Shaped(t: Pricing, r: Room) {
    && Tallied(t, r.engine)
    && r.engine.conv.id == r.id
    && NoPaths(r.engine.conv) == r.engine.conv
    && (forall k :: 0 <= k < |r.tasks| ==> WellShaped(r.engine, r.tasks[k]))
    && Saved(r.engine) in r.past
    && (forall p :: p in r.past ==> Behind(p, r.engine) && Tallied(t, p))
  }

  ghost predicate Stored(t: Pricing, id: string, e: Engine) {
    Tallied(t, e) && e.conv.id == id && Saved(e) == e
  }

  lemma SavedTallied(t: Pricing, e: Engine)
    requires Tallied(t, e)
    ensures Tallied(t, Saved(e)) && Saved(Saved(e)) == Saved(e)
  {
  }

  lemma StepShaped(t: Pricing, r: Room, k: nat, a: Act)
    requires Shaped(t, r) && LocalEnabled(r, Step(k, a))
    ensures Shaped(t, Local(r, Step(k, a)))
  {
    hide Tallied;
    var x := Act1(r.engine, r.tasks[k], a);
    var r' := Local(r, Step(k, a));
    assert Tallied(t, x.0) by {
      StepTallied(t, r.engine, r.tasks[k], a);
    }
    SavedTallied(t, x.0);
    ValidOf(t, r.engine);
    StepGrows(r.engine, r.tasks[k], a);
    hide Act1, CanDo;
    forall p | p in r'.past ensures Behind(p, r'.engine) && Tallied(t, p) {
      if p in r.past {
        assert Behind(p, r.engine);
      }
    }
    assert r'.past[|r.past|] == Saved(x.0);
    forall j | 0 <= j < |r'.tasks| ensures WellShaped(r'.engine, r'.tasks[j]) {
      if j != k {
        assert WellShaped(r.engine, r.tasks[j]);
      }
    }
  }

  lemma ValidOf(t: Pricing, e: Engine)
    requires Tallied(t, e)
    ensures e.conv.Valid()
  {
  }

  lemma LocalShaped(t: Pricing, r: Room, ev: LocalEvent)
    requires Shaped(t, r) && LocalEnabled(r, ev)
    ensures Shaped(t, Local(r, ev)) && Local(r, ev).id == r.id && r.past <= Local(r, ev).past
  {
    hide Tallied, Act1;
    if ev.Step? {
      StepShaped(t, r, ev.k, ev.act);
    }
  }

  lemma OpenedShaped(t: Pricing, e: Engine)
    requires Tallied(t, e) && NoPaths(e.conv) == e.conv
    ensures Shaped(t, Opened(e))
  {
    SavedTallied(t, e);
  }

  /** All session objects and all stored sessions are shaped, on every run. */
  ghost predicate AllShaped(t: Pricing, s: Server) {
    && (forall i :: 0 <= i < |s.rooms| ==> Shaped(t, s.rooms[i]))
    && (forall id :: id in s.disk ==> Stored(t, id, s.disk[id]))
  }

  lemma FreshTallied(t: Pricing, c: Conv)
    requires Fresh(t, c)
    ensures Tallied(t, Engine(c, [], [], 0)) && Stored(t, c.id, Saved(Engine(c, [], [], 0))) && NoPaths(c) == c
  {
  }

  lemma SavedStored(t: Pricing, r: Room)
    requires Shaped(t, r)
    ensures Stored(t, r.id, Saved(r.engine))
  {
    SavedTallied(t, r.engine);
  }

  lemma EndedShaped(t: Pricing, r: Room, k: nat, p: Phase)
    requires Shaped(t, r) && k < |r.tasks| && p.Over()
    ensures Shaped(t, r.(tasks := r.tasks[k := p]))
  {
  }

  lemma OpenShaped(t: Pricing, s: Server, e: ServerEvent)
    requires AllShaped(t, s) && Enabled(t, s, e) && (e.Create? || e.Load?)
    ensures AllShaped(t, Apply(t, s, e))
  {
    hide Shaped, Fresh, Tallied;
    match e {
      case Create(c) =>
        FreshTallied(t, c);
        OpenedShaped(t, Engine(c, [], [], 0));
      case Load(id) =>
        assert Stored(t, id, s.disk[id]);
        OpenedShaped(t, s.disk[id]);
    }
  }

  lemma EventShaped(t: Pricing, s: Server, e: ServerEvent)
    requires AllShaped(t, s) && Enabled(t, s, e)
    ensures AllShaped(t, Apply(t, s, e))
  {
    hide Shaped, Local, LocalEnabled, Fresh, Tallied, Opened, Stored, Admit, Saved;
    match e {
      case InRoom(i, ev) =>
        LocalShaped(t, s.rooms[i], ev);
      case Persist(i, k) =>
        SavedStored(t, s.rooms[i]);
        EndedShaped(t, s.rooms[i], k, Finished);
        EndedShaped(t, s.rooms[i], k, Abandoned);
      case DeleteBegin(_) =>
      case DeleteEnd(_) =>
      case Restart =>
      case _ =>
        OpenShaped(t, s, e);
    }
  }

  lemma {:induction false} RunsAreShaped(t: Pricing, ss: seq<Server>, es: seq<ServerEvent>, n: nat)
    requires IsRun(t, ss, es) && n < |ss|
    ensures AllShaped(t, ss[n])
  {
    hide Apply, Enabled, Stored, Shaped;
    if n > 0 {
      RunsAreShaped(t, ss, es, n - 1);
      EventShaped(t, ss[n - 1], es[n - 1]);
    }
  }

  /** Every amount a session shows is what the table charges for the usage shown; no cost exactly for unpriced pairs. */
  lemma CostsMatchTable(t: Pricing, ss: seq<Server>, es: seq<ServerEvent>, n: nat, i: nat,
                        provider: string, model: string)
    requires IsRun(t, ss, es) && n < |ss| && i < |ss[n].rooms|
    ensures ValidPricing(t)
    ensures var row := Lookup(ss[n].rooms[i].engine.conv.lifecycle, provider, model);
            row.Some? ==> && Priced(t, provider, model, row.value)
                          && (row.value.cost.None? <==> (provider, model) !in t)
                          && (row.value.cost.Some? ==>
                                AtRates(t[(provider, model)], row.value.usage, row.value.cost.value))
  {
    RunsAreShaped(t, ss, es, n);
    assert Shaped(t, ss[n].rooms[i]);
    BillingHomomorphism(t, ss[n].rooms[i].engine.log, provider, model);
  }

  /** The record chain is intact in every session object of every run, restarts included. */
  lemma ChainsIntact(t: Pricing, ss: seq<Server>, es: seq<ServerEvent>, n: nat, i: nat)
    requires IsRun(t, ss, es) && n < |ss| && i < |ss[n].rooms|
    ensures Chain(ss[n].rooms[i].engine.conv.records)
  {
    RunsAreShaped(t, ss, es, n);
    assert Shaped(t, ss[n].rooms[i]);
  }

  // ---------- The disk lags ----------

  /** The event makes a new session object of the id. */
  predicate Opens(e: ServerEvent, id: string) {
    (e.Create? && e.conv.id == id) || (e.Load? && e.id == id)
  }

  /** The session that the new object starts as. */
  ghost function Snapshot(s: Server, e: ServerEvent): Conv
    requires (e.Load? && e.id in s.disk) || e.Create?
  {
    if e.Create? then e.conv else s.disk[e.id].conv
  }

  /**
   Nothing the room can still do writes anything but `stored`: no client can start a
   stream in it, and a stream that has not ended has only its write before it.
   */
  ghost predicate Harmless(r: Room, stored: Conv) {
    && (forall h :: 0 <= h < |r.handlers| ==> !r.handlers[h].Accepting? && !r.handlers[h].Serving?)
    && (forall k :: 0 <= k < |r.tasks| && !r.tasks[k].Over() ==> r.tasks[k].Closing? && Erase(r.engine.conv) == stored)
  }

  /** The other live session objects of the id are harmless. */
  ghost predicate OthersHarmless(s: Server, id: string, n: nat, stored: Conv) {
    forall j :: Live(s, j) && j != n && s.rooms[j].id == id ==> Harmless(s.rooms[j], stored)
  }

  /** The id is created or loaded only while its earlier session objects are harmless. */
  ghost predicate Clean(s: Server, e: ServerEvent, id: string) {
    Opens(e, id) && (e.Load? ==> id in s.disk) ==> OthersHarmless(s, id, |s.rooms|, Snapshot(s, e))
  }

  ghost function CleanFor(id: string): (Server, ServerEvent) -> bool {
    (s: Server, e: ServerEvent) => Clean(s, e, id)
  }

  ghost predicate WasIn(past: seq<Engine>, c: Conv) {
    exists i :: 0 <= i < |past| && past[i].conv == c
  }

  /** What is stored for the registered session of the id is a state that session has been in. */
  ghost predicate DiskIsPast(s: Server, id: string) {
    id in s.registry && id in s.disk ==>
      s.registry[id] < |s.rooms| && WasIn(s.rooms[s.registry[id]].past, s.disk[id].conv)
  }

  ghost predicate Lagging(s: Server, id: string) {
    id in s.registry ==>
      var n := s.registry[id];
      && n < |s.rooms| && s.rooms[n].past != []
      && OthersHarmless(s, id, n, s.rooms[n].past[0].conv)
      && (id in s.disk ==> WasIn(s.rooms[n].past, s.disk[id].conv))
  }

  lemma HarmlessKept(r: Room, ev: LocalEvent, stored: Conv)
    requires Harmless(r, stored) && LocalEnabled(r, ev) && !ev.Connect?
    ensures Harmless(Local(r, ev), stored)
  {
    hide Erase;
    if ev.Step? {
      assert !r.tasks[ev.k].Over();
    }
  }

  lemma WasInLonger(past: seq<Engine>, longer: seq<Engine>, c: Conv)
    requires past <= longer && WasIn(past, c)
    ensures WasIn(longer, c)
  {
    var i :| 0 <= i < |past| && past[i].conv == c;
    assert longer[i] == past[i];
  }

  lemma OpenLags(t: Pricing, s: Server, e: ServerEvent, id: string)
    requires AllShaped(t, s) && Enabled(t, s, e) && Opens(e, id) && Clean(s, e, id)
    ensures Lagging(Apply(t, s, e), id)
  {
    hide Harmless, Tallied, Shaped;
    var s' := Apply(t, s, e);
    var n := |s.rooms|;
    assert s'.rooms[n].past[0].conv == Snapshot(s, e) == s'.disk[id].conv by {
      if e.Load? {
        assert Stored(t, id, s.disk[id]);
      }
    }
    assert WasIn(s'.rooms[n].past, s'.disk[id].conv);
  }

  lemma OtherOpenLags(t: Pricing, s: Server, e: ServerEvent, id: string)
    requires Lagging(s, id) && Enabled(t, s, e) && (e.Create? || e.Load?) && !Opens(e, id)
    requires e.Load? ==> Named(s)
    ensures Lagging(Apply(t, s, e), id)
  {
    hide Harmless, Fresh, WasIn;
  }

  lemma InRoomLags(t: Pricing, s: Server, i: nat, ev: LocalEvent, id: string)
    requires AllShaped(t, s) && Named(s) && Lagging(s, id) && Enabled(t, s, InRoom(i, ev))
    ensures Lagging(Apply(t, s, InRoom(i, ev)), id)
  {
    hide Harmless, Local, LocalEnabled, Shaped, Named, WasIn;
    if id in s.registry {
      var n := s.registry[id];
      RegisteredRoom(s, id);
      LocalShaped(t, s.rooms[i], ev);
      var r' := Local(s.rooms[i], ev);
      if i == n {
        if id in s.disk {
          WasInLonger(s.rooms[n].past, r'.past, s.disk[id].conv);
        }
      } else if s.rooms[i].id == id {
        HarmlessKept(s.rooms[i], ev, s.rooms[n].past[0].conv);
      }
    }
  }

  lemma RegisteredRoom(s: Server, id: string)
    requires Named(s) && id in s.registry
    ensures Live(s, s.registry[id]) && s.rooms[s.registry[id]].id == id
  {
  }

  lemma SavedIsPast(t: Pricing, r: Room)
    requires Shaped(t, r)
    ensures WasIn(r.past, Saved(r.engine).conv)
  {
    var i :| 0 <= i < |r.past| && r.past[i] == Saved(r.engine);
  }

  lemma WriterIsHarmless(r: Room, k: nat, stored: Conv)
    requires Harmless(r, stored) && k < |r.tasks| && r.tasks[k].Closing?
    ensures Saved(r.engine).conv == stored
    ensures Harmless(r.(tasks := r.tasks[k := Finished]), stored)
    ensures Harmless(r.(tasks := r.tasks[k := Abandoned]), stored)
  {
  }

  /** The registered room writes one of its own states. */
  lemma OwnWriteLags(t: Pricing, s: Server, k: nat, id: string)
    requires Named(s) && Lagging(s, id) && id in s.registry && Enabled(t, s, Persist(s.registry[id], k))
    requires Shaped(t, s.rooms[s.registry[id]])
    ensures Lagging(Apply(t, s, Persist(s.registry[id], k)), id)
  {
    RegisteredRoom(s, id);
    SavedIsPast(t, s.rooms[s.registry[id]]);
    hide Harmless, Shaped, Named, WasIn, Saved;
  }

  /** Another room of the id, being harmless, writes the session the registered one was opened as. */
  lemma OtherWriteLags(t: Pricing, s: Server, i: nat, k: nat, id: string)
    requires Named(s) && Lagging(s, id) && id in s.registry && i != s.registry[id] && Enabled(t, s, Persist(i, k))
    ensures Lagging(Apply(t, s, Persist(i, k)), id)
  {
    RegisteredRoom(s, id);
    var past := s.rooms[s.registry[id]].past;
    OpenedIsPast(past);
    if s.rooms[i].id == id {
      WriterIsHarmless(s.rooms[i], k, past[0].conv);
    }
    hide Harmless, Named, WasIn, Saved;
  }

  lemma PersistLags(t: Pricing, s: Server, i: nat, k: nat, id: string)
    requires AllShaped(t, s) && Named(s) && Lagging(s, id) && Enabled(t, s, Persist(i, k))
    ensures Lagging(Apply(t, s, Persist(i, k)), id)
  {
    hide Lagging, Shaped, Named;
    if id !in s.registry {
      NotRegistered(Apply(t, s, Persist(i, k)), id);
    } else if i == s.registry[id] {
      OwnWriteLags(t, s, k, id);
    } else {
      OtherWriteLags(t, s, i, k, id);
    }
  }

  lemma NotRegistered(s: Server, id: string)
    requires id !in s.registry
    ensures Lagging(s, id)
  {
  }

  lemma OpenedIsPast(past: seq<Engine>)
    requires past != []
    ensures WasIn(past, past[0].conv)
  {
  }

  lemma EventLags(t: Pricing, s: Server, e: ServerEvent, id: string)
    requires AllShaped(t, s) && Named(s) && Lagging(s, id) && Clean(s, e, id) && Enabled(t, s, e)
    ensures Lagging(Apply(t, s, e), id)
  {
    hide AllShaped, Shaped, Local, LocalEnabled, Fresh, Harmless, WasIn;
    match e {
      case InRoom(i, ev) =>
        InRoomLags(t, s, i, ev, id);
      case Persist(i, k) =>
        PersistLags(t, s, i, k, id);
      case DeleteBegin(_) =>
      case DeleteEnd(_) =>
      case Restart =>
      case _ =>
        if Opens(e, id) {
          OpenLags(t, s, e, id);
        } else {
          OtherOpenLags(t, s, e, id);
        }
    }
  }

  /** The bookkeeping on which every argument about one id rests. */
  ghost predicate Kept(t: Pricing, s: Server) {
    Named(s) && AllShaped(t, s)
  }

  lemma EventKept(t: Pricing, s: Server, e: ServerEvent)
    requires Kept(t, s) && Enabled(t, s, e)
    ensures Kept(t, Apply(t, s, e))
  {
    hide Apply, Enabled, Named, AllShaped;
    EventNamed(t, s, e);
    EventShaped(t, s, e);
  }

  lemma RunsAreKept(t: Pricing, ss: seq<Server>, es: seq<ServerEvent>, n: nat)
    requires IsRun(t, ss, es) && n < |ss|
    ensures Kept(t, ss[n])
  {
    RunsAreNamed(t, ss, es, n);
    RunsAreShaped(t, ss, es, n);
  }

  lemma LagsAlong(t: Pricing, ss: seq<Server>, es: seq<ServerEvent>, n: nat, id: string)
    requires IsRun(t, ss, es) && n < |ss| && Obeys(ss, es, 0, n, CleanFor(id))
    ensures Lagging(ss[n], id)
  {
    hide Apply, Enabled, Kept, Lagging, Clean;
    var inv := (s: Server) => Kept(t, s) && Lagging(s, id);
    forall s, e | inv(s) && CleanFor(id)(s, e) && Enabled(t, s, e) ensures inv(Apply(t, s, e)) {
      EventKept(t, s, e);
      assert Lagging(Apply(t, s, e), id) by {
        KeptParts(t, s);
        EventLags(t, s, e, id);
      }
    }
    RunsAreKept(t, ss, es, 0);
    assert Lagging(BOOTED, id) by {
      NothingLags(id);
    }
    Along(t, ss, es, 0, n, CleanFor(id), inv);
  }

  lemma KeptParts(t: Pricing, s: Server)
    requires Kept(t, s)
    ensures Named(s) && AllShaped(t, s)
  {
  }

  lemma NothingLags(id: string)
    ensures Lagging(BOOTED, id)
  {
  }

  /** The stored session is nowhere ahead of the live one: fewer records, smaller amounts, an anchor of its own. */
  ghost predicate NeverAhead(stored: Conv, live: Conv) {
    && stored.records <= live.records
    && (forall p, m :: AtMost(Lookup(stored.lifecycle, p, m), Lookup(live.lifecycle, p, m)))
    && (stored.summary.anchor.Some? ==> !FreshId(stored.records, stored.summary.anchor.value))
  }

  lemma PastIsBehind(t: Pricing, r: Room, stored: Conv)
    requires Shaped(t, r) && WasIn(r.past, stored)
    ensures NeverAhead(stored, r.engine.conv)
  {
    hide AtMost, Accumulate, Chain;
    var i :| 0 <= i < |r.past| && r.past[i].conv == stored;
    assert r.past[i] in r.past;
    forall p, m ensures AtMost(Lookup(stored.lifecycle, p, m), Lookup(r.engine.conv.lifecycle, p, m)) {
      BehindShowsLess(t, r.past[i], r.engine, p, m);
    }
  }

  /** Clean reuse of the id is enough, whatever happens to other ids. */
  lemma DiskLagsWhenClean(t: Pricing, ss: seq<Server>, es: seq<ServerEvent>, n: nat, id: string)
    requires IsRun(t, ss, es) && n < |ss| && Obeys(ss, es, 0, n, CleanFor(id))
    requires id in ss[n].registry && id in ss[n].disk
    ensures DiskIsPast(ss[n], id) && ss[n].registry[id] < |ss[n].rooms|
    ensures NeverAhead(ss[n].disk[id].conv, ss[n].rooms[ss[n].registry[id]].engine.conv)
  {
    hide NeverAhead, Shaped;
    LagsAlong(t, ss, es, n, id);
    RunsAreShaped(t, ss, es, n);
    PastIsBehind(t, ss[n].rooms[ss[n].registry[id]], ss[n].disk[id].conv);
  }

  // ---------- Until a delete begins ----------

  /** No delete of the id has begun: its one live session object is the registered one, and is stored. */
  ghost predicate Single(s: Server, id: string) {
    && (forall j :: Live(s, j) && s.rooms[j].id == id ==> id in s.registry && s.registry[id] == j)
    && (id in s.registry ==> id in s.disk)
    && id !in s.deleting
  }

  ghost function NoDelete(id: string): (Server, ServerEvent) -> bool {
    (s: Server, e: ServerEvent) => e != DeleteBegin(id)
  }

  lemma EventSingle(t: Pricing, s: Server, e: ServerEvent, id: string)
    requires Named(s) && Single(s, id) && e != DeleteBegin(id) && Enabled(t, s, e)
    ensures Single(Apply(t, s, e), id)
  {
    hide Local, LocalEnabled, Fresh, Saved, Named, Admit;
    match e {
      case InRoom(i, ev) =>
        LocalKeepsId(s.rooms[i], ev);
      case Persist(_, _) =>
      case DeleteBegin(_) =>
      case DeleteEnd(_) =>
      case Restart =>
      case _ =>
        OpenSingle(t, s, e, id);
    }
  }

  lemma OpenSingle(t: Pricing, s: Server, e: ServerEvent, id: string)
    requires Named(s) && Single(s, id) && (e.Create? || e.Load?) && Enabled(t, s, e)
    ensures Single(Apply(t, s, e), id)
  {
    hide Fresh, Saved;
  }

  /** While no delete of an id begins, the id is reused cleanly: only a restart lets it be loaded again. */
  lemma SingleIsClean(t: Pricing, s: Server, e: ServerEvent, id: string)
    requires Single(s, id) && Enabled(t, s, e)
    ensures Clean(s, e, id)
  {
  }

  lemma SingleAlong(t: Pricing, ss: seq<Server>, es: seq<ServerEvent>, n: nat, id: string)
    requires IsRun(t, ss, es) && n < |ss| && Obeys(ss, es, 0, n, NoDelete(id))
    ensures Single(ss[n], id)
  {
    hide Apply, Enabled, Named, Single;
    var inv := (s: Server) => Named(s) && Single(s, id);
    forall s, e | inv(s) && NoDelete(id)(s, e) && Enabled(t, s, e) ensures inv(Apply(t, s, e)) {
      EventNamed(t, s, e);
      EventSingle(t, s, e, id);
    }
    RunsAreNamed(t, ss, es, 0);
    assert Single(BOOTED, id) by {
      NothingSingle(id);
    }
    Along(t, ss, es, 0, n, NoDelete(id), inv);
  }

  lemma NothingSingle(id: string)
    ensures Single(BOOTED, id)
  {
  }

  /**
   Disk lags but never diverges, on every run and until a delete of the id begins: a
   registered session is stored, and what is stored is one of its past or present
   states. Its records are a prefix of the live ones, its tokens and costs are nowhere
   larger, and its anchor, if any, belongs to a stored record.
   */
  lemma DiskLags(t: Pricing, ss: seq<Server>, es: seq<ServerEvent>, n: nat, id: string)
    requires IsRun(t, ss, es) && n < |ss| && Obeys(ss, es, 0, n, NoDelete(id))
    requires id in ss[n].registry
    ensures id in ss[n].disk && DiskIsPast(ss[n], id) && ss[n].registry[id] < |ss[n].rooms|
    ensures NeverAhead(ss[n].disk[id].conv, ss[n].rooms[ss[n].registry[id]].engine.conv)
  {
    SingleAlong(t, ss, es, n, id);
    hide Single, Clean, Apply, Enabled, NeverAhead;
    forall i | 0 <= i < n ensures CleanFor(id)(ss[i], es[i]) {
      SingleAlong(t, ss, es, i, id);
      SingleIsClean(t, ss[i], es[i], id);
    }
    assert id in ss[n].disk by {
      SingleStores(ss[n], id);
    }
    DiskLagsWhenClean(t, ss, es, n, id);
  }

  lemma SingleStores(s: Server, id: string)
    requires Single(s, id) && id in s.registry
    ensures id in s.disk
  {
  }

  /** A later stored session extends the history of an earlier one and shows no smaller amount. */
  ghost predicate Extends(later: Conv, earlier: Conv) {
    && earlier.records <= later.records
    && (forall p, m :: AtMost(Lookup(earlier.lifecycle, p, m), Lookup(later.lifecycle, p, m)))
  }

  lemma ExtendsTransitive(a: Conv, b: Conv, c: Conv)
    requires Extends(b, a) && Extends(c, b)
    ensures Extends(c, a)
  {
    forall p, m ensures AtMost(Lookup(a.lifecycle, p, m), Lookup(c.lifecycle, p, m)) {
      assert AtMost(Lookup(a.lifecycle, p, m), Lookup(b.lifecycle, p, m));
      assert AtMost(Lookup(b.lifecycle, p, m), Lookup(c.lifecycle, p, m));
    }
  }

  lemma ExtendsItself(c: Conv)
    ensures Extends(c, c)
  {
  }

  /** Only a write of the id's one live session object changes what is stored for it. */
  lemma WhoWrites(t: Pricing, s: Server, e: ServerEvent, id: string)
    requires Named(s) && Single(s, id) && Enabled(t, s, e) && e != DeleteBegin(id) && id in s.disk
    ensures var s' := Apply(t, s, e);
            && id in s'.disk
            && (s'.disk[id] == s.disk[id]
                || (id in s.registry && s.registry[id] < |s.rooms|
                    && s'.disk[id] == Saved(s.rooms[s.registry[id]].engine)))
  {
    hide Fresh, Saved, Local, LocalEnabled;
  }

  /**
   Until a delete of the id begins, what is stored for it only grows: restarts, new
   streams and other requests never take back a stored record or a recorded amount.
   */
  lemma {:induction false} StoredOnlyGrows(t: Pricing, ss: seq<Server>, es: seq<ServerEvent>, from: nat, to: nat,
                                           id: string)
    requires IsRun(t, ss, es) && from <= to < |ss| && Obeys(ss, es, 0, to, NoDelete(id)) && id in ss[from].disk
    ensures id in ss[to].disk && Extends(ss[to].disk[id].conv, ss[from].disk[id].conv)
  {
    hide Apply, Enabled, Extends, Single, Named;
    if from == to {
      ExtendsItself(ss[from].disk[id].conv);
    } else {
      var n := to - 1;
      StoredOnlyGrows(t, ss, es, from, n, id);
      SingleAlong(t, ss, es, n, id);
      RunsAreNamed(t, ss, es, n);
      WhoWrites(t, ss[n], es[n], id);
      assert Extends(ss[to].disk[id].conv, ss[n].disk[id].conv) by {
        if ss[to].disk[id] == ss[n].disk[id] {
          ExtendsItself(ss[n].disk[id].conv);
        } else {
          DiskLags(t, ss, es, n, id);
          AheadExtends(ss[n].disk[id].conv, ss[n].rooms[ss[n].registry[id]].engine);
        }
      }
      ExtendsTransitive(ss[from].disk[id].conv, ss[n].disk[id].conv, ss[to].disk[id].conv);
    }
  }

  lemma AheadExtends(stored: Conv, e: Engine)
    requires NeverAhead(stored, e.conv)
    ensures Extends(Saved(e).conv, stored)
  {
  }

  /** The end of the process loses what is in memory and nothing on disk; pending deletes go unfinished. */
  lemma RestartKeepsDisk(t: Pricing, s: Server)
    ensures var s' := Apply(t, s, Restart);
            && s'.disk == s.disk
            && (forall i :: !Live(s', i))
            && (forall id :: id !in s'.registry && id !in s'.deleting)
  {
  }

  // ---------- Deleted ids ----------

  lemma NoNewKey(t: Pricing, s: Server, e: ServerEvent, id: string)
    requires Enabled(t, s, e) && id !in s.disk && (e.Create? ==> e.conv.id != id)
    ensures id !in Apply(t, s, e).disk
  {
  }

  /** An id absent from storage stays absent until it is created, whatever streams of it still run. */
  lemma {:induction false} NoResurrection(t: Pricing, ss: seq<Server>, es: seq<ServerEvent>, from: nat, to: nat,
                                          id: string)
    requires IsRun(t, ss, es) && from <= to < |ss| && id !in ss[from].disk
    requires forall m :: from <= m < to && es[m].Create? ==> es[m].conv.id != id
    ensures id !in ss[to].disk
  {
    hide Apply, Enabled;
    if from < to {
      NoResurrection(t, ss, es, from, to - 1, id);
      NoNewKey(t, ss[to - 1], es[to - 1], id);
    }
  }

  /** The session object registered for the id has a client attached. */
  predicate HasSocket(s: Server, id: string) {
    id in s.registry && s.registry[id] < |s.rooms| && s.rooms[s.registry[id]].ws.Some?
  }

  /** The event removes the id's directory: the delete had no socket to wait for, or has waited. */
  predicate Deletes(s: Server, e: ServerEvent, id: string) {
    e == DeleteEnd(id) || (e == DeleteBegin(id) && !HasSocket(s, id))
  }

  /**
   What a delete request does at once: the id is no longer registered; its directory goes
   unless a client is attached, and then the delete is pending. No other id is touched.
   */
  lemma DeleteBegins(t: Pricing, s: Server, id: string)
    ensures var s' := Apply(t, s, DeleteBegin(id));
            && id !in s'.registry
            && (id in s'.disk <==> id in s.disk && HasSocket(s, id))
            && (HasSocket(s, id) ==> id in s'.deleting)
            && (!HasSocket(s, id) ==> s'.deleting == s.deleting)
            && s'.rooms == s.rooms
            && (forall x :: x != id ==> (x in s'.registry <==> x in s.registry) && (x in s'.disk <==> x in s.disk))
  {
  }

  /** A pending delete is not forgotten: it stays pending until it completes or the process ends. */
  lemma {:induction false} PendingUntilDone(t: Pricing, ss: seq<Server>, es: seq<ServerEvent>, from: nat, to: nat,
                                            id: string)
    requires IsRun(t, ss, es) && from <= to < |ss| && id in ss[from].deleting
    requires forall m :: from <= m < to ==> es[m] != DeleteEnd(id) && es[m] != Restart
    ensures id in ss[to].deleting
  {
    hide Enabled;
    if from < to {
      PendingUntilDone(t, ss, es, from, to - 1, id);
      StaysPending(t, ss[to - 1], es[to - 1], id);
    }
  }

  lemma StaysPending(t: Pricing, s: Server, e: ServerEvent, id: string)
    requires Enabled(t, s, e) && id in s.deleting && e != DeleteEnd(id) && e != Restart
    ensures id in Apply(t, s, e).deleting
  {
  }

  lemma DeleteRemoves(t: Pricing, s: Server, e: ServerEvent, id: string)
    requires Enabled(t, s, e) && Deletes(s, e, id)
    ensures id !in Apply(t, s, e).disk && (e.DeleteBegin? ==> id !in Apply(t, s, e).registry)
  {
  }

  lemma NoNewEntry(t: Pricing, s: Server, e: ServerEvent, id: string)
    requires Enabled(t, s, e) && id !in s.disk && id !in s.registry && (e.Create? ==> e.conv.id != id)
    ensures id !in Apply(t, s, e).registry
  {
  }

  /**
   A deleted session stays deleted: from the event that removed its directory, until a
   create of the id, it is not stored, whatever streams of it still run; and if it was
   not registered then, no request finds it again.
   */
  lemma {:induction false} DeletedStaysAway(t: Pricing, ss: seq<Server>, es: seq<ServerEvent>, n: nat, to: nat,
                                            id: string)
    requires IsRun(t, ss, es) && n < to < |ss| && Deletes(ss[n], es[n], id)
    requires forall m :: n < m < to && es[m].Create? ==> es[m].conv.id != id
    ensures id !in ss[to].disk
    ensures es[n].DeleteBegin? || id !in ss[n].registry ==> id !in ss[to].registry
  {
    hide Apply, Enabled, Deletes;
    if to == n + 1 {
      DeleteRemoves(t, ss[n], es[n], id);
      if !es[n].DeleteBegin? {
        assert es[n].DeleteEnd? by {
          EitherDelete(ss[n], es[n], id);
        }
        DeleteEndKeepsRegistry(t, ss[n], es[n]);
      }
    } else {
      DeletedStaysAway(t, ss, es, n, to - 1, id);
      NoNewKey(t, ss[to - 1], es[to - 1], id);
      if id !in ss[to - 1].registry {
        NoNewEntry(t, ss[to - 1], es[to - 1], id);
      }
    }
  }

  lemma EitherDelete(s: Server, e: ServerEvent, id: string)
    requires Deletes(s, e, id)
    ensures e.DeleteBegin? || e.DeleteEnd?
  {
  }

  lemma DeleteEndKeepsRegistry(t: Pricing, s: Server, e: ServerEvent)
    requires Enabled(t, s, e) && e.DeleteEnd?
    ensures Apply(t, s, e).registry == s.registry
  {
  }

  /** The id is created or loaded only while no delete of it is under way. */
  ghost predicate Waits(s: Server, e: ServerEvent, id: string) {
    Opens(e, id) ==> id !in s.deleting
  }

  ghost function WaitsFor(id: string): (Server, ServerEvent) -> bool {
    (s: Server, e: ServerEvent) => Waits(s, e, id)
  }

  /** If the id is cached, the cached session object has that id, and is stored. */
  ghost predicate RegistryStored(s: Server, id: string) {
    id in s.registry ==> s.registry[id] < |s.rooms| && s.rooms[s.registry[id]].id == id && id in s.disk
  }

  /** A registered id is stored and has no delete under way. */
  ghost predicate Unclaimed(s: Server, id: string) {
    id in s.registry ==> id in s.disk && id !in s.deleting
  }

  lemma EventUnclaimed(t: Pricing, s: Server, e: ServerEvent, id: string)
    requires Unclaimed(s, id) && Waits(s, e, id) && Enabled(t, s, e)
    ensures Unclaimed(Apply(t, s, e), id)
  {
    hide Local, LocalEnabled, Fresh, Saved;
  }

  /** An id that is not registered is opened unclaimed exactly when no delete of it is under way. */
  lemma OpensUnclaimed(t: Pricing, s: Server, e: ServerEvent, id: string)
    requires Opens(e, id) && Enabled(t, s, e)
    ensures Unclaimed(Apply(t, s, e), id) <==> id !in s.deleting
  {
    hide Fresh, Saved;
  }

  /** On runs where loads and creates of an id wait for its delete, the id's cached entry is stored under its own id. */
  lemma RegistryConsistent(t: Pricing, ss: seq<Server>, es: seq<ServerEvent>, n: nat, id: string)
    requires IsRun(t, ss, es) && n < |ss| && Obeys(ss, es, 0, n, WaitsFor(id))
    ensures RegistryStored(ss[n], id)
  {
    hide Apply, Enabled, Unclaimed, Waits;
    var inv := (s: Server) => Unclaimed(s, id);
    forall s, e | inv(s) && WaitsFor(id)(s, e) && Enabled(t, s, e) ensures inv(Apply(t, s, e)) {
      EventUnclaimed(t, s, e, id);
    }
    assert Unclaimed(BOOTED, id) by {
      NothingUnclaimed(id);
    }
    Along(t, ss, es, 0, n, WaitsFor(id), inv);
    RunsAreNamed(t, ss, es, n);
    UnclaimedIsStored(ss[n], id);
  }

  lemma NothingUnclaimed(id: string)
    ensures Unclaimed(BOOTED, id)
  {
  }

  lemma UnclaimedIsStored(s: Server, id: string)
    requires Named(s) && Unclaimed(s, id)
    ensures RegistryStored(s, id)
  {
  }
}
