/** What one session object can go through on its own, as a path of the whole server. */
module Paths {
  import opened Billing
  import opened Records
  import opened Server

  /** The events, none of them a new connection, take the room from `r` to `r'`. */
  ghost predicate Leads(r: Room, evs: seq<LocalEvent>, r': Room)
    decreases |evs|
  {
    if evs == [] then
      r' == r
    else
      !evs[0].Connect? && LocalEnabled(r, evs[0]) && Leads(Local(r, evs[0]), evs[1..], r')
  }

  predicate NoHandshakes(evs: seq<LocalEvent>) {
    forall i :: 0 <= i < |evs| ==> !evs[i].AcceptDone?
  }

  lemma {:induction false} LeadsConcat(r: Room, a: seq<LocalEvent>, mid: Room, b: seq<LocalEvent>, r': Room)
    requires Leads(r, a, mid) && Leads(mid, b, r')
    ensures Leads(r, a + b, r')
    decreases |a|
  {
    hide Local, LocalEnabled;
    if a == [] {
      assert a + b == b;
    } else {
      assert (a + b)[1..] == a[1..] + b;
      LeadsConcat(Local(r, a[0]), a[1..], mid, b, r');
    }
  }

  /** One more event. */
  lemma Then(r: Room, evs: seq<LocalEvent>, mid: Room, ev: LocalEvent)
    returns (evs': seq<LocalEvent>, r': Room)
    requires Leads(r, evs, mid) && LocalEnabled(mid, ev) && !ev.Connect?
    ensures r' == Local(mid, ev) && evs' == evs + [ev] && Leads(r, evs', r')
  {
    hide Local, LocalEnabled;
    evs', r' := evs + [ev], Local(mid, ev);
    assert [ev][1..] == [];
    LeadsConcat(r, evs, mid, [ev], r');
  }

  /** What one room goes through is a path of the whole server. */
  lemma {:induction false} Lift(t: Pricing, ss: seq<Server>, es: seq<ServerEvent>, i: nat, evs: seq<LocalEvent>,
                                r': Room)
    returns (ss': seq<Server>, es': seq<ServerEvent>)
    requires IsPath(t, ss, es) && Live(Last(ss), i) && Leads(Last(ss).rooms[i], evs, r')
    ensures IsPath(t, ss', es') && ss <= ss' && es <= es'
    ensures Last(ss') == Last(ss).(rooms := Last(ss).rooms[i := r'])
    ensures forall n :: |es| <= n < |es'| ==> es'[n].InRoom? && es'[n].event in evs
    ensures |es'| == |es| + |evs| && (evs != [] ==> es'[|es|] == InRoom(i, evs[0]))
    decreases |evs|
  {
    hide Local, LocalEnabled;
    ss', es' := ss, es;
    if evs != [] {
      var e := InRoom(i, evs[0]);
      Extend(t, ss, es, e);
      ss', es' := Lift(t, ss + [Apply(t, Last(ss), e)], es + [e], i, evs[1..], r');
    } else {
      assert Last(ss).rooms[i := r'] == Last(ss).rooms;
    }
  }

  /** An event and what one room goes through after it. */
  lemma After(t: Pricing, s: Server, e: ServerEvent, i: nat, evs: seq<LocalEvent>, r': Room)
    returns (ss: seq<Server>, es: seq<ServerEvent>)
    requires Enabled(t, s, e) && Live(Apply(t, s, e), i) && Leads(Apply(t, s, e).rooms[i], evs, r')
    ensures IsPath(t, ss, es) && es != [] && ss[0] == s && es[0] == e
    ensures Last(ss) == Apply(t, s, e).(rooms := Apply(t, s, e).rooms[i := r'])
    ensures forall n :: 1 <= n < |es| ==> es[n].InRoom? && es[n].event in evs
  {
    hide Apply, Enabled;
    assert IsPath(t, [s], []);
    Extend(t, [s], [], e);
    assert [] + [e] == [e];
    ss, es := Lift(t, [s] + [Apply(t, s, e)], [e], i, evs, r');
  }

  lemma SomeFresh(rs: seq<Record>) returns (id: Id)
    ensures FreshId(rs, id)
  {
    id := 0;
    for n := 0 to |rs|
      invariant forall i :: 0 <= i < n ==> rs[i].id < id
    {
      if rs[n].id >= id {
        id := rs[n].id + 1;
      }
    }
  }

  lemma StandsStill(r: Room)
    ensures Leads(r, [], r)
  {
  }
}
