/**
 The append-only record chain of a conversation
 (server/application/domain/model/context_strategy/base.py). Identifiers are naturals;
 the program's random UUIDs are a supply of identifiers not used before.
 */
module Records {
  import opened Wrappers
  import opened LlmPort

  type Id = nat

  datatype Record = Record(id: Id, prev: Option<Id>, message: Message)

  function Append(rs: seq<Record>, id: Id, m: Message): seq<Record> {
    rs + [Record(id, if rs == [] then None else Some(rs[|rs| - 1].id), m)]
  }

  function Messages(rs: seq<Record>): seq<Message> {
    seq(|rs|, i requires 0 <= i < |rs| => rs[i].message)
  }

  ghost predicate FreshId(rs: seq<Record>, id: Id) {
    forall i :: 0 <= i < |rs| ==> rs[i].id != id
  }

  /** Distinct identifiers, each record pointing at its predecessor, the first at nothing. */
  ghost predicate Chain(rs: seq<Record>) {
    && (forall i, j :: 0 <= i < j < |rs| ==> rs[i].id != rs[j].id)
    && (forall i :: 0 < i < |rs| ==> rs[i].prev == Some(rs[i - 1].id))
    && (rs != [] ==> rs[0].prev == None)
  }

  lemma AppendKeepsChain(rs: seq<Record>, id: Id, m: Message)
    requires Chain(rs) && FreshId(rs, id)
    ensures Chain(Append(rs, id, m))
  {
  }

  ghost function RecordSet(rs: seq<Record>): set<Record> {
    set r | r in rs
  }

  lemma LinkAt(rs: seq<Record>, j: nat)
    requires Chain(rs) && j < |rs|
    ensures rs[j].prev == if j == 0 then None else Some(rs[j - 1].id)
  {
  }

  lemma {:induction false} SamePlace(a: seq<Record>, b: seq<Record>, i: nat)
    requires Chain(a) && Chain(b) && RecordSet(a) == RecordSet(b)
    requires i < |a|
    ensures i < |b| && a[i] == b[i]
  {
    assert a[i] in RecordSet(b);
    var j :| 0 <= j < |b| && b[j] == a[i];
    LinkAt(a, i);
    LinkAt(b, j);
    if i > 0 {
      SamePlace(a, b, i - 1);
    }
  }

  /** The list is determined by its unordered set of records: the links alone give the order back. */
  lemma ChainDeterminesOrder(a: seq<Record>, b: seq<Record>)
    requires Chain(a) && Chain(b) && RecordSet(a) == RecordSet(b)
    ensures a == b
  {
    if a != [] {
      SamePlace(a, b, |a| - 1);
    }
    if b != [] {
      SamePlace(b, a, |b| - 1);
    }
    forall i | 0 <= i < |a| ensures i < |b| && a[i] == b[i] {
      SamePlace(a, b, i);
    }
  }
}
