/**
 The three message-context strategies and their factory
 (server/application/domain/model/context_strategy/).

 `Kind` is the strategy's class together with its constructor arguments. What varies
 over time is the record list and, for the summary strategy, the summary.
 */
module ContextStrategy {
  import opened Wrappers
  import opened LlmPort
  import opened Records

  datatype Kind =
    | Dummy
    | SlidingWindow(window: int)
    | Rolling(window: int, prompt: string)
  {
    /** What the constructors accept. */
    predicate Valid() {
      match this
      case Dummy => true
      case SlidingWindow(w) => w >= 1
      case Rolling(w, p) => w >= 1 && p != ""
    }
  }

  datatype Summary = Summary(text: string, anchor: Option<Id>)

  const NO_SUMMARY := Summary("", None)

  /** The position just after the first record with this id; 0 when there is none. */
  function EndOf(rs: seq<Record>, id: Id): (n: nat)
    ensures n <= |rs|
  {
    if rs == [] then
      0
    else
      var n := EndOf(rs[..|rs| - 1], id);
      if n > 0 then n else if rs[|rs| - 1].id == id then |rs| else 0
  }

  function AnchorEnd(rs: seq<Record>, anchor: Option<Id>): (n: nat)
    ensures n <= |rs|
  {
    if anchor.None? then 0 else EndOf(rs, anchor.value)
  }

  /** The records after the anchor; all of them when there is no anchor or it is unknown. */
  function Tail(rs: seq<Record>, s: Summary): seq<Record> {
    rs[AnchorEnd(rs, s.anchor)..]
  }

  /** The summary as a message; an empty text is left out. */
  function Lead(text: string): seq<Message> {
    if text == "" then [] else [Message(User, text)]
  }

  function LastN(rs: seq<Record>, n: int): seq<Record>
    requires n >= 1
  {
    if |rs| <= n then rs else rs[|rs| - n..]
  }

  /** The messages sent to the model, by strategy. */
  function Context(k: Kind, rs: seq<Record>, s: Summary): seq<Message>
    requires k.Valid()
  {
    match k
    case Dummy => Messages(rs)
    case SlidingWindow(w) => Messages(LastN(rs, w))
    case Rolling(_, _) => if s.anchor.None? then Messages(rs) else Lead(s.text) + Messages(Tail(rs, s))
  }

  /** Whether `update_context` calls the model. */
  predicate Due(k: Kind, rs: seq<Record>, s: Summary) {
    k.Rolling? && |Tail(rs, s)| >= k.window
  }

  function DigestInput(rs: seq<Record>, s: Summary): seq<Message> {
    Lead(s.text) + Messages(Tail(rs, s))
  }

  /** A summarisation request before its text is rendered; an empty system prompt is left out. */
  datatype Request = Request(system: Option<string>, prompt: string, input: seq<Message>)

  function DigestRequest(k: Kind, c: CompletionConfig, input: seq<Message>): Request
    requires k.Rolling?
  {
    Request(if c.systemPrompt == Some("") then None else c.systemPrompt, k.prompt, input)
  }

  /**
   A non-empty summary text reaches the model, as the first message of every context and
   of every summarisation; an empty one adds no message. What follows are the messages of
   the records after the anchor.
   */
  lemma SummaryReachesModel(k: Kind, rs: seq<Record>, s: Summary)
    requires k.Rolling? && k.Valid()
    ensures s.anchor.Some? && s.text != "" ==>
              Context(k, rs, s) == [Message(User, s.text)] + Messages(rs[AnchorEnd(rs, s.anchor)..])
    ensures s.anchor.None? || s.text == "" ==> Context(k, rs, s) == Messages(rs[AnchorEnd(rs, s.anchor)..])
    ensures s.text != "" ==> DigestInput(rs, s) == [Message(User, s.text)] + Messages(rs[AnchorEnd(rs, s.anchor)..])
    ensures s.text == "" ==> DigestInput(rs, s) == Messages(rs[AnchorEnd(rs, s.anchor)..])
  {
    assert [] + Messages(Tail(rs, s)) == Messages(Tail(rs, s));
    if s.anchor.None? {
      assert rs[0..] == rs;
    }
  }

  // ---------- Anchors ----------

  lemma {:induction false} EndOfAppend(rs: seq<Record>, r: Record, id: Id)
    ensures EndOf(rs + [r], id) == if EndOf(rs, id) > 0 then EndOf(rs, id) else if r.id == id then |rs| + 1 else 0
  {
    assert (rs + [r])[..|rs|] == rs;
  }

  lemma {:induction false} EndOfUnknown(rs: seq<Record>, id: Id)
    requires FreshId(rs, id)
    ensures EndOf(rs, id) == 0
  {
    if rs != [] {
      EndOfUnknown(rs[..|rs| - 1], id);
    }
  }

  /** In a chain the search for a record's id ends just after that record. */
  lemma {:induction false} EndOfMember(rs: seq<Record>, i: nat)
    requires Chain(rs) && i < |rs|
    ensures EndOf(rs, rs[i].id) == i + 1
  {
    var n := |rs| - 1;
    if i == n {
      EndOfUnknown(rs[..n], rs[n].id);
    } else {
      assert rs[..n][i] == rs[i];
      EndOfMember(rs[..n], i);
    }
  }

  // ---------- The factory ----------

  /** The strategy state as it is stored. */
  datatype Metadata = Metadata(
    windowSize: Option<int>, summaryText: Option<string>, anchorId: Option<Id>, prompt: Option<string>)

  datatype BuildError = UnknownType | WindowTooSmall | EmptyPrompt

  function TypeName(k: Kind): string {
    match k
    case Dummy => "dummy"
    case SlidingWindow(_) => "sliding_window"
    case Rolling(_, _) => "summary"
  }

  function GetMetadata(k: Kind, s: Summary): Metadata {
    match k
    case Dummy => Metadata(None, None, None, None)
    case SlidingWindow(w) => Metadata(Some(w), None, None, None)
    case Rolling(w, p) => Metadata(Some(w), Some(s.text), s.anchor, Some(p))
  }

  function GetOr<T>(o: Option<T>, default: T): T {
    if o.Some? then o.value else default
  }

  function Build(strategyType: string, md: Metadata): Result<(Kind, Summary), BuildError> {
    if strategyType == "dummy" then
      Success((Dummy, NO_SUMMARY))
    else if strategyType == "summary" then
      var w := GetOr(md.windowSize, 4);
      var p := GetOr(md.prompt, "");
      if w < 1 then Failure(WindowTooSmall)
      else if p == "" then Failure(EmptyPrompt)
      else Success((Rolling(w, p), Summary(GetOr(md.summaryText, ""), md.anchorId)))
    else if strategyType == "sliding_window" then
      var w := GetOr(md.windowSize, 8);
      if w < 1 then Failure(WindowTooSmall) else Success((SlidingWindow(w), NO_SUMMARY))
    else
      Failure(UnknownType)
  }

  /** A strategy object's state: a valid kind, and a summary only where the class has one. */
  ghost predicate ValidState(k: Kind, s: Summary) {
    k.Valid() && (!k.Rolling? ==> s == NO_SUMMARY)
  }

  /** Building succeeds exactly for a known type with a usable window and, for summaries, a prompt. */
  lemma BuildSucceedsIff(t: string, md: Metadata)
    ensures Build(t, md).Success? <==>
              || t == "dummy"
              || (t == "sliding_window" && (md.windowSize.Some? ==> md.windowSize.value >= 1))
              || (t == "summary" && (md.windowSize.Some? ==> md.windowSize.value >= 1)
                                 && md.prompt.Some? && md.prompt.value != "")
    ensures Build(t, md).Success? ==> TypeName(Build(t, md).value.0) == t
                                      && ValidState(Build(t, md).value.0, Build(t, md).value.1)
    ensures Build(t, md).Failure? ==>
              Build(t, md).error == if t != "summary" && t != "sliding_window" then UnknownType
                                    else if md.windowSize.Some? && md.windowSize.value < 1 then WindowTooSmall
                                    else EmptyPrompt
  {
  }

  /** What is missing from the metadata: a window of 4 for summaries and 8 for sliding windows, and no summary text. */
  lemma BuildDefaults(t: string, md: Metadata)
    requires Build(t, md).Success?
    ensures var (k, s) := Build(t, md).value;
            && (k.SlidingWindow? ==> Some(k.window) == if md.windowSize.None? then Some(8) else md.windowSize)
            && (k.Rolling? ==>
                  && Some(k.window) == (if md.windowSize.None? then Some(4) else md.windowSize)
                  && Some(k.prompt) == md.prompt
                  && (md.summaryText.None? ==> s.text == "")
                  && (md.summaryText.Some? ==> s.text == md.summaryText.value)
                  && s.anchor == md.anchorId)
  {
  }

  /** The factory inverts `get_metadata` on every state a strategy object can be in. */
  lemma BuildInvertsMetadata(k: Kind, s: Summary)
    ensures Build(TypeName(k), GetMetadata(k, s)) == Success((k, s)) <==> ValidState(k, s)
  {
  }

  // ---------- Rolling summaries ----------

  /** One completed summarisation: the records it covered, the messages sent, the model's reply. */
  datatype Segment = Segment(records: seq<Record>, input: seq<Message>, reply: string)

  function Covered(segs: seq<Segment>): seq<Record> {
    if segs == [] then [] else Covered(segs[..|segs| - 1]) + segs[|segs| - 1].records
  }

  function LastReply(segs: seq<Segment>): string {
    if segs == [] then "" else segs[|segs| - 1].reply
  }

  /**
   The summary is exact: the records up to the anchor are the segments one after the
   other, each at least a window long; every segment was sent together with the previous
   reply (left out when empty); the summary text is the last reply.
   */
  ghost predicate Exact(window: int, rs: seq<Record>, s: Summary, segs: seq<Segment>) {
    && (forall i :: 0 <= i < |segs| ==>
          && |segs[i].records| >= window
          && segs[i].input == Lead(LastReply(segs[..i])) + Messages(segs[i].records))
    && Covered(segs) == rs[..AnchorEnd(rs, s.anchor)]
    && s.text == LastReply(segs)
    && (s.anchor.None? <==> segs == [])
  }

  lemma ExactAtStart(window: int)
    ensures Exact(window, [], NO_SUMMARY, [])
  {
  }

  lemma TailAppend(rs: seq<Record>, s: Summary, id: Id, m: Message)
    requires s.anchor != Some(id)
    ensures AnchorEnd(Append(rs, id, m), s.anchor) == AnchorEnd(rs, s.anchor)
    ensures Tail(Append(rs, id, m), s) == Tail(rs, s) + [Append(rs, id, m)[|rs|]]
  {
    if s.anchor.Some? {
      EndOfAppend(rs, Append(rs, id, m)[|rs|], s.anchor.value);
    }
  }

  /** Appending a record under a new id leaves the partition of the prefix as it was. */
  lemma ExactAppend(window: int, rs: seq<Record>, s: Summary, segs: seq<Segment>, id: Id, m: Message)
    requires Exact(window, rs, s, segs) && s.anchor != Some(id)
    ensures Exact(window, Append(rs, id, m), s, segs)
  {
    TailAppend(rs, s, id, m);
  }

  /** The anchor taken now: the id of the last record at this moment. */
  function Condensed(rs: seq<Record>, reply: string): Summary
    requires rs != []
  {
    Summary(reply, Some(rs[|rs| - 1].id))
  }

  /**
   The anchor is read after the model call returns. The new summary is exact if and only
   if no record was appended while the call was under way, that is, the input reached
   to the end of the records as they are now.
   */
  lemma AnchorSoundIff(window: int, rs: seq<Record>, s: Summary, segs: seq<Segment>,
                       upto: nat, input: seq<Message>, reply: string)
    requires Chain(rs) && Exact(window, rs, s, segs)
    requires AnchorEnd(rs, s.anchor) <= upto <= |rs| && rs != []
    requires upto - AnchorEnd(rs, s.anchor) >= window
    requires input == Lead(s.text) + Messages(rs[AnchorEnd(rs, s.anchor)..upto])
    ensures var seg := Segment(rs[AnchorEnd(rs, s.anchor)..upto], input, reply);
            Exact(window, rs, Condensed(rs, reply), segs + [seg]) <==> upto == |rs|
  {
    hide Chain;
    var start := AnchorEnd(rs, s.anchor);
    var seg := Segment(rs[start..upto], input, reply);
    var all := segs + [seg];
    EndOfMember(rs, |rs| - 1);
    assert all[..|segs|] == segs;
    assert Covered(all) == rs[..start] + rs[start..upto] == rs[..upto];
    assert AnchorEnd(rs, Condensed(rs, reply).anchor) == |rs|;
    assert |rs[..upto]| == upto;
    forall i | 0 <= i < |all|
      ensures |all[i].records| >= window
      ensures all[i].input == Lead(LastReply(all[..i])) + Messages(all[i].records)
    {
      if i < |segs| {
        assert all[..i] == segs[..i];
      }
    }
  }

  /** Nothing is lost and nothing is repeated: segments followed by the verbatim tail are the history. */
  lemma PartitionOfHistory(window: int, prompt: string, rs: seq<Record>, s: Summary, segs: seq<Segment>)
    requires window >= 1 && prompt != "" && Exact(window, rs, s, segs)
    ensures Covered(segs) + Tail(rs, s) == rs
    ensures Context(Rolling(window, prompt), rs, s)
         == (if LastReply(segs) == "" then [] else [Message(User, LastReply(segs))]) + Messages(rs[|Covered(segs)|..])
  {
    var n := AnchorEnd(rs, s.anchor);
    assert rs == rs[..n] + rs[n..];
    if s.anchor.None? {
      assert Tail(rs, s) == rs;
      assert Lead("") + Messages(rs) == Messages(rs);
    }
  }

  /** Completed summarisations times the window never exceed the number of records. */
  lemma {:induction false} CoveredAtLeast(window: int, segs: seq<Segment>)
    requires forall i :: 0 <= i < |segs| ==> |segs[i].records| >= window
    ensures |segs| * window <= |Covered(segs)|
  {
    if segs != [] {
      var n := |segs| - 1;
      CoveredAtLeast(window, segs[..n]);
      assert |segs| * window == n * window + window;
    }
  }

  lemma AmortisedCost(window: int, rs: seq<Record>, s: Summary, segs: seq<Segment>)
    requires Exact(window, rs, s, segs)
    ensures |segs| * window <= |rs|
  {
    CoveredAtLeast(window, segs);
  }

  /** The left fold of a summariser over consecutive parts of the history. */
  function FoldSummary(f: seq<Message> -> string, segs: seq<Segment>): string {
    if segs == [] then
      ""
    else
      var n := |segs| - 1;
      var before := FoldSummary(f, segs[..n]);
      f((if before == "" then [] else [Message(User, before)]) + Messages(segs[n].records))
  }

  /** When the model answers as a function of its input, the summary text is that function's fold. */
  lemma {:induction false} SummaryIsFold(f: seq<Message> -> string, window: int, rs: seq<Record>, s: Summary,
                                         segs: seq<Segment>)
    requires Exact(window, rs, s, segs)
    requires forall i :: 0 <= i < |segs| ==> segs[i].reply == f(segs[i].input)
    ensures s.text == FoldSummary(f, segs)
  {
    RepliesAreFold(f, segs);
  }

  lemma {:induction false} RepliesAreFold(f: seq<Message> -> string, segs: seq<Segment>)
    requires forall i :: 0 <= i < |segs| ==>
               && segs[i].input == Lead(LastReply(segs[..i])) + Messages(segs[i].records)
               && segs[i].reply == f(segs[i].input)
    ensures LastReply(segs) == FoldSummary(f, segs)
  {
    if segs != [] {
      var n := |segs| - 1;
      forall i | 0 <= i < n ensures segs[..n][..i] == segs[..i] {
      }
      RepliesAreFold(f, segs[..n]);
    }
  }
}
