/**
 Messages, completion settings and the event stream of the LLM port
 (server/application/port/outbound/llm_port.py, .../model/completion.py).

 A model call is an arbitrary finite event sequence. `complete` says that the iterator
 was exhausted; otherwise the call raised, was cancelled, or its consumer walked away
 after the listed events.
 */
module LlmPort {
  import opened Wrappers
  import opened UsageStats

  datatype Role = User | Assistant

  datatype Message = Message(role: Role, content: string)

  datatype Sampling = Sampling(
    temperature: Option<real>, topK: Option<nat>, topP: Option<real>, stopSequences: Option<seq<string>>)

  /** `structured` stands for the presence of an output schema. */
  datatype CompletionConfig = CompletionConfig(
    provider: string, model: string, maxTokens: nat,
    systemPrompt: Option<string>, systemPromptPath: Option<string>, sampling: Sampling, structured: bool)

  datatype StopReason = Stop | Length | ToolCalls | ContentFilter

  datatype Event =
    | TextChunk(text: string)
    | CompletionDone(provider: string, model: string, usage: TokensUsage, stop: StopReason)

  datatype Stream = Stream(events: seq<Event>, complete: bool)

  /** The text fragments among the events, in order. */
  function Texts(events: seq<Event>): seq<string> {
    if events == [] then
      []
    else
      var n := |events| - 1;
      Texts(events[..n]) + (if events[n].TextChunk? then [events[n].text] else [])
  }

  lemma TextsSnoc(events: seq<Event>, e: Event)
    ensures Texts(events + [e]) == Texts(events) + (if e.TextChunk? then [e.text] else [])
  {
    assert (events + [e])[..|events|] == events;
  }

  /** The stop reason of the last completion event, if any. */
  function LastStop(events: seq<Event>): Option<StopReason> {
    if events == [] then
      None
    else
      var n := |events| - 1;
      if events[n].CompletionDone? then Some(events[n].stop) else LastStop(events[..n])
  }

  /** The port's contract: text chunks, then exactly one completion event; or a cut-short start of that. */
  ghost predicate Conforming(s: Stream) {
    && (forall i :: 0 <= i < |s.events| - 1 ==> s.events[i].TextChunk?)
    && (s.complete ==> s.events != [] && s.events[|s.events| - 1].CompletionDone?)
  }

  /** Every completion event names the provider and model the call was configured with. */
  ghost predicate Keyed(events: seq<Event>, c: CompletionConfig) {
    forall i :: 0 <= i < |events| ==>
      events[i].CompletionDone? ==> events[i].provider == c.provider && events[i].model == c.model
  }
}
