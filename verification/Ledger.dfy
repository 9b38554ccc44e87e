/** The append-only event ledger of one session, and what it says about runs. */
module Ledger {
  type SessionId = string
  type RunId = string
  type IntentId = string

  /** The states a run can be in; a payload may also carry any other text. */
  datatype RunState = NoState | Running | Done | Interrupted | Failed | Unknown(name: string)

  datatype Image = Image(name: string, mediaType: string, file: string)

  /** The decoded payload. A payload that does not decode has empty fields. */
  datatype Body =
    | UserMessage(text: string, images: seq<Image>)
    | AssistantMessage(text: string)
    | ToolCall(name: string, id: string, input: string)
    | ToolResult(id: string, output: string)
    | RunStarted
    | RunFinished(state: RunState)
    | Error(message: string)
    | Other(kind: string)

  datatype Event = Event(seqNo: int, run: RunId, body: Body)

  predicate IsBoundary(e: Event) {
    e.body.RunStarted? || e.body.RunFinished?
  }

  /** The position of the newest run_started or run_finished event, or -1. */
  function LastBoundary(es: seq<Event>): (b: int)
    ensures -1 <= b < |es|
    ensures b >= 0 ==> IsBoundary(es[b])
    ensures forall k :: b < k < |es| ==> !IsBoundary(es[k])
  {
    BoundaryBelow(es, |es|)
  }

  function BoundaryBelow(es: seq<Event>, n: nat): (b: int)
    requires n <= |es|
    ensures -1 <= b < n
    ensures b >= 0 ==> IsBoundary(es[b])
    ensures forall k :: b < k < n ==> !IsBoundary(es[k])
  {
    if n == 0 then -1
    else if IsBoundary(es[n - 1]) then n - 1
    else BoundaryBelow(es, n - 1)
  }

  /** The newest run boundary is a run_started. */
  predicate Live(es: seq<Event>) {
    var b := LastBoundary(es);
    b >= 0 && es[b].body.RunStarted?
  }

  predicate Settled(es: seq<Event>) {
    !Live(es)
  }

  /** The run that a live ledger shows as still going. */
  function LiveRun(es: seq<Event>): RunId
    requires Live(es)
  {
    es[LastBoundary(es)].run
  }

  /** What one more event does to the newest boundary. */
  lemma LastBoundaryAppend(es: seq<Event>, e: Event)
    ensures LastBoundary(es + [e]) == if IsBoundary(e) then |es| else LastBoundary(es)
    ensures Live(es + [e]) == if IsBoundary(e) then e.body.RunStarted? else Live(es)
    ensures Live(es + [e]) ==> LiveRun(es + [e]) == if IsBoundary(e) then e.run else LiveRun(es)
  {
    var fs := es + [e];
    assert forall i :: 0 <= i < |es| ==> fs[i] == es[i];
    assert LastBoundary(fs) == if IsBoundary(e) then |es| else LastBoundary(es) by {
      var b, c := LastBoundary(es), LastBoundary(fs);
      if b >= 0 { assert IsBoundary(fs[b]); }
      if 0 <= c < |es| { assert IsBoundary(es[c]); }
    }
  }

  /** The newest `cap` events. */
  function Tail(es: seq<Event>, cap: nat): seq<Event> {
    if |es| <= cap then es else es[|es| - cap..]
  }

  /** Rows of a table with primary key (session, seq), read in key order. */
  predicate Ascending(es: seq<Event>) {
    forall i, j :: 0 <= i < j < |es| ==> es[i].seqNo < es[j].seqNo
  }

  /** The sequence numbers are exactly 1, 2, ..., n. */
  predicate Numbered(es: seq<Event>) {
    forall i :: 0 <= i < |es| ==> es[i].seqNo == i + 1
  }
}
