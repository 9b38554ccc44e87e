/**
 The render snapshot of a ledger. `Snapshot` says, event by event, what each row must show;
 `Compute` is the single pass the server runs, proved to return exactly that.
 */
module Render {
  import opened Ledger
  import Decimal

  datatype Kind = UserRow | AssistantRow | ToolRow | ErrorRow
  datatype Status = NoStatus | ToolRunning | ToolIncomplete | ToolDone
  datatype Activity = TailIdle | TailRunning

  /** `output` is "" until a result lands. */
  datatype Row = Row(kind: Kind, id: string, seqNo: int, text: string, images: seq<Image>,
                     name: string, input: string, output: string, status: Status)

  datatype RenderState = RenderState(basedOnSeq: int, rows: seq<Row>, tail: Activity, lastRunState: RunState)

  // ---------- The positional specification ----------

  predicate ProducesRow(e: Event) {
    e.body.UserMessage? || e.body.AssistantMessage? || e.body.ToolCall? || e.body.Error?
  }

  /** The positions of the row-producing events, in order. */
  function RowPositions(es: seq<Event>): (ps: seq<nat>)
    ensures forall r :: 0 <= r < |ps| ==> ps[r] < |es| && ProducesRow(es[ps[r]])
  {
    PositionsBelow(es, |es|)
  }

  function PositionsBelow(es: seq<Event>, n: nat): (ps: seq<nat>)
    requires n <= |es|
    ensures forall r :: 0 <= r < |ps| ==> ps[r] < n && ProducesRow(es[ps[r]])
  {
    if n == 0 then []
    else PositionsBelow(es, n - 1) + if ProducesRow(es[n - 1]) then [n - 1] else []
  }

  predicate CallsTool(e: Event, id: string) {
    e.body.ToolCall? && e.body.id == id
  }

  /** Event j is a result for the call at i: the ids match, and no newer call took the id over in between. */
  predicate Answers(es: seq<Event>, i: nat, j: nat)
    requires i < |es| && es[i].body.ToolCall?
  {
    && i < j < |es|
    && es[i].body.id != ""
    && es[j].body.ToolResult? && es[j].body.id == es[i].body.id
    && forall k :: i < k < j ==> !CallsTool(es[k], es[i].body.id)
  }

  /** The newest answer to the call at i, or -1. */
  function LastAnswer(es: seq<Event>, i: nat): (j: int)
    requires i < |es| && es[i].body.ToolCall?
    ensures j == -1 || (j >= 0 && Answers(es, i, j))
    ensures forall k: nat :: j < k && k < |es| ==> !Answers(es, i, k)
  {
    AnswerBelow(es, i, |es|)
  }

  function AnswerBelow(es: seq<Event>, i: nat, n: nat): (j: int)
    requires i < |es| && es[i].body.ToolCall? && n <= |es|
    ensures j == -1 || (0 <= j < n && Answers(es, i, j))
    ensures forall k: nat :: j < k < n ==> !Answers(es, i, k)
  {
    if n == 0 then -1
    else if Answers(es, i, n - 1) then n - 1
    else AnswerBelow(es, i, n - 1)
  }

  /** What a tool row shows; `live` says whether a run may still be executing it. */
  function ToolStatus(es: seq<Event>, i: nat, live: bool): Status
    requires i < |es| && es[i].body.ToolCall?
  {
    if LastAnswer(es, i) >= 0 then ToolDone
    else if live && LastBoundary(es) < i then ToolRunning
    else ToolIncomplete
  }

  function ToolOutput(es: seq<Event>, i: nat): string
    requires i < |es| && es[i].body.ToolCall?
  {
    var j := LastAnswer(es, i);
    if j >= 0 then es[j].body.output else ""
  }

  function RowAt(es: seq<Event>, i: nat, live: bool): Row
    requires i < |es| && ProducesRow(es[i])
  {
    var n := es[i].seqNo;
    match es[i].body
    case UserMessage(text, images) =>
      Row(UserRow, "u" + Decimal.Format(n), n, text, images, "", "", "", NoStatus)
    case AssistantMessage(text) =>
      Row(AssistantRow, "a" + Decimal.Format(n), n, text, [], "", "", "", NoStatus)
    case Error(message) =>
      Row(ErrorRow, "e" + Decimal.Format(n), n, message, [], "", "", "", NoStatus)
    case ToolCall(name, id, input) =>
      Row(ToolRow, if id == "" then "t" + Decimal.Format(n) else id, n, "", [], name, input,
          ToolOutput(es, i), ToolStatus(es, i, live))
  }

  function Rows(es: seq<Event>, live: bool): (rows: seq<Row>)
    ensures |rows| == |RowPositions(es)|
    ensures forall r :: 0 <= r < |rows| ==> rows[r] == RowAt(es, RowPositions(es)[r], live)
  {
    var ps := RowPositions(es);
    seq(|ps|, r requires 0 <= r < |ps| => RowAt(es, ps[r], live))
  }

  /** The newest state a run_finished recorded. */
  function LastRunState(es: seq<Event>): RunState {
    StateBelow(es, |es|)
  }

  predicate SetsState(e: Event) {
    e.body.RunFinished? && e.body.state != NoState
  }

  function StateBelow(es: seq<Event>, n: nat): RunState
    requires n <= |es|
  {
    if n == 0 then NoState
    else if SetsState(es[n - 1]) then es[n - 1].body.state
    else StateBelow(es, n - 1)
  }

  function BasedOn(es: seq<Event>): int {
    if |es| == 0 then 0 else es[|es| - 1].seqNo
  }

  function Snapshot(es: seq<Event>): RenderState {
    RenderState(BasedOn(es), Rows(es, Live(es)), if Live(es) then TailRunning else TailIdle, LastRunState(es))
  }

  // ---------- How each part changes with one more event ----------

  lemma RowPositionsAppend(es: seq<Event>, e: Event)
    ensures RowPositions(es + [e]) == RowPositions(es) + if ProducesRow(e) then [|es|] else []
  {
    SamePositions(es, es + [e], |es|);
  }

  lemma {:induction false} SamePositions(es: seq<Event>, fs: seq<Event>, n: nat)
    requires n <= |es| <= |fs| && forall i :: 0 <= i < n ==> es[i] == fs[i]
    ensures PositionsBelow(es, n) == PositionsBelow(fs, n)
    ensures StateBelow(es, n) == StateBelow(fs, n)
  {
    if n > 0 {
      SamePositions(es, fs, n - 1);
    }
  }

  /** An appended event answers the call at i exactly when i is the newest call with its id. */
  lemma LastAnswerAppend(es: seq<Event>, e: Event, i: nat)
    requires i < |es| && es[i].body.ToolCall?
    ensures LastAnswer(es + [e], i) == if Answers(es + [e], i, |es|) then |es| else LastAnswer(es, i)
  {
    var fs := es + [e];
    forall k: nat | k < |es|
      ensures Answers(fs, i, k) == Answers(es, i, k)
    {
      if Answers(es, i, k) {
        assert forall m :: i < m < k ==> !CallsTool(fs[m], es[i].body.id);
      }
      if Answers(fs, i, k) {
        assert forall m :: i < m < k ==> !CallsTool(es[m], es[i].body.id) by {
          forall m | i < m < k ensures !CallsTool(es[m], es[i].body.id) { assert !CallsTool(fs[m], es[i].body.id); }
        }
      }
    }
  }

  lemma LastRunStateAppend(es: seq<Event>, e: Event)
    ensures LastRunState(es + [e]) == if SetsState(e) then e.body.state else LastRunState(es)
  {
    SamePositions(es, es + [e], |es|);
  }

  /** An earlier event's row, after event e has been appended. */
  function Aged(row: Row, answered: bool, e: Event): Row {
    if answered && e.body.ToolResult? then row.(output := e.body.output, status := ToolDone)
    else if row.status == ToolRunning && IsBoundary(e) then row.(status := ToolIncomplete)
    else row
  }

  /** The event appended to es answers the call at i. */
  ghost predicate AnsweredBy(es: seq<Event>, e: Event, i: nat)
    requires i < |es|
  {
    es[i].body.ToolCall? && Answers(es + [e], i, |es|)
  }

  lemma RowAtAppend(es: seq<Event>, e: Event, i: nat)
    requires i < |es| && ProducesRow(es[i])
    ensures RowAt(es + [e], i, true) == Aged(RowAt(es, i, true), AnsweredBy(es, e, i), e)
  {
    LastBoundaryAppend(es, e);
    if es[i].body.ToolCall? {
      LastAnswerAppend(es, e, i);
    }
  }

  lemma RowsAppend(es: seq<Event>, e: Event)
    ensures
      var before, after := Rows(es, true), Rows(es + [e], true);
      && |after| == |before| + (if ProducesRow(e) then 1 else 0)
      && (forall r :: 0 <= r < |before| ==> after[r] == Aged(before[r], AnsweredBy(es, e, RowPositions(es)[r]), e))
      && (ProducesRow(e) ==> after[|before|] == RowAt(es + [e], |es|, true))
  {
    RowPositionsAppend(es, e);
    var before, after := Rows(es, true), Rows(es + [e], true);
    forall r | 0 <= r < |before|
      ensures after[r] == Aged(before[r], AnsweredBy(es, e, RowPositions(es)[r]), e)
    {
      RowAtAppend(es, e, RowPositions(es)[r]);
    }
  }

  // ---------- The single pass ----------

  /** Row r is the newest call with this id. */
  ghost predicate IndexesNewestCall(es: seq<Event>, id: string, r: nat) {
    && r < |RowPositions(es)|
    && CallsTool(es[RowPositions(es)[r]], id)
    && forall k :: RowPositions(es)[r] < k < |es| ==> !CallsTool(es[k], id)
  }

  /** The id-to-row map names the newest call of every non-empty id that was called. */
  ghost predicate MapsNewestCalls(es: seq<Event>, toolRow: map<string, nat>) {
    && (forall id :: id in toolRow ==> id != "" && IndexesNewestCall(es, id, toolRow[id]))
    && (forall i :: 0 <= i < |es| && es[i].body.ToolCall? && es[i].body.id != "" ==> es[i].body.id in toolRow)
  }

  /** Every row still running is listed as open. */
  ghost predicate ListsRunning(rows: seq<Row>, openTools: seq<nat>) {
    && (forall r :: r in openTools ==> r < |rows|)
    && (forall r :: 0 <= r < |rows| && rows[r].status == ToolRunning ==> r in openTools)
  }

  function Flushed(row: Row): Row {
    if row.status == ToolRunning then row.(status := ToolIncomplete) else row
  }

  /** Marks every open tool row that is still running as incomplete. */
  method FlushOpenTools(rows: seq<Row>, openTools: seq<nat>) returns (flushed: seq<Row>)
    requires ListsRunning(rows, openTools)
    ensures |flushed| == |rows|
    ensures forall r :: 0 <= r < |rows| ==>
              flushed[r] == Flushed(rows[r])
  {
    flushed := rows;
    for k := 0 to |openTools|
      invariant |flushed| == |rows|
      invariant forall r :: 0 <= r < |rows| ==>
                  flushed[r] == if r in openTools[..k] then Flushed(rows[r]) else rows[r]
    {
      var idx := openTools[k];
      assert idx in openTools;
      assert openTools[..k + 1] == openTools[..k] + [idx];
      if flushed[idx].status == ToolRunning {
        flushed := flushed[idx := flushed[idx].(status := ToolIncomplete)];
      }
    }
    assert openTools[..|openTools|] == openTools;
  }

  /** What the pass has built after some events. */
  ghost predicate PassedOver(es: seq<Event>, rows: seq<Row>, toolRow: map<string, nat>, openTools: seq<nat>) {
    rows == Rows(es, true) && MapsNewestCalls(es, toolRow) && ListsRunning(rows, openTools)
  }

  method ApplyToolCall(ghost es: seq<Event>, e: Event, rows: seq<Row>, toolRow: map<string, nat>, openTools: seq<nat>)
    returns (rows': seq<Row>, toolRow': map<string, nat>, openTools': seq<nat>)
    requires e.body.ToolCall? && PassedOver(es, rows, toolRow, openTools)
    ensures PassedOver(es + [e], rows', toolRow', openTools')
  {
    ToolCallStep(es, e, toolRow);
    var id := if e.body.id == "" then "t" + Decimal.Format(e.seqNo) else e.body.id;
    rows' := rows + [Row(ToolRow, id, e.seqNo, "", [], e.body.name, e.body.input, "", ToolRunning)];
    openTools' := openTools + [|rows'| - 1];
    toolRow' := toolRow;
    if e.body.id != "" {
      toolRow' := toolRow[e.body.id := |rows'| - 1];
    }
  }

  method ApplyToolResult(ghost es: seq<Event>, e: Event, rows: seq<Row>, toolRow: map<string, nat>, openTools: seq<nat>)
    returns (rows': seq<Row>)
    requires e.body.ToolResult? && PassedOver(es, rows, toolRow, openTools)
    ensures PassedOver(es + [e], rows', toolRow, openTools)
  {
    MapStep(es, e, toolRow);
    ToolResultStep(es, e, toolRow);
    rows' := rows;
    if e.body.id in toolRow {
      var idx := toolRow[e.body.id];
      rows' := rows[idx := rows[idx].(output := e.body.output, status := ToolDone)];
    }
  }

  method ApplyBoundary(ghost es: seq<Event>, ghost e: Event, rows: seq<Row>, ghost toolRow: map<string, nat>,
                       openTools: seq<nat>)
    returns (rows': seq<Row>, openTools': seq<nat>)
    requires IsBoundary(e) && PassedOver(es, rows, toolRow, openTools)
    ensures PassedOver(es + [e], rows', toolRow, openTools')
  {
    MapStep(es, e, toolRow);
    rows' := FlushOpenTools(rows, openTools);
    openTools' := [];
    BoundaryStep(es, e, rows');
  }

  lemma PlainPassed(es: seq<Event>, e: Event, rows: seq<Row>, toolRow: map<string, nat>, openTools: seq<nat>)
    requires PassedOver(es, rows, toolRow, openTools)
    requires !e.body.ToolCall? && !e.body.ToolResult? && !IsBoundary(e)
    ensures PassedOver(es + [e], rows + if ProducesRow(e) then [RowAt(es + [e], |es|, true)] else [], toolRow,
                       openTools)
  {
    MapStep(es, e, toolRow);
    PlainStep(es, e);
  }

  /** The switch of the pass: how one event changes the row list, the id-to-row map and the open tools. */
  method ApplyEvent(ghost es: seq<Event>, e: Event, rows: seq<Row>, toolRow: map<string, nat>, openTools: seq<nat>)
    returns (rows': seq<Row>, toolRow': map<string, nat>, openTools': seq<nat>)
    requires PassedOver(es, rows, toolRow, openTools)
    ensures PassedOver(es + [e], rows', toolRow', openTools')
  {
    rows', toolRow', openTools' := rows, toolRow, openTools;
    match e.body {
      case UserMessage(text, images) =>
        PlainPassed(es, e, rows, toolRow, openTools);
        rows' := rows + [Row(UserRow, "u" + Decimal.Format(e.seqNo), e.seqNo, text, images, "", "", "", NoStatus)];
      case AssistantMessage(text) =>
        PlainPassed(es, e, rows, toolRow, openTools);
        rows' := rows + [Row(AssistantRow, "a" + Decimal.Format(e.seqNo), e.seqNo, text, [], "", "", "", NoStatus)];
      case ToolCall(_, _, _) =>
        rows', toolRow', openTools' := ApplyToolCall(es, e, rows, toolRow, openTools);
      case ToolResult(_, _) =>
        rows' := ApplyToolResult(es, e, rows, toolRow, openTools);
      case RunStarted =>
        rows', openTools' := ApplyBoundary(es, e, rows, toolRow, openTools);
      case RunFinished(_) =>
        rows', openTools' := ApplyBoundary(es, e, rows, toolRow, openTools);
      case Error(message) =>
        PlainPassed(es, e, rows, toolRow, openTools);
        rows' := rows + [Row(ErrorRow, "e" + Decimal.Format(e.seqNo), e.seqNo, message, [], "", "", "", NoStatus)];
      case Other(_) =>
        PlainPassed(es, e, rows, toolRow, openTools);
        assert rows + [] == rows;
    }
  }

  /** One pass over the events with a row list, an id-to-row map and a list of open tools. */
  method Compute(events: seq<Event>) returns (rs: RenderState)
    ensures rs == Snapshot(events)
  {
    var basedOnSeq, rows, lastRunState := 0, [], NoState;
    var toolRow: map<string, nat> := map[];
    var runActive := false;
    var openTools: seq<nat> := [];
    for n := 0 to |events|
      invariant basedOnSeq == BasedOn(events[..n])
      invariant lastRunState == LastRunState(events[..n])
      invariant runActive == Live(events[..n])
      invariant PassedOver(events[..n], rows, toolRow, openTools)
    {
      var e := events[n];
      assert events[..n + 1] == events[..n] + [e];
      LastBoundaryAppend(events[..n], e);
      LastRunStateAppend(events[..n], e);
      basedOnSeq := e.seqNo;
      rows, toolRow, openTools := ApplyEvent(events[..n], e, rows, toolRow, openTools);
      if e.body.RunStarted? {
        runActive := true;
      } else if e.body.RunFinished? {
        runActive := false;
        if e.body.state != NoState {
          lastRunState := e.body.state;
        }
      }
    }
    assert events[..|events|] == events;
    var tail := TailRunning;
    if !runActive {
      tail := TailIdle;
      rows := FlushOpenTools(rows, openTools);
      IdleStep(events, rows);
    }
    rs := RenderState(basedOnSeq, rows, tail, lastRunState);
  }

  /** The row index keeps meaning the newest call while no call reuses the id. */
  lemma MapStep(es: seq<Event>, e: Event, toolRow: map<string, nat>)
    requires MapsNewestCalls(es, toolRow)
    ensures forall id :: id in toolRow && !CallsTool(e, id) ==> IndexesNewestCall(es + [e], id, toolRow[id])
    ensures !e.body.ToolCall? ==> MapsNewestCalls(es + [e], toolRow)
  {
    RowPositionsAppend(es, e);
  }

  lemma PlainStep(es: seq<Event>, e: Event)
    requires !e.body.ToolCall? && !e.body.ToolResult? && !IsBoundary(e)
    ensures Rows(es + [e], true) == Rows(es, true) + if ProducesRow(e) then [RowAt(es + [e], |es|, true)] else []
  {
    RowsAppend(es, e);
  }

  lemma ToolCallStep(es: seq<Event>, e: Event, toolRow: map<string, nat>)
    requires e.body.ToolCall? && MapsNewestCalls(es, toolRow)
    ensures
      var id := if e.body.id == "" then "t" + Decimal.Format(e.seqNo) else e.body.id;
      Rows(es + [e], true) ==
      Rows(es, true) + [Row(ToolRow, id, e.seqNo, "", [], e.body.name, e.body.input, "", ToolRunning)]
    ensures MapsNewestCalls(es + [e], if e.body.id == "" then toolRow else toolRow[e.body.id := |Rows(es, true)|])
  {
    RowsAppend(es, e);
    LastBoundaryAppend(es, e);
    RowPositionsAppend(es, e);
    MapStep(es, e, toolRow);
    assert LastAnswer(es + [e], |es|) == -1;
  }

  lemma ToolResultStep(es: seq<Event>, e: Event, toolRow: map<string, nat>)
    requires e.body.ToolResult? && MapsNewestCalls(es, toolRow)
    ensures
      var rows, id := Rows(es, true), e.body.id;
      Rows(es + [e], true) ==
      if id in toolRow then rows[toolRow[id] := rows[toolRow[id]].(output := e.body.output, status := ToolDone)]
      else rows
  {
    RowsAppend(es, e);
    var rows, id := Rows(es, true), e.body.id;
    forall r | 0 <= r < |rows|
      ensures AnsweredBy(es, e, RowPositions(es)[r]) == (id in toolRow && r == toolRow[id])
    {
      AnsweredIsNewest(es, e, r, toolRow);
    }
  }

  /** A result lands on exactly the row the id-to-row map names. */
  lemma AnsweredIsNewest(es: seq<Event>, e: Event, r: nat, toolRow: map<string, nat>)
    requires e.body.ToolResult? && r < |RowPositions(es)| && MapsNewestCalls(es, toolRow)
    ensures AnsweredBy(es, e, RowPositions(es)[r]) == (e.body.id in toolRow && r == toolRow[e.body.id])
  {
    var fs, i, id := es + [e], RowPositions(es)[r], e.body.id;
    if AnsweredBy(es, e, i) {
      var p := RowPositions(es)[toolRow[id]];
      assert p == i by {
        assert CallsTool(es[i], id) && CallsTool(es[p], id) && CallsTool(fs[p], id);
        assert !(p < i) && !(i < p);
      }
      if r < toolRow[id] { PositionsAscend(es, r, toolRow[id]); }
      if toolRow[id] < r { PositionsAscend(es, toolRow[id], r); }
    }
    if id in toolRow && r == toolRow[id] {
      assert forall k :: i < k < |es| ==> !CallsTool(es[k], id) && fs[k] == es[k];
      assert CallsTool(es[i], id) && id != "" && fs[i] == es[i] && fs[|es|] == e;
      assert Answers(fs, i, |es|);
    }
  }

  /** Row positions ascend, so two rows never share an event. */
  lemma PositionsAscend(es: seq<Event>, q: nat, r: nat)
    requires q < r < |RowPositions(es)|
    ensures RowPositions(es)[q] < RowPositions(es)[r]
  {
    PositionsBelowAscend(es, |es|, q, r);
  }

  lemma {:induction false} PositionsBelowAscend(es: seq<Event>, n: nat, q: nat, r: nat)
    requires n <= |es| && q < r < |PositionsBelow(es, n)|
    ensures PositionsBelow(es, n)[q] < PositionsBelow(es, n)[r]
  {
    if r < |PositionsBelow(es, n - 1)| {
      PositionsBelowAscend(es, n - 1, q, r);
    }
  }

  lemma BoundaryStep(es: seq<Event>, e: Event, flushed: seq<Row>)
    requires IsBoundary(e) && |flushed| == |Rows(es, true)|
    requires forall r :: 0 <= r < |flushed| ==>
               flushed[r] == Flushed(Rows(es, true)[r])
    ensures flushed == Rows(es + [e], true)
  {
    RowsAppend(es, e);
  }

  lemma IdleStep(es: seq<Event>, flushed: seq<Row>)
    requires |flushed| == |Rows(es, true)|
    requires forall r :: 0 <= r < |flushed| ==>
               flushed[r] == Flushed(Rows(es, true)[r])
    ensures flushed == Rows(es, false)
  {
  }
}
