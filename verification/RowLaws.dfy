/** What each row of a snapshot shows of the event it stands for. */
module RowLaws {
  import opened Ledger
  import opened Render
  import Decimal

  /**
   The rows of a snapshot stand for exactly the messages, calls and errors of the ledger, one each and in
   ledger order, and each carries its event's number and content. Only a tool row has a name, an input, an
   output or a status.
   */
  lemma RowsShowTheLedger(es: seq<Event>)
    ensures |Snapshot(es).rows| == |RowPositions(es)|
    ensures forall i: nat :: i in RowPositions(es) <==>
              && i < |es|
              && (es[i].body.UserMessage? || es[i].body.AssistantMessage? || es[i].body.ToolCall? || es[i].body.Error?)
    ensures forall q, r :: 0 <= q < r < |RowPositions(es)| ==> RowPositions(es)[q] < RowPositions(es)[r]
    ensures forall r :: 0 <= r < |RowPositions(es)| ==>
              var row, e := Snapshot(es).rows[r], es[RowPositions(es)[r]];
              && row.seqNo == e.seqNo
              && (e.body.UserMessage? ==>
                    && row.kind == UserRow && row.id == "u" + Decimal.Format(e.seqNo)
                    && row.text == e.body.text && row.images == e.body.images)
              && (e.body.AssistantMessage? ==>
                    && row.kind == AssistantRow && row.id == "a" + Decimal.Format(e.seqNo)
                    && row.text == e.body.text && row.images == [])
              && (e.body.Error? ==>
                    && row.kind == ErrorRow && row.id == "e" + Decimal.Format(e.seqNo)
                    && row.text == e.body.message && row.images == [])
              && (e.body.ToolCall? ==>
                    && row.kind == ToolRow && row.name == e.body.name && row.input == e.body.input
                    && row.id == (if e.body.id != "" then e.body.id else "t" + Decimal.Format(e.seqNo))
                    && row.text == "" && row.images == [] && row.status != NoStatus)
              && (!e.body.ToolCall? ==> row.name == "" && row.input == "" && row.output == "" && row.status == NoStatus)
  {
    AllProducersBelow(es, |es|);
    forall q, r | 0 <= q < r < |RowPositions(es)| ensures RowPositions(es)[q] < RowPositions(es)[r] {
      PositionsAscend(es, q, r);
    }
  }

  lemma {:induction false} AllProducersBelow(es: seq<Event>, n: nat)
    requires n <= |es|
    ensures forall i: nat :: i < n && ProducesRow(es[i]) ==> i in PositionsBelow(es, n)
  {
    if n > 0 {
      AllProducersBelow(es, n - 1);
    }
  }

  lemma {:induction false} FormatIsInjective(m: nat, n: nat)
    requires Decimal.Format(m) == Decimal.Format(n)
    ensures m == n
  {
    Decimal.NaturalRoundTrip(m);
    Decimal.NaturalRoundTrip(n);
  }

  lemma TaggedIdsDiffer(a: string, b: string, m: nat, n: nat)
    requires |a| == 1 && |b| == 1 && m != n
    ensures a + Decimal.Format(m) != b + Decimal.Format(n)
  {
    if a + Decimal.Format(m) == b + Decimal.Format(n) {
      assert (a + Decimal.Format(m))[1..] == Decimal.Format(m);
      assert (b + Decimal.Format(n))[1..] == Decimal.Format(n);
      FormatIsInjective(m, n);
    }
  }

  /** The id of the row was made from the event's number, and not by the agent. */
  predicate OwnsId(e: Event) {
    ProducesRow(e) && (e.body.ToolCall? ==> e.body.id == "")
  }

  /** In a numbered ledger, rows whose ids the server made never share one. */
  lemma IdsAreDistinct(es: seq<Event>, q: nat, r: nat)
    requires Numbered(es) && q < r < |Snapshot(es).rows|
    requires OwnsId(es[RowPositions(es)[q]]) && OwnsId(es[RowPositions(es)[r]])
    ensures Snapshot(es).rows[q].id != Snapshot(es).rows[r].id
  {
    var i, j := RowPositions(es)[q], RowPositions(es)[r];
    PositionsAscend(es, q, r);
    RowsShowTheLedger(es);
    TaggedIdsDiffer(Snapshot(es).rows[q].id[..1], Snapshot(es).rows[r].id[..1], es[i].seqNo, es[j].seqNo);
  }

  // ---------- The last run state ----------

  /** The last run state is that of the newest run_finished that names one, and absent exactly when none does. */
  lemma LastRunStateIsNewestNamed(es: seq<Event>)
    ensures LastRunState(es) == NoState <==>
            forall i :: 0 <= i < |es| && es[i].body.RunFinished? ==> es[i].body.state == NoState
    ensures forall i ::
              && 0 <= i < |es| && es[i].body.RunFinished? && es[i].body.state != NoState
              && (forall j :: i < j < |es| && es[j].body.RunFinished? ==> es[j].body.state == NoState)
              ==> LastRunState(es) == es[i].body.state
  {
    NewestNamedBelow(es, |es|);
  }

  lemma {:induction false} NewestNamedBelow(es: seq<Event>, n: nat)
    requires n <= |es|
    ensures StateBelow(es, n) == NoState <==>
            forall i :: 0 <= i < n && es[i].body.RunFinished? ==> es[i].body.state == NoState
    ensures forall i ::
              && 0 <= i < n && es[i].body.RunFinished? && es[i].body.state != NoState
              && (forall j :: i < j < n && es[j].body.RunFinished? ==> es[j].body.state == NoState)
              ==> StateBelow(es, n) == es[i].body.state
  {
    if n > 0 {
      NewestNamedBelow(es, n - 1);
      assert StateBelow(es, n) == if SetsState(es[n - 1]) then es[n - 1].body.state else StateBelow(es, n - 1);
    }
  }
}
