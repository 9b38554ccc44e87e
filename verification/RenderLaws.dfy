/** What the snapshot promises its readers: what a row means, windows, growth. */
module RenderLaws {
  import opened Ledger
  import opened Render

  /** The row of the call at position i, in the snapshot of es. */
  ghost predicate Shows(es: seq<Event>, i: nat, row: Row)
    requires i < |es|
  {
    exists r :: 0 <= r < |Snapshot(es).rows| && RowPositions(es)[r] == i && Snapshot(es).rows[r] == row
  }

  /**
   A tool row is done exactly when some result answers its call, and shows the newest answer's
   output; running exactly when unanswered, a run is live and no run boundary follows the call.
   */
  lemma ToolRowMeaning(es: seq<Event>, i: nat, row: Row)
    requires i < |es| && es[i].body.ToolCall? && Shows(es, i, row)
    ensures row.status == ToolDone <==> exists j :: i < j < |es| && Answers(es, i, j)
    ensures forall j :: i < j < |es| && Answers(es, i, j) && (forall k :: j < k < |es| ==> !Answers(es, i, k))
              ==> row.output == es[j].body.output
    ensures row.status == ToolRunning <==>
            && (forall j :: i < j < |es| ==> !Answers(es, i, j))
            && Live(es)
            && (forall k :: i < k < |es| ==> !IsBoundary(es[k]))
    ensures row.status in {ToolRunning, ToolIncomplete, ToolDone}
    ensures row.status != ToolDone ==> row.output == ""
  {
    var a := LastAnswer(es, i);
    assert row == RowAt(es, i, Live(es));
    if j: nat :| i < j < |es| && Answers(es, i, j) {
      assert a >= j;
      assert Answers(es, i, a);
    }
    assert LastBoundary(es) != i;
    if forall k :: i < k < |es| ==> !IsBoundary(es[k]) {
      assert LastBoundary(es) < i;
    }
  }

  /** No tool spins in a settled session. */
  lemma SettledShowsNothingRunning(es: seq<Event>)
    ensures Snapshot(es).tail == TailRunning <==> Live(es)
    ensures Settled(es) ==> forall r :: 0 <= r < |Snapshot(es).rows| ==> Snapshot(es).rows[r].status != ToolRunning
  {
  }

  // ---------- Windows ----------

  function Shift(ps: seq<nat>, k: nat): (qs: seq<nat>)
    ensures |qs| == |ps| && forall r :: 0 <= r < |ps| ==> qs[r] == ps[r] + k
  {
    seq(|ps|, r requires 0 <= r < |ps| => ps[r] + k)
  }

  lemma RowPositionsOfWindow(es: seq<Event>, k: nat)
    requires k <= |es|
    ensures RowPositions(es) == RowPositions(es[..k]) + Shift(RowPositions(es[k..]), k)
  {
    PositionsOfWindowBelow(es, k, |es| - k);
  }

  lemma ShiftMore(ps: seq<nat>, p: nat, k: nat)
    ensures Shift(ps + [p], k) == Shift(ps, k) + [p + k]
  {
  }

  lemma PositionsNext(es: seq<Event>, n: nat)
    requires n < |es|
    ensures PositionsBelow(es, n + 1) ==
            if ProducesRow(es[n]) then PositionsBelow(es, n) + [n] else PositionsBelow(es, n)
  {
  }

  lemma {:induction false} PositionsOfWindowBelow(es: seq<Event>, k: nat, n: nat)
    requires k + n <= |es|
    ensures PositionsBelow(es, k + n) == RowPositions(es[..k]) + Shift(PositionsBelow(es[k..], n), k)
  {
    if n == 0 {
      SamePositions(es[..k], es, k);
    } else {
      PositionsOfWindowBelow(es, k, n - 1);
      WindowNext(es, k, n - 1, RowPositions(es[..k]), PositionsBelow(es[k..], n - 1));
    }
  }

  lemma WindowNext(es: seq<Event>, k: nat, n: nat, outside: seq<nat>, inside: seq<nat>)
    requires k + n < |es| && inside == PositionsBelow(es[k..], n)
    requires PositionsBelow(es, k + n) == outside + Shift(inside, k)
    ensures PositionsBelow(es, k + n + 1) == outside + Shift(PositionsBelow(es[k..], n + 1), k)
  {
    assert es[k..][n] == es[k + n];
    PositionsNext(es, k + n);
    PositionsNext(es[k..], n);
    ShiftMore(inside, n, k);
  }

  lemma LastBoundaryOfWindow(es: seq<Event>, k: nat)
    requires k <= |es|
    ensures LastBoundary(es[k..]) == if LastBoundary(es) >= k then LastBoundary(es) - k else -1
  {
    assert forall j :: 0 <= j < |es| - k ==> es[k..][j] == es[k + j];
  }

  lemma LiveOfWindow(es: seq<Event>, k: nat)
    requires k <= |es|
    ensures Live(es[k..]) <==> Live(es) && LastBoundary(es) >= k
  {
    LastBoundaryOfWindow(es, k);
  }

  lemma LastAnswerOfWindow(es: seq<Event>, k: nat, i: nat)
    requires k <= |es| && i < |es| - k && es[k + i].body.ToolCall?
    ensures var w := LastAnswer(es[k..], i);
            LastAnswer(es, k + i) == if w >= 0 then w + k else -1
  {
    forall j | 0 <= j < |es| - k
      ensures Answers(es[k..], i, j) == Answers(es, k + i, k + j)
    {
      AnswersOfWindow(es, k, i, j);
    }
    var a, w := LastAnswer(es, k + i), LastAnswer(es[k..], i);
    if a >= 0 {
      assert Answers(es[k..], i, a - k);
    }
    if w >= 0 {
      assert Answers(es, k + i, k + w);
    }
  }

  lemma AnswersOfWindow(es: seq<Event>, k: nat, i: nat, j: nat)
    requires k <= |es| && i < |es| - k && j < |es| - k && es[k + i].body.ToolCall?
    ensures Answers(es[k..], i, j) == Answers(es, k + i, k + j)
  {
    var id := es[k + i].body.id;
    if Answers(es[k..], i, j) {
      forall m | k + i < m < k + j ensures !CallsTool(es[m], id) { assert !CallsTool(es[k..][m - k], id); }
    }
    if Answers(es, k + i, k + j) {
      forall m | i < m < j ensures !CallsTool(es[k..][m], id) { assert !CallsTool(es[k + m], id); }
    }
  }

  /** Whether the window from k on still shows the run activity of the whole ledger. */
  predicate WindowSeesActivity(es: seq<Event>, k: nat) {
    LastBoundary(es) >= k || Settled(es)
  }

  lemma RowOfWindow(es: seq<Event>, k: nat, i: nat)
    requires k <= |es| && i < |es| - k && ProducesRow(es[k + i]) && WindowSeesActivity(es, k)
    ensures RowAt(es[k..], i, Live(es[k..])) == RowAt(es, k + i, Live(es))
  {
    LastBoundaryOfWindow(es, k);
    if es[k + i].body.ToolCall? {
      LastAnswerOfWindow(es, k, i);
    }
  }

  lemma RowsOfWindow(es: seq<Event>, k: nat, r: nat)
    requires k <= |es| && WindowSeesActivity(es, k)
    requires r < |RowPositions(es[k..])|
    ensures var skipped := |RowPositions(es[..k])|;
            && |RowPositions(es)| == skipped + |RowPositions(es[k..])|
            && Rows(es, Live(es))[skipped + r] == Rows(es[k..], Live(es[k..]))[r]
  {
    RowPositionsOfWindow(es, k);
    var i := RowPositions(es[k..])[r];
    assert RowPositions(es)[|RowPositions(es[..k])| + r] == Shift(RowPositions(es[k..]), k)[r] == k + i;
    RowOfWindow(es, k, i);
  }

  lemma TrailingRows(es: seq<Event>, k: nat)
    requires k <= |es| && WindowSeesActivity(es, k)
    ensures var full, window := Rows(es, Live(es)), Rows(es[k..], Live(es[k..]));
            |window| <= |full| && window == full[|full| - |window|..]
  {
    var full, window := Rows(es, Live(es)), Rows(es[k..], Live(es[k..]));
    var skipped := |RowPositions(es[..k])|;
    assert |full| == skipped + |window| by { RowPositionsOfWindow(es, k); }
    forall r | 0 <= r < |window|
      ensures window[r] == full[skipped + r]
    {
      RowsOfWindow(es, k, r);
    }
  }

  /**
   A non-empty window renders the tail activity of the whole ledger exactly when it reaches back to
   the last run boundary or the ledger is settled; its rows are then the whole ledger's last rows.
   */
  lemma WindowRefinesLedger(es: seq<Event>, k: nat)
    requires k < |es|
    ensures Snapshot(es[k..]).basedOnSeq == Snapshot(es).basedOnSeq
    ensures Snapshot(es[k..]).tail == Snapshot(es).tail <==> WindowSeesActivity(es, k)
    ensures WindowSeesActivity(es, k) ==>
              var full, window := Snapshot(es).rows, Snapshot(es[k..]).rows;
              |window| <= |full| && window == full[|full| - |window|..]
  {
    assert es[k..][|es| - k - 1] == es[|es| - 1];
    LiveOfWindow(es, k);
    if WindowSeesActivity(es, k) {
      TrailingRows(es, k);
    }
  }

  /** The window's last run state is the ledger's unless the run_finished that set it lies outside. */
  lemma LastRunStateOfWindow(es: seq<Event>, k: nat)
    requires k <= |es|
    ensures var sets := exists i :: k <= i < |es| && SetsState(es[i]);
            && (LastRunState(es[k..]) == LastRunState(es) <==> sets || LastRunState(es) == NoState)
            && (LastRunState(es[k..]) != NoState <==> sets)
  {
    StateOfWindowBelow(es, k, |es| - k);
  }

  lemma {:induction false} StateOfWindowBelow(es: seq<Event>, k: nat, n: nat)
    requires k + n <= |es|
    ensures var sets := exists i :: k <= i < k + n && SetsState(es[i]);
            && (StateBelow(es[k..], n) == if sets then StateBelow(es, k + n) else NoState)
            && (sets ==> StateBelow(es, k + n) != NoState)
  {
    if n > 0 {
      StateOfWindowBelow(es, k, n - 1);
      assert es[k..][n - 1] == es[k + n - 1];
    }
  }

  /** What a run says after its start. */
  function LongAnswer(n: nat): (es: seq<Event>)
    ensures |es| == n && forall i :: 0 <= i < n ==> es[i] == Event(i + 2, "r", AssistantMessage(""))
  {
    seq(n, i requires 0 <= i < n => Event(i + 2, "r", AssistantMessage("")))
  }

  /**
   The comment on EventsTail promises that the tail always reflects the live run. It does not once a
   single run outgrows the window: here the window of the newest n events renders a running session idle.
   */
  lemma LongRunRendersIdle(n: nat)
    requires n > 0
    ensures var es := [Event(1, "r", RunStarted)] + LongAnswer(n);
            Numbered(es) && Snapshot(es).tail == TailRunning && Snapshot(es[|es| - n..]).tail == TailIdle
  {
    var es := [Event(1, "r", RunStarted)] + LongAnswer(n);
    assert IsBoundary(es[0]);
    assert LastBoundary(es) == 0;
    LastBoundaryOfWindow(es, 1);
  }

  // ---------- Growth ----------

  function Rank(s: Status): nat {
    match s
    case NoStatus => 0
    case ToolRunning => 1
    case ToolIncomplete => 2
    case ToolDone => 3
  }

  /** A later snapshot's row is the same row: only status and output move, and status only forward. */
  predicate Continues(before: Row, after: Row) {
    && after == before.(output := after.output, status := after.status)
    && Rank(before.status) <= Rank(after.status)
    && (before.status == NoStatus <==> after.status == NoStatus)
    && (after.status != ToolDone ==> after.output == before.output)
  }

  predicate SnapshotContinues(before: RenderState, after: RenderState) {
    && |before.rows| <= |after.rows|
    && forall r :: 0 <= r < |before.rows| ==> Continues(before.rows[r], after.rows[r])
  }

  lemma SnapshotGrowsByOne(es: seq<Event>, e: Event)
    ensures SnapshotContinues(Snapshot(es), Snapshot(es + [e]))
  {
    RowsAppend(es, e);
    RowPositionsAppend(es, e);
    LastBoundaryAppend(es, e);
    var before, after := Snapshot(es).rows, Snapshot(es + [e]).rows;
    forall r | 0 <= r < |before|
      ensures Continues(before[r], after[r])
    {
      var i := RowPositions(es)[r];
      RowAtAppend(es, e, i);
      if es[i].body.ToolCall? {
        LastAnswerAppend(es, e, i);
      }
    }
  }

  /** Snapshots of a growing ledger are monotone, although each one flushes an idle tail anew. */
  lemma {:induction false} SnapshotsAreMonotone(es: seq<Event>, more: seq<Event>)
    ensures SnapshotContinues(Snapshot(es), Snapshot(es + more))
  {
    if more == [] {
      assert es + more == es;
    } else {
      var init, e := more[..|more| - 1], more[|more| - 1];
      SnapshotsAreMonotone(es, init);
      SnapshotGrowsByOne(es + init, e);
      assert (es + init) + [e] == es + more;
    }
  }
}
