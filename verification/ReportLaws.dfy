/** What a run leaves of its provider's reports: in the ledger, on the stream and in the render. */
module ReportLaws {
  import opened Ledger
  import opened Tables
  import opened Lifecycle
  import opened Stream
  import opened Render
  import opened Turn
  import opened TurnLaws
  import opened Publication
  import RenderLaws
  import RowLaws

  // ---------- Which reports leave something ----------

  predicate Kept(r: Report) {
    r.Says? || r.Calls? || r.Returns?
  }

  predicate Shown(r: Report) {
    r.Delta? || Kept(r)
  }

  /** The event body a report becomes. */
  predicate Tells(body: Body, r: Report) {
    || (r.Says? && body == AssistantMessage(r.text))
    || (r.Calls? && body == ToolCall(r.name, r.id, r.input))
    || (r.Returns? && body == ToolResult(r.id, r.output))
  }

  /** The frame a report becomes. */
  predicate Sends(f: Frame, run: RunId, r: Report) {
    if r.Delta? then f == DeltaFrame(run, r.text, r.index)
    else f.EventFrame? && f.event.run == run && Tells(f.event.body, r)
  }

  /** The positions of such reports among the first n, in order. */
  function Positions(p: Report -> bool, reports: seq<Report>, n: nat): (ps: seq<nat>)
    requires n <= |reports|
    ensures forall k :: 0 <= k < |ps| ==> ps[k] < n && p(reports[ps[k]])
    ensures forall i :: 0 <= i < n && p(reports[i]) ==> i in ps
    ensures forall j, k :: 0 <= j < k < |ps| ==> ps[j] < ps[k]
  {
    if n == 0 then [] else Positions(p, reports, n - 1) + if p(reports[n - 1]) then [n - 1] else []
  }

  // ---------- The ledger ----------

  /** A ledger grew by one event of this run for each kept report, in their order, and by nothing else. */
  ghost predicate Recounts(was: seq<Event>, now: seq<Event>, run: RunId, reports: seq<Report>, ps: seq<nat>) {
    && |now| == |was| + |ps| && now[..|was|] == was
    && forall k :: 0 <= k < |ps| ==>
         ps[k] < |reports| && now[|was| + k].run == run && Tells(now[|was| + k].body, reports[ps[k]])
  }

  lemma RecountsMore(was: seq<Event>, now: seq<Event>, run: RunId, reports: seq<Report>, ps: seq<nat>, n: nat, e: Event)
    requires Recounts(was, now, run, reports, ps) && n < |reports| && e.run == run && Tells(e.body, reports[n])
    ensures Recounts(was, now + [e], run, reports, ps + [n])
  {
    var next := now + [e];
    assert next[..|was|] == now[..|was|];
    forall k | 0 <= k < |ps| + 1
      ensures (ps + [n])[k] < |reports| && next[|was| + k].run == run
      ensures Tells(next[|was| + k].body, reports[(ps + [n])[k]])
    {
      if k < |ps| {
        assert next[|was| + k] == now[|was| + k];
      }
    }
  }

  lemma KeptIsCommitted(r: Report)
    ensures Kept(r) <==> Committed(r) != []
    ensures Kept(r) ==> Tells(Committed(r)[0], r)
  {
  }

  lemma PositionsNext(p: Report -> bool, reports: seq<Report>, n: nat)
    requires n < |reports|
    ensures Positions(p, reports, n + 1) ==
            if p(reports[n]) then Positions(p, reports, n) + [n] else Positions(p, reports, n)
  {
  }

  lemma RecountsNext(was: seq<Event>, db: Db, sid: SessionId, run: RunId, reports: seq<Report>, n: nat, ps: seq<nat>)
    requires n < |reports| && Recounts(was, LedgerOf(Reported(db, sid, run, reports, n), sid), run, reports, ps)
    ensures Recounts(was, LedgerOf(Reported(db, sid, run, reports, n + 1), sid), run, reports,
                     if Kept(reports[n]) then ps + [n] else ps)
  {
    var es := LedgerOf(Reported(db, sid, run, reports, n), sid);
    ReportedEffect(db, sid, run, reports, n);
    KeptIsCommitted(reports[n]);
    if Kept(reports[n]) {
      RecountsMore(was, es, run, reports, ps, n, NextEvent(es, run, Committed(reports[n])[0]));
    }
  }

  lemma {:induction false} ReportsAreRecounted(db: Db, sid: SessionId, run: RunId, reports: seq<Report>, n: nat)
    requires n <= |reports|
    ensures Recounts(LedgerOf(db, sid), LedgerOf(Reported(db, sid, run, reports, n), sid), run, reports,
                     Positions(Kept, reports, n))
  {
    if n == 0 {
      ReportedNone(db, sid, run, [], reports);
    } else {
      var k := n - 1;
      ReportsAreRecounted(db, sid, run, reports, k);
      RecountsNext(LedgerOf(db, sid), db, sid, run, reports, k, Positions(Kept, reports, k));
      PositionsNext(Kept, reports, k);
      assert k + 1 == n;
    }
  }

  // ---------- The stream ----------

  /** One frame for each report but the notes, in their order. */
  ghost predicate Retells(frames: seq<Frame>, run: RunId, reports: seq<Report>, ps: seq<nat>) {
    && |frames| == |ps|
    && forall k :: 0 <= k < |ps| ==> ps[k] < |reports| && Sends(frames[k], run, reports[ps[k]])
  }

  lemma FrameTells(db: Db, sid: SessionId, run: RunId, r: Report)
    ensures Shown(r) <==> ReportFrame(db, sid, run, r) != []
    ensures Shown(r) ==> |ReportFrame(db, sid, run, r)| == 1 && Sends(ReportFrame(db, sid, run, r)[0], run, r)
  {
    KeptIsCommitted(r);
  }

  lemma RetellsMore(frames: seq<Frame>, more: seq<Frame>, run: RunId, reports: seq<Report>, ps: seq<nat>, n: nat)
    requires Retells(frames, run, reports, ps) && n < |reports|
    requires Shown(reports[n]) <==> more != []
    requires Shown(reports[n]) ==> |more| == 1 && Sends(more[0], run, reports[n])
    ensures Retells(frames + more, run, reports, if Shown(reports[n]) then ps + [n] else ps)
  {
    if Shown(reports[n]) {
      assert more == [more[0]];
      RetellsOneMore(frames, more[0], run, reports, ps, n);
    } else {
      assert frames + more == frames;
    }
  }

  lemma RetellsOneMore(frames: seq<Frame>, f: Frame, run: RunId, reports: seq<Report>, ps: seq<nat>, n: nat)
    requires Retells(frames, run, reports, ps) && n < |reports| && Sends(f, run, reports[n])
    ensures Retells(frames + [f], run, reports, ps + [n])
  {
    var all, qs := frames + [f], ps + [n];
    forall k | 0 <= k < |qs| ensures qs[k] < |reports| && Sends(all[k], run, reports[qs[k]]) {
      if k < |ps| {
        assert all[k] == frames[k] && qs[k] == ps[k];
      }
    }
  }

  lemma {:induction false} ReportsAreRetold(db: Db, sid: SessionId, run: RunId, reports: seq<Report>, n: nat)
    requires n <= |reports|
    ensures Retells(ReportFrames(db, sid, run, reports, n), run, reports, Positions(Shown, reports, n))
  {
    if n > 0 {
      var k := n - 1;
      var frames, before := ReportFrames(db, sid, run, reports, k), Reported(db, sid, run, reports, k);
      ReportsAreRetold(db, sid, run, reports, k);
      ReportFramesNext(db, sid, run, reports, k, frames);
      FrameTells(before, sid, run, reports[k]);
      RetellsMore(frames, ReportFrame(before, sid, run, reports[k]), run, reports, Positions(Shown, reports, k), k);
      PositionsNext(Shown, reports, k);
      assert k + 1 == n;
    }
  }

  // ---------- The ending ----------

  /** What follows the reports: for a failure its error; then the run_finished that matches the outcome. */
  predicate Concludes(was: seq<Event>, now: seq<Event>, run: RunId, outcome: Outcome) {
    && was <= now
    && (forall k :: |was| <= k < |now| ==> now[k].run == run)
    && match outcome
       case Succeeded => |now| == |was| + 1 && now[|was|].body == RunFinished(Done)
       case Cancelled => |now| == |was| + 1 && now[|was|].body == RunFinished(Interrupted)
       case Errored(message) =>
         && |now| == |was| + 2
         && now[|was|].body == Error(message) && now[|was| + 1].body == RunFinished(Failed)
  }

  lemma EndingConcludes(db: Db, sid: SessionId, run: RunId, outcome: Outcome, last: string)
    ensures Concludes(LedgerOf(db, sid), LedgerOf(TurnFinished(db, sid, run, outcome, last), sid), run, outcome)
  {
    var db1 := if outcome.Errored? then Commit(db, sid, run, Error(outcome.message)) else db;
    CommitEffect(db, sid, run, Error(if outcome.Errored? then outcome.message else ""));
    CommitEffect(db1, sid, run, RunFinished(EndState(outcome)));
    FinishEffect(Commit(db1, sid, run, RunFinished(EndState(outcome))), sid, run, EndState(outcome), last);
  }

  /** What a goroutine adds from the provider's start to its end: what the reports became, then the ending. */
  ghost predicate RunsToItsEnd(was: seq<Event>, now: seq<Event>, run: RunId, reports: seq<Report>, ps: seq<nat>,
                               outcome: Outcome) {
    var ended := |was| + |ps|;
    ended <= |now| && Recounts(was, now[..ended], run, reports, ps) && Concludes(now[..ended], now, run, outcome)
  }

  lemma RunsWhen(was: seq<Event>, mid: seq<Event>, now: seq<Event>, run: RunId, reports: seq<Report>, ps: seq<nat>,
                 outcome: Outcome)
    requires Recounts(was, mid, run, reports, ps) && Concludes(mid, now, run, outcome)
    ensures RunsToItsEnd(was, now, run, reports, ps, outcome)
  {
    assert now[..|was| + |ps|] == mid;
  }

  lemma ReportsThenEnding(db: Db, sid: SessionId, run: RunId, reports: seq<Report>, outcome: Outcome, last: string)
    ensures var all := Reported(db, sid, run, reports, |reports|);
            RunsToItsEnd(LedgerOf(db, sid), LedgerOf(TurnFinished(all, sid, run, outcome, last), sid), run, reports,
                         Positions(Kept, reports, |reports|), outcome)
  {
    var all := Reported(db, sid, run, reports, |reports|);
    ReportsAreRecounted(db, sid, run, reports, |reports|);
    EndingConcludes(all, sid, run, outcome, last);
    RunsWhen(LedgerOf(db, sid), LedgerOf(all, sid), LedgerOf(TurnFinished(all, sid, run, outcome, last), sid), run,
             reports, Positions(Kept, reports, |reports|), outcome);
  }

  // ---------- A whole turn ----------

  /** The ledger before, after the opening, after the reports and after the ending. */
  ghost predicate ToldInParts(was: seq<Event>, start: seq<Event>, mid: seq<Event>, now: seq<Event>, run: RunId,
                              message: string, images: seq<Image>, reports: seq<Report>, ps: seq<nat>, outcome: Outcome)
  {
    && Grew(was, start, run, [UserMessage(message, images), RunStarted])
    && Recounts(start, mid, run, reports, ps)
    && Concludes(mid, now, run, outcome)
  }

  /** The user's message, run_started, what the reports at these positions became, and the ending; nothing else. */
  ghost predicate Told(was: seq<Event>, now: seq<Event>, run: RunId, message: string, images: seq<Image>,
                       reports: seq<Report>, ps: seq<nat>, outcome: Outcome) {
    && |was| + 2 + |ps| <= |now|
    && ToldInParts(was, now[..|was| + 2], now[..|was| + 2 + |ps|], now, run, message, images, reports, ps, outcome)
  }

  lemma PartsArePrefixes(was: seq<Event>, start: seq<Event>, mid: seq<Event>, now: seq<Event>, run: RunId,
                         message: string, images: seq<Image>, reports: seq<Report>, ps: seq<nat>, outcome: Outcome)
    requires ToldInParts(was, start, mid, now, run, message, images, reports, ps, outcome)
    ensures |start| == |was| + 2 && |mid| == |was| + 2 + |ps| && |mid| <= |now|
    ensures now[..|was| + 2] == start && now[..|was| + 2 + |ps|] == mid
  {
    assert now[..|start|] == mid[..|start|];
  }

  lemma ToldWhen(was: seq<Event>, start: seq<Event>, mid: seq<Event>, now: seq<Event>, run: RunId, message: string,
                 images: seq<Image>, reports: seq<Report>, ps: seq<nat>, outcome: Outcome)
    requires ToldInParts(was, start, mid, now, run, message, images, reports, ps, outcome)
    ensures Told(was, now, run, message, images, reports, ps, outcome)
  {
    PartsArePrefixes(was, start, mid, now, run, message, images, reports, ps, outcome);
  }

  /** The state a run ends in. */
  predicate EndsIn(outcome: Outcome, end: RunState) {
    || (outcome.Succeeded? && end == Done)
    || (outcome.Cancelled? && end == Interrupted)
    || (outcome.Errored? && end == Failed)
  }

  lemma ConcludedShows(was: seq<Event>, now: seq<Event>, run: RunId, outcome: Outcome, end: RunState)
    requires Concludes(was, now, run, outcome) && EndsIn(outcome, end)
    ensures LastRunState(now) == end && Settled(now) && Snapshot(now).tail == TailIdle
  {
    var e := now[|now| - 1];
    assert now == now[..|now| - 1] + [e];
    LastRunStateAppend(now[..|now| - 1], e);
    LastBoundaryAppend(now[..|now| - 1], e);
  }

  /** What the session list previews: the final text, or else the newest message said. */
  predicate IsLastWord(last: string, reports: seq<Report>, finalText: string) {
    if finalText != "" then last == finalText
    else
      || (last == "" && forall k :: 0 <= k < |reports| ==> !reports[k].Says?)
      || (exists k :: 0 <= k < |reports| && reports[k].Says? && reports[k].text == last
                      && forall j :: k < j < |reports| ==> !reports[j].Says?)
  }

  lemma {:induction false} NewestSaid(reports: seq<Report>, k: int, n: nat)
    requires -1 <= k < n <= |reports| || (k == -1 && n == 0)
    requires forall j :: k < j < n ==> !reports[j].Says?
    requires k >= 0 ==> reports[k].Says?
    ensures LastSaid(reports, n) == if k >= 0 then reports[k].text else ""
  {
    if n > 0 && k < n - 1 {
      NewestSaid(reports, k, n - 1);
    }
  }

  lemma LastWordIsFinal(last: string, reports: seq<Report>, finalText: string)
    requires IsLastWord(last, reports, finalText)
    ensures last == Final(reports, finalText)
  {
    if finalText == "" {
      if k :| 0 <= k < |reports| && reports[k].Says? && reports[k].text == last
              && forall j :: k < j < |reports| ==> !reports[j].Says? {
        NewestSaid(reports, k, |reports|);
      } else {
        NewestSaid(reports, -1, |reports|);
      }
    }
  }

  /**
   A whole turn tells what happened, report by report; its ending, its runs row, its projection row and the
   last run state a client is shown all name the state that matches the outcome; and the projection shows no
   active run and the last word.
   */
  lemma TurnTellsItsReports(db: Db, sid: SessionId, run: RunId, intent: IntentId, message: string, images: seq<Image>,
                            reports: seq<Report>, outcome: Outcome, finalText: string, end: RunState, last: string)
    requires run !in db.runs && EndsIn(outcome, end) && IsLastWord(last, reports, finalText)
    ensures var after := WholeTurn(db, sid, run, intent, message, images, reports, outcome, finalText);
            && Told(LedgerOf(db, sid), LedgerOf(after, sid), run, message, images, reports,
                    Positions(Kept, reports, |reports|), outcome)
            && after.runs == db.runs[run := RunRow(sid, end)]
            && Snapshot(LedgerOf(after, sid)).lastRunState == end
            && Snapshot(LedgerOf(after, sid)).tail == TailIdle
            && (sid in db.recent ==>
                  sid in after.recent && RowSettled(after.recent[sid], LedgerOf(after, sid), end, last))
  {
    LastWordIsFinal(last, reports, finalText);
    var start := TurnOpened(db, sid, run, intent, message, images);
    var mid := Reported(start, sid, run, reports, |reports|);
    var after := TurnFinished(mid, sid, run, outcome, Final(reports, finalText));
    TurnOpenedGrew(db, sid, run, intent, message, images);
    ReportsAreRecounted(start, sid, run, reports, |reports|);
    EndingConcludes(mid, sid, run, outcome, Final(reports, finalText));
    ToldWhen(LedgerOf(db, sid), LedgerOf(start, sid), LedgerOf(mid, sid), LedgerOf(after, sid), run, message, images,
             reports, Positions(Kept, reports, |reports|), outcome);
    ConcludedShows(LedgerOf(mid, sid), LedgerOf(after, sid), run, outcome, end);
    TurnRecordsItself(db, sid, run, intent, message, images, reports, outcome, finalText);
  }

  // ---------- A tool that was called and returned ----------

  /** Where the k-th kept report stands in the ledger. */
  lemma KeptAt(reports: seq<Report>, a: nat) returns (x: nat)
    requires a < |reports| && Kept(reports[a])
    ensures x < |Positions(Kept, reports, |reports|)| && Positions(Kept, reports, |reports|)[x] == a
  {
    assert a in Positions(Kept, reports, |reports|);
    x :| x < |Positions(Kept, reports, |reports|)| && Positions(Kept, reports, |reports|)[x] == a;
  }

  predicate Names(e: Event, id: string) {
    (e.body.ToolCall? || e.body.ToolResult?) && e.body.id == id
  }

  /** Report b returned the result of the call that report a made, and neither happened again for that id. */
  predicate CalledAndReturned(reports: seq<Report>, a: nat, b: nat, id: string) {
    && a < b < |reports| && id != ""
    && reports[a].Calls? && reports[a].id == id && reports[b].Returns? && reports[b].id == id
    && (forall c :: a < c < |reports| && reports[c].Calls? ==> reports[c].id != id)
    && (forall c :: b < c < |reports| && reports[c].Returns? ==> reports[c].id != id)
  }

  /** What a recounted report is in the ledger, by its id. */
  lemma RecountedNames(was: seq<Event>, now: seq<Event>, run: RunId, reports: seq<Report>, ps: seq<nat>, z: nat,
                       id: string)
    requires Recounts(was, now, run, reports, ps) && z < |ps|
    ensures CallsTool(now[|was| + z], id) <==> reports[ps[z]].Calls? && reports[ps[z]].id == id
    ensures now[|was| + z].body.ToolResult? && now[|was| + z].body.id == id <==>
            reports[ps[z]].Returns? && reports[ps[z]].id == id
  {
    assert Tells(now[|was| + z].body, reports[ps[z]]);
  }

  /** The run's part of a ledger, and silence about the id after it. */
  ghost predicate Window(es: seq<Event>, base: nat, m: nat, run: RunId, reports: seq<Report>, ps: seq<nat>,
                         id: string) {
    && base <= m <= |es| && Recounts(es[..base], es[..m], run, reports, ps)
    && (forall j, k :: 0 <= j < k < |ps| ==> ps[j] < ps[k])
    && (forall k :: m <= k < |es| ==> !Names(es[k], id))
  }

  lemma NoLaterCall(es: seq<Event>, base: nat, m: nat, run: RunId, reports: seq<Report>, ps: seq<nat>, x: nat, y: nat,
                    id: string, k: nat)
    requires Window(es, base, m, run, reports, ps, id)
    requires x < |ps| && y < |ps| && CalledAndReturned(reports, ps[x], ps[y], id) && base + x < k < |es|
    ensures !CallsTool(es[k], id)
    ensures k > base + y ==> !(es[k].body.ToolResult? && es[k].body.id == id)
  {
    if k < m {
      RecountedNames(es[..base], es[..m], run, reports, ps, k - base, id);
      assert es[..m][base + (k - base)] == es[k];
    } else {
      assert !Names(es[k], id);
    }
  }

  ghost predicate AnswersLast(es: seq<Event>, i: nat, j: nat)
    requires i < |es| && es[i].body.ToolCall?
  {
    Answers(es, i, j) && forall k :: j < k < |es| ==> !Answers(es, i, k)
  }

  lemma ResultAnswers(es: seq<Event>, base: nat, m: nat, run: RunId, reports: seq<Report>, ps: seq<nat>, x: nat, y: nat,
                      id: string)
    requires Window(es, base, m, run, reports, ps, id)
    requires x < |ps| && y < |ps| && CalledAndReturned(reports, ps[x], ps[y], id)
    ensures base + x < base + y < |es|
    ensures es[base + x].body == ToolCall(reports[ps[x]].name, id, reports[ps[x]].input)
    ensures es[base + y].body == ToolResult(id, reports[ps[y]].output)
    ensures AnswersLast(es, base + x, base + y)
  {
    assert x < y;
    assert es[..m][base + x] == es[base + x] && es[..m][base + y] == es[base + y];
    assert Tells(es[base + x].body, reports[ps[x]]) && Tells(es[base + y].body, reports[ps[y]]);
    forall k | base + x < k < |es|
      ensures !CallsTool(es[k], id) && (k > base + y ==> !Answers(es, base + x, k))
    {
      NoLaterCall(es, base, m, run, reports, ps, x, y, id, k);
    }
  }

  /** A row shows this call as done, with this output. */
  predicate ShowsDone(row: Row, id: string, name: string, input: string, output: string) {
    row.kind == ToolRow && row.id == id && row.name == name && row.input == input
    && row.status == ToolDone && row.output == output
  }

  lemma AnsweredRowIsDone(es: seq<Event>, i: nat, j: nat)
    requires i < |es| && es[i].body.ToolCall? && AnswersLast(es, i, j)
    ensures exists r :: 0 <= r < |Snapshot(es).rows| &&
              ShowsDone(Snapshot(es).rows[r], es[i].body.id, es[i].body.name, es[i].body.input, es[j].body.output)
  {
    RowLaws.RowsShowTheLedger(es);
    assert i in RowPositions(es);
    var r :| 0 <= r < |RowPositions(es)| && RowPositions(es)[r] == i;
    assert RenderLaws.Shows(es, i, Snapshot(es).rows[r]);
    RenderLaws.ToolRowMeaning(es, i, Snapshot(es).rows[r]);
  }

  lemma ReturnedAt(es: seq<Event>, base: nat, m: nat, run: RunId, reports: seq<Report>, ps: seq<nat>, x: nat, y: nat,
                   id: string)
    requires Window(es, base, m, run, reports, ps, id)
    requires x < |ps| && y < |ps| && CalledAndReturned(reports, ps[x], ps[y], id)
    ensures exists r :: 0 <= r < |Snapshot(es).rows| &&
              ShowsDone(Snapshot(es).rows[r], id, reports[ps[x]].name, reports[ps[x]].input, reports[ps[y]].output)
  {
    ResultAnswers(es, base, m, run, reports, ps, x, y, id);
    AnsweredRowIsDone(es, base + x, base + y);
  }

  /**
   A tool the provider called and whose result it reported is shown as done with that result, unless the
   id is called or answered again: within the run's reports, or later in the ledger.
   */
  lemma ReturnedToolIsDone(es: seq<Event>, base: nat, m: nat, run: RunId, reports: seq<Report>, a: nat, b: nat,
                           id: string)
    requires Window(es, base, m, run, reports, Positions(Kept, reports, |reports|), id)
    requires CalledAndReturned(reports, a, b, id)
    ensures exists r :: 0 <= r < |Snapshot(es).rows| &&
              ShowsDone(Snapshot(es).rows[r], id, reports[a].name, reports[a].input, reports[b].output)
  {
    var x := KeptAt(reports, a);
    var y := KeptAt(reports, b);
    ReturnedAt(es, base, m, run, reports, Positions(Kept, reports, |reports|), x, y, id);
  }
}
