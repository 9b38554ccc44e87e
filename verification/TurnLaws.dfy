/** What an uninterrupted turn leaves in the tables. */
module TurnLaws {
  import opened Ledger
  import opened Tables
  import opened Lifecycle
  import opened Turn

  function CommittedBelow(reports: seq<Report>, n: nat): seq<Body>
    requires n <= |reports|
  {
    if n == 0 then [] else CommittedBelow(reports, n - 1) + Committed(reports[n - 1])
  }

  function Ending(outcome: Outcome): seq<Body> {
    (if outcome.Errored? then [Error(outcome.message)] else []) + [RunFinished(EndState(outcome))]
  }

  /** The events of a turn, in order. */
  function TurnBodies(message: string, images: seq<Image>, reports: seq<Report>, outcome: Outcome): seq<Body> {
    [UserMessage(message, images), RunStarted] + CommittedBelow(reports, |reports|) + Ending(outcome)
  }

  /** The ledger grew by exactly these bodies, all of this run. */
  ghost predicate Grew(was: seq<Event>, now: seq<Event>, run: RunId, bodies: seq<Body>) {
    && |now| == |was| + |bodies| && now[..|was|] == was
    && forall i :: 0 <= i < |bodies| ==> now[|was| + i].body == bodies[i] && now[|was| + i].run == run
  }

  lemma GrewMore(was: seq<Event>, now: seq<Event>, run: RunId, bodies: seq<Body>, body: Body)
    requires Grew(was, now, run, bodies)
    ensures Grew(was, now + [NextEvent(now, run, body)], run, bodies + [body])
  {
    var next, more := now + [NextEvent(now, run, body)], bodies + [body];
    assert next[..|was|] == now[..|was|];
    forall i | 0 <= i < |more| ensures next[|was| + i].body == more[i] && next[|was| + i].run == run {
      if i < |bodies| {
        assert now[|was| + i].body == bodies[i] && now[|was| + i].run == run;
      }
    }
  }

  /** A commit appends one event and changes no runs row; the statements around it append nothing. */
  lemma CommitEffect(db: Db, sid: SessionId, run: RunId, body: Body)
    ensures var es := LedgerOf(db, sid); LedgerOf(Commit(db, sid, run, body), sid) == es + [NextEvent(es, run, body)]
    ensures Commit(db, sid, run, body).runs == db.runs && Commit(db, sid, run, body).recent.Keys == db.recent.Keys
    ensures sid in db.recent ==>
            Commit(db, sid, run, body).recent[sid].lastSeq >= NextEvent(LedgerOf(db, sid), run, body).seqNo
  {
  }

  lemma IntentEffect(db: Db, sid: SessionId, run: RunId, intent: IntentId)
    ensures var db1 := if intent != "" then PutIntent(db, sid, intent, run) else db;
            db1.ledgers == db.ledgers && db1.runs == db.runs && db1.recent == db.recent
  {
  }

  lemma TouchEffect(db: Db, sid: SessionId, run: RunId, preview: string, state: RunState)
    ensures var db1 := UpdateRecentMeta(db, sid, preview, run, state);
            db1.ledgers == db.ledgers && db1.runs == db.runs && db1.recent.Keys == db.recent.Keys
  {
  }

  lemma RowEffect(db: Db, sid: SessionId, run: RunId)
    requires run !in db.runs
    ensures CreateRun(db, run, sid) == db.(runs := db.runs[run := RunRow(sid, Running)])
  {
  }

  lemma TurnOpenedEffect(db: Db, sid: SessionId, run: RunId, intent: IntentId, message: string, images: seq<Image>)
    requires run !in db.runs
    ensures var es, end := LedgerOf(db, sid), TurnOpened(db, sid, run, intent, message, images);
            var es1 := es + [NextEvent(es, run, UserMessage(message, images))];
            LedgerOf(end, sid) == es1 + [NextEvent(es1, run, RunStarted)]
    ensures TurnOpened(db, sid, run, intent, message, images).runs == db.runs[run := RunRow(sid, Running)]
    ensures TurnOpened(db, sid, run, intent, message, images).recent.Keys == db.recent.Keys
  {
    var db1 := if intent != "" then PutIntent(db, sid, intent, run) else db;
    IntentEffect(db, sid, run, intent);
    OpeningEffect(db1, sid, run, message, images);
  }

  lemma OpeningEffect(db: Db, sid: SessionId, run: RunId, message: string, images: seq<Image>)
    requires run !in db.runs
    ensures var es := LedgerOf(db, sid);
            var db1 := CreateRun(Commit(db, sid, run, UserMessage(message, images)), run, sid);
            var end := UpdateRecentMeta(Commit(db1, sid, run, RunStarted), sid, Preview(message), run, Running);
            var es1 := es + [NextEvent(es, run, UserMessage(message, images))];
            && LedgerOf(end, sid) == es1 + [NextEvent(es1, run, RunStarted)]
            && end.runs == db.runs[run := RunRow(sid, Running)] && end.recent.Keys == db.recent.Keys
  {
    var db1 := Commit(db, sid, run, UserMessage(message, images));
    CommitEffect(db, sid, run, UserMessage(message, images));
    RowEffect(db1, sid, run);
    var db2 := CreateRun(db1, run, sid);
    CommitEffect(db2, sid, run, RunStarted);
    TouchEffect(Commit(db2, sid, run, RunStarted), sid, run, Preview(message), Running);
  }

  lemma TurnOpenedGrew(db: Db, sid: SessionId, run: RunId, intent: IntentId, message: string, images: seq<Image>)
    requires run !in db.runs
    ensures Grew(LedgerOf(db, sid), LedgerOf(TurnOpened(db, sid, run, intent, message, images), sid), run,
                 [UserMessage(message, images), RunStarted])
  {
    var was := LedgerOf(db, sid);
    TurnOpenedEffect(db, sid, run, intent, message, images);
    GrewTwice(was, run, UserMessage(message, images), RunStarted);
  }

  lemma TurnOpenedRows(db: Db, sid: SessionId, run: RunId, intent: IntentId, message: string, images: seq<Image>)
    requires run !in db.runs
    ensures TurnOpened(db, sid, run, intent, message, images).runs == db.runs[run := RunRow(sid, Running)]
    ensures TurnOpened(db, sid, run, intent, message, images).recent.Keys == db.recent.Keys
  {
    TurnOpenedEffect(db, sid, run, intent, message, images);
  }

  lemma GrewTwice(was: seq<Event>, run: RunId, x: Body, y: Body)
    ensures var now := was + [NextEvent(was, run, x)]; Grew(was, now + [NextEvent(now, run, y)], run, [x, y])
  {
    var now := was + [NextEvent(was, run, x)];
    GrewMore(was, was, run, [], x);
    GrewMore(was, now, run, [] + [x], y);
    assert [] + [x] + [y] == [x, y];
  }

  lemma ReportedEffect(db: Db, sid: SessionId, run: RunId, reports: seq<Report>, n: nat)
    requires n < |reports|
    ensures var es := LedgerOf(Reported(db, sid, run, reports, n), sid);
            var now := LedgerOf(Reported(db, sid, run, reports, n + 1), sid);
            var body := Committed(reports[n]);
            now == if body == [] then es else es + [NextEvent(es, run, body[0])]
    ensures Reported(db, sid, run, reports, n + 1).runs == Reported(db, sid, run, reports, n).runs
    ensures Reported(db, sid, run, reports, n + 1).recent.Keys == Reported(db, sid, run, reports, n).recent.Keys
  {
    var before := Reported(db, sid, run, reports, n);
    if Committed(reports[n]) != [] {
      CommitEffect(before, sid, run, Committed(reports[n])[0]);
    }
  }

  lemma CommittedNext(bodies: seq<Body>, reports: seq<Report>, n: nat)
    requires n < |reports|
    ensures bodies + CommittedBelow(reports, n + 1) == bodies + CommittedBelow(reports, n) + Committed(reports[n])
  {
  }

  lemma OneOrNone(r: Report)
    ensures Committed(r) != [] ==> Committed(r) == [Committed(r)[0]]
  {
  }

  lemma ReportedNone(db: Db, sid: SessionId, run: RunId, bodies: seq<Body>, reports: seq<Report>)
    ensures Reported(db, sid, run, reports, 0) == db && bodies + CommittedBelow(reports, 0) == bodies
  {
  }

  lemma {:induction false} ReportedGrew(was: seq<Event>, db: Db, sid: SessionId, run: RunId, bodies: seq<Body>,
                                        reports: seq<Report>, n: nat)
    requires n <= |reports| && Grew(was, LedgerOf(db, sid), run, bodies)
    ensures Grew(was, LedgerOf(Reported(db, sid, run, reports, n), sid), run, bodies + CommittedBelow(reports, n))
  {
    if n == 0 {
      ReportedNone(db, sid, run, bodies, reports);
    } else {
      var k := n - 1;
      ReportedGrew(was, db, sid, run, bodies, reports, k);
      ReportedGrewNext(was, db, sid, run, bodies, reports, k);
      assert k + 1 == n;
    }
  }

  lemma ReportedGrewNext(was: seq<Event>, db: Db, sid: SessionId, run: RunId, bodies: seq<Body>, reports: seq<Report>,
                         n: nat)
    requires n < |reports|
    requires Grew(was, LedgerOf(Reported(db, sid, run, reports, n), sid), run, bodies + CommittedBelow(reports, n))
    ensures Grew(was, LedgerOf(Reported(db, sid, run, reports, n + 1), sid), run,
                 bodies + CommittedBelow(reports, n + 1))
  {
    ReportedEffect(db, sid, run, reports, n);
    CommittedNext(bodies, reports, n);
    OneOrNone(reports[n]);
    var es := LedgerOf(Reported(db, sid, run, reports, n), sid);
    var so, body := bodies + CommittedBelow(reports, n), Committed(reports[n]);
    if body == [] {
      assert so + body == so;
    } else {
      GrewMore(was, es, run, so, body[0]);
    }
  }

  /** The projection row of a session whose run is over. */
  predicate RowSettled(row: Recent, es: seq<Event>, end: RunState, last: string) {
    && row.activeRun == "" && row.lastRunState == end && row.preview == Preview(last)
    && es != [] && row.lastSeq >= es[|es| - 1].seqNo
  }

  lemma TurnFinishedEffect(db: Db, sid: SessionId, run: RunId, outcome: Outcome, last: string)
    requires run in db.runs
    ensures var es, end := LedgerOf(db, sid), EndState(outcome);
            var es1 := if outcome.Errored? then es + [NextEvent(es, run, Error(outcome.message))] else es;
            LedgerOf(TurnFinished(db, sid, run, outcome, last), sid) == es1 + [NextEvent(es1, run, RunFinished(end))]
    ensures var done := TurnFinished(db, sid, run, outcome, last);
            && done.runs == FinishRun(db, run, EndState(outcome)).runs && done.recent.Keys == db.recent.Keys
            && (sid in done.recent ==> RowSettled(done.recent[sid], LedgerOf(done, sid), EndState(outcome), last))
  {
    var db1 := if outcome.Errored? then Commit(db, sid, run, Error(outcome.message)) else db;
    if outcome.Errored? {
      CommitEffect(db, sid, run, Error(outcome.message));
    }
    CommitEffect(db1, sid, run, RunFinished(EndState(outcome)));
    FinishEffect(Commit(db1, sid, run, RunFinished(EndState(outcome))), sid, run, EndState(outcome), last);
  }

  lemma FinishEffect(db: Db, sid: SessionId, run: RunId, end: RunState, last: string)
    ensures var done := UpdateRecentMeta(FinishRun(db, run, end), sid, Preview(last), "", end);
            && done.ledgers == db.ledgers && done.runs == FinishRun(db, run, end).runs
                && done.recent.Keys == db.recent.Keys
            && (sid in done.recent ==> done.recent[sid] == Recent(db.recent[sid].lastSeq, "", end, Preview(last)))
  {
  }

  lemma EndingGrew(was: seq<Event>, es: seq<Event>, run: RunId, bodies: seq<Body>, outcome: Outcome)
    requires Grew(was, es, run, bodies)
    ensures var es1 := if outcome.Errored? then es + [NextEvent(es, run, Error(outcome.message))] else es;
            Grew(was, es1 + [NextEvent(es1, run, RunFinished(EndState(outcome)))], run, bodies + Ending(outcome))
  {
    if outcome.Errored? {
      assert bodies + Ending(outcome) == bodies + [Error(outcome.message)] + [RunFinished(Failed)];
      GrewMore(was, es, run, bodies, Error(outcome.message));
      GrewMore(was, es + [NextEvent(es, run, Error(outcome.message))], run, bodies + [Error(outcome.message)],
               RunFinished(Failed));
    } else {
      assert bodies + Ending(outcome) == bodies + [RunFinished(EndState(outcome))];
      GrewMore(was, es, run, bodies, RunFinished(EndState(outcome)));
    }
  }

  lemma TurnFinishedGrew(was: seq<Event>, db: Db, sid: SessionId, run: RunId, bodies: seq<Body>, outcome: Outcome,
                         last: string)
    requires run in db.runs && Grew(was, LedgerOf(db, sid), run, bodies)
    ensures Grew(was, LedgerOf(TurnFinished(db, sid, run, outcome, last), sid), run, bodies + Ending(outcome))
  {
    TurnFinishedEffect(db, sid, run, outcome, last);
    EndingGrew(was, LedgerOf(db, sid), run, bodies, outcome);
  }

  ghost predicate SameRows(a: Db, b: Db) {
    a.runs == b.runs && a.recent.Keys == b.recent.Keys
  }

  lemma SameRowsThen(a: Db, b: Db, c: Db)
    requires SameRows(a, b) && SameRows(b, c)
    ensures SameRows(a, c)
  {
  }

  lemma ReportedRowsNext(db: Db, sid: SessionId, run: RunId, reports: seq<Report>, n: nat)
    requires n < |reports|
    ensures SameRows(Reported(db, sid, run, reports, n), Reported(db, sid, run, reports, n + 1))
  {
    ReportedEffect(db, sid, run, reports, n);
  }

  lemma {:induction false} ReportedRows(db: Db, sid: SessionId, run: RunId, reports: seq<Report>, n: nat)
    requires n <= |reports|
    ensures SameRows(db, Reported(db, sid, run, reports, n))
  {
    if n == 0 {
      ReportedNone(db, sid, run, [], reports);
    } else {
      var k := n - 1;
      ReportedRows(db, sid, run, reports, k);
      ReportedRowsNext(db, sid, run, reports, k);
      SameRowsThen(db, Reported(db, sid, run, reports, k), Reported(db, sid, run, reports, k + 1));
    }
  }

  lemma GrewByFinishSettles(was: seq<Event>, now: seq<Event>, run: RunId, bodies: seq<Body>)
    requires Grew(was, now, run, bodies) && bodies != [] && bodies[|bodies| - 1].RunFinished?
    ensures Settled(now)
  {
    assert now[|was| + (|bodies| - 1)].body == bodies[|bodies| - 1];
    assert IsBoundary(now[|now| - 1]);
  }

  /** What a finished turn has left in the tables. */
  ghost predicate Records(before: Db, after: Db, sid: SessionId, run: RunId, bodies: seq<Body>, end: RunState,
                          last: string) {
    && Grew(LedgerOf(before, sid), LedgerOf(after, sid), run, bodies)
    && Settled(LedgerOf(after, sid))
    && after.runs == before.runs[run := RunRow(sid, end)]
    && after.recent.Keys == before.recent.Keys
    && (sid in after.recent ==> RowSettled(after.recent[sid], LedgerOf(after, sid), end, last))
  }

  lemma RowEnds(before: Db, mid: Db, sid: SessionId, run: RunId, end: RunState)
    requires mid.runs == before.runs[run := RunRow(sid, Running)]
    ensures FinishRun(mid, run, end).runs == before.runs[run := RunRow(sid, end)]
  {
  }

  lemma EndingEnds(bodies: seq<Body>, outcome: Outcome)
    ensures var all := bodies + Ending(outcome); all != [] && all[|all| - 1] == RunFinished(EndState(outcome))
  {
  }

  lemma RecordsWhen(before: Db, after: Db, sid: SessionId, run: RunId, bodies: seq<Body>, end: RunState, last: string)
    requires Grew(LedgerOf(before, sid), LedgerOf(after, sid), run, bodies)
    requires bodies != [] && bodies[|bodies| - 1].RunFinished?
    requires after.runs == before.runs[run := RunRow(sid, end)] && after.recent.Keys == before.recent.Keys
    requires sid in after.recent ==> RowSettled(after.recent[sid], LedgerOf(after, sid), end, last)
    ensures Records(before, after, sid, run, bodies, end, last)
  {
    GrewByFinishSettles(LedgerOf(before, sid), LedgerOf(after, sid), run, bodies);
  }

  lemma EndRecords(before: Db, mid: Db, sid: SessionId, run: RunId, bodies: seq<Body>, outcome: Outcome, last: string)
    requires mid.runs == before.runs[run := RunRow(sid, Running)] && mid.recent.Keys == before.recent.Keys
    requires Grew(LedgerOf(before, sid), LedgerOf(mid, sid), run, bodies)
    ensures Records(before, TurnFinished(mid, sid, run, outcome, last), sid, run, bodies + Ending(outcome),
                    EndState(outcome), last)
  {
    TurnFinishedGrew(LedgerOf(before, sid), mid, sid, run, bodies, outcome, last);
    TurnFinishedEffect(mid, sid, run, outcome, last);
    RowEnds(before, mid, sid, run, EndState(outcome));
    EndingEnds(bodies, outcome);
    RecordsWhen(before, TurnFinished(mid, sid, run, outcome, last), sid, run, bodies + Ending(outcome),
                EndState(outcome), last);
  }

  lemma RestRecords(before: Db, start: Db, sid: SessionId, run: RunId, message: string, images: seq<Image>,
                    reports: seq<Report>, outcome: Outcome, last: string)
    requires start.runs == before.runs[run := RunRow(sid, Running)] && start.recent.Keys == before.recent.Keys
    requires Grew(LedgerOf(before, sid), LedgerOf(start, sid), run, [UserMessage(message, images), RunStarted])
    ensures Records(before, TurnFinished(Reported(start, sid, run, reports, |reports|), sid, run, outcome, last), sid,
                    run,
                    TurnBodies(message, images, reports, outcome), EndState(outcome), last)
  {
    var opening := [UserMessage(message, images), RunStarted];
    ReportedGrew(LedgerOf(before, sid), start, sid, run, opening, reports, |reports|);
    ReportedRows(start, sid, run, reports, |reports|);
    EndRecords(before, Reported(start, sid, run, reports, |reports|), sid, run,
               opening + CommittedBelow(reports, |reports|), outcome, last);
  }

  /**
   An uninterrupted turn of a new run appends its user message, run_started, what the provider reported and
   its ending, nothing else; and then everything agrees that it is over, and how it ended.
   */
  lemma TurnRecordsItself(db: Db, sid: SessionId, run: RunId, intent: IntentId, message: string, images: seq<Image>,
                          reports: seq<Report>, outcome: Outcome, finalText: string)
    requires run !in db.runs
    ensures Records(db, WholeTurn(db, sid, run, intent, message, images, reports, outcome, finalText), sid, run,
                    TurnBodies(message, images, reports, outcome), EndState(outcome), Final(reports, finalText))
  {
    var start := TurnOpened(db, sid, run, intent, message, images);
    TurnOpenedGrew(db, sid, run, intent, message, images);
    TurnOpenedRows(db, sid, run, intent, message, images);
    RestRecords(db, start, sid, run, message, images, reports, outcome, Final(reports, finalText));
  }

  // ---------- What a turn leaves alone ----------

  /** The tables agree about everything but this session and the runs. */
  ghost predicate Elsewhere(a: Db, b: Db, sid: SessionId) {
    && b.sessions == a.sessions && b.intents == a.intents
    && b.ledgers - {sid} == a.ledgers - {sid} && b.recent - {sid} == a.recent - {sid}
  }

  lemma ElsewhereThen(a: Db, b: Db, c: Db, sid: SessionId)
    requires Elsewhere(a, b, sid) && Elsewhere(b, c, sid)
    ensures Elsewhere(a, c, sid)
  {
  }

  lemma CommitElsewhere(db: Db, sid: SessionId, run: RunId, body: Body)
    ensures Elsewhere(db, Commit(db, sid, run, body), sid)
  {
    assert (db.ledgers[sid := LedgerOf(Commit(db, sid, run, body), sid)] - {sid}) == db.ledgers - {sid};
  }

  lemma TouchElsewhere(db: Db, sid: SessionId, preview: string, run: RunId, state: RunState)
    ensures Elsewhere(db, UpdateRecentMeta(db, sid, preview, run, state), sid)
  {
  }

  lemma RowElsewhere(db: Db, sid: SessionId, run: RunId, state: RunState)
    ensures Elsewhere(db, CreateRun(db, run, sid), sid) && Elsewhere(db, FinishRun(db, run, state), sid)
  {
  }

  lemma OpeningElsewhere(db: Db, sid: SessionId, run: RunId, message: string, images: seq<Image>)
    ensures var db1 := CreateRun(Commit(db, sid, run, UserMessage(message, images)), run, sid);
            Elsewhere(db, UpdateRecentMeta(Commit(db1, sid, run, RunStarted), sid, Preview(message), run, Running), sid)
  {
    var db1 := Commit(db, sid, run, UserMessage(message, images));
    var db2 := CreateRun(db1, run, sid);
    var db3 := Commit(db2, sid, run, RunStarted);
    var db4 := UpdateRecentMeta(db3, sid, Preview(message), run, Running);
    CommitElsewhere(db, sid, run, UserMessage(message, images));
    RowElsewhere(db1, sid, run, Running);
    CommitElsewhere(db2, sid, run, RunStarted);
    TouchElsewhere(db3, sid, Preview(message), run, Running);
    FourElsewhere(db, db1, db2, db3, db4, sid);
  }

  lemma FourElsewhere(a: Db, b: Db, c: Db, d: Db, e: Db, sid: SessionId)
    requires Elsewhere(a, b, sid) && Elsewhere(b, c, sid) && Elsewhere(c, d, sid) && Elsewhere(d, e, sid)
    ensures Elsewhere(a, e, sid)
  {
  }

  lemma {:induction false} ReportedElsewhere(db: Db, sid: SessionId, run: RunId, reports: seq<Report>, n: nat)
    requires n <= |reports|
    ensures Elsewhere(db, Reported(db, sid, run, reports, n), sid)
  {
    if n == 0 {
      ReportedNone(db, sid, run, [], reports);
    } else {
      var k := n - 1;
      ReportedElsewhere(db, sid, run, reports, k);
      ReportElsewhere(db, sid, run, reports, k);
      ElsewhereThen(db, Reported(db, sid, run, reports, k), Reported(db, sid, run, reports, k + 1), sid);
    }
  }

  lemma ReportElsewhere(db: Db, sid: SessionId, run: RunId, reports: seq<Report>, n: nat)
    requires n < |reports|
    ensures Elsewhere(Reported(db, sid, run, reports, n), Reported(db, sid, run, reports, n + 1), sid)
  {
    if Committed(reports[n]) != [] {
      CommitElsewhere(Reported(db, sid, run, reports, n), sid, run, Committed(reports[n])[0]);
    }
  }

  lemma FinishedElsewhere(db: Db, sid: SessionId, run: RunId, outcome: Outcome, last: string)
    ensures Elsewhere(db, TurnFinished(db, sid, run, outcome, last), sid)
  {
    var end := EndState(outcome);
    var db1 := if outcome.Errored? then Commit(db, sid, run, Error(outcome.message)) else db;
    var db2 := Commit(db1, sid, run, RunFinished(end));
    var db3 := FinishRun(db2, run, end);
    var db4 := UpdateRecentMeta(db3, sid, Preview(last), "", end);
    if outcome.Errored? {
      CommitElsewhere(db, sid, run, Error(outcome.message));
    }
    CommitElsewhere(db1, sid, run, RunFinished(end));
    RowElsewhere(db2, sid, run, end);
    TouchElsewhere(db3, sid, Preview(last), "", end);
    FourElsewhere(db, db1, db2, db3, db4, sid);
  }

  lemma AfterOpeningElsewhere(a: Db, start: Db, sid: SessionId, run: RunId, reports: seq<Report>, outcome: Outcome,
                              last: string)
    requires Elsewhere(a, start, sid)
    ensures Elsewhere(a, TurnFinished(Reported(start, sid, run, reports, |reports|), sid, run, outcome, last), sid)
  {
    var mid := Reported(start, sid, run, reports, |reports|);
    ReportedElsewhere(start, sid, run, reports, |reports|);
    ElsewhereThen(a, start, mid, sid);
    FinishedElsewhere(mid, sid, run, outcome, last);
    ElsewhereThen(a, mid, TurnFinished(mid, sid, run, outcome, last), sid);
  }

  /** Besides its own session's rows and its runs row, a turn changes one thing: a new intent is recorded for it. */
  lemma TurnTouchesOnlyItsSession(db: Db, sid: SessionId, run: RunId, intent: IntentId, message: string,
                                  images: seq<Image>,
                                  reports: seq<Report>, outcome: Outcome, finalText: string)
    ensures Elsewhere(if intent != "" then PutIntent(db, sid, intent, run) else db,
                      WholeTurn(db, sid, run, intent, message, images, reports, outcome, finalText), sid)
  {
    var noted := if intent != "" then PutIntent(db, sid, intent, run) else db;
    OpeningElsewhere(noted, sid, run, message, images);
    AfterOpeningElsewhere(noted, TurnOpened(db, sid, run, intent, message, images), sid, run, reports, outcome,
                          Final(reports, finalText));
  }
}
