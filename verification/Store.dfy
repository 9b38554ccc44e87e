/** The store: the tables as fields, and its queries. */
module Store {
  import opened Ledger
  import opened Tables
  import opened Recovery
  import opened Paging
  import opened Render

  /** The boundary row with the greatest number is a run_started. */
  predicate NewestIsStart(rows: seq<Event>) {
    exists e :: e in rows && IsNewestBoundary(rows, e) && e.body.RunStarted?
  }

  lemma NewestIsStartIffLive(rows: seq<Event>)
    requires Ascending(rows)
    ensures NewestIsStart(rows) <==> Live(rows)
  {
    var b := LastBoundary(rows);
    if b >= 0 {
      NewestBoundaryIsLast(rows, rows[b]);
    }
    forall e | e in rows && IsNewestBoundary(rows, e) ensures b >= 0 && e == rows[b] {
      NewestBoundaryIsLast(rows, e);
    }
  }

  method NewestStart(rows: seq<Event>) returns (run: RunId)
    requires Ascending(rows) && Live(rows)
    ensures run == LiveRun(rows)
  {
    NewestIsStartIffLive(rows);
    var row :| row in rows && IsNewestBoundary(rows, row);
    NewestBoundaryIsLast(rows, row);
    run := row.run;
  }

  class Store {
    var sessions: set<SessionId>
    var ledgers: map<SessionId, seq<Event>>
    var runs: map<RunId, RunRow>
    var recent: map<SessionId, Recent>
    var intents: map<(SessionId, IntentId), RunId>

    ghost function Contents(): Db
      reads this
    {
      Db(sessions, ledgers, runs, recent, intents)
    }

    /** The events table has primary key (session, seq), and every number was allocated by an append. */
    ghost predicate Valid()
      reads this
    {
      forall sid :: sid in ledgers ==> Keyed(ledgers[sid])
    }

    /** Opens whatever the database file holds. */
    constructor (db: Db)
      requires forall sid :: sid in db.ledgers ==> Keyed(db.ledgers[sid])
      ensures Valid() && Contents() == db
    {
      sessions, ledgers, runs, recent, intents := db.sessions, db.ledgers, db.runs, db.recent, db.intents;
    }

    function Rows(sid: SessionId): seq<Event>
      reads this
    {
      if sid in ledgers then ledgers[sid] else []
    }

    // ---------- Statements ----------

    method CreateSession(sid: SessionId) returns (ok: bool)
      requires Valid()
      modifies this
      ensures Valid() && ok == (sid !in old(sessions)) && Contents() == Tables.CreateSession(old(Contents()), sid)
    {
      if sid in sessions {
        return false;
      }
      sessions := sessions + {sid};
      if sid !in recent {
        recent := recent[sid := Recent(0, "", NoState, "")];
      }
      return true;
    }

    method DeleteSession(sid: SessionId)
      requires Valid()
      modifies this
      ensures Valid() && Contents() == Tables.DeleteSession(old(Contents()), sid)
    {
      ledgers := ledgers - {sid};
      runs := map run | run in runs && runs[run].session != sid :: runs[run];
      recent := recent - {sid};
      sessions := sessions - {sid};
    }

    /** Allocates the next number and inserts the row, in one transaction. */
    method AppendEvent(sid: SessionId, run: RunId, body: Body) returns (e: Event)
      requires Valid()
      modifies this`ledgers
      ensures Valid() && Contents() == Append(old(Contents()), sid, run, body)
      ensures e == NextEvent(LedgerOf(old(Contents()), sid), run, body)
    {
      var seqNo := MaxSeq(Rows(sid)) + 1;
      e := Event(seqNo, run, body);
      AppendKeepsKeyed(Rows(sid), run, body);
      ledgers := ledgers[sid := Rows(sid) + [e]];
    }

    method BumpRecentSeq(sid: SessionId, n: int)
      modifies this`recent
      ensures Contents() == Tables.BumpRecentSeq(old(Contents()), sid, n)
    {
      if sid in recent {
        recent := recent[sid := recent[sid].(lastSeq := Max(recent[sid].lastSeq, n))];
      }
    }

    method UpdateRecentMeta(sid: SessionId, preview: string, activeRun: RunId, state: RunState)
      modifies this`recent
      ensures Contents() == Tables.UpdateRecentMeta(old(Contents()), sid, preview, activeRun, state)
    {
      if sid in recent {
        recent := recent[sid := recent[sid].(preview := preview, activeRun := activeRun, lastRunState := state)];
      }
    }

    method ClearActiveRun(sid: SessionId, state: RunState)
      modifies this`recent
      ensures Contents() == Tables.ClearActiveRun(old(Contents()), sid, state)
    {
      if sid in recent {
        recent := recent[sid := recent[sid].(activeRun := "", lastRunState := state)];
      }
    }

    method CreateRun(run: RunId, sid: SessionId) returns (ok: bool)
      modifies this`runs
      ensures ok == (run !in old(runs)) && Contents() == Tables.CreateRun(old(Contents()), run, sid)
    {
      ok := run !in runs;
      if ok {
        runs := runs[run := RunRow(sid, Running)];
      }
    }

    method FinishRun(run: RunId, state: RunState)
      modifies this`runs
      ensures Contents() == Tables.FinishRun(old(Contents()), run, state)
    {
      if run in runs {
        runs := runs[run := runs[run].(state := state)];
      }
    }

    method PutIntent(sid: SessionId, intent: IntentId, run: RunId)
      modifies this`intents
      ensures Contents() == Tables.PutIntent(old(Contents()), sid, intent, run)
    {
      if (sid, intent) !in intents {
        intents := intents[(sid, intent) := run];
      }
    }

    method IntentRun(sid: SessionId, intent: IntentId) returns (run: RunId)
      ensures run == Tables.IntentRun(Contents(), sid, intent)
    {
      if (sid, intent) !in intents {
        return "";
      }
      return intents[(sid, intent)];
    }

    // ---------- Queries ----------

    /** Takes the boundary row with the greatest number; "" if there is none or it is no run_started. */
    method DanglingRun(sid: SessionId) returns (run: RunId)
      requires Valid()
      ensures run == Recovery.DanglingRun(LedgerOf(Contents(), sid))
    {
      var rows := Rows(sid);
      ghost var b := LastBoundary(rows);
      if !exists e :: e in rows && IsNewestBoundary(rows, e) {
        if b >= 0 {
          NewestBoundaryIsLast(rows, rows[b]);
        }
        return "";
      }
      var newest :| newest in rows && IsNewestBoundary(rows, newest);
      NewestBoundaryIsLast(rows, newest);
      if !newest.body.RunStarted? {
        return "";
      }
      return newest.run;
    }

    /** The run_started rows that are their session's boundary row with the greatest number, in any order. */
    method DanglingRuns() returns (out: seq<RunRef>)
      requires Valid()
      ensures ListsDangling(Contents(), out)
    {
      var todo := set sid | sid in ledgers && NewestIsStart(ledgers[sid]);
      assert todo == LiveSessions(ledgers) by {
        forall sid | sid in ledgers { NewestIsStartIffLive(ledgers[sid]); }
      }
      out := [];
      while todo != {}
        invariant todo <= LiveSessions(ledgers)
        invariant forall ref :: ref in out ==>
                    ref.session in LiveSessions(ledgers) - todo && ref.run == LiveRun(ledgers[ref.session])
        invariant forall sid :: sid in LiveSessions(ledgers) - todo ==> RunRef(LiveRun(ledgers[sid]), sid) in out
        invariant forall i, j :: 0 <= i < j < |out| ==> out[i].session != out[j].session
      {
        var sid :| sid in todo;
        var run := NewestStart(ledgers[sid]);
        todo := todo - {sid};
        out := out + [RunRef(run, sid)];
      }
    }

    /** The runs rows marked running, in any order. */
    method RunningRuns() returns (out: seq<RunRef>)
      ensures Recovery.ListsRunning(Contents(), out)
    {
      var rows := set run | run in runs && runs[run].state == Running;
      out := [];
      while rows != {}
        invariant rows <= Recovery.RunningRuns(runs)
        invariant forall run :: run in runs && run in Recovery.RunningRuns(runs) - rows ==>
                    RunRef(run, runs[run].session) in out
        invariant forall ref :: ref in out ==>
                    ref.run in Recovery.RunningRuns(runs) - rows && ref.session == runs[ref.run].session
        invariant forall i, j :: 0 <= i < j < |out| ==> out[i].run != out[j].run
      {
        var run :| run in rows;
        rows := rows - {run};
        out := out + [RunRef(run, runs[run].session)];
      }
    }

    /** Up to `limit` events below `beforeSeq` in ascending order, and whether older ones exist. */
    method EventsBefore(sid: SessionId, beforeSeq: int, limit: int) returns (events: seq<Event>, hasMore: bool)
      requires Valid()
      ensures Page(events, hasMore) == PageBefore(LedgerOf(Contents(), sid), beforeSeq, limit)
      ensures |events| <= if 0 < limit <= 500 then limit else 100
    {
      events, hasMore := RowsBefore(Rows(sid), beforeSeq, limit);
    }

    /** The newest `limit` events in ascending order. */
    method EventsTail(sid: SessionId, limit: int) returns (events: seq<Event>)
      requires Valid()
      ensures events == Tail(LedgerOf(Contents(), sid), if 0 < limit <= 5000 then limit else 2000)
    {
      events := RowsTail(Rows(sid), limit);
    }
  }

  /**
   Three answers to "is the session running?": the fold of the renderer, the grouped maximum over all
   sessions, and the search for one session's newest boundary. The first two always agree; the third agrees
   exactly when the ledger does not hang on a run_started without a run id.
   */
  lemma DefinitionsOfRunningAgree(db: Db, sid: SessionId)
    requires TablesOrdered(db)
    ensures var es := LedgerOf(db, sid);
            && (Snapshot(es).tail == TailRunning <==> exists run :: IsDangling(db, sid, run))
            && (Recovery.DanglingRun(es) != "" <==> exists run :: IsDangling(db, sid, run) && run != "")
            && ((Recovery.DanglingRun(es) != "" <==> Snapshot(es).tail == TailRunning) <==> !IsDangling(db, sid, ""))
  {
    forall run ensures IsDangling(db, sid, run) <==> Live(LedgerOf(db, sid)) && run == LiveRun(LedgerOf(db, sid)) {
      DanglingIsLive(db, sid, run);
    }
    if Live(LedgerOf(db, sid)) {
      assert IsDangling(db, sid, LiveRun(LedgerOf(db, sid)));
    }
  }

  lemma DanglingIsLive(db: Db, sid: SessionId, run: RunId)
    requires TablesOrdered(db)
    ensures IsDangling(db, sid, run) <==> Live(LedgerOf(db, sid)) && run == LiveRun(LedgerOf(db, sid))
  {
    if sid in db.ledgers {
      var es := db.ledgers[sid];
      if Live(es) {
        NewestBoundaryIsLast(es, es[LastBoundary(es)]);
      }
      forall e | IsNewestBoundary(es, e) ensures LastBoundary(es) >= 0 && e == es[LastBoundary(es)] {
        NewestBoundaryIsLast(es, e);
      }
    }
  }
}
