/** What recovery at startup does to the tables, said row by row, and what that guarantees. */
module Recovery {
  import opened Ledger
  import opened Tables
  import Render
  import RenderLaws

  /** The event that settles a live ledger. */
  function Settling(es: seq<Event>): Event
    requires Live(es)
  {
    NextEvent(es, LiveRun(es), RunFinished(Interrupted))
  }

  /** A live ledger gets exactly one run_finished(interrupted) for its live run; a settled one stays. */
  function SettledLedger(es: seq<Event>): seq<Event> {
    if Live(es) then es + [Settling(es)] else es
  }

  lemma SettledLedgerSettles(es: seq<Event>)
    ensures Settled(SettledLedger(es))
    ensures SettledLedger(SettledLedger(es)) == SettledLedger(es)
    ensures Render.Snapshot(SettledLedger(es)).tail == Render.TailIdle
    ensures forall r :: 0 <= r < |Render.Snapshot(SettledLedger(es)).rows| ==>
              Render.Snapshot(SettledLedger(es)).rows[r].status != Render.ToolRunning
  {
    if Live(es) {
      LastBoundaryAppend(es, Settling(es));
    }
    RenderLaws.SettledShowsNothingRunning(SettledLedger(es));
  }

  // ---------- The queries recovery starts from ----------

  datatype RunRef = RunRef(run: RunId, session: SessionId)

  /** A result of the DanglingRuns query: one row per live session, in some order. */
  ghost predicate ListsDangling(db: Db, order: seq<RunRef>) {
    && (forall i, j :: 0 <= i < j < |order| ==> order[i].session != order[j].session)
    && (forall ref :: ref in order ==>
          ref.session in LiveSessions(db.ledgers) && ref.run == LiveRun(db.ledgers[ref.session]))
    && (forall sid :: sid in LiveSessions(db.ledgers) ==> RunRef(LiveRun(db.ledgers[sid]), sid) in order)
  }

  /** A result of the RunningRuns query: one row per running run, in some order. */
  ghost predicate ListsRunning(db: Db, order: seq<RunRef>) {
    && (forall i, j :: 0 <= i < j < |order| ==> order[i].run != order[j].run)
    && (forall ref :: ref in order ==> ref.run in RunningRuns(db.runs) && ref.session == db.runs[ref.run].session)
    && (forall run :: run in RunningRuns(db.runs) ==> RunRef(run, db.runs[run].session) in order)
  }

  // ---------- The first pass: settle the ledgers ----------

  predicate LiveRunAmong(db: Db, sids: set<SessionId>, run: RunId)
    requires sids <= LiveSessions(db.ledgers)
  {
    exists sid :: sid in sids && LiveRun(db.ledgers[sid]) == run
  }

  function Interrupt(row: RunRow): RunRow {
    row.(state := Interrupted)
  }

  function ClearRecent(row: Recent): Recent {
    row.(activeRun := "", lastRunState := Interrupted)
  }

  function SettledRecent(row: Recent, es: seq<Event>): Recent
    requires Live(es)
  {
    ClearRecent(row).(lastSeq := Max(row.lastSeq, Settling(es).seqNo))
  }

  /** The tables once the ledger-authoritative pass has settled the sessions in `sids`. */
  function SettleLedgers(db: Db, sids: set<SessionId>): Db
    requires sids <= LiveSessions(db.ledgers)
  {
    db.(ledgers := LedgersSettled(db, sids), runs := RunsSettled(db, sids), recent := RecentSettled(db, sids))
  }

  function LedgersSettled(db: Db, sids: set<SessionId>): map<SessionId, seq<Event>> {
    map sid | sid in db.ledgers :: if sid in sids then SettledLedger(db.ledgers[sid]) else db.ledgers[sid]
  }

  function RunsSettled(db: Db, sids: set<SessionId>): map<RunId, RunRow>
    requires sids <= LiveSessions(db.ledgers)
  {
    map run | run in db.runs :: if LiveRunAmong(db, sids, run) then Interrupt(db.runs[run]) else db.runs[run]
  }

  function RecentSettled(db: Db, sids: set<SessionId>): map<SessionId, Recent>
    requires sids <= LiveSessions(db.ledgers)
  {
    map sid | sid in db.recent ::
      if sid in sids then SettledRecent(db.recent[sid], db.ledgers[sid]) else db.recent[sid]
  }

  /** The four writes the pass makes for one dangling run. */
  function SettleOne(db: Db, sid: SessionId, run: RunId): Db {
    ClearActiveRun(FinishRun(Commit(db, sid, run, RunFinished(Interrupted)), run, Interrupted), sid, Interrupted)
  }

  /** DanglingRun: "" when the ledger is settled. */
  function DanglingRun(es: seq<Event>): RunId {
    if Live(es) then LiveRun(es) else ""
  }

  /** finalizeOrphanRun, all of its writes. */
  function FinalizeOrphan(db: Db, sid: SessionId): Db {
    var run := DanglingRun(LedgerOf(db, sid));
    if run == "" then db else SettleOne(db, sid, run)
  }

  lemma SettleOneMore(db: Db, sids: set<SessionId>, sid: SessionId)
    requires sids <= LiveSessions(db.ledgers) && sid in LiveSessions(db.ledgers) && sid !in sids
    ensures SettleLedgers(db, sids + {sid}) == SettleOne(SettleLedgers(db, sids), sid, LiveRun(db.ledgers[sid]))
  {
    SettleOneMoreLedger(db, sids, sid);
    SettleOneMoreRun(db, sids, sid);
    SettleOneMoreRecent(db, sids, sid);
    SettleOneEffect(SettleLedgers(db, sids), sid, LiveRun(db.ledgers[sid]));
  }

  /** What the four writes come to on a session's three rows. */
  lemma SettleOneEffect(db: Db, sid: SessionId, run: RunId)
    ensures var es, after := LedgerOf(db, sid), SettleOne(db, sid, run);
            var e := NextEvent(es, run, RunFinished(Interrupted));
            && after.ledgers == db.ledgers[sid := es + [e]]
            && after.runs == (if run in db.runs then db.runs[run := Interrupt(db.runs[run])] else db.runs)
            && after.recent == (if sid in db.recent
                                then db.recent[sid := ClearRecent(db.recent[sid]).(lastSeq :=
                                    Max(db.recent[sid].lastSeq, e.seqNo))]
                                else db.recent)
            && after.sessions == db.sessions && after.intents == db.intents
  {
  }

  lemma SettleOneMoreLedger(db: Db, sids: set<SessionId>, sid: SessionId)
    requires sid in LiveSessions(db.ledgers)
    ensures LedgersSettled(db, sids + {sid}) == LedgersSettled(db, sids)[sid := SettledLedger(db.ledgers[sid])]
  {
  }

  lemma SettleOneMoreRecent(db: Db, sids: set<SessionId>, sid: SessionId)
    requires sids <= LiveSessions(db.ledgers) && sid in LiveSessions(db.ledgers) && sid !in sids
    ensures RecentSettled(db, sids + {sid}) ==
            if sid in db.recent
            then RecentSettled(db, sids)[sid := SettledRecent(db.recent[sid], db.ledgers[sid])]
            else RecentSettled(db, sids)
  {
  }

  lemma SettleOneMoreRun(db: Db, sids: set<SessionId>, sid: SessionId)
    requires sids <= LiveSessions(db.ledgers) && sid in LiveSessions(db.ledgers)
    ensures var run := LiveRun(db.ledgers[sid]);
            RunsSettled(db, sids + {sid}) ==
            if run in db.runs then RunsSettled(db, sids)[run := Interrupt(db.runs[run])] else RunsSettled(db, sids)
  {
    var run := LiveRun(db.ledgers[sid]);
    forall r | r in db.runs
      ensures LiveRunAmong(db, sids + {sid}, r) == (LiveRunAmong(db, sids, r) || r == run)
    {
      if r == run { assert sid in sids + {sid}; }
    }
  }

  // ---------- The second pass: sweep the runs table ----------

  function RunningRuns(runs: map<RunId, RunRow>): set<RunId> {
    set run | run in runs && runs[run].state == Running
  }

  predicate HasRunAmong(db: Db, runs: set<RunId>, sid: SessionId) {
    exists run :: run in runs && run in db.runs && db.runs[run].session == sid
  }

  function SweepRuns(db: Db, runs: set<RunId>): Db {
    db.(runs := map run | run in db.runs :: if run in runs then Interrupt(db.runs[run]) else db.runs[run],
        recent := map sid | sid in db.recent ::
                    if HasRunAmong(db, runs, sid) then ClearRecent(db.recent[sid]) else db.recent[sid])
  }

  function SweepOne(db: Db, run: RunId, sid: SessionId): Db {
    ClearActiveRun(FinishRun(db, run, Interrupted), sid, Interrupted)
  }

  lemma SweepOneMore(db: Db, runs: set<RunId>, run: RunId)
    requires run in db.runs && run !in runs
    ensures SweepRuns(db, runs + {run}) == SweepOne(SweepRuns(db, runs), run, db.runs[run].session)
  {
    var before, after := SweepRuns(db, runs), SweepRuns(db, runs + {run});
    assert after.runs == before.runs[run := Interrupt(before.runs[run])];
    forall sid | sid in db.recent
      ensures HasRunAmong(db, runs + {run}, sid) == (HasRunAmong(db, runs, sid) || db.runs[run].session == sid)
    {
      if db.runs[run].session == sid { assert run in runs + {run}; }
    }
    assert SweepOne(before, run, db.runs[run].session).recent == after.recent;
  }

  // ---------- Recovery as a whole ----------

  function Reconcile(db: Db): Db {
    var settled := SettleLedgers(db, LiveSessions(db.ledgers));
    SweepRuns(settled, RunningRuns(settled.runs))
  }

  /**
   After recovery, whatever the tables held, a session's ledger is the settled form of what it was
   and renders idle with no tool running.
   */
  lemma ReconcileSettlesLedger(db: Db, sid: SessionId)
    ensures LedgerOf(Reconcile(db), sid) == SettledLedger(LedgerOf(db, sid))
    ensures Settled(LedgerOf(Reconcile(db), sid))
    ensures var rs := Render.Snapshot(LedgerOf(Reconcile(db), sid));
            rs.tail == Render.TailIdle && forall r :: 0 <= r < |rs.rows| ==> rs.rows[r].status != Render.ToolRunning
  {
    SettledLedgerSettles(LedgerOf(db, sid));
    RenderLaws.SettledShowsNothingRunning(LedgerOf(Reconcile(db), sid));
  }

  /** No session is left live, no runs row is left running, and no row appears or disappears. */
  lemma ReconcileLeavesNothingRunning(db: Db)
    ensures LiveSessions(Reconcile(db).ledgers) == {} && RunningRuns(Reconcile(db).runs) == {}
    ensures Reconcile(db).ledgers.Keys == db.ledgers.Keys
    ensures Reconcile(db).runs.Keys == db.runs.Keys && Reconcile(db).recent.Keys == db.recent.Keys
    ensures Reconcile(db).sessions == db.sessions && Reconcile(db).intents == db.intents
  {
    var settled := SettleLedgers(db, LiveSessions(db.ledgers));
    assert Reconcile(db).ledgers == settled.ledgers;
    forall sid
      ensures sid !in LiveSessions(Reconcile(db).ledgers)
    {
      ReconcileSettlesLedger(db, sid);
    }
    assert settled.runs.Keys == db.runs.Keys && settled.recent.Keys == db.recent.Keys;
    assert Reconcile(db).runs.Keys == settled.runs.Keys && Reconcile(db).recent.Keys == settled.recent.Keys;
  }

  /** A second recovery changes nothing. */
  lemma ReconcileIsIdempotent(db: Db)
    ensures Reconcile(Reconcile(db)) == Reconcile(db)
  {
    ReconcileLeavesNothingRunning(db);
    SettleNone(Reconcile(db));
    SweepNone(Reconcile(db));
  }

  lemma SettleNone(db: Db)
    ensures SettleLedgers(db, {}) == db
  {
    var none := SettleLedgers(db, {});
    assert none.ledgers == db.ledgers && none.runs == db.runs && none.recent == db.recent;
  }

  lemma SweepNone(db: Db)
    ensures SweepRuns(db, {}) == db
  {
    var none := SweepRuns(db, {});
    assert none.runs == db.runs && none.recent == db.recent;
  }

  /** The session names an active run, its ledger is settled, and its running rows are only dangling ledgers' runs. */
  ghost predicate Survives(db: Db, sid: SessionId) {
    && sid in db.recent && db.recent[sid].activeRun != ""
    && Settled(LedgerOf(db, sid))
    && (forall run :: run in db.runs && db.runs[run] == RunRow(sid, Running) ==>
          LiveRunAmong(db, LiveSessions(db.ledgers), run))
  }

  /** Recovery leaves exactly these sessions' active runs set, and sets no other. */
  lemma StaleActiveRunAfterReconcile(db: Db, sid: SessionId)
    ensures Survives(db, sid) <==> sid in Reconcile(db).recent && Reconcile(db).recent[sid].activeRun != ""
    ensures sid in db.recent ==>
              sid in Reconcile(db).recent && Reconcile(db).recent[sid].activeRun in {"", db.recent[sid].activeRun}
  {
    ReconcileLeavesNothingRunning(db);
    if sid in db.recent {
      SweptAway(db, sid);
    }
  }

  lemma SweptAway(db: Db, sid: SessionId)
    requires sid in db.recent
    ensures var live := LiveSessions(db.ledgers);
            var settled := SettleLedgers(db, live);
            HasRunAmong(settled, RunningRuns(settled.runs), sid) <==>
            exists run :: run in db.runs && db.runs[run] == RunRow(sid, Running) && !LiveRunAmong(db, live, run)
  {
    var live := LiveSessions(db.ledgers);
    var settled := SettleLedgers(db, live);
    var running := RunningRuns(settled.runs);
    if run :| run in running && run in settled.runs && settled.runs[run].session == sid {
      assert db.runs[run] == RunRow(sid, Running) && !LiveRunAmong(db, live, run);
    }
    if run :| run in db.runs && db.runs[run] == RunRow(sid, Running) && !LiveRunAmong(db, live, run) {
      assert run in running;
    }
  }

  // ---------- What recovery leaves in the rows ----------

  /** The run has to be ended: its ledger shows it live, or its row still says running. */
  ghost predicate Stuck(db: Db, run: RunId) {
    run in db.runs && (db.runs[run].state == Running || LiveRunAmong(db, LiveSessions(db.ledgers), run))
  }

  /** The session has a run to end: its ledger is live, or a row of it that no live ledger accounts for is running. */
  ghost predicate HasStuck(db: Db, sid: SessionId) {
    Live(LedgerOf(db, sid)) ||
    exists run :: run in db.runs && db.runs[run] == RunRow(sid, Running)
                  && !LiveRunAmong(db, LiveSessions(db.ledgers), run)
  }

  /** Recovery marks exactly the stuck runs interrupted and leaves every other row as it was. */
  lemma StuckRunsAreInterrupted(db: Db, run: RunId)
    requires run in db.runs
    ensures run in Reconcile(db).runs
    ensures Reconcile(db).runs[run] ==
            if Stuck(db, run) then RunRow(db.runs[run].session, Interrupted) else db.runs[run]
  {
    var settled := SettleLedgers(db, LiveSessions(db.ledgers));
    assert settled.runs[run] ==
           if LiveRunAmong(db, LiveSessions(db.ledgers), run) then Interrupt(db.runs[run]) else db.runs[run];
  }

  /**
   A session's projection keeps its preview; it shows no active run and an interrupted one exactly where
   recovery had a run to end, and its tail covers the event recovery appended.
   */
  lemma ProjectionAfterReconcile(db: Db, sid: SessionId)
    requires sid in db.recent
    ensures sid in Reconcile(db).recent
    ensures var was, now := db.recent[sid], Reconcile(db).recent[sid];
            && now.preview == was.preview
            && now.activeRun == (if HasStuck(db, sid) then "" else was.activeRun)
            && now.lastRunState == (if HasStuck(db, sid) then Interrupted else was.lastRunState)
            && now.lastSeq == (if Live(LedgerOf(db, sid)) && was.lastSeq < MaxSeq(LedgerOf(db, sid)) + 1
                               then MaxSeq(LedgerOf(db, sid)) + 1 else was.lastSeq)
  {
    var live := LiveSessions(db.ledgers);
    var settled := SettleLedgers(db, live);
    SweptAway(db, sid);
    assert sid in settled.recent;
    assert sid in live <==> Live(LedgerOf(db, sid));
  }

  /**
   An Interrupt that finds no run going ends the run the ledger shows live, unless its id is empty: the
   ledger is settled, the run's row is interrupted, and the projection keeps its preview. Otherwise nothing changes.
   */
  lemma OrphanIsEnded(db: Db, sid: SessionId)
    ensures var es, after := LedgerOf(db, sid), FinalizeOrphan(db, sid);
            if Live(es) && LiveRun(es) != "" then
              && LedgerOf(after, sid) == es + [Event(MaxSeq(es) + 1, LiveRun(es), RunFinished(Interrupted))]
              && Settled(LedgerOf(after, sid))
              && after.runs == (if LiveRun(es) in db.runs
                                then db.runs[LiveRun(es) := RunRow(db.runs[LiveRun(es)].session, Interrupted)]
                                else db.runs)
              && (sid in db.recent ==>
                    && sid in after.recent && after.recent[sid].activeRun == ""
                    && after.recent[sid].lastRunState == Interrupted
                    && after.recent[sid].preview == db.recent[sid].preview)
            else after == db
  {
    var es := LedgerOf(db, sid);
    if Live(es) {
      SettleOneEffect(db, sid, LiveRun(es));
      LastBoundaryAppend(es, Settling(es));
    }
  }
}
