/**
 Disciplined runs: an Interrupt that writes does so in the step that checks, and no session is deleted while its
 run is going. Then run boundaries alternate and the ledger stays ahead of the tables, across crashes.
 */
module LifecycleOrder {
  import opened Ledger
  import opened Alternation
  import opened Tables
  import opened Recovery
  import opened Lifecycle
  import opened LifecycleSafety

  ghost predicate Disciplined(s: State, step: Step) {
    && (step.AdvanceInterrupt? && step.k in s.interrupters ==> s.interrupters[step.k].Checked?)
    && (step.Delete? ==> step.sid !in s.active)
  }

  ghost predicate IsDisciplinedRun(states: seq<State>, steps: seq<Step>) {
    IsRun(states, steps) && forall i :: 0 <= i < |steps| ==> Disciplined(states[i], steps[i])
  }

  // ---------- What the tables satisfy at every point ----------

  predicate LedgerSound(db: Db, sid: SessionId, es: seq<Event>) {
    && Alternates(es) && Numbered(es)
    && (Live(es) ==> LiveRun(es) in db.runs && db.runs[LiveRun(es)] == RunRow(sid, Running))
    && (forall e :: e in es && e.body.RunStarted? ==> e.run in db.runs && db.runs[e.run].session == sid)
  }

  ghost predicate DbSound(db: Db) {
    && (forall sid :: sid in db.ledgers ==> LedgerSound(db, sid, db.ledgers[sid]))
    && (forall sid :: sid in db.recent ==> db.recent[sid].lastSeq <= |LedgerOf(db, sid)|)
  }

  lemma EmptyTablesAreSound()
    ensures DbSound(EMPTY)
  {
  }

  predicate MayAppend(db: Db, sid: SessionId, run: RunId, body: Body) {
    var es := LedgerOf(db, sid);
    && (body.RunStarted? ==> Settled(es) && run in db.runs && db.runs[run] == RunRow(sid, Running))
    && (body.RunFinished? ==> Live(es) && LiveRun(es) == run)
  }

  lemma EmptyLedgerSound(db: Db, sid: SessionId)
    ensures LedgerSound(db, sid, [])
  {
  }

  lemma AppendSound(db: Db, sid: SessionId, run: RunId, body: Body)
    requires DbSound(db) && MayAppend(db, sid, run, body)
    ensures DbSound(Append(db, sid, run, body))
    ensures NextEvent(LedgerOf(db, sid), run, body).seqNo == |LedgerOf(db, sid)| + 1
  {
    var es, db' := LedgerOf(db, sid), Append(db, sid, run, body);
    var e := NextEvent(es, run, body);
    assert LedgerSound(db, sid, es) by {
      if sid !in db.ledgers { EmptyLedgerSound(db, sid); }
    }
    NumberedMax(es);
    AlternatesAppend(es, e);
    LastBoundaryAppend(es, e);
    assert LedgerSound(db', sid, es + [e]) by {
      assert Numbered(es + [e]);
      assert forall f :: f in es + [e] ==> f in es || f == e;
    }
    forall other | other in db'.ledgers && other != sid
      ensures LedgerSound(db', other, db'.ledgers[other])
    {
      assert LedgerSound(db, other, db.ledgers[other]);
    }
  }

  /** Writes that change neither ledgers nor which session a run belongs to. */
  lemma RowsSound(db: Db, db': Db)
    requires DbSound(db) && db'.ledgers == db.ledgers
    requires forall run :: run in db.runs ==> run in db'.runs && db'.runs[run].session == db.runs[run].session
    requires forall sid :: sid in LiveSessions(db.ledgers) ==>
               var run := LiveRun(db.ledgers[sid]); run in db.runs ==> db'.runs[run] == db.runs[run]
    requires forall sid :: sid in db'.recent ==> db'.recent[sid].lastSeq <= |LedgerOf(db, sid)|
    ensures DbSound(db')
  {
    forall sid | sid in db'.ledgers
      ensures LedgerSound(db', sid, db'.ledgers[sid])
    {
      assert LedgerSound(db, sid, db.ledgers[sid]);
      assert Live(db.ledgers[sid]) ==> sid in LiveSessions(db.ledgers);
    }
  }

  lemma DeleteSound(db: Db, sid: SessionId)
    requires DbSound(db)
    ensures DbSound(DeleteSession(db, sid))
  {
    var db' := DeleteSession(db, sid);
    forall other | other in db'.ledgers
      ensures LedgerSound(db', other, db'.ledgers[other])
    {
      assert LedgerSound(db, other, db.ledgers[other]);
    }
  }

  // ---------- What holds at each point of a run ----------

  predicate BeforeRow(stage: Stage) {
    stage.AtIntent? || stage.AtUserAppend? || stage.AtUserBump? || stage.AtCreateRun?
  }

  predicate BumpStage(stage: Stage) {
    stage.AtUserBump? || stage.AtStartBump? || stage.AtProviderBump? || stage.AtErrorBump? || stage.AtFinishBump?
  }

  /** A commit has completed and no append is waiting for its projection update. */
  predicate CaughtUpStage(stage: Stage) {
    !stage.AtIntent? && !stage.AtUserAppend? && !BumpStage(stage)
  }

  /** The goroutine's runs row exists and is running. */
  predicate HasRow(stage: Stage) {
    !BeforeRow(stage) && OwningStage(stage)
  }

  /** The projection names this run as the active one. */
  predicate NamedStage(stage: Stage) {
    || stage.AtProvider? || stage.AtProviderBump? || stage.AtErrorAppend? || stage.AtErrorBump?
    || stage.AtFinishAppend? || stage.AtFinishBump? || stage.AtFinishRow? || stage.AtTouchDone?
  }

  predicate TaskSound(db: Db, run: RunId, t: Task) {
    var es := LedgerOf(db, t.session);
    && (OpenStage(t.stage) ==> Live(es) && LiveRun(es) == run)
    && (BeforeRow(t.stage) ==> run !in db.runs)
    && (run in db.runs ==> db.runs[run].session == t.session)
    && (HasRow(t.stage) ==> run in db.runs && db.runs[run].state == Running)
    && (BumpStage(t.stage) ==> t.stage.n == |es|)
    && (CaughtUpStage(t.stage) && t.session in db.recent ==> db.recent[t.session].lastSeq == |es|)
    && (NamedStage(t.stage) && t.session in db.recent ==> db.recent[t.session].activeRun == run)
  }

  /** db' may differ from db only where the given run and session are concerned. */
  ghost predicate TouchesOnly(db: Db, db': Db, run: RunId, sid: SessionId) {
    && (forall other :: other != sid ==> LedgerOf(db', other) == LedgerOf(db, other))
    && (forall other :: other != sid ==> (other in db'.recent <==> other in db.recent))
    && (forall other :: other != sid && other in db.recent ==> db'.recent[other] == db.recent[other])
    && (forall r :: r != run ==> (r in db'.runs <==> r in db.runs))
    && (forall r :: r != run && r in db.runs ==> db'.runs[r] == db.runs[r])
  }

  /** What a stage reached by an append may be. */
  predicate AfterAppend(t: Task, t': Task, body: Body, n: int) {
    && t'.session == t.session
    && BumpStage(t'.stage) && t'.stage.n == n
    && (OpenStage(t'.stage) ==> body.RunStarted? || (OpenStage(t.stage) && !body.RunFinished?))
    && (BeforeRow(t'.stage) ==> BeforeRow(t.stage))
    && (HasRow(t'.stage) ==> HasRow(t.stage))
    && (NamedStage(t'.stage) ==> NamedStage(t.stage))
  }

  lemma AppendKeepsTask(db: Db, run: RunId, t: Task, t': Task, body: Body)
    requires DbSound(db) && TaskSound(db, run, t) && MayAppend(db, t.session, run, body)
    requires AfterAppend(t, t', body, MaxSeq(LedgerOf(db, t.session)) + 1)
    ensures var db' := Append(db, t.session, run, body);
            DbSound(db') && TaskSound(db', run, t') && TouchesOnly(db, db', run, t.session)
  {
    AppendSound(db, t.session, run, body);
    LastBoundaryAppend(LedgerOf(db, t.session), NextEvent(LedgerOf(db, t.session), run, body));
  }

  lemma AppendStageKeepsTask(db: Db, run: RunId, t: Task, input: Input)
    requires DbSound(db) && TaskSound(db, run, t)
    requires Accepts(t.stage, input) && Appends(t.stage, input)
    requires !OpenStage(t.stage) ==> Settled(LedgerOf(db, t.session))
    ensures var db' := TaskWrites(db, run, t, input);
            DbSound(db') && TaskSound(db', run, TaskMoves(db, t, input)) && TouchesOnly(db, db', run, t.session)
  {
    AppendKeepsTask(db, run, t, TaskMoves(db, t, input), NextWrite(run, t, input).body);
  }

  /** The tables after the session's projection row, if there is one, has been replaced. */
  function WithRecent(db: Db, sid: SessionId, row: Recent): Db {
    if sid in db.recent then db.(recent := db.recent[sid := row]) else db
  }

  predicate AfterRecent(db: Db, run: RunId, t: Task, t': Task, row: Recent) {
    var n := |LedgerOf(db, t.session)|;
    && t'.session == t.session && row.lastSeq <= n
    && (OpenStage(t'.stage) ==> OpenStage(t.stage))
    && (BeforeRow(t'.stage) ==> BeforeRow(t.stage))
    && (HasRow(t'.stage) ==> HasRow(t.stage))
    && !BumpStage(t'.stage)
    && (CaughtUpStage(t'.stage) ==> row.lastSeq == n)
    && (NamedStage(t'.stage) ==> row.activeRun == run)
  }

  lemma RecentKeepsTask(db: Db, run: RunId, t: Task, t': Task, row: Recent)
    requires DbSound(db) && TaskSound(db, run, t) && AfterRecent(db, run, t, t', row)
    ensures var db' := WithRecent(db, t.session, row);
            DbSound(db') && TaskSound(db', run, t') && TouchesOnly(db, db', run, t.session)
  {
    RowsSound(db, WithRecent(db, t.session, row));
  }

  /** What a stage reached by a projection update of last_seq may be. */
  predicate AfterBump(t: Task, t': Task) {
    && t'.session == t.session
    && (OpenStage(t'.stage) ==> OpenStage(t.stage))
    && (BeforeRow(t'.stage) ==> BeforeRow(t.stage))
    && (HasRow(t'.stage) ==> HasRow(t.stage))
    && !BumpStage(t'.stage)
    && (NamedStage(t'.stage) ==> NamedStage(t.stage))
  }

  lemma BumpKeepsTask(db: Db, run: RunId, t: Task, t': Task)
    requires DbSound(db) && TaskSound(db, run, t) && BumpStage(t.stage) && AfterBump(t, t')
    ensures var db' := BumpRecentSeq(db, t.session, t.stage.n);
            DbSound(db') && TaskSound(db', run, t') && TouchesOnly(db, db', run, t.session)
  {
    var n := t.stage.n;
    var row := if t.session in db.recent then db.recent[t.session].(lastSeq := n) else Recent(n, run, NoState, "");
    assert BumpRecentSeq(db, t.session, n) == WithRecent(db, t.session, row);
    RecentKeepsTask(db, run, t, t', row);
  }

  lemma TouchKeepsTask(db: Db, run: RunId, t: Task, t': Task, w: Write)
    requires DbSound(db) && TaskSound(db, run, t) && w.Touch?
    requires if t.stage.AtTouchRunning? then w.activeRun == run && t' == t.(stage := AtProvider)
             else t.stage.AtTouchDone? && t' == t.(stage := AtRelease)
    ensures var db' := Apply(db, t.session, run, w);
            DbSound(db') && TaskSound(db', run, t') && TouchesOnly(db, db', run, t.session)
  {
    var row := Recent(|LedgerOf(db, t.session)|, w.activeRun, w.shown, w.preview);
    assert Apply(db, t.session, run, w) == WithRecent(db, t.session, row);
    RecentKeepsTask(db, run, t, t', row);
  }

  lemma InsertRunKeepsTask(db: Db, run: RunId, t: Task)
    requires DbSound(db) && TaskSound(db, run, t) && t.stage.AtCreateRun?
    requires forall sid :: sid in LiveSessions(db.ledgers) ==> LiveRun(db.ledgers[sid]) != run
    ensures var db' := CreateRun(db, run, t.session);
            DbSound(db') && TaskSound(db', run, t.(stage := AtStartAppend)) && TouchesOnly(db, db', run, t.session)
  {
    RowsSound(db, CreateRun(db, run, t.session));
  }

  lemma EndRunKeepsTask(db: Db, run: RunId, t: Task)
    requires DbSound(db) && TaskSound(db, run, t) && t.stage.AtFinishRow?
    requires forall sid :: sid in LiveSessions(db.ledgers) ==> LiveRun(db.ledgers[sid]) != run
    ensures var db' := FinishRun(db, run, t.stage.end);
            DbSound(db') && TaskSound(db', run, t.(stage := AtTouchDone(t.stage.end)))
                && TouchesOnly(db, db', run, t.session)
  {
    RowsSound(db, FinishRun(db, run, t.stage.end));
  }

  lemma QuietKeepsTask(db: Db, run: RunId, t: Task, t': Task, w: Write)
    requires DbSound(db) && TaskSound(db, run, t) && t'.session == t.session
    requires if w.RecordIntent? then t.stage.AtIntent? && t'.stage.AtUserAppend?
             else w.NoWrite? && t.stage.AtProvider? && (t'.stage.AtErrorAppend? || t'.stage.AtFinishAppend?)
    ensures var db' := Apply(db, t.session, run, w);
            DbSound(db') && TaskSound(db', run, t') && TouchesOnly(db, db', run, t.session)
  {
    RowsSound(db, Apply(db, t.session, run, w));
  }

  /** What a goroutine's step amounts to, when it is not a commit's append. */
  predicate Shaped(run: RunId, t: Task, w: Write, t': Task) {
    && t'.session == t.session
    && match t.stage
       case AtIntent => w.RecordIntent? && t'.stage.AtUserAppend?
       case AtCreateRun => w.InsertRun? && t' == t.(stage := AtStartAppend)
       case AtTouchRunning => w.Touch? && w.activeRun == run && t' == t.(stage := AtProvider)
       case AtProvider => w.NoWrite? && (t'.stage.AtErrorAppend? || t'.stage.AtFinishAppend?)
       case AtFinishRow(end) => w == EndRun(end) && t' == t.(stage := AtTouchDone(end))
       case AtTouchDone(_) => w.Touch? && t' == t.(stage := AtRelease)
       case _ => BumpStage(t.stage) && w == Bump(t.stage.n) && AfterBump(t, t')
  }

  lemma OrderShape(db: Db, run: RunId, t: Task, input: Input)
    requires Accepts(t.stage, input) && !Appends(t.stage, input) && !t.stage.AtRelease?
    ensures Shaped(run, t, NextWrite(run, t, input), TaskMoves(db, t, input))
  {
  }

  // ---------- The invariant ----------

  ghost predicate RecoverySound(db: Db, m: Mode)
    requires m.Settling?
  {
    && (forall i, j :: 0 <= i < j < |m.todo| ==> m.todo[i].session != m.todo[j].session)
    && (forall k :: 0 <= k < |m.todo| && (k == 0 ==> m.at.SettleAppend?) ==>
          m.todo[k].session in LiveSessions(db.ledgers) && LiveRun(db.ledgers[m.todo[k].session]) == m.todo[k].run)
    && (m.todo != [] && !m.at.SettleAppend? ==>
          var ref := m.todo[0];
          && Settled(LedgerOf(db, ref.session))
          && (ref.run in db.runs ==> db.runs[ref.run].session == ref.session)
          && (m.at.SettleBump? ==> m.at.n == |LedgerOf(db, ref.session)|)
          && (!m.at.SettleBump? && ref.session in db.recent ==>
                db.recent[ref.session].lastSeq == |LedgerOf(db, ref.session)|))
  }

  ghost predicate Ordered(s: State) {
    && Inv(s) && DbSound(s.db)
    && (forall run :: run in s.tasks ==> TaskSound(s.db, run, s.tasks[run]))
    && (s.mode.Settling? ==> RecoverySound(s.db, s.mode))
  }

  lemma OtherTasksKept(s: State, db': Db, run: RunId, sid: SessionId)
    requires Ordered(s) && s.mode.Serving? && TouchesOnly(s.db, db', run, sid)
    ensures forall r :: r in s.tasks && r != run && s.tasks[r].session != sid ==> TaskSound(db', r, s.tasks[r])
  {
  }

  /** A live ledger's run is the one whose goroutine is between start and finish. */
  lemma LiveRunsAreOpen(s: State, run: RunId)
    requires Ordered(s) && s.mode.Serving? && run in s.tasks && !OpenStage(s.tasks[run].stage)
    ensures forall sid :: sid in LiveSessions(s.db.ledgers) ==> LiveRun(s.db.ledgers[sid]) != run
  {
    forall sid | sid in LiveSessions(s.db.ledgers)
      ensures LiveRun(s.db.ledgers[sid]) != run
    {
      assert HasOpenTask(s, sid);
      assert TaskSound(s.db, s.active[sid], s.tasks[s.active[sid]]);
    }
  }

  lemma CommitKeepsTask(s: State, run: RunId, input: Input)
    requires Ordered(s) && Enabled(s, Advance(run, input)) && Appends(s.tasks[run].stage, input)
    ensures var t := s.tasks[run]; var db' := TaskWrites(s.db, run, t, input);
            DbSound(db') && TaskSound(db', run, TaskMoves(s.db, t, input)) && TouchesOnly(s.db, db', run, t.session)
  {
    var t := s.tasks[run];
    assert !OpenStage(t.stage) ==> Settled(LedgerOf(s.db, t.session)) by {
      assert Live(LedgerOf(s.db, t.session)) ==> t.session in LiveSessions(s.db.ledgers);
    }
    AppendStageKeepsTask(s.db, run, t, input);
  }

  lemma StageKeepsTask(s: State, run: RunId, input: Input)
    requires Ordered(s) && Enabled(s, Advance(run, input))
    requires !Appends(s.tasks[run].stage, input) && !s.tasks[run].stage.AtRelease?
    ensures var t := s.tasks[run]; var db' := TaskWrites(s.db, run, t, input);
            DbSound(db') && TaskSound(db', run, TaskMoves(s.db, t, input)) && TouchesOnly(s.db, db', run, t.session)
  {
    OrderShape(s.db, run, s.tasks[run], input);
    ShapedKeepsTask(s, run, NextWrite(run, s.tasks[run], input), TaskMoves(s.db, s.tasks[run], input));
  }

  lemma ShapedKeepsTask(s: State, run: RunId, w: Write, t': Task)
    requires Ordered(s) && s.mode.Serving? && run in s.tasks && Shaped(run, s.tasks[run], w, t')
    ensures var t := s.tasks[run]; var db' := Apply(s.db, t.session, run, w);
            DbSound(db') && TaskSound(db', run, t') && TouchesOnly(s.db, db', run, t.session)
  {
    var t := s.tasks[run];
    match t.stage
    case AtIntent => QuietKeepsTask(s.db, run, t, t', w);
    case AtCreateRun =>
      LiveRunsAreOpen(s, run);
      InsertRunKeepsTask(s.db, run, t);
    case AtTouchRunning => TouchKeepsTask(s.db, run, t, t', w);
    case AtProvider => QuietKeepsTask(s.db, run, t, t', w);
    case AtFinishRow(_) =>
      LiveRunsAreOpen(s, run);
      EndRunKeepsTask(s.db, run, t);
    case AtTouchDone(_) => TouchKeepsTask(s.db, run, t, t', w);
    case _ => BumpKeepsTask(s.db, run, t, t');
  }

  lemma TaskReplacedOrdered(s: State, s': State, run: RunId, t': Task)
    requires Ordered(s) && s.mode.Serving? && run in s.tasks && Inv(s')
    requires s' == s.(db := s'.db, tasks := s.tasks[run := t'])
    requires DbSound(s'.db) && TaskSound(s'.db, run, t') && TouchesOnly(s.db, s'.db, run, s.tasks[run].session)
    ensures Ordered(s')
  {
    OtherTasksKept(s, s'.db, run, s.tasks[run].session);
  }

  lemma AdvanceOrdered(s: State, run: RunId, input: Input)
    requires Ordered(s) && Enabled(s, Advance(run, input))
    ensures Ordered(Do(s, Advance(run, input)))
  {
    AdvanceKeeps(s, run, input);
    if !s.tasks[run].stage.AtRelease? {
      if Appends(s.tasks[run].stage, input) {
        CommitKeepsTask(s, run, input);
      } else {
        StageKeepsTask(s, run, input);
      }
      TaskReplacedOrdered(s, Do(s, Advance(run, input)), run, TaskMoves(s.db, s.tasks[run], input));
    }
  }

  lemma DeleteOrdered(s: State, sid: SessionId)
    requires Ordered(s) && s.mode.Serving? && sid !in s.active
    ensures Ordered(Do(s, Delete(sid)))
  {
    DeleteKeeps(s, sid);
    DeleteSound(s.db, sid);
    var db' := DeleteSession(s.db, sid);
    forall run | run in s.tasks
      ensures TaskSound(db', run, s.tasks[run])
    {
      assert s.tasks[run].session != sid;
    }
  }

  lemma SettleAppendOrdered(s: State)
    requires Ordered(s) && Enabled(s, SettleNext) && s.mode.at.SettleAppend?
    ensures DbSound(Do(s, SettleNext).db) && RecoverySound(Do(s, SettleNext).db, Do(s, SettleNext).mode)
  {
    var ref, body := s.mode.todo[0], RunFinished(Interrupted);
    var es := LedgerOf(s.db, ref.session);
    assert ref.session in LiveSessions(s.db.ledgers);
    assert LedgerSound(s.db, ref.session, es);
    AppendSound(s.db, ref.session, ref.run, body);
    LastBoundaryAppend(es, NextEvent(es, ref.run, body));
    assert ref.run in s.db.runs && s.db.runs[ref.run].session == ref.session;
    AppendEffect(s.db, ref.session, ref.run, body);
  }

  lemma SettleRowOrdered(s: State)
    requires Ordered(s) && Enabled(s, SettleNext) && s.mode.at.SettleFinish?
    ensures DbSound(Do(s, SettleNext).db) && RecoverySound(Do(s, SettleNext).db, Do(s, SettleNext).mode)
  {
    var ref := s.mode.todo[0];
    forall sid | sid in LiveSessions(s.db.ledgers)
      ensures LiveRun(s.db.ledgers[sid]) != ref.run
    {
      assert LedgerSound(s.db, sid, s.db.ledgers[sid]);
    }
    RowsSound(s.db, FinishRun(s.db, ref.run, Interrupted));
  }

  lemma SettleBumpOrdered(s: State)
    requires Ordered(s) && Enabled(s, SettleNext) && s.mode.at.SettleBump?
    ensures DbSound(Do(s, SettleNext).db) && RecoverySound(Do(s, SettleNext).db, Do(s, SettleNext).mode)
  {
    RowsSound(s.db, BumpRecentSeq(s.db, s.mode.todo[0].session, s.mode.at.n));
  }

  lemma SettleClearOrdered(s: State)
    requires Ordered(s) && Enabled(s, SettleNext) && s.mode.at.SettleClear?
    ensures DbSound(Do(s, SettleNext).db) && RecoverySound(Do(s, SettleNext).db, Do(s, SettleNext).mode)
  {
    RowsSound(s.db, ClearActiveRun(s.db, s.mode.todo[0].session, Interrupted));
    assert forall k :: 0 < k < |s.mode.todo| ==> s.mode.todo[1..][k - 1] == s.mode.todo[k];
  }

  lemma SettleOrdered(s: State)
    requires Ordered(s) && Enabled(s, SettleNext)
    ensures Ordered(Do(s, SettleNext))
  {
    SettleKeeps(s);
    match s.mode.at
    case SettleAppend => SettleAppendOrdered(s);
    case SettleBump(_) => SettleBumpOrdered(s);
    case SettleFinish => SettleRowOrdered(s);
    case SettleClear => SettleClearOrdered(s);
  }

  lemma SweepWritesSound(db: Db, ref: RunRef, at: SweepAt)
    requires DbSound(db) && LiveSessions(db.ledgers) == {}
    ensures DbSound(SweepWrites(db, ref, at))
  {
    RowsSound(db, SweepWrites(db, ref, at));
  }

  lemma SweepOrdered(s: State)
    requires Ordered(s) && Enabled(s, SweepNext)
    ensures Ordered(Do(s, SweepNext))
  {
    SweepKeeps(s);
    if s.mode.todo != [] {
      SweepWritesSound(s.db, s.mode.todo[0], s.mode.step);
    }
  }

  lemma CreateOrdered(s: State, sid: SessionId)
    requires Ordered(s) && Enabled(s, Create(sid))
    ensures Ordered(Do(s, Create(sid)))
  {
    PlainKeeps(s, Create(sid));
    RowsSound(s.db, CreateSession(s.db, sid));
  }

  lemma PlainOrdered(s: State, step: Step)
    requires Ordered(s) && Enabled(s, step)
    requires step.LookUp? || step.Send? || step.CheckInterrupt? || step.Crash? || step.QueryRunning?
    ensures Ordered(Do(s, step))
  {
    PlainOrderedParts(s, step);
    StepKeeps(s, step);
  }

  /** A fresh goroutine is sound, whatever the ledger; every other keeps its tables. */
  lemma PlainOrderedParts(s: State, step: Step)
    requires Ordered(s) && Enabled(s, step)
    requires step.LookUp? || step.Send? || step.CheckInterrupt? || step.Crash? || step.QueryRunning?
    ensures Do(s, step).db == s.db && !Do(s, step).mode.Settling?
    ensures forall run :: run in Do(s, step).tasks ==> TaskSound(s.db, run, Do(s, step).tasks[run])
  {
  }

  /** An interrupter that looks for a dangling run writes nothing. */
  lemma LookWrites(s: State, k: nat)
    requires Enabled(s, AdvanceInterrupt(k)) && s.interrupters[k].Checked?
    ensures Do(s, AdvanceInterrupt(k)) == s.(interrupters := InterrupterMoves(s, k))
  {
  }

  lemma LookOrdered(s: State, k: nat)
    requires Ordered(s) && Enabled(s, AdvanceInterrupt(k)) && s.interrupters[k].Checked?
    ensures Ordered(Do(s, AdvanceInterrupt(k)))
  {
    LookWrites(s, k);
  }

  lemma QueryDanglingOrdered(s: State, order: seq<RunRef>)
    requires Ordered(s) && Enabled(s, QueryDangling(order))
    ensures Ordered(Do(s, QueryDangling(order)))
  {
    QueryDanglingKeeps(s, order);
    assert forall k :: 0 <= k < |order| ==> order[k] in order;
  }

  lemma StepOrdered(s: State, step: Step)
    requires Ordered(s) && Enabled(s, step) && Disciplined(s, step)
    ensures Ordered(Do(s, step))
  {
    match step
    case Create(sid) => CreateOrdered(s, sid);
    case Advance(run, input) => AdvanceOrdered(s, run, input);
    case InterruptAtOnce(sid) => InterruptAtOnceKeeps(s, sid);
    case Delete(sid) => DeleteOrdered(s, sid);
    case SettleNext => SettleOrdered(s);
    case SweepNext => SweepOrdered(s);
    case LookUp(_, _, _) => PlainOrdered(s, step);
    case Send(_, _, _, _, _, _) => PlainOrdered(s, step);
    case CheckInterrupt(_, _) => PlainOrdered(s, step);
    case AdvanceInterrupt(k) => LookOrdered(s, k);
    case Crash => PlainOrdered(s, step);
    case QueryDangling(order) => QueryDanglingOrdered(s, order);
    case QueryRunning(_) => PlainOrdered(s, step);
  }

  lemma {:induction false} RunOrdered(states: seq<State>, steps: seq<Step>, i: nat)
    requires IsDisciplinedRun(states, steps) && DbSound(states[0].db) && i < |states|
    ensures Ordered(states[i])
  {
    if i > 0 {
      RunOrdered(states, steps, i - 1);
      StepOrdered(states[i - 1], steps[i - 1]);
    }
  }

  // ---------- The guarantees ----------

  /** In every state of every disciplined run, crashes included, the boundaries of every ledger alternate. */
  lemma BoundariesAlternate(states: seq<State>, steps: seq<Step>, i: nat, sid: SessionId)
    requires IsDisciplinedRun(states, steps) && DbSound(states[0].db) && i < |states|
    ensures Alternates(LedgerOf(states[i].db, sid)) && Numbered(LedgerOf(states[i].db, sid))
  {
    RunOrdered(states, steps, i);
    assert sid in states[i].db.ledgers ==> LedgerSound(states[i].db, sid, states[i].db.ledgers[sid]);
  }

  /**
   The ledger is ahead of the tables at every crash point: a started run has a runs row, a started run whose
   row is terminal is finished in the ledger, and the projected tail never passes the ledger's end.
   */
  lemma LedgerAheadOfTables(states: seq<State>, steps: seq<Step>, i: nat, sid: SessionId, run: RunId)
    requires IsDisciplinedRun(states, steps) && DbSound(states[0].db) && i < |states|
    ensures var db, es := states[i].db, LedgerOf(states[i].db, sid);
            && (Starts(es, run) ==> run in db.runs && db.runs[run].session == sid)
            && (Starts(es, run) && db.runs[run].state != Running ==> Finishes(es, run))
            && (sid in db.recent ==> db.recent[sid].lastSeq <= |es|)
  {
    RunOrdered(states, steps, i);
    var db, es := states[i].db, LedgerOf(states[i].db, sid);
    if Starts(es, run) {
      assert LedgerSound(db, sid, es);
      if db.runs[run].state != Running {
        StartedIsFinishedOrLive(es, run);
      }
    }
  }

  /** So they do whenever the process began on empty tables: nothing has to be assumed of them. */
  lemma OrderFromEmptyTables(states: seq<State>, steps: seq<Step>, i: nat, sid: SessionId, run: RunId)
    requires IsDisciplinedRun(states, steps) && states[0].db == EMPTY && i < |states|
    ensures var db, es := states[i].db, LedgerOf(states[i].db, sid);
            && Alternates(es) && Numbered(es)
            && (Starts(es, run) ==> run in db.runs && db.runs[run].session == sid)
            && (Starts(es, run) && db.runs[run].state != Running ==> Finishes(es, run))
            && (sid in db.recent ==> db.recent[sid].lastSeq <= |es|)
  {
    EmptyTablesAreSound();
    BoundariesAlternate(states, steps, i, sid);
    LedgerAheadOfTables(states, steps, i, sid, run);
  }

  // ---------- The projected tail ----------

  /** The second write of a commit to this session, by a goroutine or by recovery. */
  predicate BumpsTail(s: State, step: Step, sid: SessionId) {
    || (step.Advance? && step.run in s.tasks && BumpStage(s.tasks[step.run].stage) && s.tasks[step.run].session == sid)
    || (step.SettleNext? && s.mode.Settling? && s.mode.todo != [] && s.mode.todo[0].session == sid
        && s.mode.at.SettleBump?)
  }

  predicate CaughtUp(db: Db, sid: SessionId) {
    sid in db.recent ==> db.recent[sid].lastSeq == |LedgerOf(db, sid)|
  }

  lemma BumpIsCurrent(db: Db, sid: SessionId, other: SessionId)
    requires DbSound(db) && (other == sid || CaughtUp(db, sid))
    ensures CaughtUp(BumpRecentSeq(db, other, |LedgerOf(db, other)|), sid)
  {
  }

  lemma BumpWrite(db: Db, run: RunId, t: Task, input: Input)
    requires BumpStage(t.stage)
    ensures TaskWrites(db, run, t, input) == BumpRecentSeq(db, t.session, t.stage.n)
  {
  }

  lemma TaskBumpCatchesUp(s: State, run: RunId, input: Input)
    requires Ordered(s) && Enabled(s, Advance(run, input)) && BumpStage(s.tasks[run].stage)
    ensures CaughtUp(Advanced(s, run, input).db, s.tasks[run].session)
  {
    var t := s.tasks[run];
    assert TaskSound(s.db, run, t);
    BumpWrite(s.db, run, t, input);
    BumpIsCurrent(s.db, t.session, t.session);
  }

  lemma SettleBumpCatchesUp(s: State)
    requires Ordered(s) && Enabled(s, SettleNext) && s.mode.at.SettleBump?
    ensures CaughtUp(SettledOn(s).db, s.mode.todo[0].session)
  {
    BumpIsCurrent(s.db, s.mode.todo[0].session, s.mode.todo[0].session);
  }

  lemma BumpCatchesUp(s: State, step: Step, sid: SessionId)
    requires Ordered(s) && Enabled(s, step) && BumpsTail(s, step, sid)
    ensures CaughtUp(Do(s, step).db, sid)
  {
    if step.Advance? {
      TaskBumpCatchesUp(s, step.run, step.input);
    } else {
      SettleBumpCatchesUp(s);
    }
  }

  lemma AppendLengthens(db: Db, sid: SessionId, run: RunId, body: Body, other: SessionId)
    ensures |LedgerOf(Append(db, sid, run, body), sid)| == |LedgerOf(db, sid)| + 1
    ensures other != sid ==> LedgerOf(Append(db, sid, run, body), other) == LedgerOf(db, other)
    ensures Append(db, sid, run, body).recent == db.recent
  {
  }

  lemma AppendWrite(db: Db, run: RunId, t: Task, input: Input)
    requires Appends(t.stage, input)
    ensures NextWrite(run, t, input).AppendBody?
    ensures TaskWrites(db, run, t, input) == Append(db, t.session, run, NextWrite(run, t, input).body)
  {
  }

  lemma OtherWrite(db: Db, run: RunId, t: Task, input: Input, sid: SessionId)
    requires Accepts(t.stage, input) && !Appends(t.stage, input) && !BumpStage(t.stage) && CaughtUp(db, sid)
    ensures CaughtUp(TaskWrites(db, run, t, input), sid)
  {
  }

  /** What a write of a goroutine does to the tail of a session. */
  lemma WriteKeepsTail(db: Db, run: RunId, t: Task, input: Input, sid: SessionId)
    requires DbSound(db) && TaskSound(db, run, t) && CaughtUp(db, sid) && Accepts(t.stage, input)
    ensures LedgerOf(TaskWrites(db, run, t, input), sid) == LedgerOf(db, sid) ==>
            CaughtUp(TaskWrites(db, run, t, input), sid)
  {
    if BumpStage(t.stage) {
      BumpWrite(db, run, t, input);
      BumpIsCurrent(db, sid, t.session);
    } else if Appends(t.stage, input) {
      AppendWrite(db, run, t, input);
      AppendLengthens(db, t.session, run, NextWrite(run, t, input).body, sid);
    } else {
      OtherWrite(db, run, t, input, sid);
    }
  }

  lemma SettleWriteKeepsTail(db: Db, ref: RunRef, at: SettleAt, sid: SessionId)
    requires DbSound(db) && CaughtUp(db, sid) && (at.SettleBump? ==> at.n == |LedgerOf(db, ref.session)|)
    ensures LedgerOf(SettleWrites(db, ref, at), sid) == LedgerOf(db, sid) ==> CaughtUp(SettleWrites(db, ref, at), sid)
  {
    if at.SettleBump? {
      BumpIsCurrent(db, sid, ref.session);
    } else if at.SettleAppend? {
      AppendLengthens(db, ref.session, ref.run, RunFinished(Interrupted), sid);
    }
  }

  lemma SweepWriteKeepsTail(db: Db, ref: RunRef, at: SweepAt, sid: SessionId)
    requires CaughtUp(db, sid)
    ensures CaughtUp(SweepWrites(db, ref, at), sid)
  {
  }

  lemma SweepKeepsTail(s: State, sid: SessionId)
    requires Enabled(s, SweepNext) && CaughtUp(s.db, sid)
    ensures CaughtUp(SweptOn(s).db, sid)
  {
    if s.mode.todo != [] {
      SweepWriteKeepsTail(s.db, s.mode.todo[0], s.mode.step, sid);
    }
  }

  lemma PlainKeepsTail(s: State, step: Step, sid: SessionId)
    requires Enabled(s, step) && CaughtUp(s.db, sid)
    requires step.Create? || step.LookUp? || step.Send? || step.CheckInterrupt? || step.Delete? || step.Crash?
             || step.QueryDangling? || step.QueryRunning?
    ensures CaughtUp(Do(s, step).db, sid)
  {
  }

  /** A step that leaves the ledger alone keeps the tail current. */
  lemma StepKeepsTail(s: State, step: Step, sid: SessionId)
    requires Ordered(s) && Enabled(s, step) && Disciplined(s, step) && CaughtUp(s.db, sid)
    requires LedgerOf(Do(s, step).db, sid) == LedgerOf(s.db, sid)
    ensures CaughtUp(Do(s, step).db, sid)
  {
    match step
    case Advance(run, input) =>
      if !s.tasks[run].stage.AtRelease? {
        WriteKeepsTail(s.db, run, s.tasks[run], input, sid);
      }
    case InterruptAtOnce(other) => InterruptAtOnceKeeps(s, other);
    case SettleNext => SettleWriteKeepsTail(s.db, s.mode.todo[0], s.mode.at, sid);
    case AdvanceInterrupt(k) => LookWrites(s, k);
    case SweepNext => SweepKeepsTail(s, sid);
    case _ => PlainKeepsTail(s, step, sid);
  }

  ghost predicate KeepsTail(a: Db, b: Db, sid: SessionId) {
    CaughtUp(a, sid) && LedgerOf(b, sid) == LedgerOf(a, sid) ==> CaughtUp(b, sid)
  }

  lemma {:induction false} TailPersists(dbs: seq<Db>, sid: SessionId, i: nat, j: nat)
    requires i <= j < |dbs| && CaughtUp(dbs[i], sid)
    requires forall k :: 0 < k < |dbs| ==> KeepsTail(dbs[k - 1], dbs[k], sid)
    requires forall k :: i <= k <= j ==> LedgerOf(dbs[k], sid) == LedgerOf(dbs[i], sid)
    ensures CaughtUp(dbs[j], sid)
  {
    if i < j {
      TailPersists(dbs, sid, i, j - 1);
      assert KeepsTail(dbs[j - 1], dbs[j], sid);
    }
  }

  lemma StepOfRunKeepsTail(states: seq<State>, steps: seq<Step>, k: nat, sid: SessionId)
    requires IsDisciplinedRun(states, steps) && DbSound(states[0].db) && k < |steps|
    ensures KeepsTail(states[k].db, states[k + 1].db, sid)
    ensures BumpsTail(states[k], steps[k], sid) ==> CaughtUp(states[k + 1].db, sid)
  {
    RunOrdered(states, steps, k);
    var s, step := states[k], steps[k];
    assert Disciplined(s, step) && Enabled(s, step) && states[k + 1] == Do(s, step);
    if BumpsTail(s, step, sid) {
      BumpCatchesUp(s, step, sid);
    }
    if CaughtUp(s.db, sid) && LedgerOf(Do(s, step).db, sid) == LedgerOf(s.db, sid) {
      StepKeepsTail(s, step, sid);
    }
  }

  /**
   Once a commit to a session has completed, by a goroutine or by recovery, and until the next append to it, the
   projected tail is the ledger's end: whatever else happens, crashes, release and deletion included.
   */
  lemma ProjectionCatchesUp(states: seq<State>, steps: seq<Step>, i: nat, j: nat, sid: SessionId)
    requires IsDisciplinedRun(states, steps) && DbSound(states[0].db) && i < j < |states|
    requires BumpsTail(states[i], steps[i], sid)
    requires forall k :: i < k <= j ==> LedgerOf(states[k].db, sid) == LedgerOf(states[i + 1].db, sid)
    ensures CaughtUp(states[j].db, sid)
  {
    var dbs := seq(|states|, k requires 0 <= k < |states| => states[k].db);
    forall k | 0 < k < |dbs| ensures KeepsTail(dbs[k - 1], dbs[k], sid) {
      StepOfRunKeepsTail(states, steps, k - 1, sid);
    }
    StepOfRunKeepsTail(states, steps, i, sid);
    TailPersists(dbs, sid, i + 1, j);
  }

  /**
   A crash between the last FinishRun and the projection update is not healed: recovery leaves the finished
   run named as the session's active one, though no run is active any more.
   */
  lemma CrashBeforeTouchLeavesStaleRun(states: seq<State>, steps: seq<Step>, i: nat, run: RunId)
    requires IsDisciplinedRun(states, steps) && DbSound(states[0].db) && i < |states| && states[i].mode.Serving?
    requires run in states[i].tasks && states[i].tasks[run].stage.AtTouchDone?
    requires states[i].tasks[run].session in states[i].db.recent
    ensures Reconcile(states[i].db).recent[states[i].tasks[run].session].activeRun == run
  {
    RunOrdered(states, steps, i);
    var s, sid := states[i], states[i].tasks[run].session;
    assert Settled(LedgerOf(s.db, sid)) by {
      assert Live(LedgerOf(s.db, sid)) ==> HasOpenTask(s, sid) by {
        assert Live(LedgerOf(s.db, sid)) ==> sid in LiveSessions(s.db.ledgers);
      }
    }
    forall r | r in s.db.runs && s.db.runs[r].state == Running
      ensures s.db.runs[r].session != sid
    {
      assert r in RunningRuns(s.db.runs);
      assert OwnsRow(s, r) && TaskSound(s.db, r, s.tasks[r]);
    }
    StaleActiveRunAfterReconcile(s.db, sid);
  }
}
