/** Safety of the lifecycle under every interleaving and every crash, whatever tables the process starts on. */
module LifecycleSafety {
  import opened Ledger
  import opened Tables
  import opened Recovery
  import opened Lifecycle
  import Render
  import RenderLaws

  /** run_started is committed and run_finished is not. */
  predicate OpenStage(stage: Stage) {
    || stage.AtStartBump? || stage.AtTouchRunning? || stage.AtProvider? || stage.AtProviderBump?
    || stage.AtErrorAppend? || stage.AtErrorBump? || stage.AtFinishAppend?
  }

  /** The `active` map and the running goroutines name each other. */
  ghost predicate LocksMatch(s: State) {
    && (forall run :: run in s.tasks ==>
          run != "" && s.tasks[run].session in s.active && s.active[s.tasks[run].session] == run)
    && (forall sid :: sid in s.active ==> s.active[sid] in s.tasks && s.tasks[s.active[sid]].session == sid)
  }

  ghost predicate HasOpenTask(s: State, sid: SessionId) {
    sid in s.active && s.active[sid] in s.tasks && OpenStage(s.tasks[s.active[sid]].stage)
  }

  /** A live ledger has a goroutine that will still finish it. */
  ghost predicate LiveHasTask(s: State) {
    forall sid :: sid in LiveSessions(s.db.ledgers) ==> HasOpenTask(s, sid)
  }

  /** The goroutine still owns its runs row if it is marked running. */
  predicate OwningStage(stage: Stage) {
    !stage.AtTouchDone? && !stage.AtRelease?
  }

  ghost predicate OwnsRow(s: State, run: RunId) {
    run in s.tasks && OwningStage(s.tasks[run].stage)
  }

  ghost predicate RunningHasTask(s: State) {
    forall run :: run in RunningRuns(s.db.runs) ==> OwnsRow(s, run)
  }

  /** Sessions the settling pass has yet to append to. */
  predicate ToSettle(m: Mode, sid: SessionId)
    requires m.Settling?
  {
    exists k :: 0 <= k < |m.todo| && m.todo[k].session == sid && (k == 0 ==> m.at.SettleAppend?)
  }

  /** Runs the sweeping pass has yet to finish. */
  predicate ToSweep(m: Mode, run: RunId)
    requires m.Sweeping?
  {
    exists k :: 0 <= k < |m.todo| && m.todo[k].run == run && (k == 0 ==> m.step.SweepFinish?)
  }

  ghost predicate Inv(s: State) {
    if s.mode.Serving? then
      LocksMatch(s) && LiveHasTask(s) && RunningHasTask(s)
    else
      && s.active == map[] && s.tasks == map[] && s.interrupters == map[]
      && (s.mode.Settling? ==>
            && (s.mode.todo == [] ==> s.mode.at.SettleAppend?)
            && forall sid :: sid in LiveSessions(s.db.ledgers) ==> ToSettle(s.mode, sid))
      && (s.mode.Sweeping? ==>
            && (s.mode.todo == [] ==> s.mode.step.SweepFinish?)
            && LiveSessions(s.db.ledgers) == {}
            && forall run :: run in RunningRuns(s.db.runs) ==> ToSweep(s.mode, run))
  }

  // ---------- What each write does to the live sessions and running rows ----------

  lemma AppendEffect(db: Db, sid: SessionId, run: RunId, body: Body)
    ensures RunningRuns(Append(db, sid, run, body).runs) == RunningRuns(db.runs)
    ensures body.RunStarted? ==> LiveSessions(Append(db, sid, run, body).ledgers) == LiveSessions(db.ledgers) + {sid}
    ensures body.RunFinished? ==> LiveSessions(Append(db, sid, run, body).ledgers) == LiveSessions(db.ledgers) - {sid}
    ensures !body.RunStarted? && !body.RunFinished? ==>
              LiveSessions(Append(db, sid, run, body).ledgers) == LiveSessions(db.ledgers)
  {
    var es := LedgerOf(db, sid);
    LastBoundaryAppend(es, NextEvent(es, run, body));
    assert Live(es) ==> sid in db.ledgers;
  }

  lemma FinishRunEffect(db: Db, run: RunId, state: RunState)
    requires state != Running
    ensures RunningRuns(FinishRun(db, run, state).runs) == RunningRuns(db.runs) - {run}
    ensures LiveSessions(FinishRun(db, run, state).ledgers) == LiveSessions(db.ledgers)
  {
  }

  lemma CreateRunEffect(db: Db, run: RunId, sid: SessionId)
    ensures RunningRuns(CreateRun(db, run, sid).runs) <= RunningRuns(db.runs) + {run}
  {
  }

  lemma DeleteEffect(db: Db, sid: SessionId)
    ensures LiveSessions(DeleteSession(db, sid).ledgers) == LiveSessions(db.ledgers) - {sid}
    ensures RunningRuns(DeleteSession(db, sid).runs) <= RunningRuns(db.runs)
  {
  }

  // ---------- Every step keeps the invariant ----------

  /** What one write of a goroutine may do to the live ledgers and the running rows. */
  predicate WritesAllowed(db: Db, db': Db, run: RunId, t: Task, t': Task) {
    && t'.session == t.session
    && LiveSessions(db'.ledgers) <= LiveSessions(db.ledgers) + (if OpenStage(t'.stage) then {t.session} else {})
    && (OpenStage(t.stage) && !OpenStage(t'.stage) ==> t.session !in LiveSessions(db'.ledgers))
    && RunningRuns(db'.runs) <= RunningRuns(db.runs) + (if OwningStage(t'.stage) then {run} else {})
    && (OwningStage(t.stage) && !OwningStage(t'.stage) ==> run !in RunningRuns(db'.runs))
  }

  predicate Appends(stage: Stage, input: Input) {
    || stage.AtUserAppend? || stage.AtStartAppend? || stage.AtErrorAppend? || stage.AtFinishAppend?
    || (stage.AtProvider? && input.Emits?)
  }

  lemma AppendAllowed(db: Db, run: RunId, t: Task, input: Input)
    requires Accepts(t.stage, input) && Appends(t.stage, input)
    ensures WritesAllowed(db, TaskWrites(db, run, t, input), run, t, TaskMoves(db, t, input))
  {
    match t.stage
    case AtUserAppend => AppendEffect(db, t.session, run, UserMessage(t.message, t.images));
    case AtStartAppend => AppendEffect(db, t.session, run, RunStarted);
    case AtProvider => AppendEffect(db, t.session, run, input.body);
    case AtErrorAppend(message) => AppendEffect(db, t.session, run, Error(message));
    case AtFinishAppend(end) => AppendEffect(db, t.session, run, RunFinished(end));
  }

  lemma WriteAllowed(db: Db, run: RunId, t: Task, input: Input)
    requires Accepts(t.stage, input) && !t.stage.AtRelease?
    ensures WritesAllowed(db, TaskWrites(db, run, t, input), run, t, TaskMoves(db, t, input))
  {
    if Appends(t.stage, input) {
      AppendAllowed(db, run, t, input);
    } else if t.stage.AtFinishRow? || t.stage.AtCreateRun? {
      RowAllowed(db, run, t, input);
    } else {
      SideAllowed(db, run, t, input);
    }
  }

  lemma RowAllowed(db: Db, run: RunId, t: Task, input: Input)
    requires t.stage.AtFinishRow? || t.stage.AtCreateRun?
    ensures WritesAllowed(db, TaskWrites(db, run, t, input), run, t, TaskMoves(db, t, input))
  {
    if t.stage.AtFinishRow? {
      FinishRunEffect(db, run, t.stage.end);
    } else {
      CreateRunEffect(db, run, t.session);
    }
  }

  /** A statement on the intents or the projection. */
  lemma SideEffect(db: Db, sid: SessionId, run: RunId, w: Write)
    requires !w.AppendBody? && !w.InsertRun? && !w.EndRun?
    ensures Apply(db, sid, run, w).ledgers == db.ledgers && Apply(db, sid, run, w).runs == db.runs
  {
  }

  lemma SideStages(db: Db, run: RunId, t: Task, input: Input)
    requires Accepts(t.stage, input) && !t.stage.AtRelease?
    requires !Appends(t.stage, input) && !t.stage.AtFinishRow? && !t.stage.AtCreateRun?
    ensures var w, t' := NextWrite(run, t, input), TaskMoves(db, t, input);
            && !w.AppendBody? && !w.InsertRun? && !w.EndRun? && t'.session == t.session
            && (OpenStage(t'.stage) <==> OpenStage(t.stage)) && (OwningStage(t'.stage) <==> OwningStage(t.stage))
  {
  }

  lemma SideAllowed(db: Db, run: RunId, t: Task, input: Input)
    requires Accepts(t.stage, input) && !t.stage.AtRelease?
    requires !Appends(t.stage, input) && !t.stage.AtFinishRow? && !t.stage.AtCreateRun?
    ensures WritesAllowed(db, TaskWrites(db, run, t, input), run, t, TaskMoves(db, t, input))
  {
    SideStages(db, run, t, input);
    SideEffect(db, t.session, run, NextWrite(run, t, input));
  }

  lemma TaskReplaced(s: State, s': State, run: RunId, t': Task)
    requires Inv(s) && s.mode.Serving? && run in s.tasks
    requires s' == s.(db := s'.db, tasks := s.tasks[run := t'])
    requires WritesAllowed(s.db, s'.db, run, s.tasks[run], t')
    ensures Inv(s')
  {
    assert forall r :: OwnsRow(s, r) && r != run ==> OwnsRow(s', r);
    assert forall sid :: HasOpenTask(s, sid) && sid != t'.session ==> HasOpenTask(s', sid);
  }

  lemma ReleaseKeeps(s: State, run: RunId)
    requires Inv(s) && s.mode.Serving? && run in s.tasks && s.tasks[run].stage.AtRelease?
    ensures Inv(Do(s, Advance(run, Go)))
  {
    assert forall r :: r in s.tasks && r != run ==> s.tasks[r].session != s.tasks[run].session;
  }

  lemma AdvanceKeeps(s: State, run: RunId, input: Input)
    requires Inv(s) && Enabled(s, Advance(run, input))
    ensures Inv(Do(s, Advance(run, input)))
  {
    if s.tasks[run].stage.AtRelease? {
      ReleaseKeeps(s, run);
    } else {
      WriteAllowed(s.db, run, s.tasks[run], input);
      TaskReplaced(s, Do(s, Advance(run, input)), run, TaskMoves(s.db, s.tasks[run], input));
    }
  }

  lemma InterrupterKeeps(s: State, k: nat)
    requires Inv(s) && Enabled(s, AdvanceInterrupt(k))
    ensures Inv(Do(s, AdvanceInterrupt(k)))
  {
    match s.interrupters[k]
    case Found(sid, run) => AppendEffect(s.db, sid, run, RunFinished(Interrupted));
    case ToFinishRow(_, run) => FinishRunEffect(s.db, run, Interrupted);
    case _ =>
  }

  /** Interrupting at once never writes: without an active run the ledger is settled. */
  lemma InterruptAtOnceKeeps(s: State, sid: SessionId)
    requires Inv(s) && Enabled(s, InterruptAtOnce(sid))
    ensures Do(s, InterruptAtOnce(sid)) == s
  {
    assert sid !in s.active ==> Settled(LedgerOf(s.db, sid)) by {
      assert Live(LedgerOf(s.db, sid)) ==> sid in LiveSessions(s.db.ledgers);
    }
  }

  lemma QueryDanglingKeeps(s: State, order: seq<RunRef>)
    requires Inv(s) && Enabled(s, QueryDangling(order))
    ensures Inv(Do(s, QueryDangling(order)))
  {
    var m := Settling(s.db, order, SettleAppend);
    forall sid | sid in LiveSessions(s.db.ledgers) ensures ToSettle(m, sid) {
      var k :| 0 <= k < |order| && order[k] == RunRef(LiveRun(s.db.ledgers[sid]), sid);
    }
  }

  lemma SettleKeeps(s: State)
    requires Inv(s) && Enabled(s, SettleNext)
    ensures Inv(Do(s, SettleNext))
  {
    var s', m, ref := Do(s, SettleNext), s.mode, s.mode.todo[0];
    if m.at.SettleAppend? {
      AppendEffect(s.db, ref.session, ref.run, RunFinished(Interrupted));
    } else {
      assert s'.db.ledgers == s.db.ledgers;
    }
    forall sid | sid in LiveSessions(s'.db.ledgers) ensures ToSettle(s'.mode, sid) {
      var k :| 0 <= k < |m.todo| && m.todo[k].session == sid && (k == 0 ==> m.at.SettleAppend?);
      if m.at.SettleClear? { assert m.todo[1..][k - 1] == m.todo[k]; }
    }
  }

  lemma QueryRunningKeeps(s: State, order: seq<RunRef>)
    requires Inv(s) && Enabled(s, QueryRunning(order))
    ensures Inv(Do(s, QueryRunning(order)))
  {
    var m := Sweeping(s.mode.origin, order, SweepFinish);
    forall run | run in RunningRuns(s.db.runs) ensures ToSweep(m, run) {
      var k :| 0 <= k < |order| && order[k] == RunRef(run, s.db.runs[run].session);
    }
  }

  lemma SweepKeeps(s: State)
    requires Inv(s) && Enabled(s, SweepNext)
    ensures Inv(Do(s, SweepNext))
  {
    var s', m := Do(s, SweepNext), s.mode;
    if m.todo != [] {
      if m.step.SweepFinish? {
        FinishRunEffect(s.db, m.todo[0].run, Interrupted);
      }
      forall run | run in RunningRuns(s'.db.runs) ensures ToSweep(s'.mode, run) {
        var k :| 0 <= k < |m.todo| && m.todo[k].run == run && (k == 0 ==> m.step.SweepFinish?);
        if m.step.SweepClear? { assert m.todo[1..][k - 1] == m.todo[k]; }
      }
    }
  }

  lemma DeleteKeeps(s: State, sid: SessionId)
    requires Inv(s) && Enabled(s, Delete(sid))
    ensures Inv(Do(s, Delete(sid)))
  {
    DeleteEffect(s.db, sid);
  }

  lemma SendKeeps(s: State, step: Step)
    requires Inv(s) && Enabled(s, step) && step.Send?
    ensures Inv(Do(s, step))
  {
    var s' := Do(s, step);
    assert forall r :: OwnsRow(s, r) ==> OwnsRow(s', r);
    assert forall sid :: HasOpenTask(s, sid) ==> HasOpenTask(s', sid);
  }

  lemma PlainKeeps(s: State, step: Step)
    requires Inv(s) && Enabled(s, step) && (step.Create? || step.LookUp? || step.CheckInterrupt? || step.Crash?)
    ensures Inv(Do(s, step))
  {
  }

  lemma StepKeeps(s: State, step: Step)
    requires Inv(s) && Enabled(s, step)
    ensures Inv(Do(s, step))
  {
    match step
    case Create(_) => PlainKeeps(s, step);
    case LookUp(_, _, _) => PlainKeeps(s, step);
    case Send(_, _, _, _, _, _) => SendKeeps(s, step);
    case Advance(run, input) => AdvanceKeeps(s, run, input);
    case CheckInterrupt(_, _) => PlainKeeps(s, step);
    case AdvanceInterrupt(k) => InterrupterKeeps(s, k);
    case InterruptAtOnce(sid) => InterruptAtOnceKeeps(s, sid);
    case Delete(sid) => DeleteKeeps(s, sid);
    case Crash => PlainKeeps(s, step);
    case QueryDangling(order) => QueryDanglingKeeps(s, order);
    case SettleNext => SettleKeeps(s);
    case QueryRunning(order) => QueryRunningKeeps(s, order);
    case SweepNext => SweepKeeps(s);
  }

  lemma {:induction false} RunKeepsInv(states: seq<State>, steps: seq<Step>, i: nat)
    requires IsRun(states, steps) && i < |states|
    ensures Inv(states[i])
  {
    if i > 0 {
      RunKeepsInv(states, steps, i - 1);
      StepKeeps(states[i - 1], steps[i - 1]);
    }
  }

  // ---------- The guarantees ----------

  /**
   In every serving state of every run, crashes included: a session without an active run has a settled
   ledger and renders idle; no two goroutines run for one session; a run row still running has a goroutine.
   */
  lemma ServingIsSettledOrActive(states: seq<State>, steps: seq<Step>, i: nat)
    requires IsRun(states, steps) && i < |states| && states[i].mode.Serving?
    ensures forall sid :: sid !in states[i].active ==>
              Settled(LedgerOf(states[i].db, sid))
                  && Render.Snapshot(LedgerOf(states[i].db, sid)).tail == Render.TailIdle
    ensures forall a, b ::
              (a in states[i].tasks && b in states[i].tasks && states[i].tasks[a].session == states[i].tasks[b].session)
              ==> a == b
    ensures forall run :: run in RunningRuns(states[i].db.runs) ==> run in states[i].tasks
  {
    RunKeepsInv(states, steps, i);
    var s := states[i];
    forall sid | sid !in s.active
      ensures Settled(LedgerOf(s.db, sid)) && Render.Snapshot(LedgerOf(s.db, sid)).tail == Render.TailIdle
    {
      assert Live(LedgerOf(s.db, sid)) ==> sid in LiveSessions(s.db.ledgers);
      RenderLaws.SettledShowsNothingRunning(LedgerOf(s.db, sid));
    }
  }

  /** Once serving, an Interrupt done in one step never writes: its orphan branch is for tables left by a crash. */
  lemma AtomicInterruptIsSilent(states: seq<State>, steps: seq<Step>, i: nat, sid: SessionId)
    requires IsRun(states, steps) && i < |states| && states[i].mode.Serving?
    ensures Do(states[i], InterruptAtOnce(sid)) == states[i]
  {
    RunKeepsInv(states, steps, i);
    InterruptAtOnceKeeps(states[i], sid);
  }

  // ---------- An Interrupt is its steps ----------

  /** The interrupter left alone for n of its steps. */
  function InterruptedFor(s: State, k: nat, n: nat): State
    decreases n
  {
    if n == 0 || k !in s.interrupters then s else InterruptedFor(Interrupting(s, k), k, n - 1)
  }

  /** The state in which interrupter k stands before its next step. */
  function Before(s: State, k: nat, db: Db, i: Interrupter): State {
    s.(db := db, interrupters := s.interrupters[k := i])
  }

  lemma OneWrite(s: State, k: nat, db: Db, i: Interrupter, next: Interrupter, n: nat)
    requires i.Found? ==> next == ToBump(i.session, i.run, MaxSeq(LedgerOf(db, i.session)) + 1)
    requires i.ToBump? ==> next == ToFinishRow(i.session, i.run)
    requires i.ToFinishRow? ==> next == ToClear(i.session)
    requires !i.Checked? && !i.ToClear?
    ensures InterruptedFor(Before(s, k, db, i), k, n + 1) ==
            InterruptedFor(Before(s, k, InterrupterWrites(db, i), next), k, n)
  {
    assert Interrupting(Before(s, k, db, i), k) == Before(s, k, InterrupterWrites(db, i), next);
  }

  lemma LastWrite(s: State, k: nat, db: Db, sid: SessionId)
    requires k !in s.interrupters
    ensures InterruptedFor(Before(s, k, db, ToClear(sid)), k, 1) == s.(db := ClearActiveRun(db, sid, Interrupted))
  {
    assert s.interrupters[k := ToClear(sid)] - {k} == s.interrupters;
    assert InterruptedFor(Before(s, k, db, ToClear(sid)), k, 1) ==
           InterruptedFor(Interrupting(Before(s, k, db, ToClear(sid)), k), k, 0);
  }

  lemma FourWrites(s: State, k: nat, sid: SessionId, run: RunId)
    requires k !in s.interrupters
    ensures InterruptedFor(Before(s, k, s.db, Found(sid, run)), k, 4) == s.(db := SettleOne(s.db, sid, run))
  {
    var n := MaxSeq(LedgerOf(s.db, sid)) + 1;
    var db1 := Append(s.db, sid, run, RunFinished(Interrupted));
    var db2 := BumpRecentSeq(db1, sid, n);
    var db3 := FinishRun(db2, run, Interrupted);
    OneWrite(s, k, s.db, Found(sid, run), ToBump(sid, run, n), 3);
    OneWrite(s, k, db1, ToBump(sid, run, n), ToFinishRow(sid, run), 2);
    OneWrite(s, k, db2, ToFinishRow(sid, run), ToClear(sid), 1);
    LastWrite(s, k, db3, sid);
  }

  lemma FirstLook(s: State, k: nat, sid: SessionId)
    requires k !in s.interrupters
    ensures var run := DanglingRun(LedgerOf(s.db, sid));
            Interrupting(Before(s, k, s.db, Checked(sid)), k) ==
            if run == "" then s else Before(s, k, s.db, Found(sid, run))
  {
    var run := DanglingRun(LedgerOf(s.db, sid));
    assert s.interrupters[k := Checked(sid)] - {k} == s.interrupters;
    assert s.interrupters[k := Checked(sid)][k := Found(sid, run)] == s.interrupters[k := Found(sid, run)];
  }

  /** With nothing in between, an Interrupt that saw no active run writes what finalizing the orphan at once writes. */
  lemma InterruptIsItsSteps(s: State, k: nat, sid: SessionId)
    requires k !in s.interrupters && sid !in s.active
    ensures InterruptedFor(Checking(s, k, sid), k, 5) == InterruptedAtOnce(s, sid)
  {
    var checked, run := Before(s, k, s.db, Checked(sid)), DanglingRun(LedgerOf(s.db, sid));
    assert Checking(s, k, sid) == checked;
    assert InterruptedFor(checked, k, 5) == InterruptedFor(Interrupting(checked, k), k, 4);
    FirstLook(s, k, sid);
    if run == "" {
      assert InterruptedFor(s, k, 4) == s;
    } else {
      FourWrites(s, k, sid, run);
    }
  }
}
