/** The session list's active run: on every crash-free stretch it is real, but for what recovery left behind. */
module LifecycleProjection {
  import opened Ledger
  import opened Tables
  import opened Recovery
  import opened Lifecycle
  import opened LifecycleSafety
  import LifecycleRecovery
  import opened LifecycleOrder

  ghost predicate Named(s: State, sid: SessionId) {
    sid in s.db.recent && s.db.recent[sid].activeRun != ""
  }

  /** Outside `stale`, a session that names an active run has a goroutine that has told the list so. */
  ghost predicate NamesOnlyActive(s: State, stale: set<SessionId>) {
    && (forall sid :: Named(s, sid) && sid !in stale ==> sid in s.active)
    && (forall run :: run in s.tasks && !NamedStage(s.tasks[run].stage) && Named(s, s.tasks[run].session) ==>
          s.tasks[run].session in stale)
  }

  /** A statement on the projection keeps the active run, or is the goroutine's own touch. */
  lemma ProjectionShape(db: Db, run: RunId, t: Task, input: Input)
    requires Accepts(t.stage, input) && !t.stage.AtRelease?
    ensures var db', t' := TaskWrites(db, run, t, input), TaskMoves(db, t, input);
            && t'.session == t.session
            && db'.recent.Keys == db.recent.Keys
            && (forall sid :: sid in db.recent && sid != t.session ==> db'.recent[sid] == db.recent[sid])
  {
  }

  lemma WriteNames(db: Db, sid: SessionId, run: RunId, w: Write)
    requires sid in db.recent
    ensures var db' := Apply(db, sid, run, w);
            sid in db'.recent && db'.recent[sid].activeRun == if w.Touch? then w.activeRun else db.recent[sid].activeRun
  {
  }

  lemma TouchNames(db: Db, run: RunId, t: Task, input: Input)
    requires Accepts(t.stage, input) && !t.stage.AtRelease? && NextWrite(run, t, input).Touch?
    ensures NamedStage(TaskMoves(db, t, input).stage) || NextWrite(run, t, input).activeRun == ""
  {
  }

  lemma ActiveShape(db: Db, run: RunId, t: Task, input: Input)
    requires Accepts(t.stage, input) && !t.stage.AtRelease? && t.session in db.recent
    ensures var db', t' := TaskWrites(db, run, t, input), TaskMoves(db, t, input);
            t.session in db'.recent &&
            (!NamedStage(t'.stage) ==> db'.recent[t.session].activeRun in {"", db.recent[t.session].activeRun})
  {
    WriteNames(db, t.session, run, NextWrite(run, t, input));
    if NextWrite(run, t, input).Touch? {
      TouchNames(db, run, t, input);
    }
  }

  /** The goroutine's last touch takes its name off the list. */
  lemma LastTouch(db: Db, run: RunId, t: Task, input: Input)
    requires Accepts(t.stage, input) && NamedStage(t.stage) && !NamedStage(TaskMoves(db, t, input).stage)
    requires t.session in db.recent
    ensures var db' := TaskWrites(db, run, t, input); t.session in db'.recent && db'.recent[t.session].activeRun == ""
  {
  }

  lemma AdvanceNames(s: State, run: RunId, input: Input, stale: set<SessionId>)
    requires Inv(s) && s.mode.Serving? && NamesOnlyActive(s, stale) && Enabled(s, Advance(run, input))
    ensures NamesOnlyActive(Advanced(s, run, input), stale)
  {
    var t, s' := s.tasks[run], Advanced(s, run, input);
    assert forall r :: r in s.tasks && r != run ==> s.tasks[r].session != t.session;
    if !t.stage.AtRelease? {
      ProjectionShape(s.db, run, t, input);
      if t.session in s.db.recent {
        ActiveShape(s.db, run, t, input);
        if NamedStage(t.stage) && !NamedStage(TaskMoves(s.db, t, input).stage) {
          LastTouch(s.db, run, t, input);
        }
      }
      forall sid | Named(s', sid) && sid !in stale ensures sid in s.active {
        if sid != t.session {
          assert Named(s, sid);
        }
      }
      forall r | r in s'.tasks && !NamedStage(s'.tasks[r].stage) && Named(s', s'.tasks[r].session)
        ensures s'.tasks[r].session in stale
      {
        if r != run {
          assert Named(s, s.tasks[r].session);
        }
      }
    } else {
      forall sid | Named(s', sid) && sid !in stale ensures sid in s'.active {
        assert Named(s, sid);
      }
    }
  }

  lemma InterrupterShape(db: Db, i: Interrupter, sid: SessionId)
    ensures var db' := InterrupterWrites(db, i);
            (sid in db'.recent <==> sid in db.recent) &&
            (sid in db.recent ==> db'.recent[sid].activeRun in {"", db.recent[sid].activeRun})
  {
  }

  /** Steps that name no further run and leave the goroutines alone. */
  lemma FewerNamed(s: State, s': State, stale: set<SessionId>)
    requires NamesOnlyActive(s, stale) && s'.active == s.active && s'.tasks == s.tasks
    requires forall sid :: Named(s', sid) ==> Named(s, sid)
    ensures NamesOnlyActive(s', stale)
  {
  }

  lemma InterrupterNames(s: State, k: nat, stale: set<SessionId>)
    requires NamesOnlyActive(s, stale) && Enabled(s, AdvanceInterrupt(k))
    ensures NamesOnlyActive(Interrupting(s, k), stale)
  {
    forall sid | Named(Interrupting(s, k), sid) ensures Named(s, sid) {
      InterrupterShape(s.db, s.interrupters[k], sid);
    }
    FewerNamed(s, Interrupting(s, k), stale);
  }

  lemma SendNames(s: State, step: Step, stale: set<SessionId>)
    requires Inv(s) && s.mode.Serving? && NamesOnlyActive(s, stale) && Enabled(s, step) && step.Send?
    ensures NamesOnlyActive(Do(s, step), stale)
  {
    var s' := Do(s, step);
    assert forall sid :: Named(s', sid) <==> Named(s, sid);
  }

  lemma OtherNames(s: State, step: Step, stale: set<SessionId>)
    requires NamesOnlyActive(s, stale) && Enabled(s, step)
    requires step.Create? || step.LookUp? || step.CheckInterrupt? || step.Delete?
    ensures NamesOnlyActive(Do(s, step), stale)
  {
    FewerNamed(s, Do(s, step), stale);
  }

  lemma StepNames(s: State, step: Step, stale: set<SessionId>)
    requires Inv(s) && s.mode.Serving? && NamesOnlyActive(s, stale) && Enabled(s, step) && !step.Crash?
    ensures NamesOnlyActive(Do(s, step), stale) && Do(s, step).mode.Serving?
  {
    match step
    case Advance(run, input) => AdvanceNames(s, run, input, stale);
    case AdvanceInterrupt(k) => InterrupterNames(s, k, stale);
    case InterruptAtOnce(sid) => InterruptAtOnceKeeps(s, sid);
    case Send(_, _, _, _, _, _) => SendNames(s, step, stale);
    case _ => OtherNames(s, step, stale);
  }

  // ---------- Over a run ----------

  lemma {:induction false} StartsOnce(states: seq<State>, steps: seq<Step>, a: nat, b: nat)
    requires IsRun(states, steps) && a < b < |states| && states[a].mode.Starting?
    requires forall k :: a <= k < b ==> !steps[k].Crash?
    ensures !states[b].mode.Starting?
  {
    if b > a + 1 {
      StartsOnce(states, steps, a, b - 1);
    }
    LeavesStarting(states[b - 1], steps[b - 1]);
  }

  lemma LeavesStarting(s: State, step: Step)
    requires Enabled(s, step) && !step.Crash?
    ensures !Do(s, step).mode.Starting?
  {
    match step
    case Advance(run, input) => AdvanceServes(s, run, input);
    case SettleNext => SettleMovesOn(s.db, s.mode);
    case _ =>
  }

  lemma AdvanceServes(s: State, run: RunId, input: Input)
    requires run in s.tasks
    ensures Advanced(s, run, input).mode == s.mode
  {
  }

  lemma SettleMovesOn(db: Db, m: Mode)
    requires m.Settling? && m.todo != []
    ensures SettleMoves(db, m).Settling?
  {
  }

  function StaleIn(db: Db): set<SessionId> {
    set sid | sid in Reconcile(db).recent && Reconcile(db).recent[sid].activeRun != ""
  }

  /** When serving begins, exactly what survived recovery is named, and nothing is active. */
  lemma ServingBeginsStale(states: seq<State>, steps: seq<Step>, i: nat, j: nat)
    requires IsRun(states, steps) && i <= j < |steps| && states[i].mode.Starting?
    requires forall k :: i <= k <= j ==> !steps[k].Crash?
    requires !states[j].mode.Serving? && states[j + 1].mode.Serving?
    ensures states[j + 1].db == Reconcile(states[i].db) && states[j + 1].active == map[] && states[j + 1].tasks == map[]
  {
    var start := LifecycleRecovery.ServingBeginsReconciled(states, steps, j);
    if start < i {
      StartsOnce(states, steps, start, i);
    } else if i < start {
      StartsOnce(states, steps, i, start);
    }
    BeginsIdle(states, steps, j);
  }

  lemma BeginsIdle(states: seq<State>, steps: seq<Step>, j: nat)
    requires IsRun(states, steps) && j < |steps| && !states[j].mode.Serving? && states[j + 1].mode.Serving?
    ensures states[j + 1].active == map[] && states[j + 1].tasks == map[]
  {
    RunKeepsInv(states, steps, j);
    OnlySweepingServes(states[j], steps[j]);
  }

  lemma OnlySweepingServes(s: State, step: Step)
    requires Inv(s) && Enabled(s, step) && !s.mode.Serving? && Do(s, step).mode.Serving?
    ensures Do(s, step).active == map[] && Do(s, step).tasks == map[]
  {
  }

  lemma {:induction false} RunNames(states: seq<State>, steps: seq<Step>, i: nat, j: nat)
    requires IsRun(states, steps) && i <= j < |states| && states[i].mode.Starting?
    requires forall k :: i <= k < j ==> !steps[k].Crash?
    ensures states[j].mode.Serving? ==> NamesOnlyActive(states[j], StaleIn(states[i].db))
  {
    if i < j && states[j].mode.Serving? {
      if states[j - 1].mode.Serving? {
        RunNames(states, steps, i, j - 1);
        RunKeepsInv(states, steps, j - 1);
        StepNames(states[j - 1], steps[j - 1], StaleIn(states[i].db));
      } else {
        ServingBeginsStale(states, steps, i, j - 1);
      }
    }
  }

  /**
   From any start of the process and until it crashes: a session the list shows with an active run has one, except
   those whose run survived that start's recovery. And those are shown, without a run, when serving begins.
   */
  lemma ActiveRunIsReal(states: seq<State>, steps: seq<Step>, i: nat, j: nat, sid: SessionId)
    requires IsRun(states, steps) && i < j < |states| && states[i].mode.Starting? && states[j].mode.Serving?
    requires forall k :: i <= k < j ==> !steps[k].Crash?
    ensures Named(states[j], sid) ==> sid in states[j].active || Survives(states[i].db, sid)
    ensures !states[j - 1].mode.Serving? ==>
              states[j].active == map[] && (Named(states[j], sid) <==> Survives(states[i].db, sid))
  {
    RunNames(states, steps, i, j);
    StaleActiveRunAfterReconcile(states[i].db, sid);
    if !states[j - 1].mode.Serving? {
      ServingBeginsStale(states, steps, i, j - 1);
    }
  }

  /** So from empty tables, without a crash, every active run the list shows is real. */
  lemma ActiveRunIsRealFromEmpty(states: seq<State>, steps: seq<Step>, j: nat, sid: SessionId)
    requires IsRun(states, steps) && states[0].db == EMPTY && j < |states| && states[j].mode.Serving?
    requires forall k :: 0 <= k < j ==> !steps[k].Crash?
    ensures Named(states[j], sid) ==> sid in states[j].active
  {
    ActiveRunIsReal(states, steps, 0, j, sid);
  }

  // ---------- Which crashes leave a run named ----------

  /** A settled session whose goroutine still owns its row has a running row that recovery sweeps. */
  lemma OwnedRowIsSwept(s: State, run: RunId)
    requires Ordered(s) && s.mode.Serving? && run in s.tasks && HasRow(s.tasks[run].stage)
    requires Settled(LedgerOf(s.db, s.tasks[run].session))
    ensures !Survives(s.db, s.tasks[run].session)
  {
    var sid := s.tasks[run].session;
    assert TaskSound(s.db, run, s.tasks[run]) && s.db.runs[run] == RunRow(sid, Running);
    forall other | other in LiveSessions(s.db.ledgers) ensures LiveRun(s.db.ledgers[other]) != run {
      assert LedgerSound(s.db, other, s.db.ledgers[other]);
    }
  }

  lemma OpenSurvivesNot(s: State, run: RunId)
    requires Ordered(s) && run in s.tasks && OpenStage(s.tasks[run].stage)
    ensures !Survives(s.db, s.tasks[run].session)
  {
    assert TaskSound(s.db, run, s.tasks[run]);
  }

  lemma StagesOfNamed(stage: Stage)
    requires NamedStage(stage) && !OpenStage(stage) && !HasRow(stage)
    ensures stage.AtTouchDone?
  {
  }

  lemma TouchDoneSurvives(s: State, run: RunId)
    requires Ordered(s) && s.mode.Serving? && run in s.tasks && s.tasks[run].stage.AtTouchDone?
    requires run != "" && s.tasks[run].session in s.db.recent
    ensures Survives(s.db, s.tasks[run].session)
  {
    var sid := s.tasks[run].session;
    assert TaskSound(s.db, run, s.tasks[run]);
    assert Live(LedgerOf(s.db, sid)) ==> sid in LiveSessions(s.db.ledgers) && HasOpenTask(s, sid);
    forall r | r in s.db.runs && s.db.runs[r].state == Running ensures s.db.runs[r].session != sid {
      assert r in RunningRuns(s.db.runs);
      assert OwnsRow(s, r) && TaskSound(s.db, r, s.tasks[r]);
    }
  }

  /**
   Which crash points leave a finished run named as active for good: with Interrupt as one step and no mid-run
   deletion, exactly those between a goroutine's FinishRun and its last touch of the projection.
   */
  lemma CrashLeavesRunNamedIffBeforeTouch(states: seq<State>, steps: seq<Step>, i: nat, j: nat, sid: SessionId)
    requires IsDisciplinedRun(states, steps) && DbSound(states[0].db)
    requires i < j < |states| && states[i].mode.Starting? && states[j].mode.Serving?
    requires forall k :: i <= k < j ==> !steps[k].Crash?
    requires sid in states[j].db.recent && !Survives(states[i].db, sid)
    ensures Survives(states[j].db, sid) <==>
            && sid in states[j].active && states[j].active[sid] in states[j].tasks
            && states[j].tasks[states[j].active[sid]].stage.AtTouchDone?
  {
    var s := states[j];
    RunOrdered(states, steps, j);
    RunNames(states, steps, i, j);
    StaleActiveRunAfterReconcile(states[i].db, sid);
    assert sid in s.active ==> s.active[sid] in s.tasks && s.tasks[s.active[sid]].session == sid && s.active[sid] != "";
    if Survives(s.db, sid) {
      assert Named(s, sid);
      var run := s.active[sid];
      if OpenStage(s.tasks[run].stage) {
        OpenSurvivesNot(s, run);
      } else if HasRow(s.tasks[run].stage) {
        OwnedRowIsSwept(s, run);
      } else {
        StagesOfNamed(s.tasks[run].stage);
      }
    } else if sid in s.active && s.tasks[s.active[sid]].stage.AtTouchDone? {
      TouchDoneSurvives(s, s.active[sid]);
    }
  }
}
