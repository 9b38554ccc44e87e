/** The recovery steps, crashes included, refine the row-by-row description of recovery. */
module LifecycleRecovery {
  import opened Ledger
  import opened Tables
  import opened Recovery
  import opened Lifecycle

  function Sessions(todo: seq<RunRef>): set<SessionId> {
    set ref | ref in todo :: ref.session
  }

  function Runs(todo: seq<RunRef>): set<RunId> {
    set ref | ref in todo :: ref.run
  }

  /** The writes still to come for the dangling run being settled. */
  function RestOfSettling(db: Db, ref: RunRef, at: SettleAt): Db {
    match at
    case SettleAppend => SettleOne(db, ref.session, ref.run)
    case SettleBump(n) => ClearActiveRun(FinishRun(BumpRecentSeq(db, ref.session, n), ref.run, Interrupted),
                                         ref.session, Interrupted)
    case SettleFinish => ClearActiveRun(FinishRun(db, ref.run, Interrupted), ref.session, Interrupted)
    case SettleClear => ClearActiveRun(db, ref.session, Interrupted)
  }

  ghost predicate SettlingRefines(db: Db, m: Mode)
    requires m.Settling?
  {
    var live := LiveSessions(m.origin.ledgers);
    && (forall i, j :: 0 <= i < j < |m.todo| ==> m.todo[i].session != m.todo[j].session)
    && (forall ref :: ref in m.todo ==> ref.session in live && ref.run == LiveRun(m.origin.ledgers[ref.session]))
    && (m.todo == [] ==> m.at.SettleAppend?)
    && if m.at.SettleAppend? then db == SettleLedgers(m.origin, live - Sessions(m.todo))
       else RestOfSettling(db, m.todo[0], m.at) == SettleLedgers(m.origin, live - Sessions(m.todo[1..]))
  }

  /** The tables once every ledger has been settled. */
  function FirstPass(origin: Db): Db {
    SettleLedgers(origin, LiveSessions(origin.ledgers))
  }

  ghost predicate SweepingRefines(db: Db, m: Mode)
    requires m.Sweeping?
  {
    var mid := FirstPass(m.origin);
    var running := RunningRuns(mid.runs);
    && (forall i, j :: 0 <= i < j < |m.todo| ==> m.todo[i].run != m.todo[j].run)
    && (forall ref :: ref in m.todo ==> ref.run in running && ref.session == mid.runs[ref.run].session)
    && (m.todo == [] ==> m.step.SweepFinish?)
    && if m.step.SweepFinish? then db == SweepRuns(mid, running - Runs(m.todo))
       else ClearActiveRun(db, m.todo[0].session, Interrupted) == SweepRuns(mid, running - Runs(m.todo[1..]))
  }

  ghost predicate Refines(s: State) {
    && (s.mode.Settling? ==> SettlingRefines(s.db, s.mode))
    && (s.mode.Sweeping? ==> SweepingRefines(s.db, s.mode))
  }

  lemma SessionsOfHead(todo: seq<RunRef>)
    requires todo != [] && forall i, j :: 0 <= i < j < |todo| ==> todo[i].session != todo[j].session
    ensures Sessions(todo) == Sessions(todo[1..]) + {todo[0].session}
    ensures todo[0].session !in Sessions(todo[1..])
  {
    assert todo == [todo[0]] + todo[1..];
  }

  lemma RunsOfHead(todo: seq<RunRef>)
    requires todo != [] && forall i, j :: 0 <= i < j < |todo| ==> todo[i].run != todo[j].run
    ensures Runs(todo) == Runs(todo[1..]) + {todo[0].run}
    ensures todo[0].run !in Runs(todo[1..])
  {
    assert todo == [todo[0]] + todo[1..];
  }

  lemma SettleAppendRefines(db: Db, m: Mode)
    requires m.Settling? && m.todo != [] && m.at.SettleAppend? && SettlingRefines(db, m)
    ensures var ref := m.todo[0];
            SettleOne(db, ref.session, ref.run) ==
                SettleLedgers(m.origin, LiveSessions(m.origin.ledgers) - Sessions(m.todo[1..]))
  {
    var live, ref := LiveSessions(m.origin.ledgers), m.todo[0];
    SessionsOfHead(m.todo);
    assert ref in m.todo;
    assert live - Sessions(m.todo[1..]) == live - Sessions(m.todo) + {ref.session};
    SettleOneMore(m.origin, live - Sessions(m.todo), ref.session);
  }

  lemma RestShrinks(db: Db, ref: RunRef, at: SettleAt)
    requires !at.SettleClear?
    ensures RestOfSettling(SettleWrites(db, ref, at), ref, SettleThen(db, ref, at)) == RestOfSettling(db, ref, at)
    ensures !SettleThen(db, ref, at).SettleAppend?
  {
  }

  lemma SettleWithinRefines(db: Db, m: Mode)
    requires m.Settling? && m.todo != [] && !m.at.SettleClear? && SettlingRefines(db, m)
    ensures SettlingRefines(SettleWrites(db, m.todo[0], m.at), SettleMoves(db, m))
  {
    RestShrinks(db, m.todo[0], m.at);
    if m.at.SettleAppend? {
      SettleAppendRefines(db, m);
    }
  }

  lemma SettleLastRefines(db: Db, m: Mode)
    requires m.Settling? && m.todo != [] && m.at.SettleClear? && SettlingRefines(db, m)
    ensures SettlingRefines(SettleWrites(db, m.todo[0], m.at), SettleMoves(db, m))
  {
    assert forall ref :: ref in m.todo[1..] ==> ref in m.todo;
  }

  lemma SettleStepRefines(s: State)
    requires Refines(s) && Enabled(s, SettleNext)
    ensures Refines(Do(s, SettleNext))
  {
    if s.mode.at.SettleClear? {
      SettleLastRefines(s.db, s.mode);
    } else {
      SettleWithinRefines(s.db, s.mode);
    }
  }

  lemma SweepFinishRefines(db: Db, m: Mode)
    requires m.Sweeping? && m.todo != [] && m.step.SweepFinish? && SweepingRefines(db, m)
    ensures SweepingRefines(FinishRun(db, m.todo[0].run, Interrupted), m.(step := SweepClear))
  {
    var mid, ref := FirstPass(m.origin), m.todo[0];
    var running := RunningRuns(mid.runs);
    RunsOfHead(m.todo);
    assert ref in m.todo;
    assert running - Runs(m.todo[1..]) == running - Runs(m.todo) + {ref.run};
    SweepOneMore(mid, running - Runs(m.todo), ref.run);
  }

  lemma SweepClearRefines(db: Db, m: Mode)
    requires m.Sweeping? && m.todo != [] && m.step.SweepClear? && SweepingRefines(db, m)
    ensures SweepingRefines(ClearActiveRun(db, m.todo[0].session, Interrupted),
                            Sweeping(m.origin, m.todo[1..], SweepFinish))
  {
    assert forall ref :: ref in m.todo[1..] ==> ref in m.todo;
  }

  lemma SweptRefines(db: Db, m: Mode)
    requires m.Sweeping? && m.todo == [] && SweepingRefines(db, m)
    ensures db == Reconcile(m.origin)
  {
    var running := RunningRuns(FirstPass(m.origin).runs);
    assert running - Runs(m.todo) == running;
  }

  lemma SweepStepRefines(s: State)
    requires Refines(s) && Enabled(s, SweepNext)
    ensures Refines(SweptOn(s))
    ensures s.mode.todo == [] ==> SweptOn(s).mode.Serving? && SweptOn(s).db == Reconcile(s.mode.origin)
  {
    if s.mode.todo == [] {
      SweptRefines(s.db, s.mode);
    } else if s.mode.step.SweepFinish? {
      SweepFinishRefines(s.db, s.mode);
    } else {
      SweepClearRefines(s.db, s.mode);
    }
  }

  lemma QueryDanglingRefines(s: State, order: seq<RunRef>)
    requires Enabled(s, QueryDangling(order))
    ensures Refines(Do(s, QueryDangling(order)))
  {
    var live := LiveSessions(s.db.ledgers);
    assert Sessions(order) == live by {
      forall sid | sid in live ensures sid in Sessions(order) {
        assert RunRef(LiveRun(s.db.ledgers[sid]), sid) in order;
      }
    }
    assert live - Sessions(order) == {};
    SettleNone(s.db);
  }

  lemma QueryRunningRefines(s: State, order: seq<RunRef>)
    requires Refines(s) && Enabled(s, QueryRunning(order))
    ensures Refines(Do(s, QueryRunning(order)))
  {
    var m := s.mode;
    var running := RunningRuns(s.db.runs);
    assert s.db == FirstPass(m.origin) by {
      assert LiveSessions(m.origin.ledgers) - Sessions([]) == LiveSessions(m.origin.ledgers);
    }
    assert Runs(order) == running by {
      forall run | run in running ensures run in Runs(order) {
        assert RunRef(run, s.db.runs[run].session) in order;
      }
    }
    assert running - Runs(order) == {};
    SweepNone(s.db);
  }

  lemma StepRefines(s: State, step: Step)
    requires Refines(s) && Enabled(s, step)
    ensures Refines(Do(s, step))
  {
    match step
    case SettleNext => SettleStepRefines(s);
    case SweepNext => SweepStepRefines(s);
    case QueryDangling(order) => QueryDanglingRefines(s, order);
    case QueryRunning(order) => QueryRunningRefines(s, order);
    case _ =>
  }

  lemma {:induction false} RunRefines(states: seq<State>, steps: seq<Step>, i: nat)
    requires IsRun(states, steps) && i < |states|
    ensures Refines(states[i])
  {
    if i > 0 {
      RunRefines(states, steps, i - 1);
      StepRefines(states[i - 1], steps[i - 1]);
    }
  }

  predicate Recovering(m: Mode) {
    m.Settling? || m.Sweeping?
  }

  /** A state within a recovery comes from its start, or from within it. */
  predicate KeepsOrigin(a: State, step: Step, b: State) {
    Recovering(b.mode) ==>
      && !step.Crash? && !a.mode.Serving?
      && if a.mode.Starting? then b.mode.origin == a.db else Recovering(a.mode) && b.mode.origin == a.mode.origin
  }

  lemma OriginOfStep(s: State, step: Step)
    requires Enabled(s, step)
    ensures KeepsOrigin(s, step, Do(s, step))
  {
  }

  lemma OriginOfRun(states: seq<State>, steps: seq<Step>, k: nat)
    requires IsRun(states, steps) && k < |steps|
    ensures KeepsOrigin(states[k], steps[k], states[k + 1])
  {
    OriginOfStep(states[k], steps[k]);
  }

  lemma {:induction false} StartOf(states: seq<State>, steps: seq<Step>, i: nat) returns (start: nat)
    requires |states| == |steps| + 1 && i < |states| && Recovering(states[i].mode) && states[0].mode.Starting?
    requires forall k :: 0 <= k < |steps| ==> KeepsOrigin(states[k], steps[k], states[k + 1])
    ensures start < i && states[start].mode.Starting? && states[start].db == states[i].mode.origin
    ensures forall k :: start <= k < i ==> !states[k].mode.Serving? && !steps[k].Crash?
  {
    assert KeepsOrigin(states[i - 1], steps[i - 1], states[i - 1 + 1]);
    if states[i - 1].mode.Starting? {
      start := i - 1;
    } else {
      start := StartOf(states, steps, i - 1);
    }
  }

  /** Where the current recovery started: at the latest start of the process. */
  lemma RecoveryStart(states: seq<State>, steps: seq<Step>, i: nat) returns (start: nat)
    requires IsRun(states, steps) && i < |states| && Recovering(states[i].mode)
    ensures start < i && states[start].mode.Starting? && states[start].db == states[i].mode.origin
    ensures forall k :: start <= k < i ==> !states[k].mode.Serving? && !steps[k].Crash?
  {
    forall k | 0 <= k < |steps| ensures KeepsOrigin(states[k], steps[k], states[k + 1]) {
      OriginOfRun(states, steps, k);
    }
    start := StartOf(states, steps, i);
  }

  /** Whenever the process begins to serve, its tables are exactly the recovered form of those it last started on. */
  lemma ServingBeginsReconciled(states: seq<State>, steps: seq<Step>, i: nat) returns (start: nat)
    requires IsRun(states, steps) && i < |steps| && !states[i].mode.Serving? && states[i + 1].mode.Serving?
    ensures start < i && states[start].mode.Starting?
    ensures forall k :: start <= k <= i ==> !states[k].mode.Serving? && !steps[k].Crash?
    ensures states[i + 1].db == Reconcile(states[start].db)
  {
    RunRefines(states, steps, i);
    SweepStepRefines(states[i]);
    start := RecoveryStart(states, steps, i);
  }

  // ---------- Crashes during recovery ----------

  /** Steps taken while not serving leave every ledger's recovered form as it was. */
  lemma RecoveredFormKept(s: State, step: Step, sid: SessionId)
    requires Refines(s) && !s.mode.Serving? && Enabled(s, step)
    ensures SettledLedger(LedgerOf(Do(s, step).db, sid)) == SettledLedger(LedgerOf(s.db, sid))
  {
    if step.SettleNext? && s.mode.at.SettleAppend? {
      AppendKeepsRecoveredForm(s.db, s.mode, sid);
    } else {
      OtherStepsKeepLedgers(s, step);
    }
  }

  lemma OtherStepsKeepLedgers(s: State, step: Step)
    requires !s.mode.Serving? && Enabled(s, step) && !(step.SettleNext? && s.mode.at.SettleAppend?)
    ensures Do(s, step).db.ledgers == s.db.ledgers
  {
    match step
    case SettleNext => SettleKeepsLedgers(s.db, s.mode.todo[0], s.mode.at);
    case SweepNext => SweepKeepsLedgers(s);
    case _ =>
  }

  lemma SettleKeepsLedgers(db: Db, ref: RunRef, at: SettleAt)
    requires !at.SettleAppend?
    ensures SettleWrites(db, ref, at).ledgers == db.ledgers
  {
  }

  lemma SweepKeepsLedgers(s: State)
    requires s.mode.Sweeping?
    ensures SweptOn(s).db.ledgers == s.db.ledgers
  {
    if s.mode.todo != [] {
      SweepWriteKeepsLedgers(s.db, s.mode.todo[0], s.mode.step);
    }
  }

  lemma SweepWriteKeepsLedgers(db: Db, ref: RunRef, at: SweepAt)
    ensures SweepWrites(db, ref, at).ledgers == db.ledgers
  {
  }

  lemma AppendKeepsRecoveredForm(db: Db, m: Mode, sid: SessionId)
    requires m.Settling? && m.todo != [] && m.at.SettleAppend? && SettlingRefines(db, m)
    ensures var db' := Append(db, m.todo[0].session, m.todo[0].run, RunFinished(Interrupted));
            SettledLedger(LedgerOf(db', sid)) == SettledLedger(LedgerOf(db, sid))
  {
    var ref := m.todo[0];
    assert ref in m.todo && ref.session in Sessions(m.todo);
    assert LedgerOf(db, ref.session) == m.origin.ledgers[ref.session];
    SettledLedgerSettles(LedgerOf(db, ref.session));
  }

  predicate NeverServes(states: seq<State>, i: nat, j: nat) {
    i <= j < |states| && forall k :: i <= k < j ==> !states[k].mode.Serving?
  }

  predicate SameForm(a: State, b: State, sid: SessionId) {
    SettledLedger(LedgerOf(b.db, sid)) == SettledLedger(LedgerOf(a.db, sid))
  }

  lemma StepOfRunKeepsForm(states: seq<State>, steps: seq<Step>, i: nat, j: nat, k: nat, sid: SessionId)
    requires IsRun(states, steps) && NeverServes(states, i, j) && i < k <= j
    ensures SameForm(states[k - 1], states[k], sid)
  {
    RunRefines(states, steps, k - 1);
    RecoveredFormKept(states[k - 1], steps[k - 1], sid);
  }

  lemma {:induction false} FormsKept(states: seq<State>, i: nat, j: nat, sid: SessionId)
    requires i <= j < |states| && forall k :: i < k <= j ==> SameForm(states[k - 1], states[k], sid)
    ensures SameForm(states[i], states[j], sid)
  {
    if i < j {
      FormsKept(states, i, j - 1, sid);
      assert SameForm(states[j - 1], states[j], sid);
    }
  }

  lemma RecoveredFormKeptToServing(states: seq<State>, steps: seq<Step>, i: nat, j: nat, sid: SessionId)
    requires IsRun(states, steps) && NeverServes(states, i, j)
    ensures SameForm(states[i], states[j], sid)
  {
    forall k | i < k <= j ensures SameForm(states[k - 1], states[k], sid) {
      StepOfRunKeepsForm(states, steps, i, j, k, sid);
    }
    FormsKept(states, i, j, sid);
  }

  /**
   However often recovery itself crashes and starts over, each ledger ends as if it had run once: one
   run_finished(interrupted) on a dangling ledger, nothing on a settled one.
   */
  lemma RepeatedRecoveryAppendsOnce(states: seq<State>, steps: seq<Step>, i: nat, j: nat, sid: SessionId)
    requires IsRun(states, steps) && i < j < |states| && states[j].mode.Serving?
    requires forall k :: i <= k < j ==> !states[k].mode.Serving?
    ensures LedgerOf(states[j].db, sid) == SettledLedger(LedgerOf(states[i].db, sid))
  {
    RecoveredFormKeptToServing(states, steps, i, j, sid);
    var start := ServingBeginsReconciled(states, steps, j - 1);
    ReconcileSettlesLedger(states[start].db, sid);
  }
}
