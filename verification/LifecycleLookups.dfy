/**
 A Send looks its intent up before it takes the lock, and records it before it says anything. Which registrations
 open a second turn, and which crashes leave an intent recorded whose run never was.
 */
module LifecycleLookups {
  import opened Ledger
  import opened Tables
  import opened Recovery
  import opened Lifecycle
  import opened LifecycleSafety
  import opened LifecycleIntents
  import opened LifecycleRaces
  import opened Turn

  type Key = (SessionId, IntentId)

  // ---------- What a run has said ----------

  /** The run has committed its opening event of this kind. */
  predicate Said(es: seq<Event>, kind: Opening, run: RunId) {
    exists p :: 0 <= p < |es| && IsOpening(kind, es[p]) && es[p].run == run
  }

  lemma SaidAppend(es: seq<Event>, e: Event, kind: Opening, run: RunId)
    ensures Said(es + [e], kind, run) <==> Said(es, kind, run) || (IsOpening(kind, e) && e.run == run)
  {
    var more := es + [e];
    assert more[|es|] == e && forall p :: 0 <= p < |es| ==> more[p] == es[p];
    if Said(es, kind, run) {
      var p :| 0 <= p < |es| && IsOpening(kind, es[p]) && es[p].run == run;
      assert IsOpening(kind, more[p]);
    }
  }

  predicate BeforeOpening(kind: Opening, stage: Stage) {
    if kind.Message? then BeforeUser(stage) else BeforeStart(stage)
  }

  predicate OpeningStage(kind: Opening, stage: Stage) {
    if kind.Message? then stage.AtUserAppend? else stage.AtStartAppend?
  }

  /** Its goroutine is about to. */
  ghost predicate AboutTo(s: State, kind: Opening, run: RunId, sid: SessionId) {
    run in s.tasks && s.tasks[run].session == sid && BeforeOpening(kind, s.tasks[run].stage)
  }

  /** And has recorded its intent, if it has one. */
  ghost predicate Halfway(s: State, kind: Opening, run: RunId, sid: SessionId) {
    AboutTo(s, kind, run, sid) && !s.tasks[run].stage.AtIntent?
  }

  /** In this step it does. */
  predicate SaysNow(s: State, step: Step, kind: Opening, run: RunId, sid: SessionId) {
    && step.Advance? && step.run == run && run in s.tasks && s.tasks[run].session == sid
    && OpeningStage(kind, s.tasks[run].stage)
  }

  /** In this step it records its intent. */
  predicate RecordsNow(s: State, step: Step, run: RunId) {
    step.Advance? && step.run == run && run in s.tasks && s.tasks[run].stage.AtIntent?
  }

  // ---------- What a step says ----------

  lemma WriteSays(db: Db, run: RunId, t: Task, input: Input, kind: Opening)
    requires Accepts(t.stage, input)
    ensures var w := NextWrite(run, t, input);
            w.AppendBody? ==> forall n :: IsOpening(kind, Event(n, run, w.body)) <==> OpeningStage(kind, t.stage)
    ensures OpeningStage(kind, t.stage) ==> NextWrite(run, t, input).AppendBody?
  {
  }

  lemma AdvanceSays(s: State, run: RunId, input: Input, sid: SessionId, kind: Opening, r: RunId)
    requires Enabled(s, Advance(run, input))
    ensures Said(LedgerOf(Advanced(s, run, input).db, sid), kind, r) <==>
            Said(LedgerOf(s.db, sid), kind, r) || SaysNow(s, Advance(run, input), kind, r, sid)
  {
    var t := s.tasks[run];
    if !t.stage.AtRelease? {
      var w := NextWrite(run, t, input);
      WriteSays(s.db, run, t, input, kind);
      WriteAppliesTo(s.db, t.session, run, w, sid);
      if w.AppendBody? && t.session == sid {
        SaidAppend(LedgerOf(s.db, sid), NextEvent(LedgerOf(s.db, sid), run, w.body), kind, r);
      }
    }
  }

  lemma FinishSaysNothing(db: Db, sid: SessionId, run: RunId, other: SessionId, kind: Opening, r: RunId)
    ensures Said(LedgerOf(Append(db, sid, run, RunFinished(Interrupted)), other), kind, r) <==>
            Said(LedgerOf(db, other), kind, r)
  {
    SaidAppend(LedgerOf(db, sid), NextEvent(LedgerOf(db, sid), run, RunFinished(Interrupted)), kind, r);
  }

  lemma InterrupterSaysNothing(db: Db, i: Interrupter, sid: SessionId, kind: Opening, r: RunId)
    ensures Said(LedgerOf(InterrupterWrites(db, i), sid), kind, r) <==> Said(LedgerOf(db, sid), kind, r)
  {
    if i.Found? {
      FinishSaysNothing(db, i.session, i.run, sid, kind, r);
    } else {
      assert InterrupterWrites(db, i).ledgers == db.ledgers;
    }
  }

  lemma SettlingSaysNothing(db: Db, ref: RunRef, at: SettleAt, sid: SessionId, kind: Opening, r: RunId)
    ensures Said(LedgerOf(SettleWrites(db, ref, at), sid), kind, r) <==> Said(LedgerOf(db, sid), kind, r)
  {
    if at.SettleAppend? {
      FinishSaysNothing(db, ref.session, ref.run, sid, kind, r);
    } else {
      SettleSideWrite(db, ref, at);
    }
  }

  lemma SweepSaysNothing(s: State, sid: SessionId)
    requires s.mode.Sweeping?
    ensures LedgerOf(SweptOn(s).db, sid) == LedgerOf(s.db, sid)
  {
    if s.mode.todo != [] {
      assert SweepWrites(s.db, s.mode.todo[0], s.mode.step).ledgers == s.db.ledgers;
    }
  }

  lemma OtherStepSaysNothing(s: State, step: Step, sid: SessionId)
    requires Enabled(s, step) && step != Delete(sid)
    requires !step.Advance? && !step.AdvanceInterrupt? && !step.InterruptAtOnce? && !step.SettleNext?
    ensures LedgerOf(Do(s, step).db, sid) == LedgerOf(s.db, sid)
  {
    if step.SweepNext? {
      SweepSaysNothing(s, sid);
    }
  }

  lemma StepSays(s: State, step: Step, sid: SessionId, kind: Opening, r: RunId)
    requires Inv(s) && Enabled(s, step) && step != Delete(sid)
    ensures Said(LedgerOf(Do(s, step).db, sid), kind, r) <==>
            Said(LedgerOf(s.db, sid), kind, r) || SaysNow(s, step, kind, r, sid)
  {
    if step.Advance? {
      AdvanceSays(s, step.run, step.input, sid, kind, r);
    } else if step.AdvanceInterrupt? {
      InterrupterSaysNothing(s.db, s.interrupters[step.k], sid, kind, r);
    } else if step.InterruptAtOnce? {
      InterruptAtOnceKeeps(s, step.sid);
    } else if step.SettleNext? {
      SettlingSaysNothing(s.db, s.mode.todo[0], s.mode.at, sid, kind, r);
    } else {
      OtherStepSaysNothing(s, step, sid);
    }
  }

  // ---------- What a step makes of a goroutine ----------

  lemma NextOpening(db: Db, t: Task, input: Input, kind: Opening)
    requires Accepts(t.stage, input)
    ensures var t' := TaskMoves(db, t, input);
            && t'.session == t.session && t'.intent == t.intent && !t'.stage.AtIntent?
            && (BeforeOpening(kind, t'.stage) <==> BeforeOpening(kind, t.stage) && !OpeningStage(kind, t.stage))
  {
  }

  lemma AdvanceMoves(s: State, run: RunId, input: Input, kind: Opening, r: RunId, sid: SessionId)
    requires Enabled(s, Advance(run, input))
    ensures var step, s' := Advance(run, input), Advanced(s, run, input);
            && (AboutTo(s', kind, r, sid) <==> AboutTo(s, kind, r, sid) && !SaysNow(s, step, kind, r, sid))
            && (Halfway(s', kind, r, sid) <==>
                  AboutTo(s, kind, r, sid) && !SaysNow(s, step, kind, r, sid)
                  && (Halfway(s, kind, r, sid) || RecordsNow(s, step, r)))
  {
    NextOpening(s.db, s.tasks[run], input, kind);
  }

  lemma OtherStepMoves(s: State, step: Step, kind: Opening, r: RunId, sid: SessionId)
    requires Inv(s) && Enabled(s, step) && !step.Advance? && !step.Crash?
    ensures !(step.Send? && step.run == r) ==> (AboutTo(Do(s, step), kind, r, sid) <==> AboutTo(s, kind, r, sid))
    ensures !(step.Send? && step.run == r) ==> (Halfway(Do(s, step), kind, r, sid) <==> Halfway(s, kind, r, sid))
  {
    if step.InterruptAtOnce? {
      InterruptAtOnceKeeps(s, step.sid);
    } else {
      SameTasks(s, step);
    }
  }

  lemma SameTasks(s: State, step: Step)
    requires Enabled(s, step) && !step.Advance? && !step.Crash?
    ensures Do(s, step).tasks ==
            if step.Send?
            then s.tasks[step.run := Task(step.sid, step.intent, step.message, step.images, "",
                                          if step.intent != "" then AtIntent else AtUserAppend)]
            else s.tasks
  {
  }

  // ---------- Nothing is said too early ----------

  /** A goroutine before its opening has not said it; what it was sent with is on record. */
  ghost predicate Orderly(s: State, kind: Opening) {
    && (forall r, sid :: AboutTo(s, kind, r, sid) ==> !Said(LedgerOf(s.db, sid), kind, r))
    && (forall r :: r in s.tasks ==> r in s.sent && s.sent[r] == (s.tasks[r].session, s.tasks[r].intent))
    && (forall r :: r in s.tasks && s.tasks[r].stage.AtIntent? ==> s.tasks[r].intent != "")
    && "" !in s.sent
  }

  lemma FreshSaidNothing(s: State, run: RunId, sid: SessionId, kind: Opening)
    requires FreshRun(s, run)
    ensures !Said(LedgerOf(s.db, sid), kind, run)
  {
    var es := LedgerOf(s.db, sid);
    assert forall p :: 0 <= p < |es| ==> es[p] in es;
  }

  lemma DeletedSaysNothing(s: State, sid: SessionId)
    requires Enabled(s, Delete(sid))
    ensures LedgerOf(Do(s, Delete(sid)).db, sid) == [] && Do(s, Delete(sid)).tasks == s.tasks
  {
    DeleteRemovesExactlyTheSession(s.db, sid);
  }

  lemma StepKeepsUnsaid(s: State, step: Step, kind: Opening, r: RunId, sid: SessionId)
    requires Inv(s) && Orderly(s, kind) && Enabled(s, step) && AboutTo(Do(s, step), kind, r, sid)
    ensures !Said(LedgerOf(Do(s, step).db, sid), kind, r)
  {
    if step == Delete(sid) {
      DeletedSaysNothing(s, sid);
    } else if !step.Crash? {
      StepSays(s, step, sid, kind, r);
      if step.Advance? {
        AdvanceMoves(s, step.run, step.input, kind, r, sid);
      } else if step.Send? && step.run == r {
        FreshSaidNothing(s, r, sid, kind);
      } else {
        OtherStepMoves(s, step, kind, r, sid);
      }
    }
  }

  lemma AdvanceKeepsSent(s: State, run: RunId, input: Input, kind: Opening)
    requires Enabled(s, Advance(run, input))
    ensures var s' := Advanced(s, run, input);
            && s'.sent == s.sent && s'.tasks.Keys <= s.tasks.Keys
            && (forall r :: r in s'.tasks ==>
                  && s'.tasks[r].session == s.tasks[r].session && s'.tasks[r].intent == s.tasks[r].intent
                  && (s'.tasks[r].stage.AtIntent? ==> s.tasks[r].stage.AtIntent?))
  {
    NextOpening(s.db, s.tasks[run], input, kind);
  }

  lemma SameSent(s: State, step: Step)
    requires Enabled(s, step) && !step.Advance?
    ensures Do(s, step).sent == if step.Send? then s.sent[step.run := (step.sid, step.intent)] else s.sent
  {
  }

  lemma StepKeepsSent(s: State, step: Step, kind: Opening)
    requires Inv(s) && Orderly(s, kind) && Enabled(s, step)
    ensures var s' := Do(s, step);
            && (forall r :: r in s'.tasks ==> r in s'.sent && s'.sent[r] == (s'.tasks[r].session, s'.tasks[r].intent))
            && (forall r :: r in s'.tasks && s'.tasks[r].stage.AtIntent? ==> s'.tasks[r].intent != "")
            && "" !in s'.sent
  {
    if step.Advance? {
      AdvanceKeepsSent(s, step.run, step.input, kind);
    } else {
      SameSent(s, step);
      if step.Crash? {
        assert Do(s, step).tasks == map[];
      } else {
        SameTasks(s, step);
      }
    }
  }

  lemma {:induction false} RunIsOrderly(states: seq<State>, steps: seq<Step>, i: nat, kind: Opening)
    requires IsRun(states, steps) && i < |states|
    ensures Orderly(states[i], kind)
  {
    if i > 0 {
      RunIsOrderly(states, steps, i - 1, kind);
      RunKeepsInv(states, steps, i - 1);
      StepIsOrderly(states[i - 1], steps[i - 1], kind);
    }
  }

  lemma StepIsOrderly(s: State, step: Step, kind: Opening)
    requires Inv(s) && Orderly(s, kind) && Enabled(s, step)
    ensures Orderly(Do(s, step), kind)
  {
    forall r, sid | AboutTo(Do(s, step), kind, r, sid) ensures !Said(LedgerOf(Do(s, step).db, sid), kind, r) {
      StepKeepsUnsaid(s, step, kind, r, sid);
    }
    StepKeepsSent(s, step, kind);
  }

  // ---------- A recorded intent has its turn, or its goroutine is on the way ----------

  ghost predicate Kept(s: State, key: Key, kind: Opening) {
    key in s.db.intents ==>
      var r := s.db.intents[key];
      && r in s.sent && s.sent[r] == key
      && (Halfway(s, kind, r, key.0) <==> !Said(LedgerOf(s.db, key.0), kind, r))
  }

  /** A step leaves an intent's record alone, or is its first recording. */
  lemma StepRecords(s: State, step: Step, key: Key)
    requires Inv(s) && Enabled(s, step)
    ensures key in s.db.intents ==> key in Do(s, step).db.intents && Do(s, step).db.intents[key] == s.db.intents[key]
    ensures key !in s.db.intents && key in Do(s, step).db.intents ==>
              var r := Do(s, step).db.intents[key];
              RecordsNow(s, step, r) && key == (s.tasks[r].session, s.tasks[r].intent)
  {
    if step.Advance? {
      AdvanceRecords(s, step.run, step.input, key);
    } else {
      OtherStepRecords(s, step);
    }
  }

  lemma AdvanceRecords(s: State, run: RunId, input: Input, key: Key)
    requires Enabled(s, Advance(run, input))
    ensures var db', t := Advanced(s, run, input).db, s.tasks[run];
            db'.intents == if t.stage.AtIntent? then PutIntent(s.db, t.session, t.intent, run).intents else s.db.intents
  {
    var t := s.tasks[run];
    WriteRecords(s.db, t.session, run, NextWrite(run, t, input));
    RecordIsFirst(run, t, input);
  }

  lemma WriteRecords(db: Db, sid: SessionId, run: RunId, w: Write)
    ensures Apply(db, sid, run, w).intents ==
            if w.RecordIntent? then PutIntent(db, sid, w.intent, run).intents else db.intents
  {
  }

  lemma RecordIsFirst(run: RunId, t: Task, input: Input)
    ensures t.stage.AtIntent? ==> NextWrite(run, t, input) == RecordIntent(t.intent)
    ensures !t.stage.AtIntent? ==> !NextWrite(run, t, input).RecordIntent?
  {
  }

  lemma OtherStepRecords(s: State, step: Step)
    requires Inv(s) && Enabled(s, step) && !step.Advance?
    ensures Do(s, step).db.intents == s.db.intents
  {
    if step.AdvanceInterrupt? {
      InterrupterKeepsIntents(s.db, s.interrupters[step.k]);
    } else if step.InterruptAtOnce? {
      FinalizeKeepsIntents(s.db, step.sid);
    } else if step.SettleNext? {
      SettleKeepsIntents(s.db, s.mode.todo[0], s.mode.at);
    } else if step.SweepNext? {
      SweepStepKeepsIntents(s);
    } else if !step.QueryDangling? && !step.QueryRunning? {
      ServingKeepsIntents(s, step);
    }
  }

  lemma SentGrows(s: State, step: Step, r: RunId)
    requires Inv(s) && Enabled(s, step) && r in s.sent
    ensures r in Do(s, step).sent && Do(s, step).sent[r] == s.sent[r]
  {
    if step.Advance? {
      AdvanceKeepsSent(s, step.run, step.input, Message);
    } else {
      SameSent(s, step);
    }
  }

  lemma OldRecordKept(s: State, step: Step, key: Key, kind: Opening)
    requires Inv(s) && Orderly(s, kind) && Enabled(s, step) && Kept(s, key, kind) && key in s.db.intents
    requires !step.Crash? && step != Delete(key.0)
    ensures var r := s.db.intents[key];
            Halfway(Do(s, step), kind, r, key.0) <==> !Said(LedgerOf(Do(s, step).db, key.0), kind, r)
  {
    var r := s.db.intents[key];
    StepSays(s, step, key.0, kind, r);
    if step.Advance? {
      AdvanceMoves(s, step.run, step.input, kind, r, key.0);
    } else {
      OtherStepMoves(s, step, kind, r, key.0);
    }
  }

  lemma NewRecordKept(s: State, step: Step, key: Key, kind: Opening)
    requires Inv(s) && Orderly(s, kind) && Enabled(s, step) && key !in s.db.intents && key in Do(s, step).db.intents
    ensures Kept(Do(s, step), key, kind)
  {
    var r := Do(s, step).db.intents[key];
    StepRecords(s, step, key);
    SentGrows(s, step, r);
    StepSays(s, step, key.0, kind, r);
    AdvanceMoves(s, r, step.input, kind, r, key.0);
  }

  lemma StepKeepsRecord(s: State, step: Step, key: Key, kind: Opening)
    requires Inv(s) && Orderly(s, kind) && Enabled(s, step) && Kept(s, key, kind)
    requires !step.Crash? && step != Delete(key.0)
    ensures Kept(Do(s, step), key, kind)
  {
    StepRecords(s, step, key);
    if key in s.db.intents {
      SentGrows(s, step, s.db.intents[key]);
      OldRecordKept(s, step, key, kind);
    } else if key in Do(s, step).db.intents {
      NewRecordKept(s, step, key, kind);
    }
  }

  /** From i to j the process does not crash and the session is not deleted. */
  ghost predicate Undisturbed(states: seq<State>, steps: seq<Step>, i: nat, j: nat, sid: SessionId) {
    i <= j <= |steps| && forall k :: i <= k < j ==> !steps[k].Crash? && steps[k] != Delete(sid)
  }

  ghost predicate KeptOn(a: State, b: State, key: Key, kind: Opening) {
    Kept(a, key, kind) ==> Kept(b, key, kind)
  }

  lemma StepOfRunKept(states: seq<State>, steps: seq<Step>, i: nat, j: nat, k: nat, key: Key, kind: Opening)
    requires IsRun(states, steps) && Undisturbed(states, steps, i, j, key.0) && i < k <= j
    ensures KeptOn(states[k - 1], states[k], key, kind)
  {
    RunKeepsInv(states, steps, k - 1);
    RunIsOrderly(states, steps, k - 1, kind);
    if Kept(states[k - 1], key, kind) {
      StepKeepsRecord(states[k - 1], steps[k - 1], key, kind);
    }
  }

  lemma {:induction false} AllKept(states: seq<State>, i: nat, j: nat, key: Key, kind: Opening)
    requires i <= j < |states| && Kept(states[i], key, kind)
    requires forall k :: i < k <= j ==> KeptOn(states[k - 1], states[k], key, kind)
    ensures Kept(states[j], key, kind)
  {
    if i < j {
      AllKept(states, i, j - 1, key, kind);
      assert KeptOn(states[j - 1], states[j], key, kind);
    }
  }

  lemma RunKept(states: seq<State>, steps: seq<Step>, i: nat, j: nat, key: Key, kind: Opening)
    requires IsRun(states, steps) && Undisturbed(states, steps, i, j, key.0) && key !in states[i].db.intents
    ensures Kept(states[j], key, kind)
  {
    forall k | i < k <= j ensures KeptOn(states[k - 1], states[k], key, kind) {
      StepOfRunKept(states, steps, i, j, k, key, kind);
    }
    AllKept(states, i, j, key, kind);
  }

  // ---------- A crash between the record and the message ----------

  /**
   Of an intent recorded since some point without a crash or a deletion: its run has committed no user message exactly
   if its goroutine stands between the two writes. So these are the crashes that leave it recorded with no turn.
   */
  lemma UnsaidIffBetweenWrites(states: seq<State>, steps: seq<Step>, i: nat, j: nat, key: Key)
    requires IsRun(states, steps) && Undisturbed(states, steps, i, j, key.0)
    requires key !in states[i].db.intents && key in states[j].db.intents
    ensures var run := states[j].db.intents[key];
            !Said(LedgerOf(states[j].db, key.0), Message, run) <==>
            run in states[j].tasks && states[j].tasks[run].session == key.0 && states[j].tasks[run].stage.AtUserAppend?
  {
    RunKept(states, steps, i, j, key, Message);
  }

  /** The record stands and nobody will say its message. */
  ghost predicate Unfulfilled(s: State, key: Key, run: RunId) {
    && key in s.db.intents && s.db.intents[key] == run
    && run !in s.tasks && !Said(LedgerOf(s.db, key.0), Message, run)
  }

  lemma StepUnfulfilled(s: State, step: Step, key: Key, run: RunId)
    requires Inv(s) && Enabled(s, step) && Unfulfilled(s, key, run)
    ensures Unfulfilled(Do(s, step), key, run)
  {
    StepRecords(s, step, key);
    TasksStayAway(s, step, run);
    if step == Delete(key.0) {
      DeletedSaysNothing(s, key.0);
    } else {
      StepSays(s, step, key.0, Message, run);
    }
  }

  lemma TasksStayAway(s: State, step: Step, run: RunId)
    requires Enabled(s, step) && run !in s.tasks && (step.Send? ==> step.run != run)
    ensures run !in Do(s, step).tasks
  {
    if step.Advance? {
      AdvanceKeepsSent(s, step.run, step.input, Message);
    } else if step.Crash? {
      assert Do(s, step).tasks == map[];
    } else {
      SameTasks(s, step);
    }
  }

  /** After such a crash the intent is answered for ever with a run that never was. */
  lemma {:induction false} UnfulfilledForEver(states: seq<State>, steps: seq<Step>, i: nat, j: nat, key: Key,
                                              run: RunId)
    requires IsRun(states, steps) && i <= j < |states| && Unfulfilled(states[i], key, run)
    ensures Unfulfilled(states[j], key, run) && IntentRun(states[j].db, key.0, key.1) == run
  {
    if i < j {
      UnfulfilledForEver(states, steps, i, j - 1, key, run);
      RunKeepsInv(states, steps, j - 1);
      StepUnfulfilled(states[j - 1], steps[j - 1], key, run);
    }
  }

  // ---------- A lookup that came too early ----------

  /** A pending request was pending before, or has just been looked up and not found. */
  predicate Asks(a: State, step: Step, b: State, q: nat) {
    q in b.requests ==>
      && !step.Crash?
      && if q in a.requests then a.requests[q] == b.requests[q] else LooksUp(a, step, q, b.requests[q])
  }

  predicate LooksUp(s: State, step: Step, q: nat, r: Request) {
    step == LookUp(q, r.session, r.intent) && Passes(s.db, r.session, r.intent)
  }

  lemma StepAsks(s: State, step: Step, q: nat)
    requires Enabled(s, step)
    ensures Asks(s, step, Do(s, step), q)
  {
  }

  lemma StepOfRunAsks(states: seq<State>, steps: seq<Step>, k: nat, q: nat)
    requires IsRun(states, steps) && k < |steps|
    ensures Asks(states[k], steps[k], states[k + 1], q)
  {
    StepAsks(states[k], steps[k], q);
  }

  lemma {:induction false} AskedAt(states: seq<State>, steps: seq<Step>, j: nat, q: nat) returns (i: nat)
    requires |states| == |steps| + 1 && j < |states| && q in states[j].requests && q !in states[0].requests
    requires forall k :: 0 <= k < |steps| ==> Asks(states[k], steps[k], states[k + 1], q)
    ensures i < j && LooksUp(states[i], steps[i], q, states[j].requests[q])
    ensures forall k :: i <= k < j ==> !steps[k].Crash?
  {
    assert Asks(states[j - 1], steps[j - 1], states[j - 1 + 1], q);
    if q in states[j - 1].requests {
      i := AskedAt(states, steps, j - 1, q);
    } else {
      i := j - 1;
    }
  }

  /** Where a pending request was looked up, and that it found nothing. */
  lemma LookedUpAt(states: seq<State>, steps: seq<Step>, j: nat, q: nat) returns (i: nat)
    requires IsRun(states, steps) && j < |states| && q in states[j].requests
    ensures i < j && LooksUp(states[i], steps[i], q, states[j].requests[q])
    ensures forall k :: i <= k < j ==> !steps[k].Crash?
  {
    forall k | 0 <= k < |steps| ensures Asks(states[k], steps[k], states[k + 1], q) {
      StepOfRunAsks(states, steps, k, q);
    }
    i := AskedAt(states, steps, j, q);
  }

  /** An intent that owns an opening event, while Sends were serialised, is recorded: a lookup finds it. */
  lemma OwnedIsRecorded(states: seq<State>, steps: seq<Step>, j: nat, sid: SessionId, intent: IntentId, kind: Opening)
    requires SerialisedUntil(states, steps, j) && intent != ""
    requires OwnsOne(states[j].sent, (sid, intent), kind, LedgerOf(states[j].db, sid))
    ensures IntentRun(states[j].db, sid, intent) != ""
  {
    RunOwned(states, steps, j);
    RunIsOrderly(states, steps, j, kind);
    var s, es := states[j], LedgerOf(states[j].db, sid);
    var p :| 0 <= p < |es| && OfIntent(s.sent, (sid, intent), kind, es[p]);
    assert Owned(s.db, s.sent, sid, es[p]);
  }

  lemma RecordedSince(states: seq<State>, steps: seq<Step>, i: nat, j: nat, key: Key)
    requires IsRun(states, steps) && i <= j < |states|
    requires IntentRun(states[i].db, key.0, key.1) == "" && IntentRun(states[j].db, key.0, key.1) != ""
    ensures key !in states[i].db.intents && key in states[j].db.intents
  {
    if key in states[i].db.intents {
      IntentRunNeverChanges(states, steps, i, j, key);
    }
  }

  /** A recorded intent of a session that nobody is running owns its opening events. */
  lemma RecordedIsOwned(s: State, key: Key, kind: Opening)
    requires LocksMatch(s) && Kept(s, key, kind) && key in s.db.intents && key.0 !in s.active
    ensures OwnsOne(s.sent, key, kind, LedgerOf(s.db, key.0))
  {
    var r, es := s.db.intents[key], LedgerOf(s.db, key.0);
    assert Said(es, kind, r);
    var p :| 0 <= p < |es| && IsOpening(kind, es[p]) && es[p].run == r;
    assert OfIntent(s.sent, key, kind, es[p]);
  }

  lemma OwnedIffRecorded(states: seq<State>, steps: seq<Step>, i: nat, j: nat, sid: SessionId, intent: IntentId,
                         kind: Opening)
    requires SerialisedUntil(states, steps, j) && intent != "" && i <= j && Undisturbed(states, steps, i, j, sid)
    requires IntentRun(states[i].db, sid, intent) == "" && states[j].mode.Serving? && sid !in states[j].active
    ensures OwnsOne(states[j].sent, (sid, intent), kind, LedgerOf(states[j].db, sid)) <==>
            IntentRun(states[j].db, sid, intent) != ""
  {
    var key := (sid, intent);
    if IntentRun(states[j].db, sid, intent) != "" {
      RecordedSince(states, steps, i, j, key);
      RunKept(states, steps, i, j, key, kind);
      RunKeepsInv(states, steps, j);
      RecordedIsOwned(states[j], key, kind);
    }
    if OwnsOne(states[j].sent, key, kind, LedgerOf(states[j].db, sid)) {
      OwnedIsRecorded(states, steps, j, sid, intent, kind);
    }
  }

  /**
   Which registration opens a second turn of its intent: the first that is not serialised. A Send registers a request
   whose lookup found nothing; if its session was not deleted since, then after the goroutine's first two steps the
   intent owns two user messages, and after its first five two run_started events, exactly if the intent has been
   recorded since the lookup, so that one made under the lock would have found it.
   */
  lemma SecondTurnIffRecordedSince(states: seq<State>, steps: seq<Step>, j: nat, q: nat, sid: SessionId, run: RunId,
                                   intent: IntentId, message: string, images: seq<Image>) returns (i: nat)
    requires SerialisedUntil(states, steps, j) && j < |steps| && intent != ""
    requires steps[j] == Send(q, sid, run, intent, message, images)
    ensures i < j && steps[i] == LookUp(q, sid, intent) && IntentRun(states[i].db, sid, intent) == ""
    ensures (forall k :: i <= k < j ==> steps[k] != Delete(sid)) ==>
              var s, sent, p := states[j], states[j + 1].sent, Start(run, states[j].db, sid, intent, message, images);
              var recorded := IntentRun(s.db, sid, intent) != "";
              && (OwnsTwo(sent, (sid, intent), Message, LedgerOf(All(p, TWO).db, sid)) <==> recorded)
              && (OwnsTwo(sent, (sid, intent), Beginning, LedgerOf(All(p, FIVE).db, sid)) <==> recorded)
  {
    assert Enabled(states[j], steps[j]);
    i := LookedUpAt(states, steps, j, q);
    SecondTurnIffOwned(states[j], q, sid, run, intent, message, images);
    if forall k :: i <= k < j ==> steps[k] != Delete(sid) {
      OwnedIffRecorded(states, steps, i, j, sid, intent, Message);
      OwnedIffRecorded(states, steps, i, j, sid, intent, Beginning);
    }
  }
}
