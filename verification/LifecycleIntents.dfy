/** Client intents: one run per intent for ever, and one turn per intent when Sends are serialised. */
module LifecycleIntents {
  import opened Ledger
  import opened Tables
  import opened Recovery
  import opened Lifecycle
  import opened LifecycleSafety

  /** A Send whose intent lookup is one step with its registration. */
  ghost predicate Serialised(s: State, step: Step) {
    step.Send? && step.intent != "" ==> (step.sid, step.intent) !in s.db.intents
  }

  ghost predicate IsSerialisedRun(states: seq<State>, steps: seq<Step>) {
    IsRun(states, steps) && forall i :: 0 <= i < |steps| ==> Serialised(states[i], steps[i])
  }

  // ---------- The recorded run never changes ----------

  predicate KeepsIntents(db: Db, db': Db) {
    forall key :: key in db.intents ==> key in db'.intents && db'.intents[key] == db.intents[key]
  }

  lemma TaskKeepsIntents(db: Db, run: RunId, t: Task, input: Input)
    ensures KeepsIntents(db, TaskWrites(db, run, t, input))
  {
  }

  lemma ServingKeepsIntents(s: State, step: Step)
    requires Enabled(s, step)
             && (step.Create? || step.LookUp? || step.Send? || step.CheckInterrupt? || step.Delete? || step.Crash?)
    ensures Do(s, step).db.intents == s.db.intents
  {
  }

  lemma SettleKeepsIntents(db: Db, ref: RunRef, at: SettleAt)
    ensures SettleWrites(db, ref, at).intents == db.intents
  {
  }

  lemma SweepKeepsIntents(db: Db, ref: RunRef, at: SweepAt)
    ensures SweepWrites(db, ref, at).intents == db.intents
  {
  }

  lemma InterrupterKeepsIntents(db: Db, i: Interrupter)
    ensures InterrupterWrites(db, i).intents == db.intents
  {
  }

  lemma FinalizeKeepsIntents(db: Db, sid: SessionId)
    ensures FinalizeOrphan(db, sid).intents == db.intents
  {
  }

  lemma StepKeepsIntents(s: State, step: Step)
    requires Enabled(s, step)
    ensures KeepsIntents(s.db, Do(s, step).db)
  {
    if step.Advance? {
      TaskKeepsIntents(s.db, step.run, s.tasks[step.run], step.input);
    } else if step.AdvanceInterrupt? {
      InterrupterKeepsIntents(s.db, s.interrupters[step.k]);
    } else if step.InterruptAtOnce? {
      FinalizeKeepsIntents(s.db, step.sid);
    } else if step.SettleNext? {
      SettleKeepsIntents(s.db, s.mode.todo[0], s.mode.at);
    } else if step.SweepNext? {
      SweepStepKeepsIntents(s);
    } else if !step.QueryDangling? && !step.QueryRunning? {
      ServingKeepsIntents(s, step);
    }
  }

  lemma SweepStepKeepsIntents(s: State)
    requires Enabled(s, SweepNext)
    ensures Do(s, SweepNext).db.intents == s.db.intents
  {
    if s.mode.todo != [] {
      SweepKeepsIntents(s.db, s.mode.todo[0], s.mode.step);
    }
  }

  lemma {:induction false} IntentPersists(dbs: seq<Db>, i: nat, j: nat, key: (SessionId, IntentId))
    requires i <= j < |dbs| && forall k :: 0 < k < |dbs| ==> KeepsIntents(dbs[k - 1], dbs[k])
    requires key in dbs[i].intents
    ensures key in dbs[j].intents && dbs[j].intents[key] == dbs[i].intents[key]
  {
    if i < j {
      IntentPersists(dbs, i, j - 1, key);
    }
  }

  /** Under every interleaving, racing Sends included, an intent's recorded run is the first one, for ever. */
  lemma IntentRunNeverChanges(states: seq<State>, steps: seq<Step>, i: nat, j: nat, key: (SessionId, IntentId))
    requires IsRun(states, steps) && i <= j < |states| && key in states[i].db.intents
    ensures key in states[j].db.intents && states[j].db.intents[key] == states[i].db.intents[key]
  {
    var dbs := seq(|states|, k requires 0 <= k < |states| => states[k].db);
    forall k | 0 < k < |dbs| ensures KeepsIntents(dbs[k - 1], dbs[k]) {
      StepKeepsIntents(states[k - 1], steps[k - 1]);
    }
    IntentPersists(dbs, i, j, key);
  }

  // ---------- One turn per intent ----------

  /** The two events a turn leaves in the ledger before its provider runs. */
  predicate OpensTurn(e: Event) {
    e.body.UserMessage? || e.body.RunStarted?
  }

  predicate SameKind(e: Event, f: Event) {
    (e.body.UserMessage? && f.body.UserMessage?) || (e.body.RunStarted? && f.body.RunStarted?)
  }

  /** A run's opening events lie in the session it was sent to, and its intent records it. */
  predicate Owned(db: Db, sent: map<RunId, (SessionId, IntentId)>, sid: SessionId, e: Event) {
    OpensTurn(e) && e.run in sent ==>
      && sent[e.run].0 == sid
      && (sent[e.run].1 != "" ==> sent[e.run] in db.intents && db.intents[sent[e.run]] == e.run)
  }

  /** No run sent by this process opens two turns. */
  predicate OpensOnce(sent: map<RunId, (SessionId, IntentId)>, es: seq<Event>) {
    forall p, q :: 0 <= p < q < |es| && SameKind(es[p], es[q]) && es[p].run in sent ==> es[p].run != es[q].run
  }

  ghost predicate LedgersOwned(s: State) {
    forall sid :: sid in s.db.ledgers ==>
      OpensOnce(s.sent, s.db.ledgers[sid]) && forall e :: e in s.db.ledgers[sid] ==> Owned(s.db, s.sent, sid, e)
  }

  predicate BeforeUser(stage: Stage) {
    stage.AtIntent? || stage.AtUserAppend?
  }

  predicate BeforeStart(stage: Stage) {
    BeforeUser(stage) || stage.AtUserBump? || stage.AtCreateRun? || stage.AtStartAppend?
  }

  predicate Unopened(es: seq<Event>, run: RunId, stage: Stage) {
    && (BeforeUser(stage) ==> forall e :: e in es && e.body.UserMessage? ==> e.run != run)
    && (BeforeStart(stage) ==> forall e :: e in es && e.body.RunStarted? ==> e.run != run)
  }

  ghost predicate TaskOwned(s: State, run: RunId, t: Task) {
    var key := (t.session, t.intent);
    && run in s.sent && s.sent[run] == key
    && (t.stage.AtIntent? ==> t.intent != "" && key !in s.db.intents)
    && (!t.stage.AtIntent? && t.intent != "" ==> key in s.db.intents && s.db.intents[key] == run)
    && Unopened(LedgerOf(s.db, t.session), run, t.stage)
  }

  ghost predicate AllOwned(s: State) {
    LedgersOwned(s) && forall run :: run in s.tasks ==> TaskOwned(s, run, s.tasks[run])
  }

  /** Appending keeps ownership: at once for other events, for an opening event when it is the run's first. */
  lemma AppendOwned(s: State, db': Db, sid: SessionId, run: RunId, body: Body)
    requires LedgersOwned(s) && db' == Append(s.db, sid, run, body)
    requires var e := NextEvent(LedgerOf(s.db, sid), run, body);
             Owned(s.db, s.sent, sid, e) && forall f :: f in LedgerOf(s.db, sid) && SameKind(f, e) ==> f.run != run
    ensures LedgersOwned(s.(db := db'))
  {
    var es, e := LedgerOf(s.db, sid), NextEvent(LedgerOf(s.db, sid), run, body);
    forall f | f in es + [e] ensures Owned(db', s.sent, sid, f) {
      assert f in es || f == e;
      assert Owned(s.db, s.sent, sid, f);
    }
    assert OpensOnce(s.sent, es);
    forall p, q | 0 <= p < q < |es + [e]| && SameKind((es + [e])[p], (es + [e])[q]) && (es + [e])[p].run in s.sent
      ensures (es + [e])[p].run != (es + [e])[q].run
    {
      if q == |es| { assert es[p] in es; }
    }
  }

  lemma NonOpeningAppend(s: State, sid: SessionId, run: RunId, body: Body)
    requires AllOwned(s) && !body.UserMessage? && !body.RunStarted?
    ensures AllOwned(s.(db := Append(s.db, sid, run, body)))
  {
    AppendOwned(s, Append(s.db, sid, run, body), sid, run, body);
    var es, e := LedgerOf(s.db, sid), NextEvent(LedgerOf(s.db, sid), run, body);
    forall r | r in s.tasks
      ensures Unopened(es + [e], r, s.tasks[r].stage) || s.tasks[r].session != sid
    {
      assert TaskOwned(s, r, s.tasks[r]);
    }
  }

  /** Writes that change neither ledgers nor intents. */
  lemma SideWrite(s: State, db': Db)
    requires AllOwned(s) && db'.ledgers == s.db.ledgers && db'.intents == s.db.intents
    ensures AllOwned(s.(db := db'))
  {
    forall r | r in s.tasks ensures TaskOwned(s.(db := db'), r, s.tasks[r]) {
      assert TaskOwned(s, r, s.tasks[r]);
    }
  }

  /** A stage as far on as another, past the intent. */
  predicate LaterStage(stage: Stage, stage': Stage) {
    && !stage'.AtIntent?
    && (BeforeUser(stage') ==> BeforeUser(stage)) && (BeforeStart(stage') ==> BeforeStart(stage))
  }

  predicate MovesOn(t: Task, t': Task) {
    t'.session == t.session && t'.intent == t.intent && LaterStage(t.stage, t'.stage)
  }

  /** The write is not the intent's, not a user message and not a run_started. */
  predicate Unremarkable(w: Write) {
    !w.RecordIntent? && (w.AppendBody? ==> !w.body.UserMessage? && !w.body.RunStarted?)
  }

  lemma UnremarkableOwned(s: State, run: RunId, t': Task, w: Write)
    requires AllOwned(s) && run in s.tasks && !s.tasks[run].stage.AtIntent? && MovesOn(s.tasks[run], t')
             && Unremarkable(w)
    ensures AllOwned(s.(db := Apply(s.db, s.tasks[run].session, run, w), tasks := s.tasks[run := t']))
  {
    var t := s.tasks[run];
    var db' := Apply(s.db, t.session, run, w);
    if w.AppendBody? {
      NonOpeningAppend(s, t.session, run, w.body);
    } else {
      SideWrite(s, db');
    }
    assert TaskOwned(s.(db := db'), run, t);
  }

  lemma RecordIntentOwned(s: State, run: RunId)
    requires LocksMatch(s) && AllOwned(s) && run in s.tasks && s.tasks[run].stage.AtIntent?
    ensures var t := s.tasks[run];
            AllOwned(s.(db := PutIntent(s.db, t.session, t.intent, run),
                        tasks := s.tasks[run := t.(stage := AtUserAppend)]))
  {
    var t := s.tasks[run];
    assert TaskOwned(s, run, t);
    forall r | r in s.tasks && r != run ensures s.tasks[r].session != t.session && TaskOwned(s, r, s.tasks[r]) {
    }
  }

  /** Committing a user message or a run_started. */
  lemma OpeningOwned(s: State, run: RunId, body: Body, t': Task)
    requires LocksMatch(s) && AllOwned(s) && run in s.tasks && !s.tasks[run].stage.AtIntent?
             && MovesOn(s.tasks[run], t')
    requires if body.UserMessage? then BeforeUser(s.tasks[run].stage) && !BeforeUser(t'.stage)
             else body.RunStarted? && BeforeStart(s.tasks[run].stage) && !BeforeStart(t'.stage)
    ensures AllOwned(s.(db := Append(s.db, s.tasks[run].session, run, body), tasks := s.tasks[run := t']))
  {
    var t := s.tasks[run];
    assert TaskOwned(s, run, t);
    AppendOwned(s, Append(s.db, t.session, run, body), t.session, run, body);
    forall r | r in s.tasks && r != run ensures s.tasks[r].session != t.session && TaskOwned(s, r, s.tasks[r]) {
    }
  }

  /** What a goroutine's step amounts to. */
  lemma StepShape(db: Db, run: RunId, t: Task, input: Input)
    requires Accepts(t.stage, input)
    ensures var w, t' := NextWrite(run, t, input), TaskMoves(db, t, input);
            && (t.stage.AtIntent? ==> w == RecordIntent(t.intent) && t' == t.(stage := AtUserAppend))
            && (t.stage.AtUserAppend? ==> w.AppendBody? && w.body.UserMessage? && !BeforeUser(t'.stage))
            && (t.stage.AtStartAppend? ==> w == AppendBody(RunStarted) && !BeforeStart(t'.stage))
            && (!t.stage.AtIntent? ==> MovesOn(t, t'))
            && (!t.stage.AtIntent? && !t.stage.AtUserAppend? && !t.stage.AtStartAppend? ==> Unremarkable(w))
  {
  }

  lemma AdvanceOwned(s: State, run: RunId, input: Input)
    requires LocksMatch(s) && AllOwned(s) && Enabled(s, Advance(run, input))
    ensures AllOwned(Do(s, Advance(run, input)))
  {
    var t := s.tasks[run];
    if !t.stage.AtRelease? {
      StepShape(s.db, run, t, input);
      var w, t' := NextWrite(run, t, input), TaskMoves(s.db, t, input);
      if t.stage.AtIntent? {
        RecordIntentOwned(s, run);
      } else if t.stage.AtUserAppend? || t.stage.AtStartAppend? {
        OpeningOwned(s, run, w.body, t');
      } else {
        UnremarkableOwned(s, run, t', w);
      }
    }
  }

  /** A fresh run has no events yet, so knowing its intent disturbs nothing. */
  lemma FreshKeepsLedgers(s: State, run: RunId, key: (SessionId, IntentId))
    requires LedgersOwned(s) && FreshRun(s, run)
    ensures LedgersOwned(s.(sent := s.sent[run := key]))
  {
    var sent' := s.sent[run := key];
    forall sid | sid in s.db.ledgers
      ensures OpensOnce(sent', s.db.ledgers[sid])
      ensures forall e :: e in s.db.ledgers[sid] ==> Owned(s.db, sent', sid, e)
    {
      assert OpensOnce(s.sent, s.db.ledgers[sid]);
      assert forall e :: e in s.db.ledgers[sid] ==> Owned(s.db, s.sent, sid, e) && e.run != run;
    }
  }

  lemma FreshUnopened(s: State, run: RunId, sid: SessionId, stage: Stage)
    requires FreshRun(s, run)
    ensures Unopened(LedgerOf(s.db, sid), run, stage)
  {
  }

  lemma SendOwned(s: State, step: Step)
    requires AllOwned(s) && Enabled(s, step) && step.Send? && Serialised(s, step)
    ensures AllOwned(Do(s, step))
  {
    FreshKeepsLedgers(s, step.run, (step.sid, step.intent));
    FreshUnopened(s, step.run, step.sid, if step.intent != "" then AtIntent else AtUserAppend);
    assert forall r :: r in s.tasks ==> TaskOwned(s, r, s.tasks[r]) && r != step.run;
  }

  lemma DeleteOwned(s: State, sid: SessionId)
    requires AllOwned(s) && Enabled(s, Delete(sid))
    ensures AllOwned(Do(s, Delete(sid)))
  {
    var db' := DeleteSession(s.db, sid);
    forall other | other in db'.ledgers
      ensures forall e :: e in db'.ledgers[other] ==> Owned(db', s.sent, other, e)
    {
      assert forall e :: e in s.db.ledgers[other] ==> Owned(s.db, s.sent, other, e);
    }
    forall r | r in s.tasks ensures TaskOwned(s.(db := db'), r, s.tasks[r]) {
      assert TaskOwned(s, r, s.tasks[r]);
    }
  }

  lemma InterrupterOwned(s: State, k: nat)
    requires AllOwned(s) && Enabled(s, AdvanceInterrupt(k))
    ensures AllOwned(Do(s, AdvanceInterrupt(k)))
  {
    var db' := InterrupterWrites(s.db, s.interrupters[k]);
    match s.interrupters[k]
    case Found(sid, run) => NonOpeningAppend(s, sid, run, RunFinished(Interrupted));
    case _ => SideWrite(s, db');
  }

  lemma SettleOwned(s: State)
    requires AllOwned(s) && Enabled(s, SettleNext)
    ensures AllOwned(Do(s, SettleNext))
  {
    var ref, at := s.mode.todo[0], s.mode.at;
    if at.SettleAppend? {
      NonOpeningAppend(s, ref.session, ref.run, RunFinished(Interrupted));
    } else {
      SettleSideWrite(s.db, ref, at);
      SideWrite(s, SettleWrites(s.db, ref, at));
    }
    SameOwned(s.(db := SettleWrites(s.db, ref, at)), SettledOn(s));
  }

  lemma SettleSideWrite(db: Db, ref: RunRef, at: SettleAt)
    requires !at.SettleAppend?
    ensures SettleWrites(db, ref, at).ledgers == db.ledgers && SettleWrites(db, ref, at).intents == db.intents
  {
  }

  /** Ownership looks at the tables, the goroutines and what was sent. */
  lemma SameOwned(a: State, b: State)
    requires AllOwned(a) && b.db == a.db && b.tasks == a.tasks && b.sent == a.sent
    ensures AllOwned(b)
  {
    forall run | run in b.tasks ensures TaskOwned(b, run, b.tasks[run]) {
      assert TaskOwned(a, run, a.tasks[run]);
    }
  }

  /** A step that changes neither a ledger nor an intent nor a goroutine's stage. */
  ghost predicate LeavesTurns(s: State, s': State) {
    && s'.db.ledgers == s.db.ledgers && s'.db.intents == s.db.intents && s'.sent == s.sent
    && (s'.tasks == s.tasks || s'.tasks == map[])
  }

  lemma ServingSideStep(s: State, step: Step)
    requires Enabled(s, step) && (step.Create? || step.LookUp? || step.CheckInterrupt? || step.Crash?)
    ensures LeavesTurns(s, Do(s, step))
  {
  }

  lemma RecoverySideStep(s: State, step: Step)
    requires Enabled(s, step) && (step.QueryDangling? || step.QueryRunning? || step.SweepNext?)
    ensures LeavesTurns(s, Do(s, step))
  {
  }

  lemma SideOwned(s: State, step: Step)
    requires AllOwned(s) && Enabled(s, step)
    requires step.Create? || step.LookUp? || step.CheckInterrupt? || step.Crash?
             || step.QueryDangling? || step.QueryRunning? || step.SweepNext?
    ensures AllOwned(Do(s, step))
  {
    if step.Create? || step.LookUp? || step.CheckInterrupt? || step.Crash? {
      ServingSideStep(s, step);
    } else {
      RecoverySideStep(s, step);
    }
    SideWrite(s, Do(s, step).db);
  }

  lemma StepOwned(s: State, step: Step)
    requires Inv(s) && AllOwned(s) && Enabled(s, step) && Serialised(s, step)
    ensures AllOwned(Do(s, step))
  {
    match step
    case Send(_, _, _, _, _, _) => SendOwned(s, step);
    case Advance(run, input) => AdvanceOwned(s, run, input);
    case AdvanceInterrupt(k) => InterrupterOwned(s, k);
    case InterruptAtOnce(sid) => InterruptAtOnceKeeps(s, sid);
    case Delete(sid) => DeleteOwned(s, sid);
    case SettleNext => SettleOwned(s);
    case _ => SideOwned(s, step);
  }

  /** So far, every Send came before its intent was recorded. */
  ghost predicate SerialisedUntil(states: seq<State>, steps: seq<Step>, i: nat) {
    IsRun(states, steps) && i < |states| && forall k :: 0 <= k < i ==> Serialised(states[k], steps[k])
  }

  lemma {:induction false} RunOwned(states: seq<State>, steps: seq<Step>, i: nat)
    requires SerialisedUntil(states, steps, i)
    ensures AllOwned(states[i])
  {
    if i > 0 {
      RunOwned(states, steps, i - 1);
      RunKeepsInv(states, steps, i - 1);
      StepOwned(states[i - 1], steps[i - 1]);
    }
  }

  /**
   With Sends serialised, in every state of every run, crashes included: two user messages, or two
   run_started events, never belong to runs sent with the same non-empty intent.
   */
  lemma OneTurnPerIntent(states: seq<State>, steps: seq<Step>, i: nat, sid: SessionId, p: nat, q: nat)
    requires IsSerialisedRun(states, steps) && i < |states|
    requires var es := LedgerOf(states[i].db, sid);
             && p < q < |es| && SameKind(es[p], es[q]) && es[p].run in states[i].sent && es[q].run in states[i].sent
    ensures var es, sent := LedgerOf(states[i].db, sid), states[i].sent;
            sent[es[p].run] == sent[es[q].run] ==> sent[es[p].run].1 == ""
  {
    RunOwned(states, steps, i);
    var s, es := states[i], LedgerOf(states[i].db, sid);
    assert OpensOnce(s.sent, es) && Owned(s.db, s.sent, sid, es[p]) && Owned(s.db, s.sent, sid, es[q]);
  }
}
