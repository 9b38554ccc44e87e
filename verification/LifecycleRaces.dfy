/**
 What the unserialised interleavings do, exactly: a Send registered after a stale lookup, a session deleted
 under its run, and an Interrupt that writes after a Send has started a run.
 */
module LifecycleRaces {
  import opened Ledger
  import opened Alternation
  import opened Tables
  import Recovery
  import opened Lifecycle
  import opened LifecycleSafety
  import LifecycleProjection
  import opened LifecycleRuns
  import opened Turn

  // ---------- A second turn for an intent ----------

  datatype Opening = Message | Beginning

  predicate IsOpening(kind: Opening, e: Event) {
    if kind.Message? then e.body.UserMessage? else e.body.RunStarted?
  }

  /** The event opens a turn that was sent with this intent. */
  predicate OfIntent(sent: map<RunId, (SessionId, IntentId)>, key: (SessionId, IntentId), kind: Opening, e: Event) {
    IsOpening(kind, e) && e.run in sent && sent[e.run] == key
  }

  predicate OwnsOne(sent: map<RunId, (SessionId, IntentId)>, key: (SessionId, IntentId), kind: Opening,
                    es: seq<Event>) {
    exists p :: 0 <= p < |es| && OfIntent(sent, key, kind, es[p])
  }

  predicate OwnsTwo(sent: map<RunId, (SessionId, IntentId)>, key: (SessionId, IntentId), kind: Opening,
                    es: seq<Event>) {
    exists p, q :: 0 <= p < q < |es| && OfIntent(sent, key, kind, es[p]) && OfIntent(sent, key, kind, es[q])
  }

  lemma OneMoreIsTwo(sent: map<RunId, (SessionId, IntentId)>, key: (SessionId, IntentId), kind: Opening,
                     es: seq<Event>, e: Event)
    requires OfIntent(sent, key, kind, e)
    ensures OwnsTwo(sent, key, kind, es + [e]) <==> OwnsOne(sent, key, kind, es)
  {
    var more := es + [e];
    assert more[|es|] == e && forall p :: 0 <= p < |es| ==> more[p] == es[p];
    if OwnsOne(sent, key, kind, es) {
      var p :| 0 <= p < |es| && OfIntent(sent, key, kind, es[p]);
      assert OfIntent(sent, key, kind, more[p]) && OfIntent(sent, key, kind, more[|es|]);
    }
  }

  lemma OtherAppended(sent: map<RunId, (SessionId, IntentId)>, key: (SessionId, IntentId), kind: Opening,
                      es: seq<Event>, e: Event)
    requires !IsOpening(kind, e)
    ensures OwnsOne(sent, key, kind, es + [e]) <==> OwnsOne(sent, key, kind, es)
  {
    var more := es + [e];
    assert more[|es|] == e && forall p :: 0 <= p < |es| ==> more[p] == es[p];
    if OwnsOne(sent, key, kind, es) {
      var p :| 0 <= p < |es| && OfIntent(sent, key, kind, es[p]);
      assert OfIntent(sent, key, kind, more[p]);
    }
  }

  lemma FreshOwnsNothing(s: State, sid: SessionId, run: RunId, key: (SessionId, IntentId), kind: Opening)
    requires FreshRun(s, run)
    ensures OwnsOne(s.sent[run := key], key, kind, LedgerOf(s.db, sid)) <==>
            OwnsOne(s.sent, key, kind, LedgerOf(s.db, sid))
  {
    var es, sent' := LedgerOf(s.db, sid), s.sent[run := key];
    forall p | 0 <= p < |es| ensures OfIntent(sent', key, kind, es[p]) <==> OfIntent(s.sent, key, kind, es[p]) {
      assert es[p] in es;
    }
    if OwnsOne(s.sent, key, kind, es) {
      var p :| 0 <= p < |es| && OfIntent(s.sent, key, kind, es[p]);
      assert OfIntent(sent', key, kind, es[p]);
    }
  }

  const TWO: seq<Input> := [Go] + [Go]
  const FIVE: seq<Input> := [Go] + [Go, Go] + [Go] + [Go]

  lemma LedgerAppended(db: Db, sid: SessionId, run: RunId, body: Body)
    ensures var es := LedgerOf(db, sid);
            && LedgerOf(Append(db, sid, run, body), sid) == es + [NextEvent(es, run, body)]
            && LedgerOf(Commit(db, sid, run, body), sid) == es + [NextEvent(es, run, body)]
  {
  }

  /** The first two steps of a goroutine record its intent and append its user message. */
  lemma FirstTwo(db: Db, sid: SessionId, run: RunId, intent: IntentId, message: string, images: seq<Image>)
    returns (e: Event)
    requires intent != ""
    ensures var p := All(Start(run, db, sid, intent, message, images), TWO);
            p.accepted && LedgerOf(p.db, sid) == LedgerOf(db, sid) + [e]
    ensures e.run == run && e.body == UserMessage(message, images)
  {
    var p := Start(run, db, sid, intent, message, images);
    var db1, t := PutIntent(db, sid, intent, run), p.task.(stage := AtUserAppend);
    e := NextEvent(LedgerOf(db, sid), run, UserMessage(message, images));
    IntentRecorded(p);
    AllOne(At(run, db1, t, AtUserAppend), Go);
    AppendStep(db1, run, t, AtUserAppend, e.body, AtCreateRun);
    Chain(p, [Go], At(run, db1, t, AtUserAppend), [Go], OneStep(At(run, db1, t, AtUserAppend), Go));
    LedgerAppended(db1, sid, run, e.body);
  }

  /** The first five also create its runs row and append its run_started. */
  lemma FirstFive(db: Db, sid: SessionId, run: RunId, intent: IntentId, message: string, images: seq<Image>)
    returns (e: Event, f: Event)
    requires intent != ""
    ensures var p := All(Start(run, db, sid, intent, message, images), FIVE);
            p.accepted && LedgerOf(p.db, sid) == LedgerOf(db, sid) + [e] + [f]
    ensures e.run == run && e.body == UserMessage(message, images) && f.run == run && f.body == RunStarted
  {
    var p := Start(run, db, sid, intent, message, images);
    var db1, t := PutIntent(db, sid, intent, run), p.task.(stage := AtUserAppend);
    var db2 := Commit(db1, sid, run, UserMessage(message, images));
    var db3 := CreateRun(db2, run, sid);
    e := NextEvent(LedgerOf(db, sid), run, UserMessage(message, images));
    f := NextEvent(LedgerOf(db3, sid), run, RunStarted);
    var p1, p2, p3 := At(run, db1, t, AtUserAppend), At(run, db2, t, AtCreateRun), At(run, db3, t, AtStartAppend);
    IntentRecorded(p);
    CommitSteps(db1, run, t, AtUserAppend, e.body, AtCreateRun);
    RowCreated(db2, run, t);
    AllOne(p3, Go);
    AppendStep(db3, run, t, AtStartAppend, RunStarted, AtTouchRunning);
    Chain(p, [Go], p1, [Go, Go], p2);
    Chain(p, [Go] + [Go, Go], p2, [Go], p3);
    Chain(p, [Go] + [Go, Go] + [Go], p3, [Go], OneStep(p3, Go));
    LedgerAppended(db1, sid, run, e.body);
    LedgerAppended(db3, sid, run, RunStarted);
  }

  lemma RegisteredStart(s: State, q: nat, sid: SessionId, run: RunId, intent: IntentId, message: string,
                        images: seq<Image>)
    ensures var s' := Registered(s, q, sid, run, intent, message, images);
            && s' == Moved(s', Start(run, s.db, sid, intent, message, images))
                && s'.sent == s.sent[run := (sid, intent)]
  {
  }

  /**
   When a Send's turn is its intent's second, whatever the Send looked up and when: after its first two steps the
   intent owns two user messages exactly when it owned one at registration, and after its first five it owns two
   run_started events exactly when it owned one then.
   */
  lemma SecondTurnIffOwned(s: State, q: nat, sid: SessionId, run: RunId, intent: IntentId, message: string,
                           images: seq<Image>)
    requires intent != "" && Enabled(s, Send(q, sid, run, intent, message, images))
    ensures var key, sent := (sid, intent), s.sent[run := (sid, intent)];
            var p, q := Start(run, s.db, sid, intent, message, images), LedgerOf(s.db, sid);
            && All(p, TWO).accepted && All(p, FIVE).accepted
            && (OwnsTwo(sent, key, Message, LedgerOf(All(p, TWO).db, sid)) <==> OwnsOne(s.sent, key, Message, q))
            && (OwnsTwo(sent, key, Beginning, LedgerOf(All(p, FIVE).db, sid)) <==> OwnsOne(s.sent, key, Beginning, q))
  {
    var key, sent, es := (sid, intent), s.sent[run := (sid, intent)], LedgerOf(s.db, sid);
    var e := FirstTwo(s.db, sid, run, intent, message, images);
    FreshOwnsNothing(s, sid, run, key, Message);
    OneMoreIsTwo(sent, key, Message, es, e);
    var e', f := FirstFive(s.db, sid, run, intent, message, images);
    FreshOwnsNothing(s, sid, run, key, Beginning);
    OtherAppended(sent, key, Beginning, es, e');
    OneMoreIsTwo(sent, key, Beginning, es + [e'], f);
  }

  // ---------- A goroutine whose ledger was settled under it ----------

  predicate BoundaryStage(stage: Stage) {
    stage.AtStartAppend? || stage.AtFinishAppend?
  }

  /** Alternating boundaries, and none unmatched. */
  predicate Quiet(es: seq<Event>) {
    Alternates(es) && Settled(es)
  }

  /** The goroutine is there, at a stage that is open or not, and its session's ledger is quiet. */
  ghost predicate Waits(s: State, run: RunId, sid: SessionId, open: bool) {
    && run in s.tasks && s.tasks[run].session == sid && (OpenStage(s.tasks[run].stage) <==> open)
    && Quiet(LedgerOf(s.db, sid))
  }

  lemma QuietAppend(es: seq<Event>, e: Event)
    requires Quiet(es)
    ensures if IsBoundary(e) then Alternates(es + [e]) <==> e.body.RunStarted? else Quiet(es + [e])
  {
    AlternatesAppend(es, e);
    LastBoundaryAppend(es, e);
  }

  lemma NonBoundaryWrite(run: RunId, t: Task, input: Input)
    requires Accepts(t.stage, input) && !BoundaryStage(t.stage)
    ensures var w := NextWrite(run, t, input); w.AppendBody? ==> !w.body.RunStarted? && !w.body.RunFinished?
  {
  }

  lemma NonBoundaryMove(db: Db, t: Task, input: Input)
    requires Accepts(t.stage, input) && !BoundaryStage(t.stage)
    ensures TaskMoves(db, t, input).session == t.session
    ensures OpenStage(TaskMoves(db, t, input).stage) <==> OpenStage(t.stage)
  {
  }

  lemma WriteAppliesTo(db: Db, sid: SessionId, run: RunId, w: Write, other: SessionId)
    ensures LedgerOf(Apply(db, sid, run, w), other) ==
            if w.AppendBody? && other == sid then LedgerOf(db, sid) + [NextEvent(LedgerOf(db, sid), run, w.body)]
            else LedgerOf(db, other)
  {
  }

  lemma OwnStepWaits(s: State, run: RunId, input: Input, sid: SessionId, open: bool)
    requires Waits(s, run, sid, open) && Accepts(s.tasks[run].stage, input)
    requires !BoundaryStage(s.tasks[run].stage) && !s.tasks[run].stage.AtRelease?
    ensures Waits(Advanced(s, run, input), run, sid, open)
  {
    var t := s.tasks[run];
    var w := NextWrite(run, t, input);
    NonBoundaryWrite(run, t, input);
    NonBoundaryMove(s.db, t, input);
    WriteAppliesTo(s.db, sid, run, w, sid);
    if w.AppendBody? {
      QuietAppend(LedgerOf(s.db, sid), NextEvent(LedgerOf(s.db, sid), run, w.body));
    }
  }

  lemma OtherTaskWaits(s: State, other: RunId, input: Input, run: RunId, sid: SessionId, open: bool)
    requires LocksMatch(s) && Waits(s, run, sid, open) && other in s.tasks && other != run
    ensures Waits(Advanced(s, other, input), run, sid, open)
  {
    assert s.tasks[other].session != sid;
    WriteAppliesTo(s.db, s.tasks[other].session, other, NextWrite(other, s.tasks[other], input), sid);
  }

  lemma OtherInterrupterWaits(s: State, k: nat, run: RunId, sid: SessionId, open: bool)
    requires Waits(s, run, sid, open) && k in s.interrupters && s.interrupters[k].session != sid
    ensures Waits(Interrupting(s, k), run, sid, open)
  {
    var i := s.interrupters[k];
    assert LedgerOf(InterrupterWrites(s.db, i), sid) == LedgerOf(s.db, sid);
  }

  lemma NothingIsQuiet()
    ensures Quiet([])
  {
  }

  lemma DeletedWaits(s: State, other: SessionId, run: RunId, sid: SessionId, open: bool)
    requires Waits(s, run, sid, open)
    ensures Waits(s.(db := DeleteSession(s.db, other)), run, sid, open)
  {
    NothingIsQuiet();
    DeleteRemovesExactlyTheSession(s.db, other);
  }

  lemma PlainWaits(s: State, step: Step, run: RunId, sid: SessionId, open: bool)
    requires Waits(s, run, sid, open) && Enabled(s, step)
             && (step.Create? || step.LookUp? || step.Send? || step.CheckInterrupt?)
    ensures Waits(Do(s, step), run, sid, open)
  {
  }

  /** No interrupter of this session writes in this step. */
  predicate Uninterrupted(s: State, step: Step, sid: SessionId) {
    step.AdvanceInterrupt? && step.k in s.interrupters ==> s.interrupters[step.k].session != sid
  }

  predicate AppendsBoundary(s: State, step: Step, run: RunId) {
    step.Advance? && step.run == run && run in s.tasks && BoundaryStage(s.tasks[run].stage)
  }

  lemma AdvanceWaits(s: State, other: RunId, input: Input, run: RunId, sid: SessionId, open: bool)
    requires LocksMatch(s) && Enabled(s, Advance(other, input)) && Waits(s, run, sid, open)
    requires run in Advanced(s, other, input).tasks && !AppendsBoundary(s, Advance(other, input), run)
    ensures Waits(Advanced(s, other, input), run, sid, open)
  {
    if other == run {
      OwnStepWaits(s, run, input, sid, open);
    } else {
      OtherTaskWaits(s, other, input, run, sid, open);
    }
  }

  lemma RequestWaits(s: State, step: Step, run: RunId, sid: SessionId, open: bool)
    requires s.mode.Serving? && Enabled(s, step) && Waits(s, run, sid, open) && run in Do(s, step).tasks
    requires Uninterrupted(s, step, sid) && !step.Advance? && !step.InterruptAtOnce?
    ensures Waits(Do(s, step), run, sid, open)
  {
    match step
    case AdvanceInterrupt(k) => OtherInterrupterWaits(s, k, run, sid, open);
    case Delete(other) => DeletedWaits(s, other, run, sid, open);
    case _ => PlainWaits(s, step, run, sid, open);
  }

  lemma ServesWithTasks(s: State, run: RunId)
    requires Inv(s) && run in s.tasks
    ensures s.mode.Serving? && LocksMatch(s)
  {
  }

  lemma StepWaits(s: State, step: Step, run: RunId, sid: SessionId, open: bool)
    requires Inv(s) && Enabled(s, step) && Waits(s, run, sid, open) && run in Do(s, step).tasks
    requires Uninterrupted(s, step, sid) && !AppendsBoundary(s, step, run)
    ensures Waits(Do(s, step), run, sid, open)
  {
    ServesWithTasks(s, run);
    if step.Advance? {
      AdvanceWaits(s, step.run, step.input, run, sid, open);
    } else if step.InterruptAtOnce? {
      InterruptAtOnceKeeps(s, step.sid);
    } else {
      RequestWaits(s, step, run, sid, open);
    }
  }

  /** From i to j the goroutine runs, and no interrupter writes to its session. */
  ghost predicate LeftToRun(states: seq<State>, steps: seq<Step>, i: nat, j: nat, sid: SessionId, run: RunId)
    requires |states| == |steps| + 1
  {
    && i <= j < |steps|
    && (forall k :: i <= k <= j ==> run in states[k].tasks)
    && (forall k :: i <= k < j ==> Uninterrupted(states[k], steps[k], sid))
  }

  /** And j is where it appends its next boundary. */
  ghost predicate NextBoundaryAt(states: seq<State>, steps: seq<Step>, i: nat, j: nat, sid: SessionId, run: RunId)
    requires |states| == |steps| + 1
  {
    && LeftToRun(states, steps, i, j, sid, run) && AppendsBoundary(states[j], steps[j], run)
    && (forall k :: i <= k < j ==> !AppendsBoundary(states[k], steps[k], run))
  }

  ghost predicate WaitsOn(a: State, b: State, run: RunId, sid: SessionId, open: bool) {
    Waits(a, run, sid, open) ==> Waits(b, run, sid, open)
  }

  lemma StepOfRunWaits(states: seq<State>, steps: seq<Step>, k: nat, sid: SessionId, run: RunId, open: bool)
    requires IsRun(states, steps) && k < |steps| && run in states[k + 1].tasks
    requires Uninterrupted(states[k], steps[k], sid) && !AppendsBoundary(states[k], steps[k], run)
    ensures WaitsOn(states[k], states[k + 1], run, sid, open)
  {
    RunKeepsInv(states, steps, k);
    if Waits(states[k], run, sid, open) {
      StepWaits(states[k], steps[k], run, sid, open);
    }
  }

  lemma {:induction false} WaitsTo(states: seq<State>, i: nat, j: nat, sid: SessionId, run: RunId, open: bool)
    requires i <= j < |states| && Waits(states[i], run, sid, open)
    requires forall k :: i < k <= j ==> WaitsOn(states[k - 1], states[k], run, sid, open)
    ensures Waits(states[j], run, sid, open)
  {
    if i < j {
      WaitsTo(states, i, j - 1, sid, run, open);
      assert WaitsOn(states[j - 1], states[j], run, sid, open);
    }
  }

  lemma UntilBoundary(states: seq<State>, steps: seq<Step>, i: nat, j: nat, k: nat, sid: SessionId, run: RunId)
    requires |states| == |steps| + 1 && NextBoundaryAt(states, steps, i, j, sid, run) && i <= k < j
    ensures run in states[k + 1].tasks
    ensures Uninterrupted(states[k], steps[k], sid) && !AppendsBoundary(states[k], steps[k], run)
  {
  }

  lemma WaitsOnce(states: seq<State>, steps: seq<Step>, i: nat, j: nat, k: nat, sid: SessionId, run: RunId, open: bool)
    requires IsRun(states, steps) && NextBoundaryAt(states, steps, i, j, sid, run) && i < k <= j
    ensures WaitsOn(states[k - 1], states[k], run, sid, open)
  {
    UntilBoundary(states, steps, i, j, k - 1, sid, run);
    StepOfRunWaits(states, steps, k - 1, sid, run, open);
  }

  lemma WaitsForBoundary(states: seq<State>, steps: seq<Step>, i: nat, j: nat, sid: SessionId, run: RunId, open: bool)
    requires IsRun(states, steps) && NextBoundaryAt(states, steps, i, j, sid, run) && Waits(states[i], run, sid, open)
    ensures Waits(states[j], run, sid, open)
  {
    forall k | i < k <= j ensures WaitsOn(states[k - 1], states[k], run, sid, open) {
      WaitsOnce(states, steps, i, j, k, sid, run, open);
    }
    WaitsTo(states, i, j, sid, run, open);
  }

  lemma BoundaryWrite(s: State, run: RunId, input: Input, sid: SessionId, open: bool)
    requires Waits(s, run, sid, open) && BoundaryStage(s.tasks[run].stage) && Accepts(s.tasks[run].stage, input)
    ensures Alternates(LedgerOf(Advanced(s, run, input).db, sid)) <==> !open
  {
    var t, es := s.tasks[run], LedgerOf(s.db, sid);
    WriteAppliesTo(s.db, sid, run, NextWrite(run, t, input), sid);
    QuietAppend(es, NextEvent(es, run, NextWrite(run, t, input).body));
  }

  /** A goroutine whose ledger is quiet breaks the alternation with its next boundary exactly if its stage is open. */
  lemma NextBoundaryBreaksIffOpen(states: seq<State>, steps: seq<Step>, i: nat, j: nat, sid: SessionId, run: RunId)
    requires IsRun(states, steps) && NextBoundaryAt(states, steps, i, j, sid, run)
    requires states[i].tasks[run].session == sid && Quiet(LedgerOf(states[i].db, sid))
    ensures Alternates(LedgerOf(states[j + 1].db, sid)) <==> !OpenStage(states[i].tasks[run].stage)
  {
    var open := OpenStage(states[i].tasks[run].stage);
    WaitsForBoundary(states, steps, i, j, sid, run, open);
    BoundaryWrite(states[j], run, steps[j].input, sid, open);
  }

  // ---------- Deleting a session, and interrupting it late ----------

  lemma ActiveTask(states: seq<State>, steps: seq<Step>, i: nat, sid: SessionId)
    requires IsRun(states, steps) && i < |states| && states[i].mode.Serving? && sid in states[i].active
    ensures var run := states[i].active[sid]; run in states[i].tasks && states[i].tasks[run].session == sid
  {
    RunKeepsInv(states, steps, i);
  }

  /**
   Deleting a session under its run, in any run of the process: the goroutine's next boundary, whatever falls between,
   keeps the boundaries alternating exactly if at the deletion the run was not between its start and its finish.
   */
  lemma DeleteBreaksIffOpen(states: seq<State>, steps: seq<Step>, i: nat, j: nat, sid: SessionId)
    requires IsRun(states, steps) && i < |steps| && steps[i] == Delete(sid) && sid in states[i].active
    requires NextBoundaryAt(states, steps, i + 1, j, sid, states[i].active[sid])
    ensures states[i].active[sid] in states[i].tasks
    ensures Alternates(LedgerOf(states[j + 1].db, sid)) <==> !OpenStage(states[i].tasks[states[i].active[sid]].stage)
  {
    ActiveTask(states, steps, i, sid);
    NothingIsQuiet();
    DeleteRemovesExactlyTheSession(states[i].db, sid);
    assert states[i + 1] == states[i].(db := DeleteSession(states[i].db, sid));
    NextBoundaryBreaksIffOpen(states, steps, i + 1, j, sid, states[i].active[sid]);
  }

  lemma FoundWrites(s: State, k: nat)
    requires Enabled(s, AdvanceInterrupt(k)) && s.interrupters[k].Found?
    ensures var i, s' := s.interrupters[k], Do(s, AdvanceInterrupt(k));
            var es := LedgerOf(s.db, i.session);
            && LedgerOf(s'.db, i.session) == es + [NextEvent(es, i.run, RunFinished(Interrupted))]
            && s'.tasks == s.tasks && s'.active == s.active
  {
  }

  /**
   An interrupter that has found a dangling run and now finishes it, in any run of the process: the boundaries still
   alternate exactly if that run is still the live one; and then a goroutine is running it.
   */
  lemma LateInterruptKeepsIffLive(states: seq<State>, steps: seq<Step>, i: nat, k: nat, sid: SessionId, run: RunId)
    requires IsRun(states, steps) && i < |steps| && steps[i] == AdvanceInterrupt(k)
    requires k in states[i].interrupters && states[i].interrupters[k] == Found(sid, run)
    ensures var es := LedgerOf(states[i].db, sid);
            Alternates(LedgerOf(states[i + 1].db, sid)) <==> Alternates(es) && Live(es) && LiveRun(es) == run
    ensures Alternates(LedgerOf(states[i + 1].db, sid)) ==>
              HasOpenTask(states[i], sid) && states[i + 1].tasks == states[i].tasks
                  && Quiet(LedgerOf(states[i + 1].db, sid))
  {
    var s, es := states[i], LedgerOf(states[i].db, sid);
    var e := NextEvent(es, run, RunFinished(Interrupted));
    FoundWrites(s, k);
    AlternatesAppend(es, e);
    LastBoundaryAppend(es, e);
    RunKeepsInv(states, steps, i);
    if Live(es) {
      assert sid in LiveSessions(s.db.ledgers);
    }
  }

  /**
   So once a late interrupter writes, the boundaries break: at once, or else when the goroutine it finished under
   finishes too, whatever falls between, unless the process crashes first.
   */
  lemma LateInterruptBreaks(states: seq<State>, steps: seq<Step>, i: nat, j: nat, k: nat, sid: SessionId, run: RunId)
    requires IsRun(states, steps) && i < j < |steps| && steps[i] == AdvanceInterrupt(k)
    requires k in states[i].interrupters && states[i].interrupters[k] == Found(sid, run)
    requires sid in states[i].active ==> NextBoundaryAt(states, steps, i + 1, j, sid, states[i].active[sid])
    ensures !Alternates(LedgerOf(states[i + 1].db, sid)) || !Alternates(LedgerOf(states[j + 1].db, sid))
  {
    LateInterruptKeepsIffLive(states, steps, i, k, sid, run);
    if Alternates(LedgerOf(states[i + 1].db, sid)) {
      RunKeepsInv(states, steps, i);
      NextBoundaryBreaksIffOpen(states, steps, i + 1, j, sid, states[i].active[sid]);
    }
  }

  // ---------- A late finish of another run ----------

  /** A finish of another run hides the live one from recovery, which adds nothing to the ledger and ends its row. */
  lemma HidesLiveRun(db: Db, sid: SessionId, other: RunId)
    requires Live(LedgerOf(db, sid)) && LiveRun(LedgerOf(db, sid)) != other
    ensures var es, after := LedgerOf(db, sid), Recovery.Reconcile(Append(db, sid, other, RunFinished(Interrupted)));
            var run := LiveRun(es);
            && LedgerOf(after, sid) == es + [NextEvent(es, other, RunFinished(Interrupted))]
            && Alternation.Starts(LedgerOf(after, sid), run)
            && (Finishes(LedgerOf(after, sid), run) <==> Finishes(es, run))
            && (run in db.runs && db.runs[run].state == Running ==>
                  run in after.runs && after.runs[run].state == Interrupted)
  {
    var es, db' := LedgerOf(db, sid), Append(db, sid, other, RunFinished(Interrupted));
    OtherFinish(es, NextEvent(es, other, RunFinished(Interrupted)));
    LedgerAppended(db, sid, other, RunFinished(Interrupted));
    Recovery.ReconcileSettlesLedger(db', sid);
    if LiveRun(es) in db.runs && db.runs[LiveRun(es)].state == Running {
      RunningIsInterrupted(db', LiveRun(es));
    }
  }

  lemma OtherFinish(es: seq<Event>, e: Event)
    requires Live(es) && e.body.RunFinished? && e.run != LiveRun(es)
    ensures Recovery.SettledLedger(es + [e]) == es + [e]
    ensures Alternation.Starts(es + [e], LiveRun(es))
    ensures Finishes(es + [e], LiveRun(es)) <==> Finishes(es, LiveRun(es))
  {
    var more := es + [e];
    LastBoundaryAppend(es, e);
    assert more[LastBoundary(es)] in more;
    assert forall f :: f in more <==> f in es || f == e;
  }

  lemma RunningIsInterrupted(db: Db, run: RunId)
    requires run in db.runs && db.runs[run].state == Running
    ensures run in Recovery.Reconcile(db).runs && Recovery.Reconcile(db).runs[run].state == Interrupted
  {
  }

  /**
   An interrupter finishes a run that is not the live one any more,
       and the process crashes before that one finishes: once
   recovered, its row is terminal and it has a run_started, and no run_finished unless it already had one.
   */
  lemma LateFinishHidesRun(states: seq<State>, steps: seq<Step>, i: nat, j: nat, k: nat, sid: SessionId, other: RunId)
    requires IsRun(states, steps) && i + 2 <= j < |steps| && steps[i] == AdvanceInterrupt(k) && steps[i + 1] == Crash
    requires k in states[i].interrupters && states[i].interrupters[k] == Found(sid, other)
    requires forall m :: i + 2 <= m <= j ==> !steps[m].Crash?
    requires !states[j].mode.Serving? && states[j + 1].mode.Serving?
    requires var es := LedgerOf(states[i].db, sid);
             && Live(es) && LiveRun(es) != other
             && LiveRun(es) in states[i].db.runs && states[i].db.runs[LiveRun(es)].state == Running
    ensures var es, run, db := LedgerOf(states[i].db, sid), LiveRun(LedgerOf(states[i].db, sid)), states[j + 1].db;
            && Alternation.Starts(LedgerOf(db, sid), run) && run in db.runs && db.runs[run].state == Interrupted
            && (Finishes(LedgerOf(db, sid), run) <==> Finishes(es, run))
  {
    InterrupterThenCrash(states, steps, i, k, sid, other);
    LifecycleProjection.ServingBeginsStale(states, steps, i + 2, j);
    HidesLiveRun(states[i].db, sid, other);
  }

  lemma InterrupterThenCrash(states: seq<State>, steps: seq<Step>, i: nat, k: nat, sid: SessionId, other: RunId)
    requires IsRun(states, steps) && i + 1 < |steps| && steps[i] == AdvanceInterrupt(k) && steps[i + 1] == Crash
    requires k in states[i].interrupters && states[i].interrupters[k] == Found(sid, other)
    ensures states[i + 2].mode.Starting?
    ensures states[i + 2].db == Append(states[i].db, sid, other, RunFinished(Interrupted))
  {
    assert states[i + 1] == Do(states[i], steps[i]);
    assert states[i + 2] == Do(states[i + 1], steps[i + 1]);
  }
}
