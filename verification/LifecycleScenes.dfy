/** Building blocks of concrete runs: one session "s", whose turns all say "hi" and succeed. */
module LifecycleScenes {
  import opened Ledger
  import opened Tables
  import opened Lifecycle
  import opened LifecycleRuns
  import opened Turn

  // ---------- The tables ----------

  type Intents = map<(SessionId, IntentId), RunId>
  type Runs = map<RunId, RunRow>

  /** The tables while "s" is the only session. */
  function Alone(es: seq<Event>, runs: Runs, row: Recent, intents: Intents): Db {
    Db({"s"}, if es == [] then map[] else map["s" := es], runs, map["s" := row], intents)
  }

  /** One session, nothing said yet. */
  const SEEDED := Alone([], map[], Recent(0, "", NoState, ""), map[])

  function Said(es: seq<Event>, run: RunId): seq<Event> {
    es + [Event(|es| + 1, run, UserMessage("hi", []))]
  }

  function Begun(es: seq<Event>, run: RunId): seq<Event> {
    Said(es, run) + [Event(|es| + 2, run, RunStarted)]
  }

  function Finished(es: seq<Event>, run: RunId, end: RunState): seq<Event> {
    es + [Event(|es| + 1, run, RunFinished(end))]
  }

  function Noted(intents: Intents, intent: IntentId, run: RunId): Intents {
    if intent != "" then intents[("s", intent) := run] else intents
  }

  function Opened(es: seq<Event>, runs: Runs, intents: Intents, run: RunId, intent: IntentId): Db {
    Alone(Begun(es, run), runs[run := RunRow("s", Running)], Recent(|es| + 2, run, Running, "hi"),
          Noted(intents, intent, run))
  }

  function Closed(es: seq<Event>, runs: Runs, intents: Intents, run: RunId): Db {
    Alone(Finished(es, run, Done), runs[run := RunRow("s", Done)], Recent(|es| + 1, "", Done, ""), intents)
  }

  lemma AppendsAlone(es: seq<Event>, e: Event, runs: Runs, row: Recent, intents: Intents)
    requires Numbered(es) && e.seqNo == |es| + 1
    ensures Append(Alone(es, runs, row, intents), "s", e.run, e.body) == Alone(es + [e], runs, row, intents)
  {
    NumberedMax(es);
    assert NextEvent(es, e.run, e.body) == e;
  }

  lemma CommitsAlone(es: seq<Event>, e: Event, runs: Runs, row: Recent, intents: Intents)
    requires Numbered(es) && row.lastSeq == |es| && e.seqNo == |es| + 1
    ensures Commit(Alone(es, runs, row, intents), "s", e.run, e.body) ==
            Alone(es + [e], runs, row.(lastSeq := |es| + 1), intents)
  {
    NumberedMax(es);
    AppendsAlone(es, e, runs, row, intents);
  }

  lemma NotesIntent(es: seq<Event>, runs: Runs, row: Recent, intents: Intents, run: RunId, intent: IntentId)
    requires intent != "" ==> ("s", intent) !in intents
    ensures (if intent != "" then PutIntent(Alone(es, runs, row, intents), "s", intent, run)
             else Alone(es, runs, row, intents)) == Alone(es, runs, row, Noted(intents, intent, run))
  {
  }

  lemma RowOpens(es: seq<Event>, runs: Runs, row: Recent, intents: Intents, run: RunId)
    requires run !in runs
    ensures CreateRun(Alone(es, runs, row, intents), run, "s") ==
            Alone(es, runs[run := RunRow("s", Running)], row, intents)
  {
  }

  lemma SaysFirst(es: seq<Event>, runs: Runs, row: Recent, intents: Intents, run: RunId)
    requires Numbered(es) && row.lastSeq == |es| && run !in runs
    ensures CreateRun(Commit(Alone(es, runs, row, intents), "s", run, UserMessage("hi", [])), run, "s") ==
            Alone(Said(es, run), runs[run := RunRow("s", Running)], row.(lastSeq := |es| + 1), intents)
  {
    CommitsAlone(es, Event(|es| + 1, run, UserMessage("hi", [])), runs, row, intents);
    RowOpens(Said(es, run), runs, row.(lastSeq := |es| + 1), intents, run);
  }

  lemma StartsThen(es: seq<Event>, runs: Runs, row: Recent, intents: Intents, run: RunId)
    requires Numbered(es) && row.lastSeq == |es|
    ensures UpdateRecentMeta(Commit(Alone(es, runs, row, intents), "s", run, RunStarted), "s", Preview("hi"), run,
                             Running) ==
            Alone(es + [Event(|es| + 1, run, RunStarted)], runs, Recent(|es| + 1, run, Running, "hi"), intents)
  {
    CommitsAlone(es, Event(|es| + 1, run, RunStarted), runs, row, intents);
    TouchOpens(es + [Event(|es| + 1, run, RunStarted)], runs, row.(lastSeq := |es| + 1), intents, run);
  }

  lemma TouchOpens(es: seq<Event>, runs: Runs, row: Recent, intents: Intents, run: RunId)
    ensures UpdateRecentMeta(Alone(es, runs, row, intents), "s", Preview("hi"), run, Running) ==
            Alone(es, runs, Recent(row.lastSeq, run, Running, "hi"), intents)
  {
  }

  lemma OpensTables(es: seq<Event>, runs: Runs, row: Recent, intents: Intents, run: RunId, intent: IntentId)
    requires Numbered(es) && row.lastSeq == |es| && run !in runs && (intent != "" ==> ("s", intent) !in intents)
    ensures TurnOpened(Alone(es, runs, row, intents), "s", run, intent, "hi", []) ==
            Opened(es, runs, intents, run, intent)
  {
    NotesIntent(es, runs, row, intents, run, intent);
    OpensNoted(es, runs, row, Noted(intents, intent, run), run);
  }

  lemma OpensNoted(es: seq<Event>, runs: Runs, row: Recent, noted: Intents, run: RunId)
    requires Numbered(es) && row.lastSeq == |es| && run !in runs
    ensures var db1 := CreateRun(Commit(Alone(es, runs, row, noted), "s", run, UserMessage("hi", [])), run, "s");
            UpdateRecentMeta(Commit(db1, "s", run, RunStarted), "s", Preview("hi"), run, Running) ==
            Alone(Begun(es, run), runs[run := RunRow("s", Running)], Recent(|es| + 2, run, Running, "hi"), noted)
  {
    SaysFirst(es, runs, row, noted, run);
    StartsThen(Said(es, run), runs[run := RunRow("s", Running)], row.(lastSeq := |es| + 1), noted, run);
  }

  lemma RowFinishes(es: seq<Event>, runs: Runs, row: Recent, intents: Intents, run: RunId)
    requires run in runs && runs[run] == RunRow("s", Running)
    ensures FinishRun(Alone(es, runs, row, intents), run, Done) ==
            Alone(es, runs[run := RunRow("s", Done)], row, intents)
  {
  }

  lemma ClosesTables(es: seq<Event>, runs: Runs, row: Recent, intents: Intents, run: RunId)
    requires Numbered(es) && row.lastSeq == |es| && run in runs && runs[run] == RunRow("s", Running)
    ensures TurnFinished(Alone(es, runs, row, intents), "s", run, Succeeded, "") == Closed(es, runs, intents, run)
  {
    var row1 := row.(lastSeq := |es| + 1);
    CommitsAlone(es, Event(|es| + 1, run, RunFinished(Done)), runs, row, intents);
    RowFinishes(Finished(es, run, Done), runs, row1, intents, run);
    TouchCloses(Finished(es, run, Done), runs[run := RunRow("s", Done)], row1, intents);
  }

  lemma TouchCloses(es: seq<Event>, runs: Runs, row: Recent, intents: Intents)
    ensures UpdateRecentMeta(Alone(es, runs, row, intents), "s", Preview(""), "", Done) ==
            Alone(es, runs, Recent(row.lastSeq, "", Done, ""), intents)
  {
  }

  // ---------- The process ----------

  /** What goes on beside the one goroutine. */
  datatype Around = Around(interrupters: map<nat, Interrupter>, requests: map<nat, Request>,
                           sent: map<RunId, (SessionId, IntentId)>)

  const NOTHING := Around(map[], map[], map[])

  function Idle(db: Db, a: Around): State {
    State(db, Serving, map[], map[], a.interrupters, a.requests, a.sent)
  }

  function HiTask(intent: IntentId, stage: Stage): Task {
    Task("s", intent, "hi", [], "", stage)
  }

  /** A run of "s" stands at this stage. */
  function Working(db: Db, run: RunId, intent: IntentId, stage: Stage, a: Around): State {
    State(db, Serving, map["s" := run], map[run := HiTask(intent, stage)], a.interrupters, a.requests, a.sent)
  }

  function Asked(a: Around, q: nat, intent: IntentId): Around {
    a.(requests := a.requests[q := Request("s", intent)])
  }

  function Taken(a: Around, q: nat, run: RunId, intent: IntentId): Around {
    a.(requests := a.requests - {q}, sent := a.sent[run := ("s", intent)])
  }

  function Sending(q: nat, run: RunId, intent: IntentId): Step {
    Send(q, "s", run, intent, "hi", [])
  }

  lemma LooksUp(steps: seq<Step>, db: Db, a: Around, q: nat, intent: IntentId)
    requires ReachedBy(steps, Idle(db, a)) && q !in a.requests
    requires "s" in db.sessions && (intent != "" ==> ("s", intent) !in db.intents)
    ensures ReachedBy(steps + [LookUp(q, "s", intent)], Idle(db, Asked(a, q, intent)))
  {
    Then(steps, Idle(db, a), LookUp(q, "s", intent), Idle(db, Asked(a, q, intent)));
  }

  /** Nothing names this run yet. */
  ghost predicate Unnamed(db: Db, a: Around, run: RunId) {
    FreshRun(Idle(db, a), run)
  }

  lemma Sends(steps: seq<Step>, db: Db, a: Around, q: nat, run: RunId, intent: IntentId)
    requires ReachedBy(steps, Idle(db, a)) && q in a.requests && a.requests[q] == Request("s", intent)
             && Unnamed(db, a, run)
    ensures ReachedBy(steps + [Sending(q, run, intent)],
                      Working(db, run, intent, if intent != "" then AtIntent else AtUserAppend,
                              Taken(a, q, run, intent)))
  {
    var next := Working(db, run, intent, if intent != "" then AtIntent else AtUserAppend, Taken(a, q, run, intent));
    assert Do(Idle(db, a), Sending(q, run, intent)) == next;
    Then(steps, Idle(db, a), Sending(q, run, intent), next);
  }

  lemma WorkingMoved(db: Db, run: RunId, intent: IntentId, stage: Stage, a: Around, db': Db, stage': Stage)
    ensures Moved(Working(db, run, intent, stage, a), At(run, db', HiTask(intent, stage), stage')) ==
            Working(db', run, intent, stage', a)
  {
    var t := HiTask(intent, stage);
    assert t.(stage := stage') == HiTask(intent, stage');
    assert map[run := t][run := HiTask(intent, stage')] == map[run := HiTask(intent, stage')];
  }

  lemma MovesOn(steps: seq<Step>, db: Db, run: RunId, intent: IntentId, stage: Stage, a: Around,
                inputs: seq<Input>, db': Db, stage': Stage)
    requires ReachedBy(steps, Working(db, run, intent, stage, a))
    requires All(At(run, db, HiTask(intent, stage), stage), inputs) == At(run, db', HiTask(intent, stage), stage')
    ensures ReachedBy(steps + Goes(run, inputs), Working(db', run, intent, stage', a))
  {
    var s, t := Working(db, run, intent, stage, a), HiTask(intent, stage);
    WorkingMoved(db, run, intent, stage, a, db, stage);
    WorkingMoved(db, run, intent, stage, a, db', stage');
    LeftAlone(steps, s, At(run, db, t, stage), inputs, At(run, db', t, stage'));
  }

  /** A Send and its opening writes. */
  lemma TurnOpens(steps: seq<Step>, es: seq<Event>, runs: Runs, row: Recent, intents: Intents, a: Around,
              q: nat, run: RunId, intent: IntentId)
    requires ReachedBy(steps, Idle(Alone(es, runs, row, intents), a))
    requires q in a.requests && a.requests[q] == Request("s", intent) && Unnamed(Alone(es, runs, row, intents), a, run)
    requires Numbered(es) && row.lastSeq == |es| && (intent != "" ==> ("s", intent) !in intents)
    ensures ReachedBy(steps + [Sending(q, run, intent)] + Goes(run, OpeningInputs(intent)),
                      Working(Opened(es, runs, intents, run, intent), run, intent, AtProvider,
                              Taken(a, q, run, intent)))
  {
    var db, stage := Alone(es, runs, row, intents), if intent != "" then AtIntent else AtUserAppend;
    Sends(steps, db, a, q, run, intent);
    SendIsItsSteps(db, "s", run, intent, "hi", []);
    OpensTables(es, runs, row, intents, run, intent);
    MovesOn(steps + [Sending(q, run, intent)], db, run, intent, stage, Taken(a, q, run, intent), OpeningInputs(intent),
            Opened(es, runs, intents, run, intent), AtProvider);
  }

  lemma ProviderReturns(steps: seq<Step>, db: Db, run: RunId, intent: IntentId, a: Around)
    requires ReachedBy(steps, Working(db, run, intent, AtProvider, a))
    ensures ReachedBy(steps + Goes(run, [Ends(Succeeded, "")]), Working(db, run, intent, AtFinishAppend(Done), a))
  {
    ProviderEnded(db, run, HiTask(intent, AtProvider), Succeeded, "");
    MovesOn(steps, db, run, intent, AtProvider, a, [Ends(Succeeded, "")], db, AtFinishAppend(Done));
  }

  lemma ReleaseStep(db: Db, run: RunId, intent: IntentId, a: Around)
    ensures StepsTo(Working(db, run, intent, AtRelease, a), Advance(run, Go), Idle(db, a))
  {
    assert map["s" := run] - {"s"} == map[];
    assert map[run := HiTask(intent, AtRelease)] - {run} == map[];
  }

  function Finishing(run: RunId): seq<Step> {
    Goes(run, FinishInputs(Succeeded, "")) + [Advance(run, Go)]
  }

  lemma Joined(x: seq<Step>, y: seq<Step>, z: seq<Step>)
    ensures x + y + z == x + (y + z)
  {
  }

  /** The provider returns and the finalizer runs. */
  lemma TurnCloses(steps: seq<Step>, es: seq<Event>, runs: Runs, row: Recent, intents: Intents, a: Around,
               run: RunId, intent: IntentId)
    requires ReachedBy(steps, Working(Alone(es, runs, row, intents), run, intent, AtProvider, a))
    requires Numbered(es) && row.lastSeq == |es| && run in runs && runs[run] == RunRow("s", Running)
    ensures ReachedBy(steps + Finishing(run), Idle(Closed(es, runs, intents, run), a))
  {
    var db, closed := Alone(es, runs, row, intents), Closed(es, runs, intents, run);
    FinishSteps(db, run, HiTask(intent, AtProvider), Succeeded, "");
    ClosesTables(es, runs, row, intents, run);
    MovesOn(steps, db, run, intent, AtProvider, a, FinishInputs(Succeeded, ""), closed, AtRelease);
    ReleaseStep(closed, run, intent, a);
    Then(steps + Goes(run, FinishInputs(Succeeded, "")), Working(closed, run, intent, AtRelease, a), Advance(run, Go),
         Idle(closed, a));
    Joined(steps, Goes(run, FinishInputs(Succeeded, "")), [Advance(run, Go)]);
  }

  /** An interrupter finishes the run it found. */
  lemma InterrupterAppends(s: State, k: nat)
    requires s.mode.Serving? && k in s.interrupters && s.interrupters[k].Found?
             && Numbered(LedgerOf(s.db, s.interrupters[k].session))
    ensures var i := s.interrupters[k];
            StepsTo(s, AdvanceInterrupt(k),
                    s.(db := Append(s.db, i.session, i.run, RunFinished(Interrupted)),
                       interrupters := s.interrupters[k := ToBump(i.session, i.run, |LedgerOf(s.db, i.session)| + 1)]))
  {
    NumberedMax(LedgerOf(s.db, s.interrupters[k].session));
  }

  // ---------- Starting up ----------

  const BOOT: seq<Step> := [] + RECOVERY + [Create("s")]

  lemma Boots()
    ensures ReachedBy(BOOT, Idle(SEEDED, NOTHING))
  {
    var states := [Launched(EMPTY)];
    assert IsRun(states, []);
    assert ReachedBy([], Launched(EMPTY));
    RecoveryPasses([], EMPTY, map[]);
    assert CreateSession(EMPTY, "s") == SEEDED;
    Then([] + RECOVERY, Resting(EMPTY, map[]), Create("s"), Idle(SEEDED, NOTHING));
  }
}
