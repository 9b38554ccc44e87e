/** Runs from empty tables, step by step, in which an unserialised interleaving or a crash breaks a guarantee. */
module LifecycleExamples {
  import opened Ledger
  import Alternation
  import opened Tables
  import opened Recovery
  import opened Lifecycle
  import opened LifecycleRuns
  import opened LifecycleRaces
  import opened LifecycleScenes
  import opened Turn

  // ---------- A run has started ----------

  function Asking(intent: IntentId): seq<Step> {
    [LookUp(0, "s", intent)] + [Sending(0, "r", intent)] + Goes("r", OpeningInputs(intent))
  }

  /** The tables while the first run of "s" waits for its provider. */
  function First(intent: IntentId): Db {
    Opened([], map[], map[], "r", intent)
  }

  /** An interrupter, if any, and what has been sent. */
  function Beside(interrupters: map<nat, Interrupter>, sent: map<RunId, (SessionId, IntentId)>): Around {
    Around(interrupters, map[], sent)
  }

  function Waiting(intent: IntentId, interrupters: map<nat, Interrupter>): State {
    Working(First(intent), "r", intent, AtProvider, Beside(interrupters, map["r" := ("s", intent)]))
  }

  lemma SeededIsFresh(a: Around, run: RunId)
    requires run != "" && run !in a.sent && forall k :: k in a.interrupters ==> a.interrupters[k].Checked?
    ensures Unnamed(SEEDED, a, run)
  {
  }

  lemma StartsTurn(steps: seq<Step>, intent: IntentId, interrupters: map<nat, Interrupter>)
    requires ReachedBy(steps, Idle(SEEDED, Beside(interrupters, map[])))
    requires forall k :: k in interrupters ==> interrupters[k].Checked?
    ensures ReachedBy(steps + Asking(intent), Waiting(intent, interrupters))
  {
    var a := Beside(interrupters, map[]);
    LooksUp(steps, SEEDED, a, 0, intent);
    OpensFirst(steps + [LookUp(0, "s", intent)], Asked(a, 0, intent), 0, intent);
    TakenAgain(a, 0, intent);
    AskingJoined(steps, intent);
  }

  /** The first turn of "s" opens with a pending request. */
  lemma OpensFirst(steps: seq<Step>, a: Around, q: nat, intent: IntentId)
    requires ReachedBy(steps, Idle(SEEDED, a)) && q in a.requests && a.requests[q] == Request("s", intent)
             && a.sent == map[]
    requires forall k :: k in a.interrupters ==> a.interrupters[k].Checked?
    ensures ReachedBy(steps + [Sending(q, "r", intent)] + Goes("r", OpeningInputs(intent)),
                      Working(First(intent), "r", intent, AtProvider, Taken(a, q, "r", intent)))
  {
    SeededIsFresh(a, "r");
    TurnOpens(steps, [], map[], Recent(0, "", NoState, ""), map[], a, q, "r", intent);
  }

  lemma TakenAgain(a: Around, q: nat, intent: IntentId)
    requires q !in a.requests && a.sent == map[]
    ensures Taken(Asked(a, q, intent), q, "r", intent) == a.(sent := map["r" := ("s", intent)])
  {
    assert a.requests[q := Request("s", intent)] - {q} == a.requests;
    assert map[]["r" := ("s", intent)] == map["r" := ("s", intent)];
  }

  lemma AskingJoined(steps: seq<Step>, intent: IntentId)
    ensures steps + [LookUp(0, "s", intent)] + [Sending(0, "r", intent)] + Goes("r", OpeningInputs(intent)) ==
            steps + Asking(intent)
  {
    var x, y, z := [LookUp(0, "s", intent)], [Sending(0, "r", intent)], Goes("r", OpeningInputs(intent));
    Joined(steps + x, y, z);
    Joined(steps, x, y + z);
    Joined(x, y, z);
  }

  lemma FirstIsLive(es: seq<Event>, run: RunId)
    ensures Live(Begun(es, run)) && LiveRun(Begun(es, run)) == run
  {
    LastBoundaryAppend(Said(es, run), Event(|es| + 2, run, RunStarted));
  }

  // ---------- An Interrupt that comes too late ----------

  const CUT := Event(3, "r", RunFinished(Interrupted))
  const TWICE := Event(4, "r", RunFinished(Done))

  const CHECKED: map<nat, Interrupter> := map[0 := Checked("s")]
  const FOUND: map<nat, Interrupter> := map[0 := Found("s", "r")]

  function CutDb(): Db {
    Alone(Begun([], "r") + [CUT], map["r" := RunRow("s", Running)], Recent(2, "r", Running, "hi"), map[])
  }

  function Cut(stage: Stage): State {
    Working(CutDb(), "r", "", stage, Beside(map[0 := ToBump("s", "r", 3)], map["r" := ("s", "")]))
  }

  lemma CheckStep()
    ensures StepsTo(Idle(SEEDED, NOTHING), CheckInterrupt(0, "s"), Idle(SEEDED, Beside(CHECKED, map[])))
  {
  }

  lemma LookStep(intent: IntentId)
    ensures StepsTo(Waiting(intent, CHECKED), AdvanceInterrupt(0), Waiting(intent, FOUND))
  {
    FirstIsLive([], "r");
    assert CHECKED[0 := Found("s", "r")] == FOUND;
  }

  lemma FirstRows(intent: IntentId)
    ensures First(intent) == Alone(Begun([], "r"), map["r" := RunRow("s", Running)], Recent(2, "r", Running, "hi"),
                                   Noted(map[], intent, "r"))
  {
    assert map[]["r" := RunRow("s", Running)] == map["r" := RunRow("s", Running)];
  }

  lemma CutStep()
    ensures StepsTo(Waiting("", FOUND), AdvanceInterrupt(0), Cut(AtProvider))
  {
    FirstRows("");
    InterrupterAppends(Waiting("", FOUND), 0);
    AppendsAlone(Begun([], "r"), CUT, map["r" := RunRow("s", Running)], Recent(2, "r", Running, "hi"), map[]);
    assert FOUND[0 := ToBump("s", "r", 3)] == map[0 := ToBump("s", "r", 3)];
  }

  const CAUGHT: seq<Step> := BOOT + [CheckInterrupt(0, "s")] + Asking("")
  const FINISHED_UNDER: seq<Step> := CAUGHT + [AdvanceInterrupt(0)] + [AdvanceInterrupt(0)]

  lemma Caught()
    ensures ReachedBy(CAUGHT, Waiting("", CHECKED))
    ensures ReachedBy(CAUGHT + [AdvanceInterrupt(0)], Waiting("", FOUND))
  {
    Boots();
    CheckStep();
    Then(BOOT, Idle(SEEDED, NOTHING), CheckInterrupt(0, "s"), Idle(SEEDED, Beside(CHECKED, map[])));
    StartsTurn(BOOT + [CheckInterrupt(0, "s")], "", CHECKED);
    LookStep("");
    Then(CAUGHT, Waiting("", CHECKED), AdvanceInterrupt(0), Waiting("", FOUND));
  }

  function Twice(): Db {
    Alone(Begun([], "r") + [CUT] + [TWICE], map["r" := RunRow("s", Running)], Recent(2, "r", Running, "hi"), map[])
  }

  lemma TwiceAppended()
    ensures Append(CutDb(), "s", "r", RunFinished(Done)) == Twice() && MaxSeq(LedgerOf(CutDb(), "s")) == 3
  {
    AppendsAlone(Begun([], "r") + [CUT], TWICE, map["r" := RunRow("s", Running)], Recent(2, "r", Running, "hi"), map[]);
    NumberedMax(Begun([], "r") + [CUT]);
  }

  lemma TwiceStep(t: Task)
    requires t.session == "s"
    ensures OneStep(At("r", CutDb(), t, AtFinishAppend(Done)), Go) == At("r", Twice(), t, AtFinishBump(Done, 4))
  {
    TwiceAppended();
    AppendStep(CutDb(), "r", t, AtFinishAppend(Done), RunFinished(Done), AtFinishRow(Done));
  }

  lemma FinishesTwice(steps: seq<Step>)
    requires ReachedBy(steps, Cut(AtFinishAppend(Done)))
    ensures ReachedBy(steps + Goes("r", [Go]),
                      Working(Twice(), "r", "", AtFinishBump(Done, 4),
                              Beside(map[0 := ToBump("s", "r", 3)], map["r" := ("s", "")])))
  {
    var a, t := Beside(map[0 := ToBump("s", "r", 3)], map["r" := ("s", "")]), HiTask("", AtFinishAppend(Done));
    TwiceStep(t);
    AllOne(At("r", CutDb(), t, AtFinishAppend(Done)), Go);
    MovesOn(steps, CutDb(), "r", "", AtFinishAppend(Done), a, [Go], Twice(), AtFinishBump(Done, 4));
  }

  lemma TwiceBreaks()
    ensures !Alternation.Alternates(Begun([], "r") + [CUT] + [TWICE])
  {
    LastBoundaryAppend(Begun([], "r"), CUT);
    Alternation.AlternatesAppend(Begun([], "r") + [CUT], TWICE);
  }

  /**
   An Interrupt finds no run going, a Send starts one, the Interrupt finishes it, and so does its goroutine: the ledger
   of the run has two run_finished events.
   */
  lemma LateInterruptRun() returns (s: State)
    ensures ReachedBy(FINISHED_UNDER + Goes("r", [Ends(Succeeded, "")]) + Goes("r", [Go]), s)
    ensures LedgerOf(s.db, "s") == Begun([], "r") + [CUT] + [TWICE] && !Alternation.Alternates(LedgerOf(s.db, "s"))
  {
    Caught();
    CutStep();
    Then(CAUGHT + [AdvanceInterrupt(0)], Waiting("", FOUND), AdvanceInterrupt(0), Cut(AtProvider));
    var a := Beside(map[0 := ToBump("s", "r", 3)], map["r" := ("s", "")]);
    ProviderReturns(FINISHED_UNDER, CutDb(), "r", "", a);
    FinishesTwice(FINISHED_UNDER + Goes("r", [Ends(Succeeded, "")]));
    s := Working(Twice(), "r", "", AtFinishBump(Done, 4), a);
    TwiceBreaks();
  }

  // ---------- A session deleted under its run ----------

  const WORKING: seq<Step> := BOOT + Asking("")
  const RETURNED: seq<Step> := WORKING + Goes("r", [Ends(Succeeded, "")])
  const ORPHAN := Event(1, "r", RunFinished(Done))

  /** What goes on beside the first run, when nothing else does. */
  function Only(intent: IntentId): Around {
    Beside(map[], map["r" := ("s", intent)])
  }

  lemma Works(intent: IntentId)
    ensures ReachedBy(BOOT + Asking(intent), Waiting(intent, map[]))
  {
    Boots();
    StartsTurn(BOOT, intent, map[]);
  }

  lemma ReachesReturn()
    ensures ReachedBy(RETURNED, Working(First(""), "r", "", AtFinishAppend(Done), Only("")))
  {
    Works("");
    ProviderReturns(WORKING, First(""), "r", "", Only(""));
  }

  lemma DeletedStep()
    ensures StepsTo(Working(First(""), "r", "", AtFinishAppend(Done), Only("")), Delete("s"),
                    Working(EMPTY, "r", "", AtFinishAppend(Done), Only("")))
  {
    var db := DeleteSession(First(""), "s");
    assert db.sessions == {} && db.ledgers == map[] && db.runs == map[] && db.recent == map[];
  }

  lemma OrphanBreaks()
    ensures !Alternation.Alternates([ORPHAN])
  {
    Alternation.AlternatesAppend([], ORPHAN);
    assert [] + [ORPHAN] == [ORPHAN];
  }

  lemma OrphanStep()
    ensures var db := EMPTY.(ledgers := map["s" := [ORPHAN]]);
            StepsTo(Working(EMPTY, "r", "", AtFinishAppend(Done), Only("")), Advance("r", Go),
                    Working(db, "r", "", AtFinishBump(Done, 1), Only("")))
  {
    assert [] + [ORPHAN] == [ORPHAN];
  }

  /** A run's session is deleted just before it finishes: the ledger is one run_finished. */
  lemma DeleteMidRunRun() returns (s: State)
    ensures ReachedBy(RETURNED + [Delete("s")] + [Advance("r", Go)], s)
    ensures LedgerOf(s.db, "s") == [ORPHAN] && !Alternation.Alternates(LedgerOf(s.db, "s")) && "s" !in s.db.sessions
  {
    ReachesReturn();
    DeletedStep();
    var before := Working(EMPTY, "r", "", AtFinishAppend(Done), Only(""));
    Then(RETURNED, Working(First(""), "r", "", AtFinishAppend(Done), Only("")), Delete("s"), before);
    OrphanStep();
    s := Working(EMPTY.(ledgers := map["s" := [ORPHAN]]), "r", "", AtFinishBump(Done, 1), Only(""));
    Then(RETURNED + [Delete("s")], before, Advance("r", Go), s);
    OrphanBreaks();
  }

  // ---------- A crash just before the projection is told ----------

  const BEFORE_TOUCH: seq<Step> := RETURNED + Goes("r", [Go, Go]) + Goes("r", [Go])

  function FinishedRow(state: RunState): Db {
    Alone(Finished(Begun([], "r"), "r", Done), map["r" := RunRow("s", state)], Recent(3, "r", Running, "hi"), map[])
  }

  lemma FinishCommitted(steps: seq<Step>)
    requires ReachedBy(steps, Working(First(""), "r", "", AtFinishAppend(Done), Only("")))
    ensures ReachedBy(steps + Goes("r", [Go, Go]), Working(FinishedRow(Running), "r", "", AtFinishRow(Done), Only("")))
  {
    var t, es := HiTask("", AtFinishAppend(Done)), Begun([], "r");
    assert map[]["r" := RunRow("s", Running)] == map["r" := RunRow("s", Running)];
    CommitsAlone(es, Event(3, "r", RunFinished(Done)), map["r" := RunRow("s", Running)], Recent(2, "r", Running, "hi"),
                 map[]);
    CommitSteps(First(""), "r", t, AtFinishAppend(Done), RunFinished(Done), AtFinishRow(Done));
    MovesOn(steps, First(""), "r", "", AtFinishAppend(Done), Only(""), [Go, Go], FinishedRow(Running),
            AtFinishRow(Done));
  }

  lemma FirstRowFinishes()
    ensures FinishRun(FinishedRow(Running), "r", Done) == FinishedRow(Done)
  {
    RowFinishes(Finished(Begun([], "r"), "r", Done), map["r" := RunRow("s", Running)], Recent(3, "r", Running, "hi"),
                map[], "r");
    assert map["r" := RunRow("s", Running)]["r" := RunRow("s", Done)] == map["r" := RunRow("s", Done)];
  }

  lemma RowStep(t: Task)
    ensures OneStep(At("r", FinishedRow(Running), t, AtFinishRow(Done)), Go) ==
            At("r", FinishedRow(Done), t, AtTouchDone(Done))
  {
    FirstRowFinishes();
  }

  lemma RowFinished(steps: seq<Step>)
    requires ReachedBy(steps, Working(FinishedRow(Running), "r", "", AtFinishRow(Done), Only("")))
    ensures ReachedBy(steps + Goes("r", [Go]), Working(FinishedRow(Done), "r", "", AtTouchDone(Done), Only("")))
  {
    var db, t := FinishedRow(Running), HiTask("", AtFinishRow(Done));
    RowStep(t);
    AllOne(At("r", db, t, AtFinishRow(Done)), Go);
    MovesOn(steps, db, "r", "", AtFinishRow(Done), Only(""), [Go], FinishedRow(Done), AtTouchDone(Done));
  }

  lemma FinishedIsSettled()
    ensures LiveSessions(FinishedRow(Done).ledgers) == {} && RunningRuns(FinishedRow(Done).runs) == {}
  {
    LastBoundaryAppend(Begun([], "r"), Event(3, "r", RunFinished(Done)));
  }

  lemma CrashStep(s: State)
    requires s.mode.Serving?
    ensures StepsTo(s, Crash, Resting(s.db, s.sent).(mode := Lifecycle.Starting))
  {
  }

  lemma CrashesAndRecovers(steps: seq<Step>, s: State)
    requires ReachedBy(steps, s) && s.mode.Serving? && LiveSessions(s.db.ledgers) == {} && RunningRuns(s.db.runs) == {}
    ensures ReachedBy(steps + [Crash] + RECOVERY, Resting(s.db, s.sent))
  {
    CrashStep(s);
    Then(steps, s, Crash, Resting(s.db, s.sent).(mode := Lifecycle.Starting));
    RecoveryPasses(steps + [Crash], s.db, s.sent);
  }

  /** A crash after the last FinishRun, then recovery: nothing is active, and the list still shows the run as active. */
  lemma StaleRunRun() returns (s: State)
    ensures ReachedBy(BEFORE_TOUCH + [Crash] + RECOVERY, s)
    ensures s.mode.Serving? && s.active == map[] && s.tasks == map[]
    ensures "s" in s.db.recent && s.db.recent["s"].activeRun == "r" && "r" in s.db.runs && s.db.runs["r"].state == Done
  {
    ReachesReturn();
    FinishCommitted(RETURNED);
    RowFinished(RETURNED + Goes("r", [Go, Go]));
    FinishedIsSettled();
    var before := Working(FinishedRow(Done), "r", "", AtTouchDone(Done), Only(""));
    CrashesAndRecovers(BEFORE_TOUCH, before);
    s := Resting(before.db, before.sent);
  }

  // ---------- An intent recorded and never said ----------

  const RECORDED: seq<Step> := BOOT + [LookUp(0, "s", "i")] + [Sending(0, "r", "i")] + [Advance("r", Go)]

  function Unsaid(): Db {
    Alone([], map[], Recent(0, "", NoState, ""), map[("s", "i") := "r"])
  }

  lemma RecordStep()
    ensures StepsTo(Working(SEEDED, "r", "i", AtIntent, Only("i")), Advance("r", Go),
                    Working(Unsaid(), "r", "i", AtUserAppend, Only("i")))
  {
  }

  lemma Answered(s: State)
    requires s == Resting(Unsaid(), map["r" := ("s", "i")])
    ensures StepsTo(s, LookUp(0, "s", "i"), s)
  {
  }

  /**
   A crash between the two first writes of a turn: afterwards nothing of the run exists, and a repeat of its intent is
   answered with it.
   */
  lemma UnsaidIntentRun() returns (s: State)
    ensures ReachedBy(RECORDED + [Crash] + RECOVERY, s)
            && ReachedBy(RECORDED + [Crash] + RECOVERY + [LookUp(0, "s", "i")], s)
    ensures IntentRun(s.db, "s", "i") == "r" && LedgerOf(s.db, "s") == [] && "r" !in s.db.runs && s.requests == map[]
  {
    var a := NOTHING;
    Boots();
    LooksUp(BOOT, SEEDED, a, 0, "i");
    SeededIsFresh(Asked(a, 0, "i"), "r");
    TakenAgain(a, 0, "i");
    Sends(BOOT + [LookUp(0, "s", "i")], SEEDED, Asked(a, 0, "i"), 0, "r", "i");
    RecordStep();
    var before := Working(Unsaid(), "r", "i", AtUserAppend, Only("i"));
    Then(BOOT + [LookUp(0, "s", "i")] + [Sending(0, "r", "i")], Working(SEEDED, "r", "i", AtIntent, Only("i")),
         Advance("r", Go), before);
    CrashesAndRecovers(RECORDED, before);
    s := Resting(before.db, before.sent);
    Answered(s);
    Then(RECORDED + [Crash] + RECOVERY, s, LookUp(0, "s", "i"), s);
  }

  // ---------- Two turns for one intent ----------

  /** Two requests for one intent look it up; the first takes its whole turn. */
  const ONE_TURN: seq<Step> :=
    BOOT + [LookUp(0, "s", "i")] + [LookUp(1, "s", "i")] + [Sending(0, "r", "i")] + Goes("r", OpeningInputs("i"))
    + Finishing("r")

  const SECOND: Around := Around(map[], map[1 := Request("s", "i")], map["r" := ("s", "i")])

  function Rested(): State {
    Idle(Closed(Begun([], "r"), map["r" := RunRow("s", Running)], map[("s", "i") := "r"], "r"), SECOND)
  }

  lemma SecondAround()
    ensures Taken(Asked(Asked(NOTHING, 0, "i"), 1, "i"), 0, "r", "i") == SECOND
  {
    assert map[]["r" := ("s", "i")] == map["r" := ("s", "i")];
    assert map[][0 := Request("s", "i")][1 := Request("s", "i")] - {0} == map[1 := Request("s", "i")];
  }

  lemma OneTurn()
    ensures ReachedBy(ONE_TURN, Rested())
  {
    var a, steps := Asked(NOTHING, 0, "i"), BOOT + [LookUp(0, "s", "i")] + [LookUp(1, "s", "i")];
    Boots();
    LooksUp(BOOT, SEEDED, NOTHING, 0, "i");
    LooksUp(BOOT + [LookUp(0, "s", "i")], SEEDED, a, 1, "i");
    OpensFirst(steps, Asked(a, 1, "i"), 0, "i");
    SecondAround();
    FirstCloses(steps + [Sending(0, "r", "i")] + Goes("r", OpeningInputs("i")));
  }

  lemma FirstCloses(steps: seq<Step>)
    requires ReachedBy(steps, Working(First("i"), "r", "i", AtProvider, SECOND))
    ensures ReachedBy(steps + Finishing("r"), Rested())
  {
    var es, runs := Begun([], "r"), map["r" := RunRow("s", Running)];
    FirstRows("i");
    assert Noted(map[], "i", "r") == map[("s", "i") := "r"];
    TurnCloses(steps, es, runs, Recent(2, "r", Running, "hi"), map[("s", "i") := "r"], SECOND, "r", "i");
  }

  const AGAIN := Sending(1, "q", "i")

  lemma SendsAgain()
    ensures StepsTo(Rested(), AGAIN, Registered(Rested(), 1, "s", "q", "i", "hi", []))
  {
  }

  lemma OwnsFirst()
    ensures OwnsOne(Rested().sent, ("s", "i"), Message, LedgerOf(Rested().db, "s"))
    ensures OwnsOne(Rested().sent, ("s", "i"), Beginning, LedgerOf(Rested().db, "s"))
  {
    var es := LedgerOf(Rested().db, "s");
    assert OfIntent(Rested().sent, ("s", "i"), Message, es[0]);
    assert OfIntent(Rested().sent, ("s", "i"), Beginning, es[1]);
  }

  /** Both lookups come before the intent is recorded, and both turns are taken. */
  lemma TwoTurnsRun() returns (s: State, s': State)
    ensures ReachedBy(ONE_TURN + [AGAIN] + Goes("q", TWO), s) && ReachedBy(ONE_TURN + [AGAIN] + Goes("q", FIVE), s')
    ensures OwnsTwo(s.sent, ("s", "i"), Message, LedgerOf(s.db, "s"))
    ensures OwnsTwo(s'.sent, ("s", "i"), Beginning, LedgerOf(s'.db, "s"))
  {
    OneTurn();
    SendsAgain();
    var before := Registered(Rested(), 1, "s", "q", "i", "hi", []);
    Then(ONE_TURN, Rested(), AGAIN, before);
    RegisteredStart(Rested(), 1, "s", "q", "i", "hi", []);
    SecondTurnIffOwned(Rested(), 1, "s", "q", "i", "hi", []);
    OwnsFirst();
    var p := Start("q", Rested().db, "s", "i", "hi", []);
    LeftAlone(ONE_TURN + [AGAIN], before, p, TWO, All(p, TWO));
    LeftAlone(ONE_TURN + [AGAIN], before, p, FIVE, All(p, FIVE));
    s, s' := Moved(before, All(p, TWO)), Moved(before, All(p, FIVE));
  }

  // ---------- A run that a late finish hides ----------

  const CLOSING_FOUND: Around := Around(FOUND, map[], map["r" := ("s", "")])
  const BOTH_SENT: map<RunId, (SessionId, IntentId)> := map["r" := ("s", ""), "q" := ("s", "")]

  function FirstTurn(): seq<Event> {
    Finished(Begun([], "r"), "r", Done)
  }

  function BothTurns(): seq<Event> {
    Begun(FirstTurn(), "q")
  }

  const FIRST_ROW: Runs := map["r" := RunRow("s", Done)]
  const TWO_ROWS: Runs := map["r" := RunRow("s", Done), "q" := RunRow("s", Running)]
  const SWEPT_ROWS: Runs := map["r" := RunRow("s", Done), "q" := RunRow("s", Interrupted)]
  const LATE := Event(6, "r", RunFinished(Interrupted))

  lemma FirstTurnCloses(steps: seq<Step>)
    requires ReachedBy(steps, Waiting("", FOUND))
    ensures ReachedBy(steps + Finishing("r"),
                      Idle(Alone(FirstTurn(), FIRST_ROW, Recent(3, "", Done, ""), map[]), CLOSING_FOUND))
  {
    FirstRows("");
    assert Beside(FOUND, map["r" := ("s", "")]) == CLOSING_FOUND;
    TurnCloses(steps, Begun([], "r"), map["r" := RunRow("s", Running)], Recent(2, "r", Running, "hi"), map[],
               CLOSING_FOUND, "r", "");
    assert map["r" := RunRow("s", Running)]["r" := RunRow("s", Done)] == FIRST_ROW;
  }

  lemma SecondIsFresh()
    ensures Unnamed(Alone(FirstTurn(), FIRST_ROW, Recent(3, "", Done, ""), map[]), Asked(CLOSING_FOUND, 0, ""), "q")
  {
    assert forall e :: e in FirstTurn() ==> e.run == "r";
  }

  lemma SecondTaken()
    ensures Taken(Asked(CLOSING_FOUND, 0, ""), 0, "q", "") == Beside(FOUND, BOTH_SENT)
    ensures FIRST_ROW["q" := RunRow("s", Running)] == TWO_ROWS
  {
    assert map["r" := ("s", "")]["q" := ("s", "")] == BOTH_SENT;
    assert map[][0 := Request("s", "")] - {0} == map[];
  }

  function Hiding(es: seq<Event>, interrupters: map<nat, Interrupter>): State {
    Working(Alone(es, TWO_ROWS, Recent(5, "q", Running, "hi"), map[]), "q", "", AtProvider,
            Beside(interrupters, BOTH_SENT))
  }

  lemma SecondOpens(steps: seq<Step>)
    requires ReachedBy(steps, Idle(Alone(FirstTurn(), FIRST_ROW, Recent(3, "", Done, ""), map[]), CLOSING_FOUND))
    ensures ReachedBy(steps + [LookUp(0, "s", "")] + [Sending(0, "q", "")] + Goes("q", OpeningInputs("")),
                      Hiding(BothTurns(), FOUND))
  {
    var db := Alone(FirstTurn(), FIRST_ROW, Recent(3, "", Done, ""), map[]);
    LooksUp(steps, db, CLOSING_FOUND, 0, "");
    SecondIsFresh();
    SecondTaken();
    TurnOpens(steps + [LookUp(0, "s", "")], FirstTurn(), FIRST_ROW, Recent(3, "", Done, ""), map[],
              Asked(CLOSING_FOUND, 0, ""), 0, "q", "");
  }

  lemma LateStep()
    ensures StepsTo(Hiding(BothTurns(), FOUND), AdvanceInterrupt(0),
                    Hiding(BothTurns() + [LATE], map[0 := ToBump("s", "r", 6)]))
  {
    InterrupterAppends(Hiding(BothTurns(), FOUND), 0);
    AppendsAlone(BothTurns(), LATE, TWO_ROWS, Recent(5, "q", Running, "hi"), map[]);
    assert FOUND[0 := ToBump("s", "r", 6)] == map[0 := ToBump("s", "r", 6)];
  }

  // What recovery then does.

  const SWEEP: seq<Step> :=
      [QueryDangling([])] + [QueryRunning([RunRef("q", "s")])] + [SweepNext] + [SweepNext] + [SweepNext]

  function Hidden(runs: Runs, row: Recent): Db {
    Alone(BothTurns() + [LATE], runs, row, map[])
  }

  function AfterCrash(db: Db, mode: Mode): State {
    Resting(db, BOTH_SENT).(mode := mode)
  }

  lemma NothingDangles(runs: Runs, row: Recent)
    ensures LiveSessions(Hidden(runs, row).ledgers) == {}
  {
    LastBoundaryAppend(BothTurns(), LATE);
  }

  lemma SecondIsRunning()
    ensures ListsRunning(Hidden(TWO_ROWS, Recent(5, "q", Running, "hi")), [RunRef("q", "s")])
  {
    var db, order := Hidden(TWO_ROWS, Recent(5, "q", Running, "hi")), [RunRef("q", "s")];
    assert RunningRuns(db.runs) == {"q"};
    assert order[0] in order;
  }

  lemma SweepSteps()
    ensures var db0, db1 :=
            Hidden(TWO_ROWS, Recent(5, "q", Running, "hi")), Hidden(SWEPT_ROWS, Recent(5, "q", Running, "hi"));
            var db2, todo := Hidden(SWEPT_ROWS, Recent(5, "", Interrupted, "hi")), [RunRef("q", "s")];
            && StepsTo(AfterCrash(db0, Sweeping(db0, todo, SweepFinish)), SweepNext,
                       AfterCrash(db1, Sweeping(db0, todo, SweepClear)))
            && StepsTo(AfterCrash(db1, Sweeping(db0, todo, SweepClear)), SweepNext,
                       AfterCrash(db2, Sweeping(db0, [], SweepFinish)))
            && StepsTo(AfterCrash(db2, Sweeping(db0, [], SweepFinish)), SweepNext, Resting(db2, BOTH_SENT))
  {
    assert TWO_ROWS["q" := RunRow("s", Interrupted)] == SWEPT_ROWS;
    assert [RunRef("q", "s")][1..] == [];
  }

  lemma QuerySteps()
    ensures var db := Hidden(TWO_ROWS, Recent(5, "q", Running, "hi"));
            && StepsTo(AfterCrash(db, Lifecycle.Starting), QueryDangling([]),
                       AfterCrash(db, Settling(db, [], SettleAppend)))
            && StepsTo(AfterCrash(db, Settling(db, [], SettleAppend)), QueryRunning([RunRef("q", "s")]),
                       AfterCrash(db, Sweeping(db, [RunRef("q", "s")], SweepFinish)))
  {
    NothingDangles(TWO_ROWS, Recent(5, "q", Running, "hi"));
    SecondIsRunning();
  }

  lemma ThenThree(steps: seq<Step>, s0: State, x: Step, s1: State, y: Step, s2: State, z: Step, s3: State)
    requires ReachedBy(steps, s0) && StepsTo(s0, x, s1) && StepsTo(s1, y, s2) && StepsTo(s2, z, s3)
    ensures ReachedBy(steps + [x] + [y] + [z], s3)
  {
    Then(steps, s0, x, s1);
    Then(steps + [x], s1, y, s2);
    Then(steps + [x] + [y], s2, z, s3);
  }

  lemma SweepsHidden(steps: seq<Step>)
    requires var db := Hidden(TWO_ROWS, Recent(5, "q", Running, "hi"));
             ReachedBy(steps, AfterCrash(db, Sweeping(db, [RunRef("q", "s")], SweepFinish)))
    ensures ReachedBy(steps + [SweepNext] + [SweepNext] + [SweepNext],
                      Resting(Hidden(SWEPT_ROWS, Recent(5, "", Interrupted, "hi")), BOTH_SENT))
  {
    var db0, db1 := Hidden(TWO_ROWS, Recent(5, "q", Running, "hi")), Hidden(SWEPT_ROWS, Recent(5, "q", Running, "hi"));
    var db2, todo := Hidden(SWEPT_ROWS, Recent(5, "", Interrupted, "hi")), [RunRef("q", "s")];
    SweepSteps();
    ThenThree(steps, AfterCrash(db0, Sweeping(db0, todo, SweepFinish)), SweepNext,
              AfterCrash(db1, Sweeping(db0, todo, SweepClear)), SweepNext,
              AfterCrash(db2, Sweeping(db0, [], SweepFinish)), SweepNext, Resting(db2, BOTH_SENT));
  }

  lemma SweepJoined(steps: seq<Step>)
    ensures steps + [QueryDangling([])] + [QueryRunning([RunRef("q",
                                                                "s")])] + [SweepNext] + [SweepNext] + [SweepNext] ==
            steps + SWEEP
  {
  }

  lemma RecoversHidden(steps: seq<Step>)
    requires ReachedBy(steps, AfterCrash(Hidden(TWO_ROWS, Recent(5, "q", Running, "hi")), Lifecycle.Starting))
    ensures ReachedBy(steps + SWEEP, Resting(Hidden(SWEPT_ROWS, Recent(5, "", Interrupted, "hi")), BOTH_SENT))
  {
    var db, todo := Hidden(TWO_ROWS, Recent(5, "q", Running, "hi")), [RunRef("q", "s")];
    QuerySteps();
    Then(steps, AfterCrash(db, Lifecycle.Starting), QueryDangling([]), AfterCrash(db, Settling(db, [], SettleAppend)));
    Then(steps + [QueryDangling([])], AfterCrash(db, Settling(db, [], SettleAppend)), QueryRunning(todo),
         AfterCrash(db, Sweeping(db, todo, SweepFinish)));
    SweepsHidden(steps + [QueryDangling([])] + [QueryRunning(todo)]);
    SweepJoined(steps);
  }

  lemma SecondUnfinished()
    ensures Alternation.Starts(BothTurns() + [LATE], "q") && !Alternation.Finishes(BothTurns() + [LATE], "q")
  {
    var es := BothTurns() + [LATE];
    assert es[4] == Event(5, "q", RunStarted) && es[4] in es;
    assert forall e :: e in es && e.body.RunFinished? ==> e.run == "r";
  }

  const HIDDEN: seq<Step> :=
    CAUGHT + [AdvanceInterrupt(0)] + Finishing("r") + [LookUp(0, "s", "")] + [Sending(0, "q", "")]
    + Goes("q", OpeningInputs("")) + [AdvanceInterrupt(0)]

  /**
   An Interrupt finds run "r", which then ends by itself; run "q" starts, the Interrupt finishes "r" again,
       and the process
   crashes: after recovery "q" has a run_started and a terminal row, and no run_finished.
   */
  lemma HiddenRunRun() returns (s: State)
    ensures ReachedBy(HIDDEN + [Crash] + SWEEP, s) && s.mode.Serving?
    ensures Alternation.Starts(LedgerOf(s.db, "s"), "q") && !Alternation.Finishes(LedgerOf(s.db, "s"), "q")
    ensures "q" in s.db.runs && s.db.runs["q"].state == Interrupted
  {
    Caught();
    FirstTurnCloses(CAUGHT + [AdvanceInterrupt(0)]);
    SecondOpens(CAUGHT + [AdvanceInterrupt(0)] + Finishing("r"));
    LateStep();
    var late := Hiding(BothTurns() + [LATE], map[0 := ToBump("s", "r", 6)]);
    Then(CAUGHT + [AdvanceInterrupt(0)] + Finishing("r") + [LookUp(0, "s", "")] + [Sending(0, "q", "")]
         + Goes("q", OpeningInputs("")), Hiding(BothTurns(), FOUND), AdvanceInterrupt(0), late);
    CrashStep(late);
    Then(HIDDEN, late, Crash, AfterCrash(late.db, Lifecycle.Starting));
    RecoversHidden(HIDDEN + [Crash]);
    s := Resting(Hidden(SWEPT_ROWS, Recent(5, "", Interrupted, "hi")), BOTH_SENT);
    SecondUnfinished();
  }
}
