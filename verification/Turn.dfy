/** One turn of a session: the writes of Send, the provider's reports and the finalizer, as whole pieces. */
module Turn {
  import opened Ledger
  import opened Tables
  import opened Lifecycle
  import opened Folds

  // ---------- What a turn writes ----------

  /** What the provider reports while it runs. */
  datatype Report =
    | Note
    | Delta(text: string, index: int)
    | Says(text: string)
    | Calls(name: string, id: string, input: string)
    | Returns(id: string, output: string)

  /** The committed event of a report, if it has one. */
  function Committed(r: Report): seq<Body> {
    match r
    case Says(text) => [AssistantMessage(text)]
    case Calls(name, id, input) => [ToolCall(name, id, input)]
    case Returns(id, output) => [ToolResult(id, output)]
    case _ => []
  }

  /** The committed events of the first n reports. */
  function Reported(db: Db, sid: SessionId, run: RunId, reports: seq<Report>, n: nat): Db
    requires n <= |reports|
  {
    if n == 0 then db
    else
      var before := Reported(db, sid, run, reports, n - 1);
      var body := Committed(reports[n - 1]);
      if body == [] then before else Commit(before, sid, run, body[0])
  }

  function LastSaid(reports: seq<Report>, n: nat): string
    requires n <= |reports|
  {
    if n == 0 then "" else if reports[n - 1].Says? then reports[n - 1].text else LastSaid(reports, n - 1)
  }

  /** The writes of Send, up to the provider's start. */
  function TurnOpened(db: Db, sid: SessionId, run: RunId, intent: IntentId, message: string, images: seq<Image>): Db {
    var db1 := if intent != "" then PutIntent(db, sid, intent, run) else db;
    var db2 := CreateRun(Commit(db1, sid, run, UserMessage(message, images)), run, sid);
    UpdateRecentMeta(Commit(db2, sid, run, RunStarted), sid, Preview(message), run, Running)
  }

  /** The writes of the deferred finalizer. */
  function TurnFinished(db: Db, sid: SessionId, run: RunId, outcome: Outcome, lastAssistant: string): Db {
    var end := EndState(outcome);
    var db1 := if outcome.Errored? then Commit(db, sid, run, Error(outcome.message)) else db;
    UpdateRecentMeta(FinishRun(Commit(db1, sid, run, RunFinished(end)), run, end), sid, Preview(lastAssistant), "", end)
  }

  function Final(reports: seq<Report>, finalText: string): string {
    if finalText != "" then finalText else LastSaid(reports, |reports|)
  }

  /** A whole turn that nothing interrupts. */
  function WholeTurn(db: Db, sid: SessionId, run: RunId, intent: IntentId, message: string, images: seq<Image>,
                reports: seq<Report>, outcome: Outcome, finalText: string): Db {
    var start := TurnOpened(db, sid, run, intent, message, images);
    TurnFinished(Reported(start, sid, run, reports, |reports|), sid, run, outcome, Final(reports, finalText))
  }

  // ---------- A turn is its steps ----------

  /** A goroutine between two of its steps; `accepted` says that every step so far was one it may take. */
  datatype Progress = Progress(run: RunId, db: Db, task: Task, accepted: bool)

  function OneStep(p: Progress, input: Input): Progress {
    Progress(p.run, TaskWrites(p.db, p.run, p.task, input), TaskMoves(p.db, p.task, input),
             p.accepted && Accepts(p.task.stage, input) && !p.task.stage.AtRelease?)
  }

  /** The goroutine of a run left alone to take these steps. */
  function All(p: Progress, inputs: seq<Input>): Progress {
    Fold(OneStep, p, inputs, |inputs|)
  }

  lemma Chain(p: Progress, a: seq<Input>, q: Progress, b: seq<Input>, r: Progress)
    requires All(p, a) == q && All(q, b) == r
    ensures All(p, a + b) == r
  {
    FoldThen(OneStep, p, a, b);
  }

  lemma AllOne(p: Progress, input: Input)
    ensures All(p, [input]) == OneStep(p, input)
  {
    FoldOne(OneStep, p, input);
  }

  lemma AllTwo(p: Progress, x: Input, y: Input)
    ensures All(p, [x, y]) == OneStep(OneStep(p, x), y)
  {
    FoldTwo(OneStep, p, x, y);
  }

  function Start(run: RunId, db: Db, sid: SessionId, intent: IntentId, message: string, images: seq<Image>): Progress {
    Progress(run, db, Task(sid, intent, message, images, "", if intent != "" then AtIntent else AtUserAppend), true)
  }

  function At(run: RunId, db: Db, t: Task, stage: Stage): Progress {
    Progress(run, db, t.(stage := stage), true)
  }

  /** What a stage appends, and where its bump leads. */
  predicate Commits(t: Task, at: Stage, body: Body, next: Stage) {
    match at
    case AtUserAppend => body == UserMessage(t.message, t.images) && next == AtCreateRun
    case AtStartAppend => body == RunStarted && next == AtTouchRunning
    case AtErrorAppend(message) => body == Error(message) && next == AtFinishAppend(Failed)
    case AtFinishAppend(end) => body == RunFinished(end) && next == AtFinishRow(end)
    case _ => false
  }

  function BumpAfter(at: Stage, n: int): Stage
    requires at.AtUserAppend? || at.AtStartAppend? || at.AtErrorAppend? || at.AtFinishAppend?
  {
    match at
    case AtUserAppend => AtUserBump(n)
    case AtStartAppend => AtStartBump(n)
    case AtErrorAppend(_) => AtErrorBump(n)
    case AtFinishAppend(end) => AtFinishBump(end, n)
  }

  lemma AppendStep(db: Db, run: RunId, t: Task, at: Stage, body: Body, next: Stage)
    requires Commits(t, at, body, next)
    ensures OneStep(At(run, db, t, at), Go) ==
            At(run, Append(db, t.session, run, body), t,
               BumpAfter(at, NextEvent(LedgerOf(db, t.session), run, body).seqNo))
  {
  }

  lemma BumpStep(db: Db, run: RunId, t: Task, at: Stage, body: Body, next: Stage, n: int)
    requires Commits(t, at, body, next)
    ensures OneStep(At(run, db, t, BumpAfter(at, n)), Go) == At(run, BumpRecentSeq(db, t.session, n), t, next)
  {
  }

  /** An append and its bump, as two steps, are a commit. */
  lemma CommitSteps(db: Db, run: RunId, t: Task, at: Stage, body: Body, next: Stage)
    requires Commits(t, at, body, next)
    ensures All(At(run, db, t, at), [Go, Go]) == At(run, Commit(db, t.session, run, body), t, next)
  {
    var n := NextEvent(LedgerOf(db, t.session), run, body).seqNo;
    AllTwo(At(run, db, t, at), Go, Go);
    AppendStep(db, run, t, at, body, next);
    BumpStep(Append(db, t.session, run, body), run, t, at, body, next, n);
  }

  lemma RowCreated(db: Db, run: RunId, t: Task)
    ensures All(At(run, db, t, AtCreateRun), [Go]) == At(run, CreateRun(db, run, t.session), t, AtStartAppend)
  {
    AllOne(At(run, db, t, AtCreateRun), Go);
  }

  lemma RunningTouched(db: Db, run: RunId, t: Task)
    ensures All(At(run, db, t, AtTouchRunning), [Go]) ==
            At(run, UpdateRecentMeta(db, t.session, Preview(t.message), run, Running), t, AtProvider)
  {
    AllOne(At(run, db, t, AtTouchRunning), Go);
  }

  /** The steps of Send's writes are one after another what Send writes. */
  lemma OpeningSteps(db: Db, run: RunId, t: Task)
    ensures var db1 := Commit(db, t.session, run, UserMessage(t.message, t.images));
            var db2 := Commit(CreateRun(db1, run, t.session), t.session, run, RunStarted);
            All(At(run, db, t, AtUserAppend), OPENING) ==
            At(run, UpdateRecentMeta(db2, t.session, Preview(t.message), run, Running), t, AtProvider)
  {
    var db1 := Commit(db, t.session, run, UserMessage(t.message, t.images));
    var db2 := CreateRun(db1, run, t.session);
    var db3 := Commit(db2, t.session, run, RunStarted);
    var db4 := UpdateRecentMeta(db3, t.session, Preview(t.message), run, Running);
    CommitSteps(db, run, t, AtUserAppend, UserMessage(t.message, t.images), AtCreateRun);
    RowCreated(db1, run, t);
    CommitSteps(db2, run, t, AtStartAppend, RunStarted, AtTouchRunning);
    RunningTouched(db3, run, t);
    OpeningChain(At(run, db, t, AtUserAppend), At(run, db1, t, AtCreateRun), At(run, db2, t, AtStartAppend),
                 At(run, db3, t, AtTouchRunning), At(run, db4, t, AtProvider));
  }

  lemma OpeningChain(p0: Progress, p1: Progress, p2: Progress, p3: Progress, p4: Progress)
    requires All(p0, [Go, Go]) == p1 && All(p1, [Go]) == p2 && All(p2, [Go, Go]) == p3 && All(p3, [Go]) == p4
    ensures All(p0, OPENING) == p4
  {
    Chain(p0, [Go, Go], p1, [Go], p2);
    Chain(p0, [Go, Go] + [Go], p2, [Go, Go], p3);
    Chain(p0, [Go, Go] + [Go] + [Go, Go], p3, [Go], p4);
  }

  const OPENING: seq<Input> := [Go, Go] + [Go] + [Go, Go] + [Go]

  function OpeningInputs(intent: IntentId): seq<Input> {
    if intent != "" then [Go] + OPENING else OPENING
  }

  lemma IntentRecorded(p: Progress)
    requires p.task.stage.AtIntent? && p.accepted
    ensures All(p, [Go]) == At(p.run, PutIntent(p.db, p.task.session, p.task.intent, p.run), p.task, AtUserAppend)
  {
    AllOne(p, Go);
  }

  lemma SendIsItsSteps(db: Db, sid: SessionId, run: RunId, intent: IntentId, message: string, images: seq<Image>)
    ensures All(Start(run, db, sid, intent, message, images), OpeningInputs(intent)) ==
            Progress(run, TurnOpened(db, sid, run, intent, message, images),
                     Task(sid, intent, message, images, "", AtProvider), true)
  {
    var p := Start(run, db, sid, intent, message, images);
    var t := p.task.(stage := AtUserAppend);
    if intent != "" {
      IntentRecorded(p);
      OpeningSteps(PutIntent(db, sid, intent, run), run, t);
      Chain(p, [Go], At(run, PutIntent(db, sid, intent, run), t, AtUserAppend), OPENING,
            At(run, TurnOpened(db, sid, run, intent, message, images), t, AtProvider));
    } else {
      OpeningSteps(db, run, t);
    }
  }

  // ---------- The provider's reports ----------

  /** The steps a report takes. */
  function ReportPart(r: Report): seq<Input> {
    if Committed(r) == [] then [] else [Emits(Committed(r)[0]), Go]
  }

  function ReportParts(reports: seq<Report>): (parts: seq<seq<Input>>)
    ensures |parts| == |reports|
  {
    seq(|reports|, k requires 0 <= k < |reports| => ReportPart(reports[k]))
  }

  function ReportInputs(reports: seq<Report>): seq<Input> {
    Join(ReportParts(reports), |reports|)
  }

  lemma ReportEmitted(db: Db, run: RunId, t: Task, body: Body)
    requires t.stage.AtProvider? && (body.AssistantMessage? || body.ToolCall? || body.ToolResult?)
    ensures OneStep(Progress(run, db, t, true), Emits(body)) ==
            At(run, Append(db, t.session, run, body),
               t.(lastAssistant := if body.AssistantMessage? then body.text else t.lastAssistant),
               AtProviderBump(NextEvent(LedgerOf(db, t.session), run, body).seqNo))
  {
  }

  lemma ReportBumped(db: Db, run: RunId, t: Task, n: int)
    ensures OneStep(At(run, db, t, AtProviderBump(n)), Go) == At(run, BumpRecentSeq(db, t.session, n), t, AtProvider)
  {
  }

  lemma ReportCommitted(db: Db, run: RunId, t: Task, r: Report)
    requires t.stage.AtProvider? && Committed(r) != []
    ensures All(Progress(run, db, t, true), [Emits(Committed(r)[0]), Go]) ==
            At(run, Commit(db, t.session, run, Committed(r)[0]),
               t.(lastAssistant := if r.Says? then r.text else t.lastAssistant), AtProvider)
  {
    var body := Committed(r)[0];
    AllTwo(Progress(run, db, t, true), Emits(body), Go);
    ReportEmitted(db, run, t, body);
    var u := t.(lastAssistant := if r.Says? then r.text else t.lastAssistant);
    ReportBumped(Append(db, t.session, run, body), run, u, NextEvent(LedgerOf(db, t.session), run, body).seqNo);
  }

  /** Where the goroutine stands after the first n reports. */
  function AfterReports(db: Db, run: RunId, t: Task, reports: seq<Report>, n: nat): Progress
    requires n <= |reports|
  {
    At(run, Reported(db, t.session, run, reports, n), t.(lastAssistant := LastSaid(reports, n)), AtProvider)
  }

  lemma NextReport(db: Db, run: RunId, t: Task, reports: seq<Report>, n: nat)
    requires n < |reports|
    ensures All(AfterReports(db, run, t, reports, n), ReportPart(reports[n])) ==
            AfterReports(db, run, t, reports, n + 1)
  {
    if Committed(reports[n]) != [] {
      var u := t.(lastAssistant := LastSaid(reports, n), stage := AtProvider);
      ReportCommitted(Reported(db, t.session, run, reports, n), run, u, reports[n]);
    }
  }

  /** Where the goroutine stands after each report. */
  function ReportStates(db: Db, run: RunId, t: Task, reports: seq<Report>): (states: seq<Progress>)
    ensures |states| == |reports| + 1
  {
    seq(|reports| + 1, k requires 0 <= k <= |reports| => AfterReports(db, run, t, reports, k))
  }

  predicate Leads(p: Progress, inputs: seq<Input>, q: Progress) {
    All(p, inputs) == q
  }

  lemma NextReportState(db: Db, run: RunId, t: Task, reports: seq<Report>, k: nat)
    requires k < |reports|
    ensures Leads(ReportStates(db, run, t, reports)[k], ReportParts(reports)[k],
                  ReportStates(db, run, t, reports)[k + 1])
  {
    NextReport(db, run, t, reports, k);
  }

  lemma ReportEnds(db: Db, run: RunId, t: Task, reports: seq<Report>)
    requires t.lastAssistant == ""
    ensures ReportStates(db, run, t, reports)[0] == At(run, db, t, AtProvider)
    ensures ReportStates(db, run, t, reports)[|reports|] == AfterReports(db, run, t, reports, |reports|)
  {
  }

  lemma ReportSteps(db: Db, run: RunId, t: Task, reports: seq<Report>)
    requires t.lastAssistant == ""
    ensures All(At(run, db, t, AtProvider), ReportInputs(reports)) == AfterReports(db, run, t, reports, |reports|)
  {
    var states := ReportStates(db, run, t, reports);
    forall k | 0 <= k < |reports| ensures Leads(states[k], ReportParts(reports)[k], states[k + 1]) {
      NextReportState(db, run, t, reports, k);
    }
    ReportEnds(db, run, t, reports);
    ReportChain(states, ReportParts(reports));
  }

  lemma ReportChain(states: seq<Progress>, parts: seq<seq<Input>>)
    requires |states| == |parts| + 1 && forall k :: 0 <= k < |parts| ==> Leads(states[k], parts[k], states[k + 1])
    ensures All(states[0], Join(parts, |parts|)) == states[|parts|]
  {
    forall k | 0 <= k < |parts| ensures Fold(OneStep, states[k], parts[k], |parts[k]|) == states[k + 1] {
      assert Leads(states[k], parts[k], states[k + 1]);
    }
    FoldChain(OneStep, states, parts, |parts|);
  }

  // ---------- The finalizer ----------

  const CLOSING: seq<Input> := [Go, Go] + [Go, Go]

  function FinishInputs(outcome: Outcome, finalText: string): seq<Input> {
    [Ends(outcome, finalText)] + if outcome.Errored? then [Go, Go] + CLOSING else CLOSING
  }

  lemma DoneTouched(db: Db, run: RunId, t: Task, end: Ended)
    ensures All(At(run, db, t, AtFinishRow(end)), [Go, Go]) ==
            At(run, UpdateRecentMeta(FinishRun(db, run, end), t.session, Preview(t.lastAssistant), "", end), t,
               AtRelease)
  {
    AllTwo(At(run, db, t, AtFinishRow(end)), Go, Go);
  }

  lemma ClosingSteps(db: Db, run: RunId, t: Task, end: Ended)
    ensures var db1 := FinishRun(Commit(db, t.session, run, RunFinished(end)), run, end);
            All(At(run, db, t, AtFinishAppend(end)), CLOSING) ==
            At(run, UpdateRecentMeta(db1, t.session, Preview(t.lastAssistant), "", end), t, AtRelease)
  {
    var db1 := Commit(db, t.session, run, RunFinished(end));
    CommitSteps(db, run, t, AtFinishAppend(end), RunFinished(end), AtFinishRow(end));
    DoneTouched(db1, run, t, end);
    Chain(At(run, db, t, AtFinishAppend(end)), [Go, Go], At(run, db1, t, AtFinishRow(end)), [Go, Go],
          At(run, UpdateRecentMeta(FinishRun(db1, run, end), t.session, Preview(t.lastAssistant), "", end), t,
             AtRelease));
  }

  lemma ProviderEnded(db: Db, run: RunId, t: Task, outcome: Outcome, finalText: string)
    ensures All(At(run, db, t, AtProvider), [Ends(outcome, finalText)]) ==
            At(run, db, t.(lastAssistant := if finalText != "" then finalText else t.lastAssistant),
               if outcome.Errored? then AtErrorAppend(outcome.message) else AtFinishAppend(EndState(outcome)))
  {
    AllOne(At(run, db, t, AtProvider), Ends(outcome, finalText));
  }

  lemma FinishSteps(db: Db, run: RunId, t: Task, outcome: Outcome, finalText: string)
    ensures var u := t.(lastAssistant := if finalText != "" then finalText else t.lastAssistant);
            All(At(run, db, t, AtProvider), FinishInputs(outcome, finalText)) ==
            At(run, TurnFinished(db, t.session, run, outcome, u.lastAssistant), u, AtRelease)
  {
    var u := t.(lastAssistant := if finalText != "" then finalText else t.lastAssistant);
    var p, r := At(run, db, t, AtProvider),
        At(run, TurnFinished(db, t.session, run, outcome, u.lastAssistant), u, AtRelease);
    ProviderEnded(db, run, t, outcome, finalText);
    if outcome.Errored? {
      var q, db1 := At(run, db, u, AtErrorAppend(outcome.message)), Commit(db, t.session, run, Error(outcome.message));
      CommitSteps(db, run, u, AtErrorAppend(outcome.message), Error(outcome.message), AtFinishAppend(Failed));
      ClosingSteps(db1, run, u, Failed);
      Chain(q, [Go, Go], At(run, db1, u, AtFinishAppend(Failed)), CLOSING, r);
      Chain(p, [Ends(outcome, finalText)], q, [Go, Go] + CLOSING, r);
    } else {
      ClosingSteps(db, run, u, EndState(outcome));
      Chain(p, [Ends(outcome, finalText)], At(run, db, u, AtFinishAppend(EndState(outcome))), CLOSING, r);
    }
  }

  function TurnInputs(intent: IntentId, reports: seq<Report>, outcome: Outcome, finalText: string): seq<Input> {
    OpeningInputs(intent) + ReportInputs(reports) + FinishInputs(outcome, finalText)
  }

  /**
   The writes of Send, of the reports and of the finalizer, each taken whole, are what the goroutine's
   one-write steps compose to when nothing falls between them; every step is one the transition system accepts.
   */
  lemma TurnIsItsSteps(db: Db, sid: SessionId, run: RunId, intent: IntentId, message: string, images: seq<Image>,
                       reports: seq<Report>, outcome: Outcome, finalText: string)
    ensures All(Start(run, db, sid, intent, message, images), TurnInputs(intent, reports, outcome, finalText)) ==
            Progress(run, WholeTurn(db, sid, run, intent, message, images, reports, outcome, finalText),
                     Task(sid, intent, message, images, Final(reports, finalText), AtRelease), true)
  {
    var p, t := Start(run, db, sid, intent, message, images), Task(sid, intent, message, images, "", AtProvider);
    var db1 := TurnOpened(db, sid, run, intent, message, images);
    var q := At(run, db1, t, AtProvider);
    SendIsItsSteps(db, sid, run, intent, message, images);
    ReportSteps(db1, run, t, reports);
    FinishSteps(Reported(db1, sid, run, reports, |reports|), run, t.(lastAssistant := LastSaid(reports, |reports|)),
                outcome, finalText);
    var r := AfterReports(db1, run, t, reports, |reports|);
    Chain(p, OpeningInputs(intent), q, ReportInputs(reports), r);
    Chain(p, OpeningInputs(intent) + ReportInputs(reports), r, FinishInputs(outcome, finalText),
          All(r, FinishInputs(outcome, finalText)));
  }
}
