/**
 The run lifecycle as a transition system. Every durable write is its own step, so a crash can fall
 between any two of them; goroutines of different sessions and requests interleave freely.
 */
module Lifecycle {
  import opened Ledger
  import opened Tables
  import opened Recovery

  datatype Outcome = Succeeded | Cancelled | Errored(message: string)

  /** The states a run ends in. */
  type Ended = state: RunState | state.Done? || state.Interrupted? || state.Failed? witness Done

  /** Where the goroutine of a run stands: the constructor names what it does next. */
  datatype Stage =
    | AtIntent
    | AtUserAppend | AtUserBump(n: int)
    | AtCreateRun
    | AtStartAppend | AtStartBump(n: int)
    | AtTouchRunning
    | AtProvider | AtProviderBump(n: int)
    | AtErrorAppend(message: string) | AtErrorBump(n: int)
    | AtFinishAppend(end: Ended) | AtFinishBump(end: Ended, n: int)
    | AtFinishRow(end: Ended)
    | AtTouchDone(end: Ended)
    | AtRelease

  datatype Task = Task(session: SessionId, intent: IntentId, message: string, images: seq<Image>,
                       lastAssistant: string, stage: Stage)

  /** What the environment does to a run: nothing, a committed provider event, or the provider's return. */
  datatype Input = Go | Emits(body: Body) | Ends(outcome: Outcome, finalText: string)

  /** An Interrupt that saw no live run, between its check and its last write. */
  datatype Interrupter =
    | Checked(session: SessionId)
    | Found(session: SessionId, run: RunId)
    | ToBump(session: SessionId, run: RunId, n: int)
    | ToFinishRow(session: SessionId, run: RunId)
    | ToClear(session: SessionId)

  /** A Send that has passed its checks and not yet taken the session's lock. */
  datatype Request = Request(session: SessionId, intent: IntentId)

  datatype SettleAt = SettleAppend | SettleBump(n: int) | SettleFinish | SettleClear
  datatype SweepAt = SweepFinish | SweepClear

  /** `origin` records the tables when recovery began. */
  datatype Mode =
    | Starting
    | Settling(origin: Db, todo: seq<RunRef>, at: SettleAt)
    | Sweeping(origin: Db, todo: seq<RunRef>, step: SweepAt)
    | Serving

  /** `sent` is a history: the intent every run was sent with. */
  datatype State = State(db: Db, mode: Mode,
                         active: map<SessionId, RunId>,
                         tasks: map<RunId, Task>,
                         interrupters: map<nat, Interrupter>,
                         requests: map<nat, Request>,
                         sent: map<RunId, (SessionId, IntentId)>)

  datatype Step =
    | Create(sid: SessionId)
    | LookUp(q: nat, sid: SessionId, intent: IntentId)
    | Send(q: nat, sid: SessionId, run: RunId, intent: IntentId, message: string, images: seq<Image>)
    | Advance(run: RunId, input: Input)
    | CheckInterrupt(k: nat, sid: SessionId)
    | AdvanceInterrupt(k: nat)
    | InterruptAtOnce(sid: SessionId)
    | Delete(sid: SessionId)
    | Crash
    | QueryDangling(order: seq<RunRef>)
    | SettleNext
    | QueryRunning(order: seq<RunRef>)
    | SweepNext

  // ---------- One run ----------

  function Preview(text: string): string {
    if |text| > 120 then text[..120] + "…" else text
  }

  function EndState(outcome: Outcome): Ended {
    match outcome
    case Succeeded => Done
    case Cancelled => Interrupted
    case Errored(_) => Failed
  }

  predicate Accepts(stage: Stage, input: Input) {
    if stage.AtProvider? then
      input.Ends? || (input.Emits? && (input.body.AssistantMessage? || input.body.ToolCall? || input.body.ToolResult?))
    else input.Go?
  }

  /** The one statement a goroutine executes in a step. */
  datatype Write =
    | NoWrite
    | RecordIntent(intent: IntentId)
    | AppendBody(body: Body)
    | Bump(n: int)
    | InsertRun
    | Touch(preview: string, activeRun: RunId, shown: RunState)
    | EndRun(end: Ended)

  function NextWrite(run: RunId, t: Task, input: Input): Write {
    match t.stage
    case AtIntent => RecordIntent(t.intent)
    case AtUserAppend => AppendBody(UserMessage(t.message, t.images))
    case AtUserBump(n) => Bump(n)
    case AtCreateRun => InsertRun
    case AtStartAppend => AppendBody(RunStarted)
    case AtStartBump(n) => Bump(n)
    case AtTouchRunning => Touch(Preview(t.message), run, Running)
    case AtProvider => if input.Emits? then AppendBody(input.body) else NoWrite
    case AtProviderBump(n) => Bump(n)
    case AtErrorAppend(message) => AppendBody(Error(message))
    case AtErrorBump(n) => Bump(n)
    case AtFinishAppend(end) => AppendBody(RunFinished(end))
    case AtFinishBump(_, n) => Bump(n)
    case AtFinishRow(end) => EndRun(end)
    case AtTouchDone(end) => Touch(Preview(t.lastAssistant), "", end)
    case AtRelease => NoWrite
  }

  function Apply(db: Db, sid: SessionId, run: RunId, w: Write): Db {
    match w
    case NoWrite => db
    case RecordIntent(intent) => PutIntent(db, sid, intent, run)
    case AppendBody(body) => Append(db, sid, run, body)
    case Bump(n) => BumpRecentSeq(db, sid, n)
    case InsertRun => CreateRun(db, run, sid)
    case Touch(preview, activeRun, shown) => UpdateRecentMeta(db, sid, preview, activeRun, shown)
    case EndRun(end) => FinishRun(db, run, end)
  }

  function TaskWrites(db: Db, run: RunId, t: Task, input: Input): Db {
    Apply(db, t.session, run, NextWrite(run, t, input))
  }

  function TaskMoves(db: Db, t: Task, input: Input): Task {
    var n := MaxSeq(LedgerOf(db, t.session)) + 1;
    match t.stage
    case AtIntent => t.(stage := AtUserAppend)
    case AtUserAppend => t.(stage := AtUserBump(n))
    case AtUserBump(_) => t.(stage := AtCreateRun)
    case AtCreateRun => t.(stage := AtStartAppend)
    case AtStartAppend => t.(stage := AtStartBump(n))
    case AtStartBump(_) => t.(stage := AtTouchRunning)
    case AtTouchRunning => t.(stage := AtProvider)
    case AtProvider =>
      if input.Emits? then
        t.(stage := AtProviderBump(n),
           lastAssistant := if input.body.AssistantMessage? then input.body.text else t.lastAssistant)
      else if input.Ends? then
        t.(stage := if input.outcome.Errored? then AtErrorAppend(input.outcome.message)
                    else AtFinishAppend(EndState(input.outcome)),
           lastAssistant := if input.finalText != "" then input.finalText else t.lastAssistant)
      else t
    case AtProviderBump(_) => t.(stage := AtProvider)
    case AtErrorAppend(_) => t.(stage := AtErrorBump(n))
    case AtErrorBump(_) => t.(stage := AtFinishAppend(Failed))
    case AtFinishAppend(end) => t.(stage := AtFinishBump(end, n))
    case AtFinishBump(end, _) => t.(stage := AtFinishRow(end))
    case AtFinishRow(end) => t.(stage := AtTouchDone(end))
    case AtTouchDone(_) => t.(stage := AtRelease)
    case AtRelease => t
  }

  // ---------- Interrupt ----------

  function InterrupterWrites(db: Db, i: Interrupter): Db {
    match i
    case Checked(_) => db
    case Found(sid, run) => Append(db, sid, run, RunFinished(Interrupted))
    case ToBump(sid, _, n) => BumpRecentSeq(db, sid, n)
    case ToFinishRow(_, run) => FinishRun(db, run, Interrupted)
    case ToClear(sid) => ClearActiveRun(db, sid, Interrupted)
  }

  function InterrupterMoves(s: State, k: nat): map<nat, Interrupter>
    requires k in s.interrupters
  {
    var rest := s.interrupters;
    match s.interrupters[k]
    case Checked(sid) =>
      var run := DanglingRun(LedgerOf(s.db, sid));
      if run == "" then rest - {k} else rest[k := Found(sid, run)]
    case Found(sid, run) => rest[k := ToBump(sid, run, MaxSeq(LedgerOf(s.db, sid)) + 1)]
    case ToBump(sid, run, _) => rest[k := ToFinishRow(sid, run)]
    case ToFinishRow(sid, _) => rest[k := ToClear(sid)]
    case ToClear(_) => rest - {k}
  }

  // ---------- Recovery ----------

  function SettleWrites(db: Db, ref: RunRef, at: SettleAt): Db {
    match at
    case SettleAppend => Append(db, ref.session, ref.run, RunFinished(Interrupted))
    case SettleBump(n) => BumpRecentSeq(db, ref.session, n)
    case SettleFinish => FinishRun(db, ref.run, Interrupted)
    case SettleClear => ClearActiveRun(db, ref.session, Interrupted)
  }

  function SettleThen(db: Db, ref: RunRef, at: SettleAt): SettleAt
    requires !at.SettleClear?
  {
    match at
    case SettleAppend => SettleBump(MaxSeq(LedgerOf(db, ref.session)) + 1)
    case SettleBump(_) => SettleFinish
    case SettleFinish => SettleClear
  }

  function SettleMoves(db: Db, m: Mode): Mode
    requires m.Settling? && m.todo != []
  {
    if m.at.SettleClear? then Settling(m.origin, m.todo[1..], SettleAppend)
    else m.(at := SettleThen(db, m.todo[0], m.at))
  }

  function SweepWrites(db: Db, ref: RunRef, at: SweepAt): Db {
    match at
    case SweepFinish => FinishRun(db, ref.run, Interrupted)
    case SweepClear => ClearActiveRun(db, ref.session, Interrupted)
  }

  // ---------- The transition system ----------

  /** A run id that nothing mentions yet. */
  ghost predicate FreshRun(s: State, run: RunId) {
    && run != "" && run !in s.db.runs && run !in s.tasks && run !in s.sent
    && (forall sid, e :: sid in s.db.ledgers && e in s.db.ledgers[sid] ==> e.run != run)
    && (forall key :: key in s.db.intents ==> s.db.intents[key] != run)
    && (forall k ::
          && k in s.interrupters
          && (s.interrupters[k].Found? || s.interrupters[k].ToBump? || s.interrupters[k].ToFinishRow?)
          ==> s.interrupters[k].run != run)
  }

  ghost predicate Enabled(s: State, step: Step) {
    match step
    case Create(sid) =>
      s.mode.Serving? && sid !in s.db.sessions && sid !in s.active && sid !in s.db.ledgers && sid !in s.db.recent
    case LookUp(q, _, _) => s.mode.Serving? && q !in s.requests
    case Send(q, sid, run, intent, _, _) =>
      && s.mode.Serving? && q in s.requests && s.requests[q] == Request(sid, intent)
      && sid !in s.active && FreshRun(s, run)
    case Advance(run, input) => s.mode.Serving? && run in s.tasks && Accepts(s.tasks[run].stage, input)
    case CheckInterrupt(k, sid) => s.mode.Serving? && k !in s.interrupters
    case AdvanceInterrupt(k) => s.mode.Serving? && k in s.interrupters
    case InterruptAtOnce(_) => s.mode.Serving?
    case Delete(_) => s.mode.Serving?
    case Crash => true
    case QueryDangling(order) => s.mode.Starting? && ListsDangling(s.db, order)
    case SettleNext => s.mode.Settling? && s.mode.todo != []
    case QueryRunning(order) => s.mode.Settling? && s.mode.todo == [] && ListsRunning(s.db, order)
    case SweepNext => s.mode.Sweeping?
  }

  /** What a Send checks without the lock: the session exists, and no run is recorded for the intent. */
  predicate Passes(db: Db, sid: SessionId, intent: IntentId) {
    sid in db.sessions && (intent != "" ==> IntentRun(db, sid, intent) == "")
  }

  function LookedUp(s: State, q: nat, sid: SessionId, intent: IntentId): State {
    if Passes(s.db, sid, intent) then s.(requests := s.requests[q := Request(sid, intent)]) else s
  }

  /** A Send takes the session's lock and starts a goroutine. */
  function Registered(s: State, q: nat, sid: SessionId, run: RunId, intent: IntentId, message: string,
                      images: seq<Image>): State {
    s.(requests := s.requests - {q},
       active := s.active[sid := run],
       tasks := s.tasks[run := Task(sid, intent, message, images, "", if intent != "" then AtIntent else AtUserAppend)],
       sent := s.sent[run := (sid, intent)])
  }

  /** A goroutine executes its next statement, or releases the session. */
  function Advanced(s: State, run: RunId, input: Input): State
    requires run in s.tasks
  {
    var t := s.tasks[run];
    if t.stage.AtRelease? then s.(active := s.active - {t.session}, tasks := s.tasks - {run})
    else s.(db := TaskWrites(s.db, run, t, input), tasks := s.tasks[run := TaskMoves(s.db, t, input)])
  }

  function Interrupting(s: State, k: nat): State
    requires k in s.interrupters
  {
    s.(db := InterrupterWrites(s.db, s.interrupters[k]), interrupters := InterrupterMoves(s, k))
  }

  function SettledOn(s: State): State
    requires s.mode.Settling? && s.mode.todo != []
  {
    s.(db := SettleWrites(s.db, s.mode.todo[0], s.mode.at), mode := SettleMoves(s.db, s.mode))
  }

  function SweptOn(s: State): State
    requires s.mode.Sweeping?
  {
    if s.mode.todo == [] then s.(mode := Serving)
    else s.(db := SweepWrites(s.db, s.mode.todo[0], s.mode.step),
            mode := if s.mode.step.SweepFinish? then s.mode.(step := SweepClear)
                    else Sweeping(s.mode.origin, s.mode.todo[1..], SweepFinish))
  }

  function Crashed(s: State): State {
    State(s.db, Starting, map[], map[], map[], map[], s.sent)
  }

  function Created(s: State, sid: SessionId): State {
    s.(db := CreateSession(s.db, sid))
  }

  /** An Interrupt that sees an active run only cancels it. */
  function Checking(s: State, k: nat, sid: SessionId): State {
    if sid in s.active then s else s.(interrupters := s.interrupters[k := Checked(sid)])
  }

  function InterruptedAtOnce(s: State, sid: SessionId): State {
    if sid in s.active then s else s.(db := FinalizeOrphan(s.db, sid))
  }

  function Deleted(s: State, sid: SessionId): State {
    s.(db := DeleteSession(s.db, sid))
  }

  function SettlingOn(s: State, order: seq<RunRef>): State {
    s.(mode := Settling(s.db, order, SettleAppend))
  }

  function SweepingOn(s: State, order: seq<RunRef>): State
    requires s.mode.Settling?
  {
    s.(mode := Sweeping(s.mode.origin, order, SweepFinish))
  }

  ghost function Do(s: State, step: Step): State
    requires Enabled(s, step)
  {
    match step
    case Create(sid) => Created(s, sid)
    case LookUp(q, sid, intent) => LookedUp(s, q, sid, intent)
    case Send(q, sid, run, intent, message, images) => Registered(s, q, sid, run, intent, message, images)
    case Advance(run, input) => Advanced(s, run, input)
    case CheckInterrupt(k, sid) => Checking(s, k, sid)
    case AdvanceInterrupt(k) => Interrupting(s, k)
    case InterruptAtOnce(sid) => InterruptedAtOnce(s, sid)
    case Delete(sid) => Deleted(s, sid)
    case Crash => Crashed(s)
    case QueryDangling(order) => SettlingOn(s, order)
    case SettleNext => SettledOn(s)
    case QueryRunning(order) => SweepingOn(s, order)
    case SweepNext => SweptOn(s)
  }

  /** The process starts on whatever tables it finds. */
  predicate Initial(s: State) {
    s.mode.Starting? && s.active == map[] && s.tasks == map[] && s.interrupters == map[] && s.requests == map[]
    && s.sent == map[]
  }

  ghost predicate IsRun(states: seq<State>, steps: seq<Step>) {
    && |states| == |steps| + 1
    && Initial(states[0])
    && forall i :: 0 <= i < |steps| ==> Enabled(states[i], steps[i]) && states[i + 1] == Do(states[i], steps[i])
  }
}
