/** The session service: the methods that write to the store and publish, each in one piece. */
module Service {
  import opened Ledger
  import opened Tables
  import opened Recovery
  import opened Lifecycle
  import opened Stream
  import opened Store
  import opened Broadcast
  import opened Turn
  import opened Publication
  import ReportLaws

  function SessionsIn(refs: seq<RunRef>, n: nat): set<SessionId>
    requires n <= |refs|
  {
    set k | 0 <= k < n :: refs[k].session
  }

  function RunsIn(refs: seq<RunRef>, n: nat): set<RunId>
    requires n <= |refs|
  {
    set k | 0 <= k < n :: refs[k].run
  }

  lemma SessionsListed(db: Db, refs: seq<RunRef>, n: nat)
    requires ListsDangling(db, refs) && n <= |refs|
    ensures SessionsIn(refs, n) <= LiveSessions(db.ledgers)
    ensures n == |refs| ==> SessionsIn(refs, n) == LiveSessions(db.ledgers)
    ensures n < |refs| ==> SessionsIn(refs, n + 1) == SessionsIn(refs, n) + {refs[n].session}
    ensures n < |refs| ==>
              refs[n].session !in SessionsIn(refs, n) && refs[n].session in LiveSessions(db.ledgers) &&
              refs[n].run == LiveRun(db.ledgers[refs[n].session])
  {
    assert forall k :: 0 <= k < |refs| ==> refs[k] in refs;
    if n == |refs| {
      forall sid | sid in LiveSessions(db.ledgers) ensures sid in SessionsIn(refs, n) {
        assert RunRef(LiveRun(db.ledgers[sid]), sid) in refs;
      }
    }
  }

  lemma RunsListed(db: Db, refs: seq<RunRef>, n: nat)
    requires ListsRunning(db, refs) && n <= |refs|
    ensures n == |refs| ==> RunsIn(refs, n) == RunningRuns(db.runs)
    ensures n < |refs| ==> RunsIn(refs, n + 1) == RunsIn(refs, n) + {refs[n].run}
    ensures n < |refs| ==>
              refs[n].run !in RunsIn(refs, n) && refs[n].run in db.runs
                  && refs[n].session == db.runs[refs[n].run].session
  {
    assert forall k :: 0 <= k < |refs| ==> refs[k] in refs;
    if n == |refs| {
      forall run | run in RunningRuns(db.runs) ensures run in RunsIn(refs, n) {
        assert RunRef(run, db.runs[run].session) in refs;
      }
    }
  }

  /** One more row of the query settles one more ledger, in whatever order the rows came. */
  lemma NextSettled(db: Db, refs: seq<RunRef>, n: nat)
    requires ListsDangling(db, refs) && n < |refs|
    ensures SessionsIn(refs, n + 1) <= LiveSessions(db.ledgers) && SessionsIn(refs, n) <= LiveSessions(db.ledgers)
    ensures SettleLedgers(db, SessionsIn(refs, n + 1)) ==
            SettleOne(SettleLedgers(db, SessionsIn(refs, n)), refs[n].session, refs[n].run)
  {
    SessionsListed(db, refs, n);
    SettleOneMore(db, SessionsIn(refs, n), refs[n].session);
  }

  lemma NextSwept(db: Db, refs: seq<RunRef>, n: nat)
    requires ListsRunning(db, refs) && n < |refs|
    ensures SweepRuns(db, RunsIn(refs, n + 1)) == SweepOne(SweepRuns(db, RunsIn(refs, n)), refs[n].run, refs[n].session)
  {
    RunsListed(db, refs, n);
    SweepOneMore(db, RunsIn(refs, n), refs[n].run);
  }

  // ---------- The service ----------

  datatype SendResult = Sent(run: RunId) | Repeated(run: RunId) | Blocked | NoSession | Busy

  /** Each answer's exact condition; a repeated intent is answered even while its run is going. */
  ghost predicate AnswersSend(r: SendResult, db: Db, active: map<SessionId, RunId>, sid: SessionId, run: RunId,
                              intent: IntentId, blocked: bool) {
    && (r.Blocked? <==> blocked)
    && (r.NoSession? <==> !blocked && sid !in db.sessions)
    && (r.Repeated? <==> !blocked && sid in db.sessions && intent != "" && IntentRun(db, sid, intent) != "")
    && (r.Busy? <==> !blocked && Passes(db, sid, intent) && sid in active)
    && (r.Sent? <==> !blocked && Passes(db, sid, intent) && sid !in active)
    && (r.Repeated? ==> r.run == IntentRun(db, sid, intent))
    && (r.Sent? ==> r.run == run)
  }

  /** What becomes of a Send: the first refusal that applies, or the run an earlier Send of the intent started. */
  function Admission(db: Db, active: map<SessionId, RunId>, sid: SessionId, run: RunId, intent: IntentId,
                     blocked: bool): (r: SendResult)
    ensures AnswersSend(r, db, active, sid, run, intent, blocked)
  {
    var existing := if intent == "" then "" else IntentRun(db, sid, intent);
    if blocked then Blocked
    else if sid !in db.sessions then NoSession
    else if existing != "" then Repeated(existing)
    else if sid in active then Busy
    else Sent(run)
  }

  class Service {
    const store: Store
    const bc: Broadcaster
    /** The sessions with a run going in this process; the source maps them to its cancel function. */
    var active: map<SessionId, RunId>
    /** The runs whose cancel function has been called. */
    var cancelled: set<RunId>

    ghost predicate Valid()
      reads store, bc, bc.channels
    {
      store.Valid() && bc.Valid()
    }

    /** A process that starts has no run going, whatever the store holds. */
    constructor (store: Store)
      requires store.Valid()
      ensures Valid() && this.store == store && active == map[] && cancelled == {} && fresh(bc) && bc.channels == {}
    {
      this.store, active, cancelled := store, map[], {};
      bc := new Broadcaster();
    }

    /** Appends the event, advances the projection, then fans it out. */
    method Commit(sid: SessionId, run: RunId, body: Body)
      requires Valid()
      modifies store, bc, bc.channels
      ensures Valid() && bc.channels == old(bc.channels)
      ensures store.Contents() == Tables.Commit(old(store.Contents()), sid, run, body)
      ensures bc.published == old(bc.published)[sid :=
                FramesAt(old(bc.published), sid) + [CommitFrame(old(store.Contents()), sid, run, body)]]
      ensures Broadcasts(old(store.ledgers), store.ledgers, old(bc.published), bc.published)
      ensures Relays(sid, [CommitFrame(old(store.Contents()), sid, run, body)], old(bc.published), bc.published)
    {
      ghost var was, before := store.Contents(), bc.published;
      var e := store.AppendEvent(sid, run, body);
      store.BumpRecentSeq(sid, e.seqNo);
      bc.Publish(sid, EventFrame(e));
      CommitBroadcasts(was, sid, run, body, before, bc.published);
    }

    /** The four writes that end a run nobody in this process is running. */
    method Settle(sid: SessionId, run: RunId)
      requires Valid()
      modifies store, bc, bc.channels
      ensures Valid() && bc.channels == old(bc.channels)
      ensures store.Contents() == SettleOne(old(store.Contents()), sid, run)
      ensures Broadcasts(old(store.ledgers), store.ledgers, old(bc.published), bc.published)
    {
      Commit(sid, run, RunFinished(Interrupted));
      store.FinishRun(run, Interrupted);
      store.ClearActiveRun(sid, Interrupted);
    }

    method FinalizeOrphanRun(sid: SessionId)
      requires Valid()
      modifies store, bc, bc.channels
      ensures Valid() && bc.channels == old(bc.channels)
      ensures store.Contents() == FinalizeOrphan(old(store.Contents()), sid)
      ensures Broadcasts(old(store.ledgers), store.ledgers, old(bc.published), bc.published)
    {
      var run := store.DanglingRun(sid);
      if run == "" {
        NothingToBroadcast(store.ledgers, bc.published);
        return;
      }
      Settle(sid, run);
    }

    /** Cancels the run going here, if there is one; otherwise finishes what the ledger shows running. */
    method Interrupt(sid: SessionId)
      requires Valid()
      modifies this`cancelled, store, bc, bc.channels
      ensures Valid() && bc.channels == old(bc.channels)
      ensures cancelled == if sid in active then old(cancelled) + {active[sid]} else old(cancelled)
      ensures store.Contents() ==
              if sid in active then old(store.Contents()) else FinalizeOrphan(old(store.Contents()), sid)
      ensures Broadcasts(old(store.ledgers), store.ledgers, old(bc.published), bc.published)
    {
      if sid in active {
        cancelled := cancelled + {active[sid]};
        NothingToBroadcast(store.ledgers, bc.published);
        return;
      }
      FinalizeOrphanRun(sid);
    }

    method DeleteSession(sid: SessionId)
      requires Valid()
      modifies this`cancelled, store, bc, bc.channels
      ensures Valid()
      ensures cancelled == if sid in active then old(cancelled) + {active[sid]} else old(cancelled)
      ensures var interrupted :=
              if sid in active then old(store.Contents()) else FinalizeOrphan(old(store.Contents()), sid);
              && store.Contents() == Tables.DeleteSession(interrupted, sid)
              && Broadcasts(old(store.ledgers), interrupted.ledgers, old(bc.published), bc.published)
    {
      Interrupt(sid);
      store.DeleteSession(sid);
    }

    // ---------- Recovery ----------

    /** The tables after the first n rows, and what has been published of them. */
    ghost predicate SettledSoFar(was: Db, before: Log, refs: seq<RunRef>, n: nat)
      reads store, bc
      requires n <= |refs|
    {
      && SessionsIn(refs, n) <= LiveSessions(was.ledgers)
      && store.Contents() == SettleLedgers(was, SessionsIn(refs, n))
      && Broadcasts(was.ledgers, store.ledgers, before, bc.published)
    }

    method SettleRow(ghost was: Db, ghost before: Log, refs: seq<RunRef>, i: nat)
      requires Valid() && ListsDangling(was, refs) && i < |refs| && SettledSoFar(was, before, refs, i)
      modifies store, bc, bc.channels
      ensures Valid() && bc.channels == old(bc.channels) && SettledSoFar(was, before, refs, i + 1)
    {
      ghost var mid, so := store.ledgers, bc.published;
      Settle(refs[i].session, refs[i].run);
      BroadcastsThen(was.ledgers, mid, store.ledgers, before, so, bc.published);
      NextSettled(was, refs, i);
    }

    method SettleRows(ghost was: Db, ghost before: Log, refs: seq<RunRef>)
      requires Valid() && ListsDangling(was, refs) && store.Contents() == was && bc.published == before
      modifies store, bc, bc.channels
      ensures Valid() && bc.channels == old(bc.channels) && SettledSoFar(was, before, refs, |refs|)
    {
      SettleNone(was);
      assert SessionsIn(refs, 0) == {};
      NothingToBroadcast(was.ledgers, before);
      for i := 0 to |refs|
        invariant Valid() && bc.channels == old(bc.channels) && SettledSoFar(was, before, refs, i)
      {
        SettleRow(was, before, refs, i);
      }
    }

    method SettleDangling()
      requires Valid()
      modifies store, bc, bc.channels
      ensures Valid() && bc.channels == old(bc.channels)
      ensures store.Contents() == SettleLedgers(old(store.Contents()), LiveSessions(old(store.ledgers)))
      ensures Broadcasts(old(store.ledgers), store.ledgers, old(bc.published), bc.published)
    {
      ghost var was := store.Contents();
      var dangling := store.DanglingRuns();
      SettleRows(was, bc.published, dangling);
      SessionsListed(was, dangling, |dangling|);
    }

    method SweepRunning()
      requires Valid()
      modifies store
      ensures Valid() && store.ledgers == old(store.ledgers)
      ensures store.Contents() == SweepRuns(old(store.Contents()), RunningRuns(old(store.runs)))
    {
      ghost var was := store.Contents();
      var running := store.RunningRuns();
      SweepNone(was);
      RunsListed(was, running, |running|);
      for i := 0 to |running|
        invariant Valid() && store.ledgers == old(store.ledgers)
        invariant store.Contents() == SweepRuns(was, RunsIn(running, i))
      {
        store.FinishRun(running[i].run, Interrupted);
        store.ClearActiveRun(running[i].session, Interrupted);
        NextSwept(was, running, i);
      }
    }

    /** Both passes, whatever order the queries returned their rows in. */
    method ReconcileStuckRuns()
      requires Valid()
      modifies store, bc, bc.channels
      ensures Valid() && store.Contents() == Reconcile(old(store.Contents()))
      ensures Broadcasts(old(store.ledgers), store.ledgers, old(bc.published), bc.published)
    {
      SettleDangling();
      SweepRunning();
    }

    // ---------- A turn ----------

    method CommitUser(sid: SessionId, run: RunId, intent: IntentId, message: string, images: seq<Image>)
      requires Valid()
      modifies store, bc, bc.channels
      ensures Valid() && bc.channels == old(bc.channels)
      ensures var was := old(store.Contents());
              store.Contents() == Tables.Commit(if intent != "" then Tables.PutIntent(was, sid, intent, run) else was,
                                                sid, run, UserMessage(message, images))
      ensures Broadcasts(old(store.ledgers), store.ledgers, old(bc.published), bc.published)
    {
      if intent != "" {
        store.PutIntent(sid, intent, run);
      }
      Commit(sid, run, UserMessage(message, images));
    }

    /** The runs row before run_started, so that no crash leaves a start without a row. */
    method CommitStart(sid: SessionId, run: RunId, message: string)
      requires Valid()
      modifies store, bc, bc.channels
      ensures Valid() && bc.channels == old(bc.channels)
      ensures store.Contents() ==
              Tables.UpdateRecentMeta(Tables.Commit(Tables.CreateRun(old(store.Contents()), run, sid), sid, run,
                                                    RunStarted),
                                      sid, Preview(message), run, Running)
      ensures Broadcasts(old(store.ledgers), store.ledgers, old(bc.published), bc.published)
    {
      var ok := store.CreateRun(run, sid);
      Commit(sid, run, RunStarted);
      store.UpdateRecentMeta(sid, Preview(message), run, Running);
    }

    /** The writes of a Send that was registered. */
    method Open(sid: SessionId, run: RunId, intent: IntentId, message: string, images: seq<Image>)
      requires Valid()
      modifies store, bc, bc.channels
      ensures Valid() && bc.channels == old(bc.channels)
      ensures store.Contents() == TurnOpened(old(store.Contents()), sid, run, intent, message, images)
      ensures Broadcasts(old(store.ledgers), store.ledgers, old(bc.published), bc.published)
    {
      ghost var was, before := store.ledgers, bc.published;
      CommitUser(sid, run, intent, message, images);
      ghost var mid, so := store.ledgers, bc.published;
      CommitStart(sid, run, message);
      BroadcastsThen(was, mid, store.ledgers, before, so, bc.published);
    }

    /** Send's refusals and its idempotency lookup; `blocked` is the refusal while credentials are unreadable. */
    method Admit(sid: SessionId, run: RunId, intent: IntentId, blocked: bool) returns (r: SendResult)
      ensures r == Admission(store.Contents(), active, sid, run, intent, blocked)
      ensures AnswersSend(r, store.Contents(), active, sid, run, intent, blocked)
    {
      if blocked {
        return Blocked;
      }
      if sid !in store.sessions {
        return NoSession;
      }
      if intent != "" {
        var existing := store.IntentRun(sid, intent);
        if existing != "" {
          return Repeated(existing);
        }
      }
      if sid in active {
        return Busy;
      }
      return Sent(run);
    }

    /** Takes the session's lock and opens the turn. */
    method Begin(sid: SessionId, run: RunId, intent: IntentId, message: string, images: seq<Image>)
      requires Valid()
      modifies this`active, store, bc, bc.channels
      ensures Valid() && bc.channels == old(bc.channels)
      ensures store.Contents() == TurnOpened(old(store.Contents()), sid, run, intent, message, images)
      ensures active == old(active)[sid := run]
      ensures Broadcasts(old(store.ledgers), store.ledgers, old(bc.published), bc.published)
    {
      active := active[sid := run];
      Open(sid, run, intent, message, images);
    }

    /** `run` is the id drawn for the turn. */
    method Send(sid: SessionId, run: RunId, intent: IntentId, message: string, images: seq<Image>, blocked: bool)
      returns (r: SendResult)
      requires Valid()
      modifies this`active, store, bc, bc.channels
      ensures Valid() && bc.channels == old(bc.channels)
      ensures r == Admission(old(store.Contents()), old(active), sid, run, intent, blocked)
      ensures AnswersSend(r, old(store.Contents()), old(active), sid, run, intent, blocked)
      ensures forall x :: x in old(active) ==> x in active && active[x] == old(active)[x]
      ensures store.Contents() == if r.Sent? then TurnOpened(old(store.Contents()), sid, run, intent, message, images)
                                  else old(store.Contents())
      ensures active == if r.Sent? then old(active)[sid := run] else old(active)
      ensures Broadcasts(old(store.ledgers), store.ledgers, old(bc.published), bc.published)
    {
      r := Admit(sid, run, intent, blocked);
      if r.Sent? {
        Begin(sid, run, intent, message, images);
      } else {
        NothingToBroadcast(store.ledgers, bc.published);
      }
    }

    method CloseRun(sid: SessionId, run: RunId, end: RunState, preview: string)
      modifies store`runs, store`recent
      ensures store.Contents() ==
              Tables.UpdateRecentMeta(Tables.FinishRun(old(store.Contents()), run, end), sid, preview, "", end)
    {
      store.FinishRun(run, end);
      store.UpdateRecentMeta(sid, preview, "", end);
    }

    method CommitEnding(sid: SessionId, run: RunId, outcome: Outcome)
      requires Valid()
      modifies store, bc, bc.channels
      ensures Valid() && bc.channels == old(bc.channels)
      ensures var was := old(store.Contents());
              store.Contents() == Tables.Commit(
                if outcome.Errored? then Tables.Commit(was, sid, run, Error(outcome.message)) else was,
                sid, run, RunFinished(EndState(outcome)))
      ensures Broadcasts(old(store.ledgers), store.ledgers, old(bc.published), bc.published)
    {
      ghost var was, before := store.ledgers, bc.published;
      if outcome.Errored? {
        Commit(sid, run, Error(outcome.message));
      } else {
        NothingToBroadcast(store.ledgers, bc.published);
      }
      ghost var mid, so := store.ledgers, bc.published;
      Commit(sid, run, RunFinished(EndState(outcome)));
      BroadcastsThen(was, mid, store.ledgers, before, so, bc.published);
    }

    method WriteEnding(sid: SessionId, run: RunId, outcome: Outcome, lastAssistant: string)
      requires Valid()
      modifies store, bc, bc.channels
      ensures Valid()
      ensures store.Contents() == TurnFinished(old(store.Contents()), sid, run, outcome, lastAssistant)
      ensures Broadcasts(old(store.ledgers), store.ledgers, old(bc.published), bc.published)
    {
      CommitEnding(sid, run, outcome);
      CloseRun(sid, run, EndState(outcome), Preview(lastAssistant));
    }

    /** The deferred finalizer, for however the provider returned; a panic counts as an error. */
    method Finish(sid: SessionId, run: RunId, outcome: Outcome, lastAssistant: string)
      requires Valid()
      modifies this`active, this`cancelled, store, bc, bc.channels
      ensures Valid()
      ensures store.Contents() == TurnFinished(old(store.Contents()), sid, run, outcome, lastAssistant)
      ensures active == old(active) - {sid} && cancelled == old(cancelled) + {run}
      ensures Broadcasts(old(store.ledgers), store.ledgers, old(bc.published), bc.published)
    {
      WriteEnding(sid, run, outcome, lastAssistant);
      active := active - {sid};
      cancelled := cancelled + {run};
    }

    /** The provider's reports, as they come. */
    method Relay(sid: SessionId, run: RunId, reports: seq<Report>) returns (lastAssistant: string)
      requires Valid()
      modifies store, bc, bc.channels
      ensures Valid() && bc.channels == old(bc.channels)
      ensures store.Contents() == Reported(old(store.Contents()), sid, run, reports, |reports|)
      ensures lastAssistant == LastSaid(reports, |reports|)
      ensures Relays(sid, ReportFrames(old(store.Contents()), sid, run, reports, |reports|), old(bc.published),
                     bc.published)
    {
      ghost var was, before := store.Contents(), bc.published;
      lastAssistant := "";
      RelaysNothing(sid, before);
      for i := 0 to |reports|
        invariant Valid() && bc.channels == old(bc.channels)
        invariant store.Contents() == Reported(was, sid, run, reports, i)
        invariant lastAssistant == LastSaid(reports, i)
        invariant Relays(sid, ReportFrames(was, sid, run, reports, i), before, bc.published)
      {
        ghost var so, frames := bc.published, ReportFrames(was, sid, run, reports, i);
        ghost var more := ReportFrame(store.Contents(), sid, run, reports[i]);
        ReportFramesNext(was, sid, run, reports, i, frames);
        OnReport(sid, run, reports[i]);
        RelaysThen(sid, frames, more, before, so, bc.published);
        if reports[i].Says? {
          lastAssistant := reports[i].text;
        }
      }
    }

    /** The goroutine of a run: relays the provider's reports, then the finalizer; `all` are the tables in between. */
    method RunProvider(sid: SessionId, run: RunId, reports: seq<Report>, outcome: Outcome, finalText: string)
      returns (ghost relayed: Log)
      requires Valid()
      modifies this`active, this`cancelled, store, bc, bc.channels
      ensures Valid()
      ensures active == old(active) - {sid} && cancelled == old(cancelled) + {run}
      ensures Relays(sid, ReportFrames(old(store.Contents()), sid, run, reports, |reports|), old(bc.published), relayed)
      ensures var all := Reported(old(store.Contents()), sid, run, reports, |reports|);
              && store.Contents() == TurnFinished(all, sid, run, outcome, Final(reports, finalText))
              && Broadcasts(all.ledgers, store.ledgers, relayed, bc.published)
      ensures ReportLaws.Retells(ReportFrames(old(store.Contents()), sid, run, reports, |reports|), run, reports,
                                 ReportLaws.Positions(ReportLaws.Shown, reports, |reports|))
      ensures ReportLaws.RunsToItsEnd(LedgerOf(old(store.Contents()), sid), LedgerOf(store.Contents(), sid), run,
                                      reports, ReportLaws.Positions(ReportLaws.Kept, reports, |reports|), outcome)
    {
      ReportLaws.ReportsAreRetold(store.Contents(), sid, run, reports, |reports|);
      ReportLaws.ReportsThenEnding(store.Contents(), sid, run, reports, outcome, Final(reports, finalText));
      var lastAssistant := Relay(sid, run, reports);
      relayed := bc.published;
      if finalText != "" {
        lastAssistant := finalText;
      }
      Finish(sid, run, outcome, lastAssistant);
    }

    /** A report is committed and broadcast, broadcast only, or neither. */
    method OnReport(sid: SessionId, run: RunId, r: Report)
      requires Valid()
      modifies store, bc, bc.channels
      ensures Valid() && bc.channels == old(bc.channels)
      ensures store.Contents() == if Committed(r) == [] then old(store.Contents())
                                  else Tables.Commit(old(store.Contents()), sid, run, Committed(r)[0])
      ensures Relays(sid, ReportFrame(old(store.Contents()), sid, run, r), old(bc.published), bc.published)
      ensures r.Says? ==> store.Contents() == Tables.Commit(old(store.Contents()), sid, run, AssistantMessage(r.text))
      ensures r.Calls? ==>
                store.Contents() == Tables.Commit(old(store.Contents()), sid, run, ToolCall(r.name, r.id, r.input))
      ensures r.Returns? ==>
                store.Contents() == Tables.Commit(old(store.Contents()), sid, run, ToolResult(r.id, r.output))
      ensures r.Note? || r.Delta? ==> store.Contents() == old(store.Contents())
      ensures r.Note? ==> bc.published == old(bc.published)
      ensures r.Delta? ==> Relays(sid, [DeltaFrame(run, r.text, r.index)], old(bc.published), bc.published)
    {
      ghost var before := bc.published;
      match r
      case Note => RelaysNothing(sid, before);
      case Delta(text, index) =>
        bc.Publish(sid, DeltaFrame(run, text, index));
        PublishRelays(sid, DeltaFrame(run, text, index), before, bc.published);
      case Says(text) => Commit(sid, run, AssistantMessage(text));
      case Calls(name, id, input) => Commit(sid, run, ToolCall(name, id, input));
      case Returns(id, output) => Commit(sid, run, ToolResult(id, output));
    }
  }
}
