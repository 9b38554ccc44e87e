/** What a Send promises: which answer it gives, how that agrees with the transition system, and what it records. */
module SendLaws {
  import opened Ledger
  import opened Tables
  import opened Lifecycle
  import opened LifecycleSafety
  import opened Turn
  import opened TurnLaws
  import opened Service

  lemma LookUpKeepsFresh(s: State, q: nat, sid: SessionId, run: RunId, intent: IntentId)
    requires FreshRun(s, run)
    ensures FreshRun(LookedUp(s, q, sid, intent), run)
  {
  }

  /**
   While serving, an unblocked Send answers that it was sent exactly when the transition system, having
   looked the intent up, lets it register; the lock is then taken for its run, and no other lock changes.
   */
  lemma SentIffRegisters(s: State, q: nat, sid: SessionId, run: RunId, intent: IntentId, message: string,
                         images: seq<Image>)
    requires s.mode.Serving? && q !in s.requests && FreshRun(s, run)
    ensures Enabled(s, LookUp(q, sid, intent))
    ensures var looked := Do(s, LookUp(q, sid, intent));
            var send := Send(q, sid, run, intent, message, images);
            && (Admission(s.db, s.active, sid, run, intent, false) == Sent(run) <==> Enabled(looked, send))
            && (Enabled(looked, send) ==>
                  && Do(looked, send).active == s.active[sid := run] && sid !in s.active
                  && Do(looked, send).requests == s.requests && Do(looked, send).db == s.db)
  {
    LookUpKeepsFresh(s, q, sid, run, intent);
    assert s.requests[q := Request(sid, intent)] - {q} == s.requests;
  }

  /** The step gives up the session's lock: its own goroutine's release, or the end of the process. */
  predicate GivesUp(s: State, step: Step, sid: SessionId)
    requires sid in s.active
  {
    step.Crash? || (step.Advance? && step.run == s.active[sid])
  }

  lemma OtherReleases(s: State, run: RunId, input: Input, sid: SessionId)
    requires LocksMatch(s) && run in s.tasks && sid in s.active && run != s.active[sid]
    ensures sid in Advanced(s, run, input).active && Advanced(s, run, input).active[sid] == s.active[sid]
  {
    assert s.tasks[run].session != sid;
  }

  lemma LockKept(s: State, step: Step, sid: SessionId)
    requires Inv(s) && Enabled(s, step) && sid in s.active && !GivesUp(s, step, sid)
    ensures sid in Do(s, step).active && Do(s, step).active[sid] == s.active[sid]
  {
    if step.Advance? {
      OtherReleases(s, step.run, step.input, sid);
    }
  }

  /**
   Over any run, what the active map holds for a session stays until its own goroutine moves or the process
   ends: no Send, interrupt or deletion ever replaces or removes it.
   */
  lemma {:induction false} LockStaysUntilGivenUp(states: seq<State>, steps: seq<Step>, i: nat, j: nat, sid: SessionId)
    requires IsRun(states, steps) && i <= j < |states| && sid in states[i].active
    requires forall k :: i <= k < j ==>
               !steps[k].Crash? && !(steps[k].Advance? && steps[k].run == states[i].active[sid])
    ensures sid in states[j].active && states[j].active[sid] == states[i].active[sid]
  {
    if i < j {
      LockStaysUntilGivenUp(states, steps, i, j - 1, sid);
      RunKeepsInv(states, steps, j - 1);
      LockKept(states[j - 1], steps[j - 1], sid);
    }
  }

  // ---------- What the opening of a turn records ----------

  /** A preview is no longer than 121 characters and keeps the first 120; it is the text iff nothing was cut. */
  lemma PreviewKeepsTheStart(text: string)
    ensures |Preview(text)| <= 121 && |Preview(text)| <= |text|
    ensures forall i :: 0 <= i < |text| && i < 120 ==> i < |Preview(text)| && Preview(text)[i] == text[i]
    ensures Preview(text) == text <==> |text| <= 120 || (|text| == 121 && text[120] == '…')
    ensures |text| > 120 ==> Preview(text)[|Preview(text)| - 1] == '…'
  {
    if |text| == 121 && text[120] == '…' {
      assert text == text[..120] + [text[120]];
    }
  }

  /** A session's row that shows a run going. */
  predicate ShowsRunning(row: Recent, es: seq<Event>, run: RunId, message: string) {
    && row.activeRun == run && row.lastRunState == Running && row.preview == Preview(message)
    && es != [] && row.lastSeq >= es[|es| - 1].seqNo
  }

  lemma TouchedRow(db: Db, sid: SessionId, run: RunId, message: string)
    requires sid in db.recent
    ensures var db2 := UpdateRecentMeta(Commit(db, sid, run, RunStarted), sid, Preview(message), run, Running);
            sid in db2.recent && ShowsRunning(db2.recent[sid], LedgerOf(db2, sid), run, message)
  {
    CommitEffect(db, sid, run, RunStarted);
  }

  lemma OpenedRow(db: Db, sid: SessionId, run: RunId, intent: IntentId, message: string, images: seq<Image>)
    requires sid in db.recent
    ensures var after := TurnOpened(db, sid, run, intent, message, images);
            sid in after.recent && ShowsRunning(after.recent[sid], LedgerOf(after, sid), run, message)
  {
    var db1 := if intent != "" then PutIntent(db, sid, intent, run) else db;
    var db2 := CreateRun(Commit(db1, sid, run, UserMessage(message, images)), run, sid);
    IntentEffect(db, sid, run, intent);
    CommitEffect(db1, sid, run, UserMessage(message, images));
    TouchedRow(db2, sid, run, message);
  }

  lemma GrewByStart(was: seq<Event>, now: seq<Event>, run: RunId, body: Body)
    requires Grew(was, now, run, [body, RunStarted])
    ensures Live(now) && LiveRun(now) == run
  {
    var bodies, e := [body, RunStarted], now[|was| + 1];
    assert e.body == bodies[1] && e.run == run;
    assert now == now[..|now| - 1] + [e];
    LastBoundaryAppend(now[..|now| - 1], e);
  }

  lemma OpenedIntents(db: Db, sid: SessionId, run: RunId, intent: IntentId, message: string, images: seq<Image>)
    ensures TurnOpened(db, sid, run, intent, message, images).intents ==
            if intent != "" && (sid, intent) !in db.intents then db.intents[(sid, intent) := run] else db.intents
  {
    var db1 := if intent != "" then PutIntent(db, sid, intent, run) else db;
    OpeningElsewhere(db1, sid, run, message, images);
  }

  /**
   What a Send that was accepted leaves: the user's message and run_started at the ledger's end, which now
   shows this run as live; a running runs row, the intent recorded unless it was, and a projection row that
   shows the run going.
   */
  lemma OpeningRecords(db: Db, sid: SessionId, run: RunId, intent: IntentId, message: string, images: seq<Image>)
    requires run !in db.runs
    ensures var after := TurnOpened(db, sid, run, intent, message, images);
            && Grew(LedgerOf(db, sid), LedgerOf(after, sid), run, [UserMessage(message, images), RunStarted])
            && Live(LedgerOf(after, sid)) && LiveRun(LedgerOf(after, sid)) == run
            && after.runs == db.runs[run := RunRow(sid, Running)]
            && after.intents == (if intent != "" && (sid, intent) !in db.intents
                                 then db.intents[(sid, intent) := run] else db.intents)
            && after.recent.Keys == db.recent.Keys
            && (sid in db.recent ==> ShowsRunning(after.recent[sid], LedgerOf(after, sid), run, message))
  {
    var after := TurnOpened(db, sid, run, intent, message, images);
    TurnOpenedGrew(db, sid, run, intent, message, images);
    TurnOpenedRows(db, sid, run, intent, message, images);
    GrewByStart(LedgerOf(db, sid), LedgerOf(after, sid), run, UserMessage(message, images));
    OpenedIntents(db, sid, run, intent, message, images);
    if sid in db.recent {
      OpenedRow(db, sid, run, intent, message, images);
    }
  }
}
