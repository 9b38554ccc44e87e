/** The durable tables, and what each SQL statement does to them. */
module Tables {
  import opened Ledger

  datatype RunRow = RunRow(session: SessionId, state: RunState)

  /** A row of the session-list projection; `activeRun` is "" for NULL. */
  datatype Recent = Recent(lastSeq: int, activeRun: RunId, lastRunState: RunState, preview: string)

  /** Each ledger lists the session's rows of the events table in primary-key order. */
  datatype Db = Db(sessions: set<SessionId>,
                   ledgers: map<SessionId, seq<Event>>,
                   runs: map<RunId, RunRow>,
                   recent: map<SessionId, Recent>,
                   intents: map<(SessionId, IntentId), RunId>)

  const EMPTY := Db({}, map[], map[], map[], map[])

  type Ledgers = map<SessionId, seq<Event>>

  function RowsAt(ledgers: Ledgers, sid: SessionId): seq<Event> {
    if sid in ledgers then ledgers[sid] else []
  }

  function LedgerOf(db: Db, sid: SessionId): seq<Event> {
    RowsAt(db.ledgers, sid)
  }

  function Max(a: int, b: int): int {
    if a >= b then a else b
  }

  /** COALESCE(MAX(seq), 0) */
  function MaxSeq(es: seq<Event>): (m: int)
    ensures es == [] ==> m == 0
    ensures es != [] ==> exists i :: 0 <= i < |es| && es[i].seqNo == m
    ensures forall i :: 0 <= i < |es| ==> es[i].seqNo <= m
  {
    if |es| == 0 then 0
    else if |es| == 1 then es[0].seqNo
    else Max(MaxSeq(es[..|es| - 1]), es[|es| - 1].seqNo)
  }

  lemma NumberedMax(es: seq<Event>)
    requires Numbered(es)
    ensures MaxSeq(es) == |es|
  {
    if es != [] {
      assert es[|es| - 1].seqNo == |es|;
    }
  }

  function NextEvent(es: seq<Event>, run: RunId, body: Body): Event {
    Event(MaxSeq(es) + 1, run, body)
  }

  // ---------- The statements ----------

  function Append(db: Db, sid: SessionId, run: RunId, body: Body): Db {
    var es := LedgerOf(db, sid);
    db.(ledgers := db.ledgers[sid := es + [NextEvent(es, run, body)]])
  }

  function BumpRecentSeq(db: Db, sid: SessionId, n: int): Db {
    if sid !in db.recent then db
    else db.(recent := db.recent[sid := db.recent[sid].(lastSeq := Max(db.recent[sid].lastSeq, n))])
  }

  function UpdateRecentMeta(db: Db, sid: SessionId, preview: string, activeRun: RunId, state: RunState): Db {
    if sid !in db.recent then db
    else db.(recent := db.recent[sid := Recent(db.recent[sid].lastSeq, activeRun, state, preview)])
  }

  function ClearActiveRun(db: Db, sid: SessionId, state: RunState): Db {
    if sid !in db.recent then db
    else db.(recent := db.recent[sid := db.recent[sid].(activeRun := "", lastRunState := state)])
  }

  /** The insert fails, changing nothing, when the id exists. */
  function CreateRun(db: Db, run: RunId, sid: SessionId): Db {
    if run in db.runs then db else db.(runs := db.runs[run := RunRow(sid, Running)])
  }

  function FinishRun(db: Db, run: RunId, state: RunState): Db {
    if run !in db.runs then db
    else db.(runs := db.runs[run := db.runs[run].(state := state)])
  }

  /** INSERT OR IGNORE */
  function PutIntent(db: Db, sid: SessionId, intent: IntentId, run: RunId): Db {
    if (sid, intent) in db.intents then db
    else db.(intents := db.intents[(sid, intent) := run])
  }

  function IntentRun(db: Db, sid: SessionId, intent: IntentId): RunId {
    if (sid, intent) in db.intents then db.intents[(sid, intent)] else ""
  }

  function CreateSession(db: Db, sid: SessionId): Db {
    if sid in db.sessions then db
    else db.(sessions := db.sessions + {sid},
             recent := if sid in db.recent then db.recent else db.recent[sid := Recent(0, "", NoState, "")])
  }

  /** Removes the session with its events, runs and projection row; intents stay. */
  function DeleteSession(db: Db, sid: SessionId): Db {
    Db(db.sessions - {sid},
       db.ledgers - {sid},
       map r | r in db.runs && db.runs[r].session != sid :: db.runs[r],
       db.recent - {sid},
       db.intents)
  }

  /** commit: append, then advance the projection. */
  function Commit(db: Db, sid: SessionId, run: RunId, body: Body): Db {
    BumpRecentSeq(Append(db, sid, run, body), sid, NextEvent(LedgerOf(db, sid), run, body).seqNo)
  }

  /** The tables after a session's tail has been bumped to each of these numbers in turn. */
  function Bumped(db: Db, sid: SessionId, ns: seq<int>, k: nat): Db
    requires k <= |ns|
  {
    if k == 0 then db else BumpRecentSeq(Bumped(db, sid, ns, k - 1), sid, ns[k - 1])
  }

  /** Bumps that come late or in any order leave the greatest number, and every other column as it was. */
  lemma {:induction false} TailIsGreatestBump(db: Db, sid: SessionId, ns: seq<int>, k: nat)
    requires k <= |ns| && sid in db.recent
    ensures var was, now := db.recent[sid].lastSeq, Bumped(db, sid, ns, k).recent;
            && sid in now && now[sid] == db.recent[sid].(lastSeq := now[sid].lastSeq)
            && was <= now[sid].lastSeq && (forall i :: 0 <= i < k ==> ns[i] <= now[sid].lastSeq)
            && (now[sid].lastSeq == was || exists i :: 0 <= i < k && now[sid].lastSeq == ns[i])
    ensures Bumped(db, sid, ns, k).(recent := db.recent) == db
  {
    if k > 0 {
      TailIsGreatestBump(db, sid, ns, k - 1);
    }
  }

  /** The tables after these runs have tried, one after another, to become the run of an intent. */
  function PutEach(db: Db, sid: SessionId, intent: IntentId, runs: seq<RunId>, k: nat): Db
    requires k <= |runs|
  {
    if k == 0 then db else PutIntent(PutEach(db, sid, intent, runs, k - 1), sid, intent, runs[k - 1])
  }

  /** However many runs are recorded for an intent, looking it up yields the first. */
  lemma {:induction false} FirstRecordedWins(db: Db, sid: SessionId, intent: IntentId, runs: seq<RunId>, k: nat)
    requires 0 < k <= |runs|
    ensures (sid, intent) in PutEach(db, sid, intent, runs, k).intents
    ensures IntentRun(PutEach(db, sid, intent, runs, k), sid, intent) ==
            if (sid, intent) in db.intents then db.intents[(sid, intent)] else runs[0]
  {
    if k > 1 {
      FirstRecordedWins(db, sid, intent, runs, k - 1);
    } else {
      assert PutEach(db, sid, intent, runs, 0) == db;
    }
  }

  /** A new session has no events of its own, no active run and no run state yet; everything else is as it was. */
  lemma CreateAddsAnIdleSession(db: Db, sid: SessionId)
    ensures var after := CreateSession(db, sid);
            && (sid in db.sessions ==> after == db)
            && after.sessions == db.sessions + {sid}
            && after.ledgers == db.ledgers && after.runs == db.runs && after.intents == db.intents
            && (forall other :: other in db.recent ==> other in after.recent && after.recent[other] == db.recent[other])
            && (sid !in db.sessions && sid !in db.recent ==>
                  after.recent == db.recent[sid := Recent(0, "", NoState, "")])
  {
    assert sid in db.sessions ==> db.sessions + {sid} == db.sessions;
  }

  /** Deleting a session leaves no event, run or projection row of it, and everything of every other session. */
  lemma DeleteRemovesExactlyTheSession(db: Db, sid: SessionId)
    ensures var after := DeleteSession(db, sid);
            && sid !in after.sessions && LedgerOf(after, sid) == [] && sid !in after.recent
            && (forall run :: run in after.runs <==> run in db.runs && db.runs[run].session != sid)
            && (forall run :: run in after.runs ==> after.runs[run] == db.runs[run])
            && (forall other :: other != sid ==>
                  && (other in after.sessions <==> other in db.sessions)
                  && LedgerOf(after, other) == LedgerOf(db, other)
                  && (other in after.recent <==> other in db.recent)
                  && (other in db.recent ==> after.recent[other] == db.recent[other]))
            && after.intents == db.intents
  {
  }

  // ---------- Which runs the ledgers show as going ----------

  ghost predicate TablesOrdered(db: Db) {
    forall sid :: sid in db.ledgers ==> Ascending(db.ledgers[sid])
  }

  /** e is the boundary row with the greatest sequence number. */
  predicate IsNewestBoundary(es: seq<Event>, e: Event) {
    e in es && IsBoundary(e) && forall f :: f in es && IsBoundary(f) ==> f.seqNo <= e.seqNo
  }

  lemma NewestBoundaryIsLast(es: seq<Event>, e: Event)
    requires Ascending(es)
    ensures IsNewestBoundary(es, e) <==> LastBoundary(es) >= 0 && e == es[LastBoundary(es)]
  {
    var b := LastBoundary(es);
    if b >= 0 {
      assert es[b] in es;
      if IsNewestBoundary(es, e) {
        var i :| 0 <= i < |es| && es[i] == e;
      }
    }
  }

  /** The dangling runs of all sessions: run_started rows whose number is the group's greatest boundary number. */
  ghost predicate IsDangling(db: Db, sid: SessionId, run: RunId) {
    exists e :: sid in db.ledgers && IsNewestBoundary(db.ledgers[sid], e) && e.body.RunStarted? && e.run == run
  }

  function LiveSessions(ledgers: map<SessionId, seq<Event>>): set<SessionId> {
    set sid | sid in ledgers && Live(ledgers[sid])
  }
}
