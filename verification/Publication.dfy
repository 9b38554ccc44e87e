/** Write first, then broadcast: which frames a method publishes, given what it appends. */
module Publication {
  import opened Ledger
  import opened Stream
  import opened Tables
  import opened Turn
  import opened Broadcast
  import Replica

  /** A ledger grew, and of its session exactly the new events have been published, in order. */
  ghost predicate FedBy(was: seq<Event>, now: seq<Event>, before: seq<Frame>, after: seq<Frame>) {
    was <= now && after == before + FramesOf(now[|was|..])
  }

  /** Every ledger grew, and exactly what was appended has been published. */
  ghost predicate Broadcasts(was: Ledgers, now: Ledgers, before: Log, after: Log) {
    forall sid :: FedBy(RowsAt(was, sid), RowsAt(now, sid), FramesAt(before, sid), FramesAt(after, sid))
  }

  /** Only this session's subscribers were sent frames, and these. */
  ghost predicate Relays(sid: SessionId, frames: seq<Frame>, before: Log, after: Log) {
    forall x :: FramesAt(after, x) == if x == sid then FramesAt(before, x) + frames else FramesAt(before, x)
  }

  lemma RelaysThen(sid: SessionId, a: seq<Frame>, b: seq<Frame>, x: Log, y: Log, z: Log)
    requires Relays(sid, a, x, y) && Relays(sid, b, y, z)
    ensures Relays(sid, a + b, x, z)
  {
    assert FramesAt(x, sid) + (a + b) == FramesAt(x, sid) + a + b;
  }

  lemma RelaysNothing(sid: SessionId, published: Log)
    ensures Relays(sid, [], published, published)
  {
    assert FramesAt(published, sid) + [] == FramesAt(published, sid);
  }

  lemma FedThen(a: seq<Event>, b: seq<Event>, c: seq<Event>, x: seq<Frame>, y: seq<Frame>, z: seq<Frame>)
    requires FedBy(a, b, x, y) && FedBy(b, c, y, z)
    ensures FedBy(a, c, x, z)
  {
    assert c[|a|..] == b[|a|..] + c[|b|..];
    assert FramesOf(c[|a|..]) == FramesOf(b[|a|..]) + FramesOf(c[|b|..]);
  }

  lemma BroadcastsThen(a: Ledgers, b: Ledgers, c: Ledgers, x: Log, y: Log, z: Log)
    requires Broadcasts(a, b, x, y) && Broadcasts(b, c, y, z)
    ensures Broadcasts(a, c, x, z)
  {
    forall sid ensures FedBy(RowsAt(a, sid), RowsAt(c, sid), FramesAt(x, sid), FramesAt(z, sid)) {
      FedThen(RowsAt(a, sid), RowsAt(b, sid), RowsAt(c, sid), FramesAt(x, sid), FramesAt(y, sid), FramesAt(z, sid));
    }
  }

  /** Where nothing is appended, no frame is called for. */
  lemma NothingToBroadcast(ledgers: Ledgers, published: Log)
    ensures Broadcasts(ledgers, ledgers, published, published)
  {
    forall sid ensures FedBy(RowsAt(ledgers, sid), RowsAt(ledgers, sid), FramesAt(published, sid),
                             FramesAt(published, sid)) {
      assert FramesAt(published, sid) + [] == FramesAt(published, sid);
    }
  }

  function CommitFrame(db: Db, sid: SessionId, run: RunId, body: Body): Frame {
    EventFrame(NextEvent(LedgerOf(db, sid), run, body))
  }

  lemma CommitBroadcasts(db: Db, sid: SessionId, run: RunId, body: Body, before: Log, after: Log)
    requires after == before[sid := FramesAt(before, sid) + [CommitFrame(db, sid, run, body)]]
    ensures Broadcasts(db.ledgers, Commit(db, sid, run, body).ledgers, before, after)
    ensures Relays(sid, [CommitFrame(db, sid, run, body)], before, after)
  {
    var now := Commit(db, sid, run, body).ledgers;
    forall x ensures FedBy(RowsAt(db.ledgers, x), RowsAt(now, x), FramesAt(before, x), FramesAt(after, x)) {
      if x == sid {
        var es := RowsAt(db.ledgers, sid);
        assert RowsAt(now, sid) == es + [NextEvent(es, run, body)];
        assert RowsAt(now, sid)[|es|..] == [NextEvent(es, run, body)];
      } else {
        assert FramesAt(before, x) + [] == FramesAt(before, x);
      }
    }
  }

  lemma PublishRelays(sid: SessionId, f: Frame, before: Log, after: Log)
    requires after == before[sid := FramesAt(before, sid) + [f]]
    ensures Relays(sid, [f], before, after)
  {
  }

  // ---------- A provider's reports ----------

  /** A delta is broadcast only; a committed report is broadcast as its event. */
  function ReportFrame(db: Db, sid: SessionId, run: RunId, r: Report): seq<Frame> {
    if r.Delta? then [DeltaFrame(run, r.text, r.index)]
    else if Committed(r) != [] then [CommitFrame(db, sid, run, Committed(r)[0])]
    else []
  }

  /** The frames of the first n reports. */
  function ReportFrames(db: Db, sid: SessionId, run: RunId, reports: seq<Report>, n: nat): seq<Frame>
    requires n <= |reports|
  {
    if n == 0 then []
    else ReportFrames(db, sid, run, reports, n - 1)
         + ReportFrame(Reported(db, sid, run, reports, n - 1), sid, run, reports[n - 1])
  }

  /** One report: the events among its frames are what it appends. */
  lemma ReportFedBy(db: Db, sid: SessionId, run: RunId, reports: seq<Report>, n: nat, was: seq<Event>,
                    frames: seq<Frame>)
    requires n < |reports|
    requires var es := LedgerOf(Reported(db, sid, run, reports, n), sid);
             was <= es && Replica.QueuedEvents(frames) == es[|was|..]
    ensures var es := LedgerOf(Reported(db, sid, run, reports, n + 1), sid);
            var more := ReportFrame(Reported(db, sid, run, reports, n), sid, run, reports[n]);
            was <= es && Replica.QueuedEvents(frames + more) == es[|was|..]
  {
    var before, r := Reported(db, sid, run, reports, n), reports[n];
    var es := LedgerOf(before, sid);
    if r.Delta? {
      Replica.QueuedAppend(frames, DeltaFrame(run, r.text, r.index));
      assert Replica.QueuedEvents(frames) + [] == Replica.QueuedEvents(frames);
    } else if Committed(r) != [] {
      var e := NextEvent(es, run, Committed(r)[0]);
      Replica.QueuedAppend(frames, EventFrame(e));
      assert LedgerOf(Commit(before, sid, run, Committed(r)[0]), sid) == es + [e];
      assert (es + [e])[|was|..] == es[|was|..] + [e];
    } else {
      assert frames + [] == frames;
    }
  }

  lemma NoReports(db: Db, sid: SessionId, run: RunId, reports: seq<Report>)
    ensures Reported(db, sid, run, reports, 0) == db && ReportFrames(db, sid, run, reports, 0) == []
    ensures Replica.QueuedEvents([]) == []
  {
  }

  /** The committed events among the frames of a run's reports are exactly what the reports appended, in order. */
  lemma {:induction false} ReportsFedBy(db: Db, sid: SessionId, run: RunId, reports: seq<Report>, n: nat)
    requires n <= |reports|
    ensures var was, now := LedgerOf(db, sid), LedgerOf(Reported(db, sid, run, reports, n), sid);
            was <= now && Replica.QueuedEvents(ReportFrames(db, sid, run, reports, n)) == now[|was|..]
  {
    if n == 0 {
      NoReports(db, sid, run, reports);
    } else {
      var k := n - 1;
      ReportsFedBy(db, sid, run, reports, k);
      ReportFedBy(db, sid, run, reports, k, LedgerOf(db, sid), ReportFrames(db, sid, run, reports, k));
      ReportFramesNext(db, sid, run, reports, k, ReportFrames(db, sid, run, reports, k));
    }
  }

  lemma ReportFramesNext(db: Db, sid: SessionId, run: RunId, reports: seq<Report>, n: nat, frames: seq<Frame>)
    requires n < |reports| && frames == ReportFrames(db, sid, run, reports, n)
    ensures ReportFrames(db, sid, run, reports, n + 1) ==
            frames + ReportFrame(Reported(db, sid, run, reports, n), sid, run, reports[n])
  {
  }
}
