/** What any connection has written, whatever the interleaving and the order of publication. */
module StreamLaws {
  import opened Ledger
  import opened Render
  import opened Stream
  import opened Replica

  // ---------- Deltas ----------

  /** The deltas written, in order, as the frames that carry them through a subscription. */
  function DeltasSent(ws: seq<Wire>): seq<Frame> {
    if ws == [] then []
    else
      var w, before := ws[|ws| - 1], DeltasSent(ws[..|ws| - 1]);
      if w.AmDelta? then before + [DeltaFrame(w.run, w.text, w.index)] else before
  }

  /** The deltas among the frames a connection has consumed, in order. */
  function DeltasTaken(fs: seq<Frame>): seq<Frame> {
    if fs == [] then []
    else
      var before := DeltasTaken(fs[..|fs| - 1]);
      if fs[|fs| - 1].DeltaFrame? then before + [fs[|fs| - 1]] else before
  }

  lemma SentOne(ws: seq<Wire>, w: Wire)
    ensures DeltasSent(ws + [w]) == DeltasSent(ws) + if w.AmDelta? then [DeltaFrame(w.run, w.text, w.index)] else []
  {
    assert (ws + [w])[..|ws|] == ws;
  }

  lemma TakenOne(fs: seq<Frame>, f: Frame)
    ensures DeltasTaken(fs + [f]) == DeltasTaken(fs) + if f.DeltaFrame? then [f] else []
  {
    assert (fs + [f])[..|fs|] == fs;
  }

  lemma {:induction false} NoDeltas(ws: seq<Wire>)
    requires forall i :: 0 <= i < |ws| ==> !ws[i].AmDelta?
    ensures DeltasSent(ws) == []
  {
    if ws != [] {
      NoDeltas(ws[..|ws| - 1]);
    }
  }

  /** A replay writes events of the window and nothing else. */
  lemma {:induction false} ReplayIsEvents(events: seq<Event>, cursor: int)
    ensures forall i :: 0 <= i < |Replayed(events, cursor)| ==>
              Replayed(events, cursor)[i].AmEvent? && Replayed(events, cursor)[i].event in events
  {
    if events != [] {
      ReplayIsEvents(events[1..], if events[0].seqNo > cursor then events[0].seqNo else cursor);
    }
  }

  lemma WrittenDeltas(sent: seq<Wire>, c: Conn, f: Frame)
    ensures DeltasSent(sent + Written(c, f)) == DeltasSent(sent) + if f.DeltaFrame? then [f] else []
  {
    if f.DeltaFrame? {
      SentOne(sent, AmDelta(f.run, f.text, f.index));
    } else if f.event.seqNo <= c.lastSeq {
      assert sent + [] == sent;
    } else {
      var render := AmRender(Snapshot(c.events + [f.event]));
      SentOne(sent, render);
      SentOne(sent, AmEvent(f.event));
      SentOne(sent + [AmEvent(f.event)], render);
      assert sent + ([AmEvent(f.event)] + [render]) == sent + [AmEvent(f.event)] + [render];
      assert [] + [render] == [render];
    }
  }

  /** A connection has forwarded the deltas it has consumed. */
  predicate Forwarded(s: State) {
    DeltasSent(s.sent) == DeltasTaken(s.taken) && (s.link.Subscribed? ==> s.taken == [])
  }

  lemma SnapForwards(s: State)
    requires s.link.Subscribed? && Forwarded(s)
    ensures Forwarded(Snapped(s))
  {
    var tail := Tail(s.ledger, RENDER_CAP);
    ReplayIsEvents(tail, s.from);
    NoDeltas(OpeningFrames(tail, s.from));
  }

  lemma ConsumeForwards(s: State)
    requires s.link.Streaming? && s.link.sub.queue != [] && Forwarded(s)
    ensures Forwarded(Consumed(s))
  {
    WrittenDeltas(s.sent, s.link.conn, s.link.sub.queue[0]);
    TakenOne(s.taken, s.link.sub.queue[0]);
  }

  lemma StepForwards(s: State, step: Step)
    requires Enabled(s, step) && Forwarded(s)
    ensures Forwarded(Do(s, step))
  {
    if step.Snap? {
      SnapForwards(s);
    } else if step.Consume? {
      ConsumeForwards(s);
    } else if step.SendPing? {
      SentOne(s.sent, Ping);
    } else if step.SendReconnect? {
      SentOne(s.sent, Reconnect(s.link.conn.afterSeq));
    }
  }

  /**
   Every delta a connection consumes goes out once, in order, with the same run, text and index, and it
   writes no other: in every state of every run, whatever order events are published in.
   */
  lemma {:induction false} DeltasAreForwarded(states: seq<State>, steps: seq<Step>, i: nat)
    requires IsRun(states, steps) && i < |states|
    ensures DeltasSent(states[i].sent) == DeltasTaken(states[i].taken)
    ensures states[i].link.Subscribed? ==> states[i].taken == []
  {
    if i > 0 {
      DeltasAreForwarded(states, steps, i - 1);
      StepForwards(states[i - 1], steps[i - 1]);
    }
  }

  // ---------- Events before the snapshots that show them ----------

  /** A snapshot covers every event written before it and none written after; `last` bounds both. */
  ghost predicate InOrder(ws: seq<Wire>, last: int) {
    && (forall i :: 0 <= i < |ws| && ws[i].AmEvent? ==> ws[i].event.seqNo <= last)
    && (forall i :: 0 <= i < |ws| && ws[i].AmRender? ==> ws[i].state.basedOnSeq <= last)
    && (forall i, j :: 0 <= i < j < |ws| && ws[i].AmEvent? && ws[j].AmRender? ==>
          ws[i].event.seqNo <= ws[j].state.basedOnSeq)
    && (forall i, j :: 0 <= i < j < |ws| && ws[i].AmRender? && ws[j].AmEvent? ==>
          ws[i].state.basedOnSeq < ws[j].event.seqNo)
  }

  /** After the newest event written comes a snapshot based on `last`, the newest snapshot. */
  ghost predicate LatestRendered(ws: seq<Wire>, last: int) {
    exists k :: 0 <= k < |ws| && ws[k].AmRender? && ws[k].state.basedOnSeq == last
                && forall i :: k < i < |ws| ==> !ws[i].AmEvent? && !ws[i].AmRender?
  }

  lemma OrderEvent(ws: seq<Wire>, last: int, e: Event)
    requires InOrder(ws, last) && e.seqNo > last
    ensures InOrder(ws + [AmEvent(e)], e.seqNo)
  {
  }

  lemma OrderRender(ws: seq<Wire>, last: int, rs: RenderState)
    requires InOrder(ws, last) && rs.basedOnSeq == last
    ensures InOrder(ws + [AmRender(rs)], last) && LatestRendered(ws + [AmRender(rs)], last)
  {
    assert (ws + [AmRender(rs)])[|ws|] == AmRender(rs);
  }

  lemma OrderOther(ws: seq<Wire>, last: int, w: Wire)
    requires InOrder(ws, last) && LatestRendered(ws, last) && !w.AmEvent? && !w.AmRender?
    ensures InOrder(ws + [w], last) && LatestRendered(ws + [w], last)
  {
    var k :| 0 <= k < |ws| && ws[k].AmRender? && ws[k].state.basedOnSeq == last
             && forall i :: k < i < |ws| ==> !ws[i].AmEvent? && !ws[i].AmRender?;
    assert (ws + [w])[k] == ws[k];
  }

  lemma OrderHigher(ws: seq<Wire>, last: int, more: int)
    requires InOrder(ws, last) && last <= more
    ensures InOrder(ws, more)
  {
  }

  /** What a connection has written is in order, up to its snapshot of its newest event. */
  ghost predicate WireInv(s: State) {
    && Numbered(s.ledger)
    && (s.link.Streaming? || s.link.Finished? ==>
          InOrder(s.sent, s.link.conn.lastSeq) && LatestRendered(s.sent, s.link.conn.lastSeq))
  }

  lemma OpeningOrder(tail: seq<Event>, cursor: int)
    requires forall i :: 0 <= i < |tail| ==> tail[i].seqNo <= LastSeq(tail)
    ensures InOrder(OpeningFrames(tail, cursor), LastSeq(tail))
    ensures LatestRendered(OpeningFrames(tail, cursor), LastSeq(tail))
  {
    ReplayIsEvents(tail, cursor);
    OrderRender(Replayed(tail, cursor), LastSeq(tail), Snapshot(tail));
  }

  lemma WrittenOrder(sent: seq<Wire>, c: Conn, f: Frame)
    requires InOrder(sent, c.lastSeq) && LatestRendered(sent, c.lastSeq)
    ensures InOrder(sent + Written(c, f), After(c, f).lastSeq)
    ensures LatestRendered(sent + Written(c, f), After(c, f).lastSeq)
  {
    if f.DeltaFrame? {
      OrderOther(sent, c.lastSeq, AmDelta(f.run, f.text, f.index));
    } else if f.event.seqNo <= c.lastSeq {
      assert sent + [] == sent;
    } else {
      KeptOrder(sent, c, f.event);
    }
  }

  lemma KeptOrder(sent: seq<Wire>, c: Conn, e: Event)
    requires InOrder(sent, c.lastSeq) && e.seqNo > c.lastSeq
    ensures InOrder(sent + Written(c, EventFrame(e)), e.seqNo)
    ensures LatestRendered(sent + Written(c, EventFrame(e)), e.seqNo)
  {
    var rs := Snapshot(c.events + [e]);
    if e.seqNo > c.afterSeq {
      OrderEvent(sent, c.lastSeq, e);
      OrderRender(sent + [AmEvent(e)], e.seqNo, rs);
      assert sent + ([AmEvent(e)] + [AmRender(rs)]) == sent + [AmEvent(e)] + [AmRender(rs)];
    } else {
      OrderHigher(sent, c.lastSeq, e.seqNo);
      OrderRender(sent, e.seqNo, rs);
      assert [] + [AmRender(rs)] == [AmRender(rs)];
    }
  }

  lemma StepOrders(s: State, step: Step)
    requires Enabled(s, step) && WireInv(s)
    ensures WireInv(Do(s, step))
  {
    if step.Snap? {
      OpeningOrder(Tail(s.ledger, RENDER_CAP), s.from);
    } else if step.Consume? {
      WrittenOrder(s.sent, s.link.conn, s.link.sub.queue[0]);
    } else if step.SendPing? {
      OrderOther(s.sent, s.link.conn.lastSeq, Ping);
    } else if step.SendReconnect? {
      OrderOther(s.sent, s.link.conn.lastSeq, Reconnect(s.link.conn.afterSeq));
    }
  }

  /**
   In every state of every run: a snapshot written covers exactly the events written before it, and none
   written after it; and the newest event written has been followed by a snapshot that shows it.
   */
  lemma {:induction false} SnapshotsFollowTheirEvents(states: seq<State>, steps: seq<Step>, i: nat)
    requires IsRun(states, steps) && i < |states|
    ensures WireInv(states[i])
  {
    if i > 0 {
      SnapshotsFollowTheirEvents(states, steps, i - 1);
      StepOrders(states[i - 1], steps[i - 1]);
    }
  }

  // ---------- A subscriber that lags behind ----------

  /** A fresh subscription after these frames were offered and none was taken. */
  function Lagging(frames: seq<Frame>): Sub {
    if frames == [] then Sub([], true) else Offer(Lagging(frames[..|frames| - 1]), frames[|frames| - 1])
  }

  /** It holds up to 256 frames; the next one ends it, and it keeps the first 256 for its reader. */
  lemma {:induction false} LaggingHolds256(frames: seq<Frame>)
    ensures Lagging(frames).registered <==> |frames| <= 256
    ensures Lagging(frames).queue == if |frames| <= 256 then frames else frames[..256]
  {
    if frames != [] {
      LaggingHolds256(frames[..|frames| - 1]);
      assert frames == frames[..|frames| - 1] + [frames[|frames| - 1]];
    }
  }
}
