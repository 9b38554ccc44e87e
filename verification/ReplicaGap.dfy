/** What a client loses that connects with more pending than the window holds. */
module ReplicaGap {
  import opened Ledger
  import opened Render
  import opened Stream
  import opened Replica

  /** These steps of one committer and its client lead from one state to the other. */
  ghost predicate LeadsTo(first: State, steps: seq<Step>, s: State) {
    exists states: seq<State> :: IsOrderlyRun(states, steps) && states[0] == first && states[|steps|] == s
  }

  lemma RunMore(states: seq<State>, steps: seq<Step>, step: Step)
    requires IsOrderlyRun(states, steps) && Enabled(states[|steps|], step) && Orderly(states[|steps|], step)
    ensures IsOrderlyRun(states + [Do(states[|steps|], step)], steps + [step])
  {
    var more, all := states + [Do(states[|steps|], step)], steps + [step];
    forall i | 0 <= i < |all|
      ensures Enabled(more[i], all[i]) && more[i + 1] == Do(more[i], all[i]) && Orderly(more[i], all[i])
    {
      if i < |steps| {
        assert more[i] == states[i] && more[i + 1] == states[i + 1] && all[i] == steps[i];
      }
    }
  }

  lemma Then(first: State, steps: seq<Step>, s: State, step: Step, next: State)
    requires LeadsTo(first, steps, s) && Enabled(s, step) && Orderly(s, step) && Do(s, step) == next
    ensures LeadsTo(first, steps + [step], next)
  {
    var states: seq<State> :| IsOrderlyRun(states, steps) && states[0] == first && states[|steps|] == s;
    RunMore(states, steps, step);
    var more := states + [next];
    assert more[0] == first && more[|steps + [step]|] == next;
  }

  /** Nobody has connected yet; the client has seen nothing. */
  function Unseen(es: seq<Event>): State {
    State(es, [], Down, [], [], 0, 0, 0, [], 0, true)
  }

  /** Connected with the whole ledger pending; the client has processed n of the frames it was sent. */
  function Opened(es: seq<Event>, n: nat, cursor: int, log: seq<Event>): State {
    var tail := Tail(es, RENDER_CAP);
    State(es, [], Streaming(Sub([], true), Stream.Opened(tail, 0), |es|), [], OpeningFrames(tail, 0), n, 0, cursor,
          log, 0,
          |es| <= RENDER_CAP)
  }

  lemma Connects(es: seq<Event>)
    requires Numbered(es)
    ensures LeadsTo(Unseen(es), [Connect] + [Snap], Opened(es, 0, 0, []))
  {
    var first, s := Unseen(es), Unseen(es).(link := Subscribed(Sub([], true)));
    assert IsOrderlyRun([first], []);
    assert LeadsTo(first, [], first);
    Then(first, [], first, Connect, s);
    assert [] + [Connect] == [Connect];
    Then(first, [Connect], s, Snap, Opened(es, 0, 0, []));
  }

  // ---------- The replay, frame by frame ----------

  lemma {:induction false} ReplayedAll(es: seq<Event>, cursor: int)
    requires forall i :: 0 <= i < |es| ==> es[i].seqNo > cursor
    requires forall i, j :: 0 <= i < j < |es| ==> es[i].seqNo < es[j].seqNo
    ensures |Replayed(es, cursor)| == |es|
    ensures forall k :: 0 <= k < |es| ==> Replayed(es, cursor)[k] == AmEvent(es[k])
  {
    if es != [] {
      ReplayedAll(es[1..], es[0].seqNo);
      forall k | 0 <= k < |es| ensures Replayed(es, cursor)[k] == AmEvent(es[k]) {
        if k > 0 { assert es[k] == es[1..][k - 1]; }
      }
    }
  }

  lemma OpeningFrame(es: seq<Event>, k: nat)
    requires Numbered(es) && k < |Tail(es, RENDER_CAP)|
    ensures var tail, frames := Tail(es, RENDER_CAP), OpeningFrames(Tail(es, RENDER_CAP), 0);
            |frames| == |tail| + 1 && frames[k] == AmEvent(tail[k]) && frames[|tail|] == AmRender(Snapshot(tail))
  {
    ReplayedAll(Tail(es, RENDER_CAP), 0);
  }

  /** The cursor after n events of the window. */
  function CursorAt(es: seq<Event>, n: nat): int
    requires n <= |Tail(es, RENDER_CAP)|
  {
    if n == 0 then 0 else Tail(es, RENDER_CAP)[n - 1].seqNo
  }

  lemma CursorAhead(es: seq<Event>, n: nat)
    requires Numbered(es) && n < |Tail(es, RENDER_CAP)|
    ensures CursorAfter(CursorAt(es, n), AmEvent(Tail(es, RENDER_CAP)[n])) == CursorAt(es, n + 1)
  {
  }

  lemma ReceivesNext(es: seq<Event>, n: nat)
    requires Numbered(es) && n < |Tail(es, RENDER_CAP)|
    ensures var tail := Tail(es, RENDER_CAP); var s := Opened(es, n, CursorAt(es, n), tail[..n]);
            Enabled(s, Receive) && Do(s, Receive) == Opened(es, n + 1, CursorAt(es, n + 1), tail[..n + 1])
  {
    var tail := Tail(es, RENDER_CAP);
    OpeningFrame(es, n);
    CursorAhead(es, n);
    assert tail[..n] + [tail[n]] == tail[..n + 1];
  }

  function Receives(n: nat): seq<Step> {
    seq(n, _ => Receive)
  }

  lemma {:induction false} ReceivesSome(es: seq<Event>, n: nat)
    requires Numbered(es) && n <= |Tail(es, RENDER_CAP)|
    ensures LeadsTo(Unseen(es), [Connect] + [Snap] + Receives(n),
                    Opened(es, n, CursorAt(es, n), Tail(es, RENDER_CAP)[..n]))
  {
    var opening, tail := [Connect] + [Snap], Tail(es, RENDER_CAP);
    if n == 0 {
      Connects(es);
      assert opening + Receives(0) == opening && tail[..0] == [];
    } else {
      ReceivesSome(es, n - 1);
      ReceivesNext(es, n - 1);
      Then(Unseen(es), opening + Receives(n - 1), Opened(es, n - 1, CursorAt(es, n - 1), tail[..n - 1]), Receive,
           Opened(es, n, CursorAt(es, n), tail[..n]));
      assert opening + Receives(n - 1) + [Receive] == opening + Receives(n);
    }
  }

  /**
   A new client of any ledger past the cap connects, processes all it is sent, and has seen the newest RENDER_CAP events
   and none before them; its cursor is the ledger's end, so no reconnect will bring the rest.
   */
  lemma LongLedgerLosesItsStart(es: seq<Event>) returns (s: State)
    requires Numbered(es) && |es| > RENDER_CAP
    ensures LeadsTo(Unseen(es), [Connect] + [Snap] + Receives(RENDER_CAP + 1), s)
    ensures s.ledger == es && s.link.Streaming? && s.got == |s.sent| && s.start == 0 && s.cursor == |es|
    ensures s.log == es[|es| - RENDER_CAP..] && forall k :: 0 <= k < |es| - RENDER_CAP ==> es[k] !in s.log
  {
    var tail, before := Tail(es, RENDER_CAP), Opened(es, RENDER_CAP, |es|, Tail(es, RENDER_CAP));
    s := before.(got := RENDER_CAP + 1);
    ReceivesSome(es, RENDER_CAP);
    OpeningFrame(es, 0);
    assert tail[..RENDER_CAP] == tail && CursorAt(es, RENDER_CAP) == |es|;
    Then(Unseen(es), [Connect] + [Snap] + Receives(RENDER_CAP), before, Receive, s);
    assert [Connect] + [Snap] + Receives(RENDER_CAP) + [Receive] == [Connect] + [Snap] + Receives(RENDER_CAP + 1);
    forall k | 0 <= k < |es| - RENDER_CAP ensures es[k] !in tail {
      assert forall i :: 0 <= i < |tail| ==> tail[i].seqNo != es[k].seqNo;
    }
  }

  // ---------- A run with one event too many ----------

  /** A turn whose run says one thing after another. */
  function LongTurn(n: nat): (es: seq<Event>)
    requires n >= 2
    ensures |es| == n && Numbered(es)
    ensures es[0] == Event(1, "r", UserMessage("hi", [])) && es[1] == Event(2, "r", RunStarted)
  {
    seq(n, i requires 0 <= i < n =>
          Event(i + 1, "r", if i == 0 then UserMessage("hi", []) else if i ==
                1 then RunStarted else AssistantMessage("")))
  }

  /** One event more than the window: the client sees the whole turn but for what was asked. */
  lemma MessageIsMissed() returns (es: seq<Event>, s: State)
    ensures es == LongTurn(RENDER_CAP + 1) && LeadsTo(Unseen(es), [Connect] + [Snap] + Receives(RENDER_CAP + 1), s)
    ensures s.log == es[1..] && s.cursor == |es| && es[0].body.UserMessage? && es[0] !in s.log
  {
    es := LongTurn(RENDER_CAP + 1);
    s := LongLedgerLosesItsStart(es);
  }
}
