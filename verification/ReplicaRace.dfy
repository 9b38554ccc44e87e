/**
 What a connection delivers when several committers of a session publish in any order: everything, exactly
 when the frames it consumes past its window arrive in ascending order.
 */
module ReplicaRace {
  import Folds
  import opened Ledger
  import Render
  import opened Stream
  import opened Replica

  // ---------- One connection ----------

  /** The events numbered past b among the first n frames. */
  function PastBelow(frames: seq<Frame>, b: int, n: nat): seq<Event>
    requires n <= |frames|
  {
    if n == 0 then []
    else if IsPast(frames[n - 1], b) then PastBelow(frames, b, n - 1) + [frames[n - 1].event]
    else PastBelow(frames, b, n - 1)
  }

  predicate IsPast(f: Frame, b: int) {
    f.EventFrame? && f.event.seqNo > b
  }

  function Past(frames: seq<Frame>, b: int): seq<Event> {
    PastBelow(frames, b, |frames|)
  }

  predicate Ascends(b: int, es: seq<Event>) {
    && (forall i :: 0 <= i < |es| ==> es[i].seqNo > b)
    && (forall i, j :: 0 <= i < j < |es| ==> es[i].seqNo < es[j].seqNo)
  }

  function Newer(a: int, b: int): int {
    if a >= b then a else b
  }

  /** The greatest number among the first n events, and b. */
  function TopBelow(b: int, es: seq<Event>, n: nat): int
    requires n <= |es|
  {
    if n == 0 then b else Newer(TopBelow(b, es, n - 1), es[n - 1].seqNo)
  }

  function TopOf(b: int, es: seq<Event>): int {
    TopBelow(b, es, |es|)
  }

  /** The events newer than b and than every event before them. */
  function RecordsBelow(b: int, es: seq<Event>, n: nat): seq<Event>
    requires n <= |es|
  {
    if n == 0 then []
    else if es[n - 1].seqNo > TopBelow(b, es, n - 1) then RecordsBelow(b, es, n - 1) + [es[n - 1]]
    else RecordsBelow(b, es, n - 1)
  }

  function Records(b: int, es: seq<Event>): seq<Event> {
    RecordsBelow(b, es, |es|)
  }

  lemma {:induction false} SameRecords(b: int, es: seq<Event>, fs: seq<Event>, n: nat)
    requires n <= |es| && n <= |fs| && forall i :: 0 <= i < n ==> es[i] == fs[i]
    ensures RecordsBelow(b, es, n) == RecordsBelow(b, fs, n) && TopBelow(b, es, n) == TopBelow(b, fs, n)
  {
    if n > 0 {
      SameRecords(b, es, fs, n - 1);
    }
  }

  lemma RecordsMore(b: int, es: seq<Event>, e: Event)
    ensures TopOf(b, es + [e]) == Newer(TopOf(b, es), e.seqNo)
    ensures Records(b, es + [e]) == if e.seqNo > TopOf(b, es) then Records(b, es) + [e] else Records(b, es)
  {
    SameRecords(b, es, es + [e], |es|);
  }

  /** Everything is a record exactly when the numbers strictly ascend past b. */
  lemma {:induction false} AllRecordsIffAscending(b: int, es: seq<Event>, n: nat)
    requires n <= |es|
    ensures if Ascends(b, es[..n]) then RecordsBelow(b, es, n) == es[..n] else |RecordsBelow(b, es, n)| < n
    ensures TopBelow(b, es, n) >= b && forall i :: 0 <= i < n ==> es[i].seqNo <= TopBelow(b, es, n)
    ensures n > 0 && Ascends(b, es[..n]) ==> TopBelow(b, es, n) == es[n - 1].seqNo
    ensures n == 0 ==> TopBelow(b, es, n) == b
  {
    if n > 0 {
      AllRecordsIffAscending(b, es, n - 1);
      AscendsMore(b, es[..n - 1], es[n - 1]);
      assert es[..n] == es[..n - 1] + [es[n - 1]];
    }
  }

  lemma AscendsMore(b: int, es: seq<Event>, e: Event)
    ensures Ascends(b, es + [e]) <==> Ascends(b, es) && e.seqNo > LastOf(es, b)
  {
    var more := es + [e];
    assert more[|es|] == e && forall i :: 0 <= i < |es| ==> more[i] == es[i];
    if Ascends(b, more) && es != [] {
      assert more[|es| - 1].seqNo < more[|es|].seqNo;
    }
  }

  lemma RecordsAreAll(b: int, es: seq<Event>)
    ensures Records(b, es) == es <==> Ascends(b, es)
    ensures |Records(b, es)| == |es| <==> Ascends(b, es)
    ensures |Records(b, es)| <= |es|
  {
    AllRecordsIffAscending(b, es, |es|);
    assert es[..|es|] == es;
  }

  /** The handler's variables after consuming the first n frames. */
  function Reached(c: Conn, frames: seq<Frame>, n: nat): Conn
    requires n <= |frames|
  {
    Folds.Fold(After, c, frames, n)
  }

  lemma {:induction false} AccumulatesRecords(c: Conn, frames: seq<Frame>, n: nat)
    requires n <= |frames|
    ensures var past, r := PastBelow(frames, c.lastSeq, n), Reached(c, frames, n);
            && r.lastSeq == TopOf(c.lastSeq, past) >= c.lastSeq
            && r.events == c.events + Records(c.lastSeq, past)
  {
    if n == 0 {
      assert c.events + [] == c.events;
    } else {
      AccumulatesRecords(c, frames, n - 1);
      var past, f := PastBelow(frames, c.lastSeq, n - 1), frames[n - 1];
      if IsPast(f, c.lastSeq) {
        RecordsMore(c.lastSeq, past, f.event);
        assert c.events + Records(c.lastSeq, past) + [f.event] == c.events + (Records(c.lastSeq, past) + [f.event]);
      }
    }
  }

  /**
   Over any frames consumed, the accumulated events are the window's and all those past it if and only if
   those came in strictly ascending order; in general, those newer than everything before them.
   */
  lemma AccumulatesAllIffAscending(c: Conn, frames: seq<Frame>)
    ensures var past := Past(frames, c.lastSeq);
            && Reached(c, frames, |frames|).events == c.events + Records(c.lastSeq, past)
            && (Reached(c, frames, |frames|).events == c.events + past <==> Ascends(c.lastSeq, past))
  {
    var past := Past(frames, c.lastSeq);
    AccumulatesRecords(c, frames, |frames|);
    RecordsAreAll(c.lastSeq, past);
  }

  /** The committed event the handler writes for a frame. */
  function SentFor(c: Conn, f: Frame): seq<Event> {
    if IsPast(f, c.lastSeq) && f.event.seqNo > c.afterSeq then [f.event] else []
  }

  /** The committed events the handler writes for the first n frames. */
  function SentBelow(c: Conn, frames: seq<Frame>, n: nat): seq<Event>
    requires n <= |frames|
  {
    if n == 0 then [] else SentBelow(c, frames, n - 1) + SentFor(Reached(c, frames, n - 1), frames[n - 1])
  }

  /** What has been accumulated or passed over for the client. */
  function Top(c: Conn): int {
    if c.lastSeq >= c.afterSeq then c.lastSeq else c.afterSeq
  }

  lemma WrittenEvents(c: Conn, f: Frame)
    ensures EventsOf(Written(c, f)) == SentFor(c, f)
  {
    if f.DeltaFrame? {
      OfOne([], AmDelta(f.run, f.text, f.index));
      assert [] + [AmDelta(f.run, f.text, f.index)] == [AmDelta(f.run, f.text, f.index)];
    } else if f.event.seqNo > c.lastSeq {
      NewerWritten([], c, f.event);
      assert [] + Written(c, f) == Written(c, f);
    }
  }

  lemma TopAfter(c: Conn, f: Frame)
    ensures Top(After(c, f)) == if IsPast(f, Top(c)) then f.event.seqNo else Top(c)
    ensures SentFor(c, f) == if IsPast(f, Top(c)) then [f.event] else []
  {
  }

  lemma {:induction false} SendsRecords(c: Conn, frames: seq<Frame>, n: nat)
    requires n <= |frames|
    ensures var past := PastBelow(frames, Top(c), n);
            && Top(Reached(c, frames, n)) == TopOf(Top(c), past) >= Top(c)
            && SentBelow(c, frames, n) == Records(Top(c), past)
  {
    if n > 0 {
      SendsRecords(c, frames, n - 1);
      var past, r, f := PastBelow(frames, Top(c), n - 1), Reached(c, frames, n - 1), frames[n - 1];
      TopAfter(r, f);
      if IsPast(f, Top(c)) {
        RecordsMore(Top(c), past, f.event);
      }
    }
  }

  /** The same for what is written to the client: all events past its cursor and the window iff they came in order. */
  lemma SendsAllIffAscending(c: Conn, frames: seq<Frame>)
    ensures var past := Past(frames, Top(c));
            && SentBelow(c, frames, |frames|) == Records(Top(c), past)
            && (SentBelow(c, frames, |frames|) == past <==> Ascends(Top(c), past))
  {
    SendsRecords(c, frames, |frames|);
    RecordsAreAll(Top(c), Past(frames, Top(c)));
  }

  // ---------- Any number of committers ----------

  predicate FrameIn(f: Frame, ledger: seq<Event>) {
    f.EventFrame? ==> IsIn(f.event, ledger)
  }

  predicate AllIn(frames: seq<Frame>, ledger: seq<Event>) {
    forall i :: 0 <= i < |frames| ==> FrameIn(frames[i], ledger)
  }

  /** The frames a connection has consumed, will consume, and could still be sent. */
  function Underway(s: State): seq<Frame>
    requires s.link.Streaming?
  {
    s.taken + s.link.sub.queue + FramesOf(s.unpublished)
  }

  function CountPast(frames: seq<Frame>, b: int): nat {
    |Past(frames, b)|
  }

  function Excess(n: int, b: int): nat {
    if n > b then n - b else 0
  }

  /** While the subscription lasts, every event numbered past b is underway exactly once. */
  ghost predicate Counted(s: State, b: int)
    requires s.link.Streaming?
  {
    s.link.sub.registered ==> CountPast(Underway(s), b) == Excess(|s.ledger|, b)
  }

  function Start(s: State): Conn
    requires s.link.Streaming? && s.link.size <= |s.ledger|
  {
    Opened(s.ledger[Base(s.link.size)..s.link.size], s.from)
  }

  /** The handler is where its frames have brought it. */
  ghost predicate Handled(s: State)
    requires s.link.Streaming?
  {
    && s.link.size <= |s.ledger|
    && s.link.conn == Reached(Start(s), s.taken, |s.taken|)
    && EventsOf(s.sent) ==
       s.ledger[First(s.from, s.link.size, s.link.size)..s.link.size] + SentBelow(Start(s), s.taken, |s.taken|)
  }

  ghost predicate RaceInv(s: State) {
    && Numbered(s.ledger) && AllIn(FramesOf(s.unpublished), s.ledger)
    && (s.link.Subscribed? ==> s.taken == [] && AllIn(s.link.sub.queue, s.ledger))
    && (s.link.Streaming? ==>
          && AllIn(Underway(s), s.ledger) && Handled(s)
          && forall b :: b >= s.link.size ==> Counted(s, b))
  }

  lemma {:induction false} PastOfEvents(es: seq<Event>, b: int, n: nat)
    requires n <= |es|
    ensures if forall i :: 0 <= i < n ==> es[i].seqNo > b then PastBelow(FramesOf(es), b, n) == es[..n]
            else |PastBelow(FramesOf(es), b, n)| < n
  {
    if n > 0 {
      PastOfEvents(es, b, n - 1);
      assert es[..n] == es[..n - 1] + [es[n - 1]];
    }
  }

  /** In particular, of a list of committed events every one is accumulated iff they strictly ascend past the last. */
  lemma KeepsEveryEventIffAscending(c: Conn, es: seq<Event>)
    ensures Reached(c, FramesOf(es), |es|).events == c.events + es <==> Ascends(c.lastSeq, es)
  {
    var past := Past(FramesOf(es), c.lastSeq);
    AccumulatesAllIffAscending(c, FramesOf(es));
    RecordsAreAll(c.lastSeq, past);
    PastOfEvents(es, c.lastSeq, |es|);
    assert es[..|es|] == es;
  }

  // ---------- Counting ----------

  lemma {:induction false} SamePast(a: seq<Frame>, c: seq<Frame>, b: int, n: nat)
    requires n <= |a| && n <= |c| && forall i :: 0 <= i < n ==> a[i] == c[i]
    ensures PastBelow(a, b, n) == PastBelow(c, b, n)
  {
    if n > 0 {
      SamePast(a, c, b, n - 1);
    }
  }

  lemma {:induction false} PastJoinBelow(a: seq<Frame>, c: seq<Frame>, b: int, n: nat)
    requires n <= |c|
    ensures PastBelow(a + c, b, |a| + n) == Past(a, b) + PastBelow(c, b, n)
  {
    if n == 0 {
      SamePast(a + c, a, b, |a|);
    } else {
      PastJoinBelow(a, c, b, n - 1);
      assert (a + c)[|a| + n - 1] == c[n - 1];
    }
  }

  lemma CountJoin(a: seq<Frame>, c: seq<Frame>, b: int)
    ensures Past(a + c, b) == Past(a, b) + Past(c, b)
    ensures CountPast(a + c, b) == CountPast(a, b) + CountPast(c, b)
  {
    PastJoinBelow(a, c, b, |c|);
  }

  lemma CountOne(f: Frame, b: int)
    ensures CountPast([f], b) == if IsPast(f, b) then 1 else 0
  {
    assert PastBelow([f], b, 0) == [];
  }

  lemma {:induction false} NonePast(frames: seq<Frame>, ledger: seq<Event>, b: int, n: nat)
    requires AllIn(frames, ledger) && b >= |ledger| && n <= |frames|
    ensures PastBelow(frames, b, n) == []
  {
    if n > 0 {
      NonePast(frames, ledger, b, n - 1);
      assert FrameIn(frames[n - 1], ledger);
    }
  }

  lemma CountThree(x: seq<Frame>, y: seq<Frame>, z: seq<Frame>, b: int)
    ensures CountPast(x + y + z, b) == CountPast(x, b) + CountPast(y, b) + CountPast(z, b)
  {
    CountJoin(x + y, z, b);
    CountJoin(x, y, b);
  }

  lemma CountWithout(es: seq<Event>, k: nat, b: int)
    requires k < |es|
    ensures CountPast(FramesOf(es), b) ==
            CountPast(FramesOf(es[..k] + es[k + 1..]), b) + CountPast([EventFrame(es[k])], b)
  {
    var left, right := FramesOf(es[..k]), FramesOf(es[k + 1..]);
    assert FramesOf(es) == left + [EventFrame(es[k])] + right;
    assert FramesOf(es[..k] + es[k + 1..]) == left + right;
    CountThree(left, [EventFrame(es[k])], right, b);
    CountJoin(left, right, b);
  }

  lemma CountAppended(es: seq<Event>, e: Event, b: int)
    ensures CountPast(FramesOf(es + [e]), b) == CountPast(FramesOf(es), b) + CountPast([EventFrame(e)], b)
  {
    assert FramesOf(es + [e]) == FramesOf(es) + [EventFrame(e)];
    CountJoin(FramesOf(es), [EventFrame(e)], b);
  }

  // ---------- The counts are kept ----------

  lemma AppendCounted(s: State, run: RunId, body: Body, b: int)
    requires s.link.Streaming? && Counted(s, b)
    ensures Counted(Do(s, Append(run, body)), b)
  {
    var e := Event(|s.ledger| + 1, run, body);
    CountThree(s.taken, s.link.sub.queue, FramesOf(s.unpublished), b);
    CountThree(s.taken, s.link.sub.queue, FramesOf(s.unpublished + [e]), b);
    CountAppended(s.unpublished, e, b);
    CountOne(EventFrame(e), b);
  }

  lemma OfferCounted(sub: Sub, f: Frame, b: int)
    requires Offer(sub, f).registered
    ensures CountPast(Offer(sub, f).queue, b) == CountPast(sub.queue, b) + CountPast([f], b)
  {
    CountJoin(sub.queue, [f], b);
  }

  lemma PublishCounted(s: State, k: nat, b: int)
    requires s.link.Streaming? && Counted(s, b) && Enabled(s, Publish(k))
    ensures Counted(Do(s, Publish(k)), b)
  {
    var f, rest := EventFrame(s.unpublished[k]), s.unpublished[..k] + s.unpublished[k + 1..];
    var sub' := Offer(s.link.sub, f);
    if sub'.registered {
      CountThree(s.taken, s.link.sub.queue, FramesOf(s.unpublished), b);
      CountThree(s.taken, sub'.queue, FramesOf(rest), b);
      OfferCounted(s.link.sub, f, b);
      CountWithout(s.unpublished, k, b);
    }
  }

  lemma DeltaCounted(s: State, run: RunId, text: string, index: int, b: int)
    requires s.link.Streaming? && Counted(s, b)
    ensures Counted(Do(s, PublishDelta(run, text, index)), b)
  {
    var f := DeltaFrame(run, text, index);
    var sub' := Offer(s.link.sub, f);
    if sub'.registered {
      CountThree(s.taken, s.link.sub.queue, FramesOf(s.unpublished), b);
      CountThree(s.taken, sub'.queue, FramesOf(s.unpublished), b);
      OfferCounted(s.link.sub, f, b);
      CountOne(f, b);
    }
  }

  lemma ConsumeUnderway(s: State)
    requires Enabled(s, Consume)
    ensures Underway(Consumed(s)) == Underway(s)
  {
    var q := s.link.sub.queue;
    assert s.taken + [q[0]] + q[1..] == s.taken + q;
  }

  lemma SnapCounted(s: State, b: int)
    requires RaceInv(s) && Enabled(s, Snap) && b >= |s.ledger|
    ensures Counted(Snapped(s), b) && AllIn(Underway(Snapped(s)), s.ledger)
  {
    var all := Underway(Snapped(s));
    assert all == s.link.sub.queue + FramesOf(s.unpublished);
    NonePast(all, s.ledger, b, |all|);
  }

  // ---------- The frames stay the ledger's ----------

  lemma AllInJoin(a: seq<Frame>, c: seq<Frame>, ledger: seq<Event>)
    ensures AllIn(a + c, ledger) <==> AllIn(a, ledger) && AllIn(c, ledger)
  {
    var both := a + c;
    if AllIn(both, ledger) {
      assert forall i :: 0 <= i < |a| ==> both[i] == a[i];
      assert forall i :: 0 <= i < |c| ==> both[|a| + i] == c[i];
    }
  }

  lemma AllInThree(x: seq<Frame>, y: seq<Frame>, z: seq<Frame>, ledger: seq<Event>)
    ensures AllIn(x + y + z, ledger) <==> AllIn(x, ledger) && AllIn(y, ledger) && AllIn(z, ledger)
  {
    AllInJoin(x + y, z, ledger);
    AllInJoin(x, y, ledger);
  }

  lemma AllInGrown(frames: seq<Frame>, ledger: seq<Event>, e: Event)
    requires AllIn(frames, ledger)
    ensures AllIn(frames, ledger + [e])
  {
    forall i | 0 <= i < |frames| ensures FrameIn(frames[i], ledger + [e]) {
      assert FrameIn(frames[i], ledger);
    }
  }

  lemma UnpublishedGrown(es: seq<Event>, ledger: seq<Event>, e: Event)
    requires AllIn(FramesOf(es), ledger) && e.seqNo == |ledger| + 1
    ensures AllIn(FramesOf(es + [e]), ledger + [e])
  {
    AllInGrown(FramesOf(es), ledger, e);
    assert FramesOf(es + [e]) == FramesOf(es) + [EventFrame(e)];
    AllInJoin(FramesOf(es), [EventFrame(e)], ledger + [e]);
  }

  lemma UnpublishedShrunk(es: seq<Event>, k: nat, ledger: seq<Event>)
    requires AllIn(FramesOf(es), ledger) && k < |es|
    ensures AllIn(FramesOf(es[..k] + es[k + 1..]), ledger) && FrameIn(EventFrame(es[k]), ledger)
  {
    var fs, rest := FramesOf(es), FramesOf(es[..k] + es[k + 1..]);
    assert FrameIn(fs[k], ledger);
    forall i | 0 <= i < |rest| ensures FrameIn(rest[i], ledger) {
      assert FrameIn(fs[if i < k then i else i + 1], ledger);
    }
  }

  lemma OfferedIn(sub: Sub, f: Frame, ledger: seq<Event>)
    requires AllIn(sub.queue, ledger) && FrameIn(f, ledger)
    ensures AllIn(Offer(sub, f).queue, ledger)
  {
  }

  // ---------- The handler stays where its frames brought it ----------

  lemma {:induction false} SameSent(c: Conn, a: seq<Frame>, b: seq<Frame>, n: nat)
    requires n <= |a| && n <= |b| && forall i :: 0 <= i < n ==> a[i] == b[i]
    ensures SentBelow(c, a, n) == SentBelow(c, b, n)
  {
    if n > 0 {
      SameSent(c, a, b, n - 1);
      Folds.SameFold(After, c, a, b, n - 1);
    }
  }

  lemma OneMoreTaken(c: Conn, taken: seq<Frame>, f: Frame)
    ensures var r, more := Reached(c, taken, |taken|), taken + [f];
            && Reached(c, more, |more|) == After(r, f)
            && SentBelow(c, more, |more|) == SentBelow(c, taken, |taken|) + SentFor(r, f)
  {
    Folds.SameFold(After, c, taken, taken + [f], |taken|);
    SameSent(c, taken, taken + [f], |taken|);
  }

  lemma OneMoreSent(sent: seq<Wire>, c: Conn, f: Frame)
    ensures EventsOf(sent + Written(c, f)) == EventsOf(sent) + SentFor(c, f)
  {
    OfAppend(sent, Written(c, f));
    WrittenEvents(c, f);
  }

  lemma ConsumeHandled(s: State)
    requires Enabled(s, Consume) && Handled(s)
    ensures Handled(Consumed(s))
  {
    var f := s.link.sub.queue[0];
    OneMoreTaken(Start(s), s.taken, f);
    OneMoreSent(s.sent, s.link.conn, f);
  }

  lemma AppendHandled(s: State, run: RunId, body: Body)
    requires s.link.Streaming? && Handled(s)
    ensures Handled(Do(s, Append(run, body)))
  {
    var e, size := Event(|s.ledger| + 1, run, body), s.link.size;
    SliceKept(s.ledger, e, Base(size), size);
    SliceKept(s.ledger, e, First(s.from, size, size), size);
  }

  lemma PingHandled(s: State)
    requires s.link.Streaming? && Handled(s)
    ensures Handled(Do(s, SendPing))
  {
    OfOne(s.sent, Ping);
  }

  lemma SnapHandled(s: State)
    requires RaceInv(s) && Enabled(s, Snap)
    ensures Handled(Snapped(s))
  {
    var n := |s.ledger|;
    var tail := s.ledger[Base(n)..n];
    TailIsSuffix(s.ledger);
    ReplayOfWindow(s.ledger, s.from);
    OfOne(Replayed(tail, s.from), AmRender(Render.Snapshot(tail)));
    assert EventsOf(Snapped(s).sent) + [] == EventsOf(Snapped(s).sent);
  }

  // ---------- Every step, in any order ----------

  lemma AppendKeepsRace(s: State, run: RunId, body: Body)
    requires RaceInv(s)
    ensures RaceInv(Do(s, Append(run, body)))
  {
    var e, s' := Event(|s.ledger| + 1, run, body), Do(s, Append(run, body));
    UnpublishedGrown(s.unpublished, s.ledger, e);
    if s.link.Subscribed? {
      AllInGrown(s.link.sub.queue, s.ledger, e);
    } else if s.link.Streaming? {
      AllInThree(s.taken, s.link.sub.queue, FramesOf(s.unpublished), s.ledger);
      AllInGrown(s.taken, s.ledger, e);
      AllInGrown(s.link.sub.queue, s.ledger, e);
      AllInThree(s.taken, s.link.sub.queue, FramesOf(s'.unpublished), s'.ledger);
      AppendHandled(s, run, body);
      forall b | b >= s.link.size ensures Counted(s', b) {
        assert Counted(s, b);
        AppendCounted(s, run, body, b);
      }
    }
  }

  lemma PublishKeepsRace(s: State, k: nat)
    requires RaceInv(s) && Enabled(s, Publish(k))
    ensures RaceInv(Do(s, Publish(k)))
  {
    var s' := Do(s, Publish(k));
    UnpublishedShrunk(s.unpublished, k, s.ledger);
    if s.link.Subscribed? {
      OfferedIn(s.link.sub, EventFrame(s.unpublished[k]), s.ledger);
    } else if s.link.Streaming? {
      AllInThree(s.taken, s.link.sub.queue, FramesOf(s.unpublished), s.ledger);
      OfferedIn(s.link.sub, EventFrame(s.unpublished[k]), s.ledger);
      AllInThree(s.taken, s'.link.sub.queue, FramesOf(s'.unpublished), s.ledger);
      forall b | b >= s.link.size ensures Counted(s', b) {
        assert Counted(s, b);
        PublishCounted(s, k, b);
      }
    }
  }

  lemma DeltaKeepsRace(s: State, run: RunId, text: string, index: int)
    requires RaceInv(s)
    ensures RaceInv(Do(s, PublishDelta(run, text, index)))
  {
    var s', f := Do(s, PublishDelta(run, text, index)), DeltaFrame(run, text, index);
    if s.link.Subscribed? {
      OfferedIn(s.link.sub, f, s.ledger);
    } else if s.link.Streaming? {
      AllInThree(s.taken, s.link.sub.queue, FramesOf(s.unpublished), s.ledger);
      OfferedIn(s.link.sub, f, s.ledger);
      AllInThree(s.taken, s'.link.sub.queue, FramesOf(s'.unpublished), s.ledger);
      forall b | b >= s.link.size ensures Counted(s', b) {
        assert Counted(s, b);
        DeltaCounted(s, run, text, index, b);
      }
    }
  }

  lemma ConsumeKeepsRace(s: State)
    requires RaceInv(s) && Enabled(s, Consume)
    ensures RaceInv(Consumed(s))
  {
    ConsumeUnderway(s);
    ConsumeHandled(s);
    forall b | b >= s.link.size ensures Counted(Consumed(s), b) {
      assert Counted(s, b);
    }
  }

  lemma SnapKeepsRace(s: State)
    requires RaceInv(s) && Enabled(s, Snap)
    ensures RaceInv(Snapped(s))
  {
    SnapHandled(s);
    SnapCounted(s, |s.ledger|);
    forall b | b >= |s.ledger| ensures Counted(Snapped(s), b) {
      SnapCounted(s, b);
    }
  }

  lemma ReceiveKeepsRace(s: State)
    requires RaceInv(s) && Enabled(s, Receive)
    ensures RaceInv(Received(s))
  {
    if s.link.Streaming? && Received(s).link.Streaming? {
      forall b | b >= s.link.size ensures Counted(Received(s), b) {
        assert Counted(s, b);
      }
    }
  }

  lemma PingKeepsRace(s: State)
    requires RaceInv(s) && Enabled(s, SendPing)
    ensures RaceInv(Do(s, SendPing))
  {
    PingHandled(s);
    forall b | b >= s.link.size ensures Counted(Do(s, SendPing), b) {
      assert Counted(s, b);
    }
  }

  lemma StepKeepsRace(s: State, step: Step)
    requires RaceInv(s) && Enabled(s, step)
    ensures RaceInv(Do(s, step))
  {
    match step
    case Append(run, body) => AppendKeepsRace(s, run, body);
    case Publish(k) => PublishKeepsRace(s, k);
    case PublishDelta(run, text, index) => DeltaKeepsRace(s, run, text, index);
    case Consume => ConsumeKeepsRace(s);
    case Snap => SnapKeepsRace(s);
    case Receive => ReceiveKeepsRace(s);
    case SendPing => PingKeepsRace(s);
    case _ =>
  }

  lemma {:induction false} RunKeepsRace(states: seq<State>, steps: seq<Step>, i: nat)
    requires IsRun(states, steps) && i < |states|
    ensures RaceInv(states[i])
  {
    if i > 0 {
      RunKeepsRace(states, steps, i - 1);
      StepKeepsRace(states[i - 1], steps[i - 1]);
    }
  }

  // ---------- What is delivered ----------

  lemma StartOf(s: State)
    requires s.link.Streaming? && Numbered(s.ledger) && s.link.size <= |s.ledger|
    ensures Start(s).lastSeq == s.link.size && Top(Start(s)) == Newer(s.link.size, s.from)
    ensures Start(s).events == s.ledger[Base(s.link.size)..s.link.size]
  {
    var es := s.ledger[..s.link.size];
    assert es[Base(|es|)..|es|] == s.ledger[Base(s.link.size)..s.link.size];
    ReplayOfWindow(es, s.from);
  }

  /**
   Whatever the order in which committers publish, a connection has accumulated its window and the records
   among the frames past it, and has written the replayed events and the records past the client's cursor.
   */
  lemma DeliversRecords(states: seq<State>, steps: seq<Step>, i: nat)
    requires IsRun(states, steps) && i < |states| && states[i].link.Streaming?
    ensures var s, size := states[i], states[i].link.size;
            var b := Newer(size, s.from);
            && size <= |s.ledger|
            && s.link.conn.events == s.ledger[Base(size)..size] + Records(size, Past(s.taken, size))
            && EventsOf(s.sent) == s.ledger[First(s.from, size, size)..size] + Records(b, Past(s.taken, b))
  {
    RunKeepsRace(states, steps, i);
    StartOf(states[i]);
    AccumulatesAllIffAscending(Start(states[i]), states[i].taken);
    SendsAllIffAscending(Start(states[i]), states[i].taken);
  }

  lemma {:induction false} PastIn(frames: seq<Frame>, ledger: seq<Event>, b: int, n: nat)
    requires AllIn(frames, ledger) && n <= |frames|
    ensures forall i :: 0 <= i < |PastBelow(frames, b, n)| ==> IsIn(PastBelow(frames, b, n)[i], ledger)
  {
    if n > 0 {
      PastIn(frames, ledger, b, n - 1);
      assert FrameIn(frames[n - 1], ledger);
    }
  }

  lemma {:induction false} AtLeast(es: seq<Event>, b: int, i: nat)
    requires Ascends(b, es) && i < |es|
    ensures es[i].seqNo >= b + 1 + i
  {
    if i > 0 {
      AtLeast(es, b, i - 1);
    }
  }

  lemma {:induction false} AtMost(es: seq<Event>, b: int, n: int, i: nat)
    requires Ascends(b, es) && i < |es| && es[|es| - 1].seqNo <= n
    ensures es[i].seqNo <= n - (|es| - 1 - i)
    decreases |es| - i
  {
    if i < |es| - 1 {
      AtMost(es, b, n, i + 1);
    }
  }

  /** As many ascending events past b as the ledger has are the ledger's. */
  lemma AscendingIsSlice(ledger: seq<Event>, b: nat, es: seq<Event>)
    requires Numbered(ledger) && Ascends(b, es) && |es| == Excess(|ledger|, b)
    requires forall i :: 0 <= i < |es| ==> IsIn(es[i], ledger)
    ensures es == ledger[Clamp(b, |ledger|)..]
  {
    forall i | 0 <= i < |es| ensures es[i] == ledger[b + i] {
      AtLeast(es, b, i);
      assert IsIn(es[|es| - 1], ledger);
      AtMost(es, b, |ledger|, i);
      assert IsIn(es[i], ledger);
    }
  }

  lemma RecordsAreSlice(ledger: seq<Event>, b: nat, es: seq<Event>)
    requires Numbered(ledger) && |es| == Excess(|ledger|, b) && forall i :: 0 <= i < |es| ==> IsIn(es[i], ledger)
    ensures Records(b, es) == ledger[Clamp(b, |ledger|)..] <==> Ascends(b, es)
  {
    RecordsAreAll(b, es);
    if Ascends(b, es) {
      AscendingIsSlice(ledger, b, es);
    }
  }

  lemma TakenIsSlice(s: State, b: nat)
    requires RaceInv(s) && s.link.Streaming? && b >= s.link.size
    requires s.link.sub == Sub([], true) && s.unpublished == []
    ensures Records(b, Past(s.taken, b)) == s.ledger[Clamp(b, |s.ledger|)..] <==> Ascends(b, Past(s.taken, b))
  {
    assert Underway(s) == s.taken;
    assert Counted(s, b);
    PastIn(s.taken, s.ledger, b, |s.taken|);
    RecordsAreSlice(s.ledger, b, Past(s.taken, b));
  }

  lemma SameEnding(a: seq<Event>, x: seq<Event>, y: seq<Event>)
    ensures a + x == a + y <==> x == y
  {
    if a + x == a + y {
      assert x == (a + x)[|a|..] && y == (a + y)[|a|..];
    }
  }

  /**
   Once everything is published and the subscription drained: the connection has accumulated its window and all
   that followed, and has written the client all of the window and beyond past its cursor, if and only if the
   frames it consumed past those points came in ascending order. Otherwise the overtaken events are lost to it.
   */
  lemma CompleteIffInOrder(states: seq<State>, steps: seq<Step>, i: nat)
    requires IsRun(states, steps) && i < |states| && states[i].link.Streaming?
    requires states[i].link.sub == Sub([], true) && states[i].unpublished == []
    ensures var s, size := states[i], states[i].link.size;
            var b := Newer(size, s.from);
            && size <= |s.ledger|
            && (s.link.conn.events == s.ledger[Base(size)..] <==> Ascends(size, Past(s.taken, size)))
            && (EventsOf(s.sent) == s.ledger[First(s.from, size, |s.ledger|)..] <==> Ascends(b, Past(s.taken, b)))
  {
    var s, size := states[i], states[i].link.size;
    RunKeepsRace(states, steps, i);
    DeliversRecords(states, steps, i);
    WindowComplete(s.ledger, size, Records(size, Past(s.taken, size)));
    TakenIsSlice(s, size);
    SentComplete(s.ledger, size, s.from, Records(Newer(size, s.from), Past(s.taken, Newer(size, s.from))));
    TakenIsSlice(s, Newer(size, s.from));
  }

  lemma WindowComplete(ledger: seq<Event>, size: nat, more: seq<Event>)
    requires size <= |ledger|
    ensures ledger[Base(size)..size] + more == ledger[Base(size)..] <==> more == ledger[size..]
  {
    assert ledger[Base(size)..size] + ledger[size..] == ledger[Base(size)..];
    SameEnding(ledger[Base(size)..size], more, ledger[size..]);
  }

  lemma SentComplete(ledger: seq<Event>, size: nat, from: int, more: seq<Event>)
    requires size <= |ledger|
    ensures ledger[First(from, size, size)..size] + more == ledger[First(from, size, |ledger|)..] <==>
            more == ledger[Clamp(Newer(size, from), |ledger|)..]
  {
    var a, k := First(from, size, size), Clamp(Newer(size, from), |ledger|);
    if from <= size {
      assert ledger[a..size] + ledger[size..] == ledger[a..];
      SameEnding(ledger[a..size], more, ledger[size..]);
    } else {
      assert ledger[a..size] + more == more;
    }
  }

  /** One committer keeps the order: the frames past the window ascend. */
  lemma OneCommitterKeepsOrder(states: seq<State>, steps: seq<Step>, i: nat)
    requires IsOrderlyRun(states, steps) && i < |states| && states[i].link.Streaming?
    requires states[i].link.sub == Sub([], true) && states[i].unpublished == []
    ensures Ascends(states[i].link.size, Past(states[i].taken, states[i].link.size))
  {
    RunKeeps(states, steps, i);
    DrainedReachesEnd(states[i]);
    CompleteIffInOrder(states, steps, i);
  }
}
