/**
 Replication of one session's ledger to one client, as a transition system: append, publish, subscribe,
 tail snapshot, overflow, disconnect, reconnect and restart are separate steps that interleave freely.
 Any number of committers may append; what they have appended they publish in any order. The guarantees
 below are those of a single committer, who publishes each event before the next append.
 */
module Replica {
  import opened Ledger
  import opened Render
  import RenderLaws
  import opened Stream

  /** The server's side of the client's connection. `size` is the ledger's length at the tail snapshot. */
  datatype Link =
    | Down
    | Subscribed(sub: Sub)
    | Streaming(sub: Sub, conn: Conn, size: nat)
    | Finished(conn: Conn, size: nat)

  /**
   `unpublished` are the events appended and not yet published. `taken` are the frames the connection has
   consumed, `sent` is what it has written and `got` how much of that the client has processed. `from`
   records the cursor when it was opened, and `withinCap` that no connection so far opened with more than
   RENDER_CAP events past its cursor.
   */
  datatype State = State(ledger: seq<Event>, unpublished: seq<Event>,
                         link: Link, taken: seq<Frame>, sent: seq<Wire>, got: nat,
                         start: int, cursor: int, log: seq<Event>, from: int,
                         withinCap: bool)

  datatype Step =
    | Append(run: RunId, body: Body)
    | Publish(k: nat)
    | PublishDelta(run: RunId, text: string, index: int)
    | Connect
    | Snap
    | Consume
    | SendPing
    | SendReconnect
    | Receive
    | Cut
    | Restart

  function Clamp(n: int, size: nat): nat {
    if n < 0 then 0 else if n > size then size else n
  }

  /** How many of the ledger's first `size` events lie past a cursor. */
  function Pending(size: nat, cursor: int): nat {
    size - Clamp(cursor, size)
  }

  function OfferTo(link: Link, f: Frame): Link {
    match link
    case Subscribed(sub) => Subscribed(Offer(sub, f))
    case Streaming(sub, conn, size) => Streaming(Offer(sub, f), conn, size)
    case _ => link
  }

  predicate Enabled(s: State, step: Step) {
    match step
    case Append(_, _) => true
    case Publish(k) => k < |s.unpublished|
    case PublishDelta(_, _, _) => true
    case Connect => s.link.Down?
    case Snap => s.link.Subscribed?
    case Consume => s.link.Streaming? && s.link.sub.queue != []
    case SendPing => s.link.Streaming?
    case SendReconnect => s.link.Streaming? && s.link.sub.queue == [] && !s.link.sub.registered
    case Receive => !s.link.Down? && s.got < |s.sent|
    case Cut => !s.link.Down?
    case Restart => true
  }

  /** The window is replayed past the cursor and rendered. */
  function Snapped(s: State): State
    requires s.link.Subscribed?
  {
    var tail := Tail(s.ledger, RENDER_CAP);
    s.(link := Streaming(s.link.sub, Opened(tail, s.from), |s.ledger|),
       sent := OpeningFrames(tail, s.from),
       withinCap := s.withinCap && Pending(|s.ledger|, s.from) <= RENDER_CAP)
  }

  /** The live loop takes a frame. */
  function Consumed(s: State): State
    requires s.link.Streaming? && s.link.sub.queue != []
  {
    var f := s.link.sub.queue[0];
    s.(link := Streaming(s.link.sub.(queue := s.link.sub.queue[1..]), After(s.link.conn, f), s.link.size),
       taken := s.taken + [f], sent := s.sent + Written(s.link.conn, f))
  }

  /** The client processes a frame. */
  function Received(s: State): State
    requires s.got < |s.sent|
  {
    var w := s.sent[s.got];
    s.(got := s.got + 1,
       cursor := CursorAfter(s.cursor, w),
       log := if w.AmEvent? then s.log + [w.event] else s.log,
       link := if w.Reconnect? then Down else s.link)
  }

  function Do(s: State, step: Step): State
    requires Enabled(s, step)
  {
    match step
    case Append(run, body) =>
      var e := Event(|s.ledger| + 1, run, body);
      s.(ledger := s.ledger + [e], unpublished := s.unpublished + [e])
    case Publish(k) =>
      s.(unpublished := s.unpublished[..k] + s.unpublished[k + 1..],
         link := OfferTo(s.link, EventFrame(s.unpublished[k])))
    case PublishDelta(run, text, index) => s.(link := OfferTo(s.link, DeltaFrame(run, text, index)))
    case Connect => s.(link := Subscribed(Sub([], true)), taken := [], sent := [], got := 0, from := s.cursor)
    case Snap => Snapped(s)
    case Consume => Consumed(s)
    case SendPing => s.(sent := s.sent + [Ping])
    case SendReconnect =>
      s.(link := Finished(s.link.conn, s.link.size), sent := s.sent + [Reconnect(s.link.conn.afterSeq)])
    case Receive => Received(s)
    case Cut => s.(link := Down)
    case Restart =>
      s.(unpublished := [],
         link := match s.link
                 case Streaming(_, conn, size) => Finished(conn, size)
                 case Subscribed(_) => Down
                 case _ => s.link)
  }

  predicate Initial(s: State) {
    && Numbered(s.ledger) && s.unpublished == []
    && s.link.Down? && s.taken == [] && s.sent == [] && s.got == 0
    && s.cursor == s.start && s.log == [] && s.withinCap
  }

  ghost predicate IsRun(states: seq<State>, steps: seq<Step>) {
    && |states| == |steps| + 1
    && Initial(states[0])
    && forall i :: 0 <= i < |steps| ==> Enabled(states[i], steps[i]) && states[i + 1] == Do(states[i], steps[i])
  }

  /** With one committer, nothing is appended before the last event has been published. */
  ghost predicate IsOrderlyRun(states: seq<State>, steps: seq<Step>) {
    IsRun(states, steps) && forall i :: 0 <= i < |steps| ==> Orderly(states[i], steps[i])
  }

  predicate Orderly(s: State, step: Step) {
    step.Append? ==> s.unpublished == []
  }

  /** With one committer, how much of the ledger has been published. */
  function Published(s: State): nat {
    if |s.unpublished| <= |s.ledger| then |s.ledger| - |s.unpublished| else 0
  }

  // ---------- Slices of the ledger ----------

  /** The events numbered past `a`, up to and including `b`. */
  function Between(ledger: seq<Event>, a: int, b: int): seq<Event> {
    var lo, hi := Clamp(a, |ledger|), Clamp(b, |ledger|);
    if lo <= hi then ledger[lo..hi] else []
  }

  /** Where the tail window of a ledger of this size begins. */
  function Base(size: nat): nat {
    if size <= RENDER_CAP then 0 else size - RENDER_CAP
  }

  /** The position of the first event a connection opened at this cursor and size delivers. */
  function First(from: int, size: nat, m: nat): nat {
    var p := if from > Base(size) then from else Base(size);
    if p <= m then p else m
  }

  // ---------- The connection ----------

  /** The committed events waiting in a buffer. */
  function QueuedEvents(queue: seq<Frame>): seq<Event> {
    QueuedFrom(queue, 0)
  }

  function QueuedFrom(queue: seq<Frame>, i: nat): seq<Event>
    requires i <= |queue|
    decreases |queue| - i
  {
    if i == |queue| then []
    else (if queue[i].EventFrame? then [queue[i].event] else []) + QueuedFrom(queue, i + 1)
  }

  lemma QueuedAppend(queue: seq<Frame>, f: Frame)
    ensures QueuedEvents(queue + [f]) == QueuedEvents(queue) + if f.EventFrame? then [f.event] else []
  {
    QueuedAppendFrom(queue, f, 0);
  }

  lemma {:induction false} QueuedAppendFrom(queue: seq<Frame>, f: Frame, i: nat)
    requires i <= |queue|
    ensures QueuedFrom(queue + [f], i) == QueuedFrom(queue, i) + if f.EventFrame? then [f.event] else []
    decreases |queue| - i
  {
    if i < |queue| {
      QueuedAppendFrom(queue, f, i + 1);
    } else {
      assert QueuedFrom(queue + [f], i + 1) == [];
    }
  }

  lemma QueuedTail(queue: seq<Frame>)
    requires queue != []
    ensures QueuedEvents(queue) ==
            (if queue[0].EventFrame? then [queue[0].event] else []) + QueuedEvents(queue[1..])
  {
    QueuedTailFrom(queue, 0);
  }

  lemma {:induction false} QueuedTailFrom(queue: seq<Frame>, i: nat)
    requires i < |queue|
    ensures QueuedFrom(queue[1..], i) == QueuedFrom(queue, i + 1)
    decreases |queue| - i
  {
    if i + 1 < |queue| {
      QueuedTailFrom(queue, i + 1);
    }
  }

  /** The buffered events are consecutive; they reach the published end while registered. */
  ghost predicate SubInv(s: State, sub: Sub, head: nat) {
    var q := QueuedEvents(sub.queue);
    && |sub.queue| <= BUFFER
    && head + |q| <= Published(s) <= |s.ledger| && q == s.ledger[head..head + |q|]
    && (sub.registered ==> head + |q| == Published(s))
  }

  /** The snapshots of the window as it grew from `size` to m events of ledger. */
  function History(ledger: seq<Event>, size: nat, m: nat): (rs: seq<RenderState>)
    requires size <= m <= |ledger|
    ensures |rs| == m - size + 1
  {
    seq(m - size + 1, i requires 0 <= i <= m - size => Snapshot(ledger[Base(size)..size + i]))
  }

  /** What a connection has accumulated and written, as slices of the ledger. */
  ghost predicate ConnInv(s: State, conn: Conn, size: nat) {
    var m := conn.lastSeq;
    && size <= m <= |s.ledger|
    && conn.events == s.ledger[Base(size)..m]
    && conn.afterSeq == (if First(s.from, size, m) < m then m else s.from)
    && EventsOf(s.sent) == s.ledger[First(s.from, size, m)..m]
    && RendersOf(s.sent) == History(s.ledger, size, m)
  }

  // ---------- The client ----------

  function GotEvents(s: State): seq<Event>
    requires s.got <= |s.sent|
  {
    EventsOf(s.sent[..s.got])
  }

  /** The cursor is the last event processed; a reconnect frame is the last frame and repeats it. */
  ghost predicate ClientInv(s: State) {
    && s.got <= |s.sent|
    && s.cursor == LastOf(GotEvents(s), s.from)
    && (s.link.Subscribed? ==> s.sent == [])
    && (s.link.Streaming? || s.link.Finished? ==>
          && ConnInv(s, s.link.conn, s.link.size)
          && (s.withinCap ==> Pending(s.link.size, s.from) <= RENDER_CAP)
          && (s.link.Streaming? ==> NoReconnect(s.sent))
          && forall i :: 0 <= i < |s.sent| && s.sent[i].Reconnect? ==>
               i == |s.sent| - 1 && s.sent[i].afterSeq == s.link.conn.afterSeq)
  }

  function LastOf(events: seq<Event>, default: int): int {
    if events == [] then default else events[|events| - 1].seqNo
  }

  /** The event stands in the numbered ledger where its number says. */
  predicate IsIn(e: Event, ledger: seq<Event>) {
    1 <= e.seqNo <= |ledger| && ledger[e.seqNo - 1] == e
  }

  /** Everything delivered so far: strictly increasing, from the ledger, none twice, none missing within the cap. */
  ghost predicate LogHolds(log: seq<Event>, ledger: seq<Event>, start: int, cursor: int, complete: bool) {
    && cursor == LastOf(log, start)
    && (forall i, j :: 0 <= i < j < |log| ==> log[i].seqNo < log[j].seqNo)
    && (forall i :: 0 <= i < |log| ==> start < log[i].seqNo && IsIn(log[i], ledger))
    && (complete ==> log == Between(ledger, start, cursor))
  }

  ghost predicate LogInv(s: State) {
    LogHolds(s.log, s.ledger, s.start, s.cursor, s.withinCap)
  }

  /** Giving up completeness. */
  lemma LogHoldsWeakly(log: seq<Event>, ledger: seq<Event>, start: int, cursor: int, complete: bool)
    requires LogHolds(log, ledger, start, cursor, true)
    ensures LogHolds(log, ledger, start, cursor, complete)
  {
  }

  ghost predicate LinkInv(s: State) {
    && (s.link.Subscribed? ==> exists head: nat :: SubInv(s, s.link.sub, head))
    && (s.link.Streaming? ==> exists head: nat :: head <= s.link.conn.lastSeq && SubInv(s, s.link.sub, head))
    && (!s.link.Down? ==> ClientInv(s))
  }

  predicate LastUnpublished(s: State) {
    s.ledger != [] && s.unpublished == [s.ledger[|s.ledger| - 1]]
  }

  ghost predicate Inv(s: State) {
    && Numbered(s.ledger) && (s.unpublished == [] || LastUnpublished(s))
    && LogInv(s) && LinkInv(s)
  }

  // ---------- Every step keeps the invariant ----------

  /** Slices below the old end do not notice an append. */
  lemma AppendKeepsConn(s: State, s': State, e: Event)
    requires (s.link.Streaming? || s.link.Finished?) && ConnInv(s, s.link.conn, s.link.size)
    requires s' == s.(ledger := s.ledger + [e], unpublished := s.unpublished + [e])
    ensures ConnInv(s', s.link.conn, s.link.size)
  {
    var conn, size := s.link.conn, s.link.size;
    SliceKept(s.ledger, e, Base(size), conn.lastSeq);
    SliceKept(s.ledger, e, First(s.from, size, conn.lastSeq), conn.lastSeq);
    HistoryKept(s.ledger, e, size, conn.lastSeq);
  }

  lemma SliceKept(ledger: seq<Event>, e: Event, a: nat, b: nat)
    requires a <= b <= |ledger|
    ensures (ledger + [e])[a..b] == ledger[a..b]
  {
  }

  lemma SliceGrows(ledger: seq<Event>, a: nat, m: nat)
    requires a <= m < |ledger|
    ensures ledger[a..m] + [ledger[m]] == ledger[a..m + 1]
  {
  }

  lemma HistoryKept(ledger: seq<Event>, e: Event, size: nat, m: nat)
    requires size <= m <= |ledger|
    ensures History(ledger + [e], size, m) == History(ledger, size, m)
  {
    var kept, was := History(ledger + [e], size, m), History(ledger, size, m);
    forall i | 0 <= i < |was| ensures kept[i] == was[i] {
      SliceKept(ledger, e, Base(size), size + i);
    }
  }

  lemma HistoryGrows(ledger: seq<Event>, size: nat, m: nat)
    requires size <= m < |ledger|
    ensures History(ledger, size, m + 1) == History(ledger, size, m) + [Snapshot(ledger[Base(size)..m + 1])]
  {
  }

  lemma AppendKeepsSub(s: State, e: Event, sub: Sub, head: nat)
    requires SubInv(s, sub, head)
    ensures SubInv(s.(ledger := s.ledger + [e], unpublished := s.unpublished + [e]), sub, head)
  {
    SliceKept(s.ledger, e, head, head + |QueuedEvents(sub.queue)|);
  }

  lemma AppendKeepsLink(s: State, e: Event)
    requires LinkInv(s)
    ensures LinkInv(s.(ledger := s.ledger + [e], unpublished := s.unpublished + [e]))
  {
    var s' := s.(ledger := s.ledger + [e], unpublished := s.unpublished + [e]);
    match s.link
    case Subscribed(sub) =>
      var head: nat :| SubInv(s, sub, head);
      AppendKeepsSub(s, e, sub, head);
    case Streaming(sub, conn, _) =>
      var head: nat :| head <= conn.lastSeq && SubInv(s, sub, head);
      AppendKeepsSub(s, e, sub, head);
      AppendKeepsConn(s, s', e);
    case Finished(_, _) => AppendKeepsConn(s, s', e);
    case Down =>
  }

  lemma AppendKeepsLog(s: State, e: Event)
    requires Numbered(s.ledger) && LogInv(s)
    ensures LogInv(s.(ledger := s.ledger + [e], unpublished := s.unpublished + [e]))
  {
    assert forall i :: 0 <= i < |s.log| ==> IsIn(s.log[i], s.ledger + [e]);
    if s.withinCap {
      assert Between(s.ledger + [e], s.start, s.cursor) == Between(s.ledger, s.start, s.cursor);
    }
  }

  lemma AppendKeeps(s: State, run: RunId, body: Body)
    requires Inv(s) && Orderly(s, Append(run, body))
    ensures Inv(Do(s, Append(run, body)))
  {
    AppendKeepsLog(s, Event(|s.ledger| + 1, run, body));
    AppendKeepsLink(s, Event(|s.ledger| + 1, run, body));
    AppendKeepsNumbers(s, Event(|s.ledger| + 1, run, body));
  }

  lemma AppendKeepsNumbers(s: State, e: Event)
    requires Numbered(s.ledger) && s.unpublished == [] && e.seqNo == |s.ledger| + 1
    ensures Numbered(s.ledger + [e])
            && LastUnpublished(s.(ledger := s.ledger + [e], unpublished := s.unpublished + [e]))
  {
  }

  /** Publishing the next event extends a registered subscription, or closes it. */
  lemma OfferKeepsSub(s: State, s': State, sub: Sub, head: nat)
    requires SubInv(s, sub, head) && Published(s) < |s.ledger|
    requires s'.ledger == s.ledger && Published(s') == Published(s) + 1
    ensures SubInv(s', Offer(sub, EventFrame(s.ledger[Published(s)])), head)
  {
    var f := EventFrame(s.ledger[Published(s)]);
    QueuedAppend(sub.queue, f);
    var n := head + |QueuedEvents(sub.queue)|;
    if n == Published(s) {
      assert s.ledger[head..n] + [s.ledger[n]] == s.ledger[head..n + 1];
    }
  }

  /** A link whose subscription alone has changed. */
  predicate SameConn(a: Link, b: Link) {
    match a
    case Subscribed(_) => b.Subscribed?
    case Streaming(_, conn, size) => b.Streaming? && b.conn == conn && b.size == size
    case _ => b == a
  }

  lemma SubscriptionOnly(s: State, s': State)
    requires ClientInv(s) && SameConn(s.link, s'.link)
    requires s' == s.(unpublished := s'.unpublished, link := s'.link)
    ensures ClientInv(s')
  {
  }

  lemma OfferToKeepsConn(link: Link, f: Frame)
    ensures SameConn(link, OfferTo(link, f))
  {
  }

  lemma PublishKeepsSubs(s: State, s': State)
    requires LinkInv(s) && Published(s) < |s.ledger|
    requires s' == s.(unpublished := s'.unpublished, link := OfferTo(s.link, EventFrame(s.ledger[Published(s)])))
    requires Published(s') == Published(s) + 1
    ensures s'.link.Subscribed? ==> exists head: nat :: SubInv(s', s'.link.sub, head)
    ensures s'.link.Streaming? ==> exists head: nat :: head <= s'.link.conn.lastSeq && SubInv(s', s'.link.sub, head)
  {
    if s.link.Subscribed? {
      var head: nat :| SubInv(s, s.link.sub, head);
      OfferKeepsSub(s, s', s.link.sub, head);
    } else if s.link.Streaming? {
      var head: nat :| head <= s.link.conn.lastSeq && SubInv(s, s.link.sub, head);
      OfferKeepsSub(s, s', s.link.sub, head);
    }
  }

  lemma PublishesLast(s: State, k: nat)
    requires LastUnpublished(s) && k < |s.unpublished|
    ensures Do(s, Publish(k)) == s.(unpublished := [], link := OfferTo(s.link, EventFrame(s.ledger[Published(s)])))
    ensures Published(s) == |s.ledger| - 1
  {
  }

  lemma PublishKeeps(s: State, k: nat)
    requires Inv(s) && Enabled(s, Publish(k))
    ensures Inv(Do(s, Publish(k)))
  {
    var s' := Do(s, Publish(k));
    PublishesLast(s, k);
    PublishKeepsSubs(s, s');
    OfferToKeepsConn(s.link, EventFrame(s.ledger[Published(s)]));
    if !s.link.Down? {
      SubscriptionOnly(s, s');
    }
    SameLog(s, s');
  }

  lemma DeltaKeepsSub(s: State, sub: Sub, head: nat, f: Frame)
    requires SubInv(s, sub, head) && f.DeltaFrame?
    ensures SubInv(s, Offer(sub, f), head)
  {
    QueuedAppend(sub.queue, f);
  }

  lemma DeltaKeepsSubs(s: State, s': State, f: Frame)
    requires LinkInv(s) && f.DeltaFrame? && s' == s.(link := OfferTo(s.link, f))
    ensures s'.link.Subscribed? ==> exists head: nat :: SubInv(s', s'.link.sub, head)
    ensures s'.link.Streaming? ==> exists head: nat :: head <= s'.link.conn.lastSeq && SubInv(s', s'.link.sub, head)
  {
    if s.link.Subscribed? {
      var head: nat :| SubInv(s, s.link.sub, head);
      DeltaKeepsSub(s, s.link.sub, head, f);
      SameSub(s, s', s'.link.sub, head);
    } else if s.link.Streaming? {
      var head: nat :| head <= s.link.conn.lastSeq && SubInv(s, s.link.sub, head);
      DeltaKeepsSub(s, s.link.sub, head, f);
      SameSub(s, s', s'.link.sub, head);
    }
  }

  lemma PublishDeltaKeeps(s: State, run: RunId, text: string, index: int)
    requires Inv(s)
    ensures Inv(Do(s, PublishDelta(run, text, index)))
  {
    var s', f := Do(s, PublishDelta(run, text, index)), DeltaFrame(run, text, index);
    DeltaKeepsSubs(s, s', f);
    OfferToKeepsConn(s.link, f);
    if !s.link.Down? {
      SubscriptionOnly(s, s');
    }
    SameLog(s, s');
  }

  lemma ConnectKeeps(s: State)
    requires Inv(s) && Enabled(s, Connect)
    ensures Inv(Do(s, Connect))
  {
    assert SubInv(Do(s, Connect), Sub([], true), Published(s));
  }

  lemma {:induction false} ReplayedOnlyEvents(events: seq<Event>, cursor: int)
    ensures forall w :: w in Replayed(events, cursor) ==> w.AmEvent?
  {
    if events != [] {
      ReplayedOnlyEvents(events[1..], if events[0].seqNo > cursor then events[0].seqNo else cursor);
    }
  }

  lemma TailIsSuffix(es: seq<Event>)
    requires Numbered(es)
    ensures Tail(es, RENDER_CAP) == es[Base(|es|)..|es|] && LastSeq(Tail(es, RENDER_CAP)) == |es|
  {
  }

  /** Replaying the window writes its events past the cursor and leaves the cursor on the last one written. */
  lemma ReplayOfWindow(es: seq<Event>, from: int)
    requires Numbered(es)
    ensures var tail, n := es[Base(|es|)..|es|], |es|;
            && EventsOf(Replayed(tail, from)) == es[First(from, n, n)..n]
            && RendersOf(Replayed(tail, from)) == []
            && ReplayCursor(tail, from) == if First(from, n, n) < n then n else from
  {
    var n := |es|;
    var tail := es[Base(n)..n];
    ReplayedIsSuffix(tail, Base(n), from);
    assert tail[First(from, n, n) - Base(n)..] == es[First(from, n, n)..n];
  }

  lemma SnapConn(s: State)
    requires Inv(s) && Enabled(s, Snap)
    ensures ConnInv(Snapped(s), Snapped(s).link.conn, |s.ledger|)
  {
    WindowOpens(s.ledger, s.from);
  }

  /** What a connection has and has sent once it has replayed and rendered its window. */
  lemma WindowOpens(es: seq<Event>, from: int)
    requires Numbered(es)
    ensures var n, tail := |es|, Tail(es, RENDER_CAP);
            && Opened(tail, from).events == es[Base(n)..n] && Opened(tail, from).lastSeq == n
            && Opened(tail, from).afterSeq == (if First(from, n, n) < n then n else from)
            && EventsOf(OpeningFrames(tail, from)) == es[First(from, n, n)..n]
            && RendersOf(OpeningFrames(tail, from)) == History(es, n, n)
  {
    var tail := es[Base(|es|)..|es|];
    TailIsSuffix(es);
    ReplayOfWindow(es, from);
    OfOne(Replayed(tail, from), AmRender(Snapshot(tail)));
    assert History(es, |es|, |es|) == [Snapshot(tail)];
  }

  lemma SnapSendsNoReconnect(s: State)
    requires Enabled(s, Snap)
    ensures forall w :: w in Snapped(s).sent ==> !w.Reconnect?
  {
    ReplayedOnlyEvents(Tail(s.ledger, RENDER_CAP), s.from);
  }

  lemma SnapKeepsClient(s: State)
    requires Inv(s) && Enabled(s, Snap)
    ensures ClientInv(Snapped(s))
  {
    SnapConn(s);
    SnapSendsNoReconnect(s);
  }

  lemma SnapKeepsSub(s: State)
    requires Inv(s) && Enabled(s, Snap)
    ensures exists head: nat :: head <= Snapped(s).link.conn.lastSeq && SubInv(Snapped(s), Snapped(s).link.sub, head)
  {
    SnapConn(s);
    var head: nat :| SubInv(s, s.link.sub, head);
    SameSub(s, Snapped(s), s.link.sub, head);
  }

  lemma SnapKeepsLog(s: State)
    requires LogInv(s) && Enabled(s, Snap)
    ensures LogInv(Snapped(s))
  {
    if s.withinCap {
      LogHoldsWeakly(s.log, s.ledger, s.start, s.cursor, Snapped(s).withinCap);
    }
  }

  lemma SnapKeeps(s: State)
    requires Inv(s) && Enabled(s, Snap)
    ensures Inv(Snapped(s))
  {
    SnapKeepsClient(s);
    SnapKeepsSub(s);
    SnapKeepsLog(s);
  }

  /** An event, if it is past the cursor, and a snapshot are written. */
  lemma PairWritten(sent: seq<Wire>, e: Event, past: bool, rs: RenderState)
    ensures var ws := sent + ((if past then [AmEvent(e)] else []) + [AmRender(rs)]);
            EventsOf(ws) == EventsOf(sent) + (if past then [e] else []) && RendersOf(ws) == RendersOf(sent) + [rs]
  {
    if past {
      OfOne(sent, AmEvent(e));
      OfOne(sent + [AmEvent(e)], AmRender(rs));
      assert sent + ([AmEvent(e)] + [AmRender(rs)]) == (sent + [AmEvent(e)]) + [AmRender(rs)];
    } else {
      OfOne(sent, AmRender(rs));
      assert [] + [AmRender(rs)] == [AmRender(rs)];
    }
  }

  lemma NewerWritten(sent: seq<Wire>, c: Conn, e: Event)
    requires e.seqNo > c.lastSeq
    ensures EventsOf(sent + Written(c, EventFrame(e))) == EventsOf(sent) + (if e.seqNo > c.afterSeq then [e] else [])
    ensures RendersOf(sent + Written(c, EventFrame(e))) == RendersOf(sent) + [Snapshot(c.events + [e])]
  {
    PairWritten(sent, e, e.seqNo > c.afterSeq, Snapshot(c.events + [e]));
  }

  /** The live loop on the event after the last: the events written. */
  lemma NextEventWritten(s: State, c: Conn, size: nat)
    requires Numbered(s.ledger) && ConnInv(s, c, size) && c.lastSeq < |s.ledger|
    ensures var f, m := EventFrame(s.ledger[c.lastSeq]), c.lastSeq + 1;
            && EventsOf(s.sent + Written(c, f)) == s.ledger[First(s.from, size, m)..m]
            && After(c, f).afterSeq == if First(s.from, size, m) < m then m else s.from
  {
    var m, e := c.lastSeq, s.ledger[c.lastSeq];
    NewerWritten(s.sent, c, e);
    if e.seqNo > c.afterSeq {
      assert First(s.from, size, m + 1) == First(s.from, size, m);
      SliceGrows(s.ledger, First(s.from, size, m), m);
    }
  }

  /** The live loop on the event after the last: the snapshot written. */
  lemma NextEventRendered(s: State, c: Conn, size: nat)
    requires Numbered(s.ledger) && ConnInv(s, c, size) && c.lastSeq < |s.ledger|
    ensures var f, m := EventFrame(s.ledger[c.lastSeq]), c.lastSeq + 1;
            && RendersOf(s.sent + Written(c, f)) == History(s.ledger, size, m)
            && After(c, f).events == s.ledger[Base(size)..m] && After(c, f).lastSeq == m
  {
    var m, e := c.lastSeq, s.ledger[c.lastSeq];
    SliceGrows(s.ledger, Base(size), m);
    HistoryGrows(s.ledger, size, m);
    NewerWritten(s.sent, c, e);
  }

  lemma QueueHead(s: State, sub: Sub, head: nat)
    requires SubInv(s, sub, head) && sub.queue != [] && sub.queue[0].EventFrame?
    ensures head < Published(s) && sub.queue[0].event == s.ledger[head]
    ensures SubInv(s, sub.(queue := sub.queue[1..]), head + 1)
  {
    var q := QueuedEvents(sub.queue);
    QueuedTail(sub.queue);
    assert q[0] == s.ledger[head] && q[1..] == s.ledger[head + 1..head + |q|];
    assert QueuedEvents(sub.queue[1..]) == q[1..];
  }

  /** A frame at most as new as the last one changes nothing; otherwise it is the very next event. */
  lemma ConsumeConn(s: State, head: nat)
    requires Numbered(s.ledger) && Enabled(s, Consume) && ConnInv(s, s.link.conn, s.link.size)
    requires head <= s.link.conn.lastSeq && SubInv(s, s.link.sub, head)
    ensures var s' := s.(sent := s.sent + Written(s.link.conn, s.link.sub.queue[0]));
            ConnInv(s', After(s.link.conn, s.link.sub.queue[0]), s.link.size)
  {
    var c, f := s.link.conn, s.link.sub.queue[0];
    if f.EventFrame? && f.event.seqNo > c.lastSeq {
      HeadIsNext(s, head);
      NextEventKeepsConn(s, c, s.link.size);
    } else {
      StaleFrameKeepsConn(s, c, f);
    }
  }

  lemma HeadIsNext(s: State, head: nat)
    requires Numbered(s.ledger) && Enabled(s, Consume) && head <= s.link.conn.lastSeq && SubInv(s, s.link.sub, head)
    requires var f := s.link.sub.queue[0]; f.EventFrame? && f.event.seqNo > s.link.conn.lastSeq
    ensures s.link.conn.lastSeq < |s.ledger| && s.link.sub.queue[0].event == s.ledger[s.link.conn.lastSeq]
  {
    QueueHead(s, s.link.sub, head);
  }

  lemma NextEventKeepsConn(s: State, c: Conn, size: nat)
    requires Numbered(s.ledger) && ConnInv(s, c, size) && c.lastSeq < |s.ledger|
    ensures var f := EventFrame(s.ledger[c.lastSeq]);
            ConnInv(s.(sent := s.sent + Written(c, f)), After(c, f), size)
  {
    NextEventWritten(s, c, size);
    NextEventRendered(s, c, size);
  }

  lemma StaleFrameKeepsConn(s: State, c: Conn, f: Frame)
    requires s.link.Streaming? && ConnInv(s, c, s.link.size) && (f.DeltaFrame? || f.event.seqNo <= c.lastSeq)
    ensures ConnInv(s.(sent := s.sent + Written(c, f)), After(c, f), s.link.size)
  {
    if f.DeltaFrame? {
      OfOne(s.sent, AmDelta(f.run, f.text, f.index));
    } else {
      assert s.sent + [] == s.sent;
    }
  }

  lemma DeltaHead(s: State, sub: Sub, head: nat)
    requires SubInv(s, sub, head) && sub.queue != [] && sub.queue[0].DeltaFrame?
    ensures SubInv(s, sub.(queue := sub.queue[1..]), head)
  {
    QueuedTail(sub.queue);
  }

  lemma AfterAdvances(c: Conn, f: Frame)
    ensures After(c, f).lastSeq >= c.lastSeq
    ensures f.EventFrame? ==> After(c, f).lastSeq >= f.event.seqNo
  {
  }

  lemma ConsumeSub(s: State) returns (head: nat)
    requires Inv(s) && Enabled(s, Consume)
    ensures head <= After(s.link.conn, s.link.sub.queue[0]).lastSeq
    ensures SubInv(s, s.link.sub.(queue := s.link.sub.queue[1..]), head)
  {
    AfterAdvances(s.link.conn, s.link.sub.queue[0]);
    head :| head <= s.link.conn.lastSeq && SubInv(s, s.link.sub, head);
    if s.link.sub.queue[0].EventFrame? {
      QueueHead(s, s.link.sub, head);
      head := head + 1;
    } else {
      DeltaHead(s, s.link.sub, head);
    }
  }

  /** The parts of a state the log and the subscription depend on. */
  lemma SameLog(s: State, s': State)
    requires LogInv(s) && s'.ledger == s.ledger && s'.start == s.start && s'.cursor == s.cursor
    requires s'.log == s.log && s'.withinCap == s.withinCap
    ensures LogInv(s')
  {
  }

  lemma SameSub(s: State, s': State, sub: Sub, head: nat)
    requires SubInv(s, sub, head) && s'.ledger == s.ledger && s'.unpublished == s.unpublished
    ensures SubInv(s', sub, head)
  {
  }

  predicate NoReconnect(ws: seq<Wire>) {
    forall i :: 0 <= i < |ws| ==> !ws[i].Reconnect?
  }

  lemma NoReconnectAppend(a: seq<Wire>, b: seq<Wire>)
    requires NoReconnect(a) && NoReconnect(b)
    ensures NoReconnect(a + b)
  {
  }

  lemma PrefixKept(a: seq<Wire>, b: seq<Wire>, n: nat)
    requires n <= |a|
    ensures (a + b)[..n] == a[..n]
  {
  }

  /** Writing more frames, none of them a reconnect, does not disturb the client. */
  lemma WriteKeepsClient(s: State, s': State, more: seq<Wire>)
    requires ClientInv(s) && s.link.Streaming? && s'.link.Streaming? && s'.link.size == s.link.size
    requires s' == s.(link := s'.link, taken := s'.taken, sent := s.sent + more)
    requires ConnInv(s', s'.link.conn, s.link.size) && NoReconnect(more)
    ensures ClientInv(s')
  {
    assert NoReconnect(s.sent);
    PrefixKept(s.sent, more, s.got);
    NoReconnectAppend(s.sent, more);
  }

  lemma WrittenNoReconnect(c: Conn, f: Frame)
    ensures NoReconnect(Written(c, f))
  {
  }

  lemma ConsumeKeepsClient(s: State, head: nat)
    requires Numbered(s.ledger) && Enabled(s, Consume) && ClientInv(s)
    requires head <= s.link.conn.lastSeq && SubInv(s, s.link.sub, head)
    ensures ClientInv(Consumed(s))
  {
    ConsumeConn(s, head);
    WrittenNoReconnect(s.link.conn, s.link.sub.queue[0]);
    WriteKeepsClient(s, Consumed(s), Written(s.link.conn, s.link.sub.queue[0]));
  }

  lemma ConsumeKeepsSub(s: State)
    requires Inv(s) && Enabled(s, Consume)
    ensures exists head: nat :: head <= Consumed(s).link.conn.lastSeq && SubInv(Consumed(s), Consumed(s).link.sub, head)
  {
    var head := ConsumeSub(s);
    SameSub(s, Consumed(s), Consumed(s).link.sub, head);
  }

  lemma ConsumeKeepsLink(s: State)
    requires Inv(s) && Enabled(s, Consume)
    ensures LinkInv(Consumed(s))
  {
    var before: nat :| before <= s.link.conn.lastSeq && SubInv(s, s.link.sub, before);
    ConsumeKeepsClient(s, before);
    ConsumeKeepsSub(s);
  }

  lemma ConsumeKeeps(s: State)
    requires Inv(s) && Enabled(s, Consume)
    ensures Inv(Consumed(s))
  {
    ConsumeKeepsLink(s);
    SameLog(s, Consumed(s));
  }

  lemma PingKeepsConn(s: State, s': State)
    requires s.link.Streaming? && ConnInv(s, s.link.conn, s.link.size) && s' == s.(sent := s.sent + [Ping])
    ensures ConnInv(s', s'.link.conn, s'.link.size)
  {
    OfOne(s.sent, Ping);
  }

  lemma PingKeeps(s: State)
    requires Inv(s) && Enabled(s, SendPing)
    ensures Inv(Do(s, SendPing))
  {
    var s' := s.(sent := s.sent + [Ping]);
    PingKeepsClient(s, s');
    PingKeepsSub(s, s');
    SameLog(s, s');
  }

  lemma PingKeepsClient(s: State, s': State)
    requires ClientInv(s) && s.link.Streaming? && s' == s.(sent := s.sent + [Ping])
    ensures ClientInv(s')
  {
    PingKeepsConn(s, s');
    WriteKeepsClient(s, s', [Ping]);
  }

  lemma PingKeepsSub(s: State, s': State)
    requires LinkInv(s) && s.link.Streaming? && s' == s.(sent := s.sent + [Ping])
    ensures exists head: nat :: head <= s'.link.conn.lastSeq && SubInv(s', s'.link.sub, head)
  {
    var head: nat :| head <= s.link.conn.lastSeq && SubInv(s, s.link.sub, head);
    SameSub(s, s', s.link.sub, head);
  }

  lemma FinishKeepsConn(s: State, s': State)
    requires s.link.Streaming? && ConnInv(s, s.link.conn, s.link.size)
    requires s' == s.(link := Finished(s.link.conn, s.link.size), sent := s.sent + [Reconnect(s.link.conn.afterSeq)])
    ensures ConnInv(s', s'.link.conn, s'.link.size)
  {
    OfOne(s.sent, Reconnect(s.link.conn.afterSeq));
  }

  lemma FinishKeepsClient(s: State, s': State)
    requires ClientInv(s) && s.link.Streaming?
    requires s' == s.(link := Finished(s.link.conn, s.link.size), sent := s.sent + [Reconnect(s.link.conn.afterSeq)])
    ensures ClientInv(s')
  {
    var w := Reconnect(s.link.conn.afterSeq);
    FinishKeepsConn(s, s');
    PrefixKept(s.sent, [w], s.got);
    assert NoReconnect(s.sent) && forall i :: 0 <= i < |s.sent| ==> s'.sent[i] == s.sent[i];
  }

  lemma ReconnectKeeps(s: State)
    requires Inv(s) && Enabled(s, SendReconnect)
    ensures Inv(Do(s, SendReconnect))
  {
    FinishKeepsClient(s, Do(s, SendReconnect));
    SameLog(s, Do(s, SendReconnect));
  }

  // ---------- The client's side ----------

  /** The client has processed a prefix of the connection's events; the next event frame is the next of them. */
  lemma GotIsPrefix(s: State)
    requires s.got <= |s.sent|
    ensures GotEvents(s) <= EventsOf(s.sent)
    ensures s.got < |s.sent| ==>
              EventsOf(s.sent[..s.got + 1]) ==
                  GotEvents(s) + if s.sent[s.got].AmEvent? then [s.sent[s.got].event] else []
    ensures s.got < |s.sent| ==> EventsOf(s.sent[..s.got + 1]) <= EventsOf(s.sent)
  {
    assert s.sent == s.sent[..s.got] + s.sent[s.got..];
    OfAppend(s.sent[..s.got], s.sent[s.got..]);
    if s.got < |s.sent| {
      assert s.sent[..s.got + 1] == s.sent[..s.got] + [s.sent[s.got]];
      OfOne(s.sent[..s.got], s.sent[s.got]);
      assert s.sent == s.sent[..s.got + 1] + s.sent[s.got + 1..];
      OfAppend(s.sent[..s.got + 1], s.sent[s.got + 1..]);
    }
  }

  lemma BetweenGrows(ledger: seq<Event>, start: int, cursor: int)
    requires start <= cursor && Clamp(cursor, |ledger|) < |ledger|
    ensures var p := Clamp(cursor, |ledger|);
            Between(ledger, start, cursor) + [ledger[p]] == Between(ledger, start, p + 1)
  {
  }

  /** Which event the client processes next, and where its cursor stands. */
  lemma NextPosition(s: State) returns (p: nat)
    requires (s.link.Streaming? || s.link.Finished?) && ClientInv(s) && Numbered(s.ledger)
    requires s.got < |s.sent| && s.sent[s.got].AmEvent?
    ensures p < |s.ledger| && s.ledger[p] == s.sent[s.got].event
    ensures if GotEvents(s) == [] then s.cursor == s.from
            && p == First(s.from, s.link.size, s.link.conn.lastSeq) < s.link.conn.lastSeq
            else s.cursor == p
  {
    GotIsPrefix(s);
    var first, got, all := First(s.from, s.link.size, s.link.conn.lastSeq), GotEvents(s), EventsOf(s.sent);
    p := first + |got|;
    assert |got| < |all| && all[|got|] == s.ledger[p];
    if got != [] {
      assert got[|got| - 1] == all[|got| - 1] == s.ledger[p - 1];
    }
  }

  predicate IsNext(s: State, e: Event) {
    && IsIn(e, s.ledger) && e.seqNo > s.cursor
    && (s.withinCap ==> e.seqNo == Clamp(s.cursor, |s.ledger|) + 1)
  }

  /** That event is newer than the cursor, and within the cap the very next one. */
  lemma NextDelivered(s: State)
    requires (s.link.Streaming? || s.link.Finished?) && ClientInv(s) && Numbered(s.ledger)
    requires s.got < |s.sent| && s.sent[s.got].AmEvent?
    ensures IsNext(s, s.sent[s.got].event)
  {
    var p := NextPosition(s);
    assert s.ledger[p].seqNo == p + 1;
  }

  lemma DeliverKeepsOrder(log: seq<Event>, ledger: seq<Event>, start: int, cursor: int, e: Event)
    requires LogHolds(log, ledger, start, cursor, false) && e.seqNo > cursor && IsIn(e, ledger)
    ensures LogHolds(log + [e], ledger, start, e.seqNo, false) && start <= cursor
  {
    var more := log + [e];
    forall i | 0 <= i < |more| ensures start < more[i].seqNo && IsIn(more[i], ledger) {
      if i < |log| {
        assert more[i] == log[i];
      }
    }
  }

  lemma DeliverKeepsLog(log: seq<Event>, ledger: seq<Event>, start: int, cursor: int, complete: bool, e: Event)
    requires LogHolds(log, ledger, start, cursor, complete)
    requires IsIn(e, ledger) && e.seqNo > cursor
    requires complete ==> e.seqNo == Clamp(cursor, |ledger|) + 1
    ensures LogHolds(log + [e], ledger, start, e.seqNo, complete)
  {
    DeliverKeepsOrder(log, ledger, start, cursor, e);
    if complete {
      BetweenGrows(ledger, start, cursor);
    }
  }

  lemma ReceiveEventKeepsLog(s: State, e: Event)
    requires LogInv(s) && s.got < |s.sent| && s.sent[s.got] == AmEvent(e) && IsNext(s, e)
    ensures LogInv(Received(s))
  {
    DeliverKeepsLog(s.log, s.ledger, s.start, s.cursor, s.withinCap, e);
  }

  lemma ReceiveEventKeepsClient(s: State)
    requires (s.link.Streaming? || s.link.Finished?) && ClientInv(s) && Numbered(s.ledger)
    requires s.got < |s.sent| && s.sent[s.got].AmEvent?
    ensures ClientInv(Received(s))
  {
    ReceivedCursor(s);
    ClientMoves(s, Received(s));
  }

  /** A client that has processed more of what it was sent. */
  lemma ClientMoves(s: State, s': State)
    requires ClientInv(s) && s' == s.(got := s'.got, cursor := s'.cursor, log := s'.log)
    requires s'.got <= |s.sent| && s'.cursor == LastOf(GotEvents(s'), s'.from)
    ensures ClientInv(s')
  {
    if s.link.Streaming? || s.link.Finished? {
      SameConnInv(s, s');
    }
  }

  lemma SameConnInv(s: State, s': State)
    requires s.link.Streaming? || s.link.Finished?
    requires ConnInv(s, s.link.conn, s.link.size) && s' == s.(got := s'.got, cursor := s'.cursor, log := s'.log)
    ensures ConnInv(s', s.link.conn, s.link.size)
  {
  }

  lemma ReceivedCursor(s: State)
    requires (s.link.Streaming? || s.link.Finished?) && ClientInv(s) && Numbered(s.ledger)
    requires s.got < |s.sent| && s.sent[s.got].AmEvent?
    ensures Received(s).cursor == LastOf(GotEvents(Received(s)), s.from)
  {
    GotIsPrefix(s);
    NextDelivered(s);
  }

  lemma ReceiveOtherKeepsClient(s: State)
    requires (s.link.Streaming? || s.link.Finished?) && ClientInv(s)
    requires s.got < |s.sent| && !s.sent[s.got].AmEvent? && !s.sent[s.got].Reconnect?
    ensures ClientInv(Received(s))
  {
    GotIsPrefix(s);
    ClientMoves(s, Received(s));
  }

  lemma ReceiveEventKeeps(s: State)
    requires Inv(s) && Enabled(s, Receive) && s.sent[s.got].AmEvent?
    ensures Inv(Received(s))
  {
    ReceivedEventInLog(s);
    ReceiveEventKeepsLink(s);
  }

  lemma ReceivedEventInLog(s: State)
    requires (s.link.Streaming? || s.link.Finished?) && ClientInv(s) && Numbered(s.ledger) && LogInv(s)
    requires s.got < |s.sent| && s.sent[s.got].AmEvent?
    ensures LogInv(Received(s))
  {
    NextDelivered(s);
    ReceiveEventKeepsLog(s, s.sent[s.got].event);
  }

  lemma ReceiveEventKeepsLink(s: State)
    requires Inv(s) && Enabled(s, Receive) && s.sent[s.got].AmEvent?
    ensures LinkInv(Received(s))
  {
    ReceiveEventKeepsClient(s);
    ReceiveKeepsSub(s);
  }

  lemma ReceiveKeepsSub(s: State)
    requires Inv(s) && Enabled(s, Receive)
    ensures s.link.Streaming? ==>
              exists head: nat :: head <= s.link.conn.lastSeq && SubInv(Received(s), s.link.sub, head)
  {
    if s.link.Streaming? {
      var head: nat :| head <= s.link.conn.lastSeq && SubInv(s, s.link.sub, head);
      SameSub(s, Received(s), s.link.sub, head);
    }
  }

  lemma ReceiveOtherKeeps(s: State)
    requires Inv(s) && Enabled(s, Receive) && !s.sent[s.got].AmEvent? && !s.sent[s.got].Reconnect?
    ensures Inv(Received(s))
  {
    SameLog(s, Received(s));
    ReceiveOtherKeepsClient(s);
    ReceiveKeepsSub(s);
  }

  lemma RepeatsCursor(s: State)
    requires Inv(s) && Enabled(s, Receive) && s.sent[s.got].Reconnect?
    ensures s.sent[s.got].afterSeq == s.cursor
  {
    GotIsPrefix(s);
    assert s.sent[..s.got + 1] == s.sent;
  }

  lemma DownKeeps(s: State, step: Step)
    requires Inv(s) && Enabled(s, step) && (step.Cut? || step.Restart?)
    ensures Inv(Do(s, step))
  {
    SameLog(s, Do(s, step));
  }

  lemma ReceiveKeeps(s: State)
    requires Inv(s) && Enabled(s, Receive)
    ensures Inv(Received(s))
  {
    if s.sent[s.got].AmEvent? {
      ReceiveEventKeeps(s);
    } else if s.sent[s.got].Reconnect? {
      RepeatsCursor(s);
      SameLog(s, Received(s));
    } else {
      ReceiveOtherKeeps(s);
    }
  }

  lemma CommitterStepKeeps(s: State, step: Step)
    requires Inv(s) && Enabled(s, step) && Orderly(s, step)
    requires step.Append? || step.Publish? || step.PublishDelta? || step.Cut? || step.Restart?
    ensures Inv(Do(s, step))
  {
    match step
    case Append(run, body) => AppendKeeps(s, run, body);
    case Publish(k) => PublishKeeps(s, k);
    case PublishDelta(run, text, index) => PublishDeltaKeeps(s, run, text, index);
    case _ => DownKeeps(s, step);
  }

  lemma ConnectionStepKeeps(s: State, step: Step)
    requires Inv(s) && Enabled(s, step)
    requires step.Connect? || step.Snap? || step.Consume? || step.SendPing? || step.SendReconnect? || step.Receive?
    ensures Inv(Do(s, step))
  {
    match step
    case Connect => ConnectKeeps(s);
    case Snap => SnapKeeps(s);
    case Consume => ConsumeKeeps(s);
    case SendPing => PingKeeps(s);
    case SendReconnect => ReconnectKeeps(s);
    case Receive => ReceiveKeeps(s);
  }

  lemma StepKeeps(s: State, step: Step)
    requires Inv(s) && Enabled(s, step) && Orderly(s, step)
    ensures Inv(Do(s, step))
  {
    if step.Append? || step.Publish? || step.PublishDelta? || step.Cut? || step.Restart? {
      CommitterStepKeeps(s, step);
    } else {
      ConnectionStepKeeps(s, step);
    }
  }

  /** Only receiving moves the cursor: an event forward, a reconnect frame nowhere. */
  lemma StepAdvances(s: State, step: Step)
    requires Inv(s) && Enabled(s, step)
    ensures Do(s, step).cursor >= s.cursor
  {
    if step.Receive? && s.sent[s.got].Reconnect? {
      RepeatsCursor(s);
    }
  }

  lemma {:induction false} RunKeeps(states: seq<State>, steps: seq<Step>, i: nat)
    requires IsOrderlyRun(states, steps) && i < |states|
    ensures Inv(states[i])
  {
    if i > 0 {
      RunKeeps(states, steps, i - 1);
      StepKeeps(states[i - 1], steps[i - 1]);
    }
  }

  // ---------- The guarantees ----------

  /**
   Whatever the interleaving, the client's onEvent sees strictly increasing events of the ledger; and it has seen
   every event from its start to its cursor, each once, if no connection opened with more than RENDER_CAP pending.
   */
  lemma DeliveredInOrderExactlyOnce(states: seq<State>, steps: seq<Step>, i: nat)
    requires IsOrderlyRun(states, steps) && i < |states|
    ensures var s := states[i];
            && (forall p, q :: 0 <= p < q < |s.log| ==> s.log[p].seqNo < s.log[q].seqNo)
            && (forall e :: e in s.log ==> e in s.ledger && e.seqNo > s.start)
            && (s.withinCap ==> s.log == Between(s.ledger, s.start, s.cursor))
  {
    RunKeeps(states, steps, i);
    assert forall e :: e in states[i].log ==> IsIn(e, states[i].ledger);
  }

  lemma {:induction false} Ascend(xs: seq<int>, i: nat, j: nat)
    requires i <= j < |xs| && forall k :: 0 < k < |xs| ==> xs[k - 1] <= xs[k]
    ensures xs[i] <= xs[j]
  {
    if i < j {
      Ascend(xs, i, j - 1);
    }
  }

  lemma StepOfRunAdvances(states: seq<State>, steps: seq<Step>, k: nat)
    requires IsOrderlyRun(states, steps) && k < |steps|
    ensures states[k].cursor <= states[k + 1].cursor
  {
    RunKeeps(states, steps, k);
    StepAdvances(states[k], steps[k]);
  }

  /** The server's reconnect frame repeats the client's own cursor. */
  lemma ReconnectRepeatsCursor(states: seq<State>, steps: seq<Step>, i: nat)
    requires IsOrderlyRun(states, steps) && i < |states|
    requires Enabled(states[i], Receive) && states[i].sent[states[i].got].Reconnect?
    ensures states[i].sent[states[i].got].afterSeq == states[i].cursor
  {
    RunKeeps(states, steps, i);
    RepeatsCursor(states[i]);
  }

  /** The client's cursor never decreases, not even on the server's reconnect frame. */
  lemma CursorNeverDecreases(states: seq<State>, steps: seq<Step>, i: nat, j: nat)
    requires IsOrderlyRun(states, steps) && i <= j < |states|
    ensures states[i].cursor <= states[j].cursor
  {
    var cursors := seq(|states|, k requires 0 <= k < |states| => states[k].cursor);
    forall k | 0 < k < |cursors| ensures cursors[k - 1] <= cursors[k] {
      StepOfRunAdvances(states, steps, k - 1);
    }
    Ascend(cursors, i, j);
  }

  /**
   Nothing is left behind: once a registered subscription is drained, the connection has delivered every event
   past its cursor and its window's start; and the whole log is complete if no connection exceeded the cap.
   */
  lemma DrainedMeansComplete(states: seq<State>, steps: seq<Step>, i: nat)
    requires IsOrderlyRun(states, steps) && i < |states|
    requires var s := states[i];
             && s.link.Streaming? && s.link.sub == Sub([], true) && s.got == |s.sent| && s.unpublished == []
    ensures var s := states[i];
            && s.link.conn.lastSeq == |s.ledger|
            && EventsOf(s.sent) == s.ledger[First(s.from, s.link.size, |s.ledger|)..]
            && (s.withinCap ==> s.log == Between(s.ledger, s.start, |s.ledger|))
  {
    RunKeeps(states, steps, i);
    DrainedReachesEnd(states[i]);
    DrainedCursor(states[i]);
  }

  lemma DrainedReachesEnd(s: State)
    requires LinkInv(s) && s.link.Streaming? && s.link.sub == Sub([], true) && s.unpublished == []
    ensures s.link.conn.lastSeq == |s.ledger|
  {
    var head: nat :| head <= s.link.conn.lastSeq && SubInv(s, s.link.sub, head);
    assert QueuedEvents([]) == [];
  }

  lemma DrainedCursor(s: State)
    requires Numbered(s.ledger) && s.link.Streaming? && ClientInv(s) && s.got == |s.sent|
    ensures Clamp(s.cursor, s.link.conn.lastSeq) == s.link.conn.lastSeq
  {
    assert s.sent[..s.got] == s.sent;
    var m, first := s.link.conn.lastSeq, First(s.from, s.link.size, s.link.conn.lastSeq);
    if first < m {
      assert GotEvents(s)[m - first - 1] == s.ledger[m - 1];
    }
  }

  /**
   The events a connection writes are the ledger's past the cursor it was opened with, without a gap, exactly when
   at most RENDER_CAP events were pending at its tail snapshot; otherwise those before the window are skipped.
   */
  lemma GapExactlyBeyondCap(states: seq<State>, steps: seq<Step>, i: nat)
    requires IsOrderlyRun(states, steps) && i < |states| && states[i].link.Streaming?
    ensures var s := states[i];
            && (EventsOf(s.sent) == Between(s.ledger, s.from, s.link.conn.lastSeq) <==>
                Pending(s.link.size, s.from) <= RENDER_CAP)
            && (Pending(s.link.size, s.from) > RENDER_CAP ==>
                  EventsOf(s.sent) == Between(s.ledger, s.link.size - RENDER_CAP, s.link.conn.lastSeq))
  {
    RunKeeps(states, steps, i);
    GapOf(states[i].ledger, states[i].from, states[i].link.size, states[i].link.conn.lastSeq);
  }

  lemma GapOf(ledger: seq<Event>, from: int, size: nat, m: nat)
    requires size <= m <= |ledger|
    ensures ledger[First(from, size, m)..m] == Between(ledger, from, m) <==> Pending(size, from) <= RENDER_CAP
    ensures Pending(size, from) > RENDER_CAP ==>
            ledger[First(from, size, m)..m] == Between(ledger, size - RENDER_CAP, m)
  {
    assert |ledger[First(from, size, m)..m]| == m - First(from, size, m);
  }

  // ---------- The snapshots of one connection ----------

  lemma {:induction false} RenderAt(ws: seq<Wire>, n: nat, p: nat) returns (k: nat)
    requires p < n <= |ws| && ws[p].AmRender?
    ensures k == |RendersBelow(ws, p)| < |RendersBelow(ws, n)| && RendersBelow(ws, n)[k] == ws[p].state
  {
    if p == n - 1 {
      k := |RendersBelow(ws, p)|;
    } else {
      k := RenderAt(ws, n - 1, p);
    }
  }

  lemma {:induction false} RenderOrder(ws: seq<Wire>, p: nat, q: nat)
    requires p < q <= |ws| && ws[p].AmRender?
    ensures |RendersBelow(ws, p)| < |RendersBelow(ws, q)|
  {
    if p < q - 1 {
      RenderOrder(ws, p, q - 1);
    }
  }

  /** Which slice of the ledger a frame's snapshot shows. */
  lemma RenderShowsOf(ws: seq<Wire>, ledger: seq<Event>, size: nat, m: nat, p: nat) returns (k: nat)
    requires size <= m <= |ledger| && RendersOf(ws) == History(ledger, size, m)
    requires p < |ws| && ws[p].AmRender?
    ensures k == |RendersBelow(ws, p)| && size + k <= m
    ensures ws[p].state == Snapshot(ledger[Base(size)..size + k])
  {
    k := RenderAt(ws, |ws|, p);
  }

  /**
   Every am_render of a connection, whatever the client's cursor, is the snapshot of a slice of the ledger that ends
   at its basedOnSeq; the slice is the whole prefix when the ledger fitted the window at connect.
   */
  lemma RendersAreSnapshots(states: seq<State>, steps: seq<Step>, i: nat, p: nat)
    requires IsOrderlyRun(states, steps) && i < |states| && (states[i].link.Streaming? || states[i].link.Finished?)
    requires p < |states[i].sent| && states[i].sent[p].AmRender?
    ensures var s, n := states[i], states[i].sent[p].state.basedOnSeq;
            && Base(s.link.size) <= n <= |s.ledger|
            && s.sent[p].state == Snapshot(s.ledger[Base(s.link.size)..n])
            && (s.link.size <= RENDER_CAP ==> s.sent[p].state == Snapshot(s.ledger[..n]))
  {
    RunKeeps(states, steps, i);
    var s := states[i];
    SnapshotOf(s.sent, s.ledger, s.link.size, s.link.conn.lastSeq, p);
  }

  lemma SnapshotOf(ws: seq<Wire>, ledger: seq<Event>, size: nat, m: nat, p: nat)
    requires Numbered(ledger) && size <= m <= |ledger| && RendersOf(ws) == History(ledger, size, m)
    requires p < |ws| && ws[p].AmRender?
    ensures var n := ws[p].state.basedOnSeq;
            && Base(size) <= n <= |ledger|
            && ws[p].state == Snapshot(ledger[Base(size)..n])
            && (size <= RENDER_CAP ==> ws[p].state == Snapshot(ledger[..n]))
  {
    var k := RenderShowsOf(ws, ledger, size, m, p);
    SliceEndsAt(ledger, Base(size), size + k);
    PrefixSlice(ledger, size + k);
  }

  lemma PrefixSlice(ledger: seq<Event>, n: nat)
    requires n <= |ledger|
    ensures ledger[0..n] == ledger[..n]
  {
  }

  lemma SliceEndsAt(ledger: seq<Event>, lo: nat, n: nat)
    requires Numbered(ledger) && lo <= n <= |ledger| && (lo == n ==> n == 0)
    ensures Snapshot(ledger[lo..n]).basedOnSeq == n
  {
  }

  /** Later snapshots of a connection continue earlier ones: rows stay, tool status only moves forward. */
  lemma RendersAreMonotone(states: seq<State>, steps: seq<Step>, i: nat, p: nat, q: nat)
    requires IsOrderlyRun(states, steps) && i < |states| && (states[i].link.Streaming? || states[i].link.Finished?)
    requires p < q < |states[i].sent| && states[i].sent[p].AmRender? && states[i].sent[q].AmRender?
    ensures RenderLaws.SnapshotContinues(states[i].sent[p].state, states[i].sent[q].state)
  {
    RunKeeps(states, steps, i);
    var s := states[i];
    MonotoneOf(s.sent, s.ledger, s.link.size, s.link.conn.lastSeq, p, q);
  }

  lemma HistoryAt(ledger: seq<Event>, size: nat, m: nat, k: nat)
    requires size <= m <= |ledger| && k <= m - size
    ensures History(ledger, size, m)[k] == Snapshot(ledger[Base(size)..size + k])
  {
  }

  /** Any two snapshots of a growing window continue each other. */
  lemma HistoryIsMonotone(ledger: seq<Event>, size: nat, m: nat, j: nat, k: nat)
    requires size <= m <= |ledger| && j <= k <= m - size
    ensures RenderLaws.SnapshotContinues(History(ledger, size, m)[j], History(ledger, size, m)[k])
  {
    HistoryAt(ledger, size, m, j);
    HistoryAt(ledger, size, m, k);
    SlicesAreMonotone(ledger, Base(size), size + j, size + k);
    ContinueAlike(Snapshot(ledger[Base(size)..size + j]), Snapshot(ledger[Base(size)..size + k]),
                  History(ledger, size, m)[j], History(ledger, size, m)[k]);
  }

  lemma ContinueAlike(a: RenderState, b: RenderState, x: RenderState, y: RenderState)
    requires x == a && y == b && RenderLaws.SnapshotContinues(a, b)
    ensures RenderLaws.SnapshotContinues(x, y)
  {
  }

  lemma MonotoneOf(ws: seq<Wire>, ledger: seq<Event>, size: nat, m: nat, p: nat, q: nat)
    requires size <= m <= |ledger| && RendersOf(ws) == History(ledger, size, m)
    requires p < q < |ws| && ws[p].AmRender? && ws[q].AmRender?
    ensures RenderLaws.SnapshotContinues(ws[p].state, ws[q].state)
  {
    var j := RenderAt(ws, |ws|, p);
    var k := RenderAt(ws, |ws|, q);
    RenderOrder(ws, p, q);
    HistoryIsMonotone(ledger, size, m, j, k);
  }

  lemma SlicesAreMonotone(ledger: seq<Event>, lo: nat, a: nat, b: nat)
    requires lo <= a <= b <= |ledger|
    ensures RenderLaws.SnapshotContinues(Snapshot(ledger[lo..a]), Snapshot(ledger[lo..b]))
  {
    assert ledger[lo..a] + ledger[a..b] == ledger[lo..b];
    RenderLaws.SnapshotsAreMonotone(ledger[lo..a], ledger[a..b]);
  }
}
