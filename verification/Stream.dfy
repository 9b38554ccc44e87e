/** One connection of the per-session event stream, server side: replay, live de-duplication, re-render. */
module Stream {
  import opened Ledger
  import opened Render

  /** What a subscriber receives: a committed event, or an ephemeral delta. */
  datatype Frame = EventFrame(event: Event) | DeltaFrame(run: RunId, text: string, index: int)

  /** Committed events as frames. */
  function FramesOf(es: seq<Event>): (fs: seq<Frame>)
    ensures |fs| == |es|
  {
    seq(|es|, i requires 0 <= i < |es| => EventFrame(es[i]))
  }

  /** The capacity of a subscriber's channel. */
  const BUFFER: nat := 256

  /** A subscription: its buffered frames, and whether it is still registered. */
  datatype Sub = Sub(queue: seq<Frame>, registered: bool)

  /** publish: a full buffer closes the subscription instead. */
  function Offer(sub: Sub, f: Frame): Sub {
    if !sub.registered then sub
    else if |sub.queue| < BUFFER then sub.(queue := sub.queue + [f])
    else sub.(registered := false)
  }

  /** What goes over the wire. */
  datatype Wire =
    | AmEvent(event: Event)
    | AmRender(state: RenderState)
    | AmDelta(run: RunId, text: string, index: int)
    | Ping
    | Reconnect(afterSeq: int)

  const RENDER_CAP: nat := 2000

  /** The loop variables of a connection. */
  datatype Conn = Conn(events: seq<Event>, lastSeq: int, afterSeq: int)

  function LastSeq(events: seq<Event>): int {
    if events == [] then 0 else events[|events| - 1].seqNo
  }

  /** The events past the cursor, each of which moves the cursor. */
  function Replayed(events: seq<Event>, afterSeq: int): seq<Wire> {
    if events == [] then []
    else if events[0].seqNo > afterSeq then [AmEvent(events[0])] + Replayed(events[1..], events[0].seqNo)
    else Replayed(events[1..], afterSeq)
  }

  function ReplayCursor(events: seq<Event>, afterSeq: int): int {
    if events == [] then afterSeq
    else ReplayCursor(events[1..], if events[0].seqNo > afterSeq then events[0].seqNo else afterSeq)
  }

  lemma ReplayedNext(tail: seq<Event>, i: nat, afterSeq: int, output: seq<Wire>)
    requires i < |tail|
    ensures var e, rest := tail[i], tail[i + 1..];
            if e.seqNo > afterSeq then
              && output + Replayed(tail[i..], afterSeq) == (output + [AmEvent(e)]) + Replayed(rest, e.seqNo)
              && ReplayCursor(tail[i..], afterSeq) == ReplayCursor(rest, e.seqNo)
            else
              && Replayed(tail[i..], afterSeq) == Replayed(rest, afterSeq)
              && ReplayCursor(tail[i..], afterSeq) == ReplayCursor(rest, afterSeq)
  {
    assert tail[i..][1..] == tail[i + 1..];
  }

  function Opened(tail: seq<Event>, cursor: int): Conn {
    Conn(tail, LastSeq(tail), ReplayCursor(tail, cursor))
  }

  function OpeningFrames(tail: seq<Event>, cursor: int): seq<Wire> {
    Replayed(tail, cursor) + [AmRender(Snapshot(tail))]
  }

  /** The live loop's variables after a frame. */
  function After(c: Conn, f: Frame): Conn {
    if f.DeltaFrame? || f.event.seqNo <= c.lastSeq then c
    else Conn(c.events + [f.event], f.event.seqNo, if f.event.seqNo > c.afterSeq then f.event.seqNo else c.afterSeq)
  }

  /** What the live loop writes for a frame. */
  function Written(c: Conn, f: Frame): seq<Wire> {
    if f.DeltaFrame? then [AmDelta(f.run, f.text, f.index)]
    else if f.event.seqNo <= c.lastSeq then []
    else (if f.event.seqNo > c.afterSeq then [AmEvent(f.event)] else []) + [AmRender(Snapshot(c.events + [f.event]))]
  }

  /** The connection's goroutine: its variables and what it has written so far. */
  class Handler {
    var events: seq<Event>
    var lastSeq: int
    var afterSeq: int
    var output: seq<Wire>

    ghost function State(): Conn
      reads this
    {
      Conn(events, lastSeq, afterSeq)
    }

    /** Replays the tail past the client's cursor and renders it. */
    constructor (tail: seq<Event>, cursor: int)
      ensures State() == Opened(tail, cursor) && output == OpeningFrames(tail, cursor)
    {
      events := tail;
      lastSeq := if tail == [] then 0 else tail[|tail| - 1].seqNo;
      afterSeq := cursor;
      output := [];
      new;
      for i := 0 to |tail|
        invariant events == tail && lastSeq == LastSeq(tail)
        invariant output + Replayed(tail[i..], afterSeq) == Replayed(tail, cursor)
        invariant ReplayCursor(tail[i..], afterSeq) == ReplayCursor(tail, cursor)
      {
        ReplayedNext(tail, i, afterSeq, output);
        if tail[i].seqNo > afterSeq {
          output := output + [AmEvent(tail[i])];
          afterSeq := tail[i].seqNo;
        }
      }
      var rs := Compute(events);
      output := output + [AmRender(rs)];
    }

    /** One frame from the subscription. */
    method OnFrame(f: Frame)
      modifies this
      ensures State() == After(old(State()), f)
      ensures output == old(output) + Written(old(State()), f)
      ensures f.DeltaFrame? ==> output == old(output) + [AmDelta(f.run, f.text, f.index)] && State() == old(State())
      ensures f.EventFrame? && f.event.seqNo <= old(lastSeq) ==> output == old(output) && State() == old(State())
      ensures f.EventFrame? && f.event.seqNo > old(lastSeq) ==>
                && events == old(events) + [f.event] && lastSeq == f.event.seqNo
                && afterSeq == (if f.event.seqNo > old(afterSeq) then f.event.seqNo else old(afterSeq))
                && output == old(output) + (if f.event.seqNo > old(afterSeq) then [AmEvent(f.event)] else [])
                             + [AmRender(Snapshot(events))]
    {
      match f
      case DeltaFrame(run, text, index) =>
        output := output + [AmDelta(run, text, index)];
      case EventFrame(e) =>
        if e.seqNo <= lastSeq {
          return;
        }
        events := events + [e];
        lastSeq := e.seqNo;
        if e.seqNo > afterSeq {
          output := output + [AmEvent(e)];
          afterSeq := e.seqNo;
        }
        var rs := Compute(events);
        output := output + [AmRender(rs)];
    }

    method OnTick()
      modifies this`output
      ensures output == old(output) + [Ping]
    {
      output := output + [Ping];
    }

    /** The subscription was closed by a full buffer: tell the client where to resume. */
    method OnDropped()
      modifies this`output
      ensures output == old(output) + [Reconnect(afterSeq)]
    {
      output := output + [Reconnect(afterSeq)];
    }
  }

  /** Where a client's cursor stands after a frame: an event moves it forward, a reconnect frame sets it. */
  function CursorAfter(cursor: int, w: Wire): int {
    match w
    case AmEvent(e) => if e.seqNo > cursor then e.seqNo else cursor
    case Reconnect(n) => n
    case _ => cursor
  }

  // ---------- What the wire carries ----------

  /** The committed events among the frames, in order. */
  function EventsOf(ws: seq<Wire>): seq<Event> {
    EventsBelow(ws, |ws|)
  }

  function EventsBelow(ws: seq<Wire>, n: nat): seq<Event>
    requires n <= |ws|
  {
    if n == 0 then [] else EventsBelow(ws, n - 1) + if ws[n - 1].AmEvent? then [ws[n - 1].event] else []
  }

  /** The snapshots among the frames, in order. */
  function RendersOf(ws: seq<Wire>): seq<RenderState> {
    RendersBelow(ws, |ws|)
  }

  function RendersBelow(ws: seq<Wire>, n: nat): seq<RenderState>
    requires n <= |ws|
  {
    if n == 0 then [] else RendersBelow(ws, n - 1) + if ws[n - 1].AmRender? then [ws[n - 1].state] else []
  }

  lemma {:induction false} SamePrefix(a: seq<Wire>, b: seq<Wire>, n: nat)
    requires n <= |a| && n <= |b| && forall i :: 0 <= i < n ==> a[i] == b[i]
    ensures EventsBelow(a, n) == EventsBelow(b, n) && RendersBelow(a, n) == RendersBelow(b, n)
  {
    if n > 0 {
      SamePrefix(a, b, n - 1);
    }
  }

  lemma OfAppend(a: seq<Wire>, b: seq<Wire>)
    ensures EventsOf(a + b) == EventsOf(a) + EventsOf(b)
    ensures RendersOf(a + b) == RendersOf(a) + RendersOf(b)
  {
    OfAppendBelow(a, b, |b|);
  }

  lemma {:induction false} OfAppendBelow(a: seq<Wire>, b: seq<Wire>, n: nat)
    requires n <= |b|
    ensures EventsBelow(a + b, |a| + n) == EventsOf(a) + EventsBelow(b, n)
    ensures RendersBelow(a + b, |a| + n) == RendersOf(a) + RendersBelow(b, n)
  {
    if n == 0 {
      SamePrefix(a + b, a, |a|);
    } else {
      OfAppendBelow(a, b, n - 1);
      assert (a + b)[|a| + n - 1] == b[n - 1];
    }
  }

  lemma OfOne(a: seq<Wire>, w: Wire)
    ensures EventsOf(a + [w]) == EventsOf(a) + if w.AmEvent? then [w.event] else []
    ensures RendersOf(a + [w]) == RendersOf(a) + if w.AmRender? then [w.state] else []
  {
    SamePrefix(a + [w], a, |a|);
  }

  lemma OfCons(e: Event, ws: seq<Wire>)
    ensures EventsOf([AmEvent(e)] + ws) == [e] + EventsOf(ws) && RendersOf([AmEvent(e)] + ws) == RendersOf(ws)
  {
    OfAppend([AmEvent(e)], ws);
    OfOne([], AmEvent(e));
    assert [] + [AmEvent(e)] == [AmEvent(e)];
  }

  /** On consecutively numbered events the replay is exactly those past the cursor, and ends on the last. */
  lemma {:induction false} ReplayedIsSuffix(events: seq<Event>, first: nat, cursor: int)
    requires forall i :: 0 <= i < |events| ==> events[i].seqNo == first + i + 1
    ensures var skip := if cursor <= first then 0 else if cursor - first <= |events| then cursor - first else |events|;
            && EventsOf(Replayed(events, cursor)) == events[skip..]
            && RendersOf(Replayed(events, cursor)) == []
            && ReplayCursor(events, cursor) == if skip < |events| then first + |events| else cursor
  {
    if events != [] {
      var rest := events[1..];
      if events[0].seqNo > cursor {
        ReplayedIsSuffix(rest, first + 1, first + 1);
        OfCons(events[0], Replayed(rest, first + 1));
        assert [events[0]] + rest == events;
      } else {
        ReplayedIsSuffix(rest, first + 1, cursor);
      }
    }
  }
}
