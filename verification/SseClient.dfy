/** The client's subscription to a session's stream: its source, its reconnect timer and its cursor. */
module SseClient {
  import opened Stream
  import Backoff

  // ---------- The subscription as a machine ----------

  datatype Timer = Idle | Armed(delay: int)
  datatype Current = NoSource | Open(afterSeq: int)

  /** `connections` lists the cursor of every connection ever made. */
  datatype Client = Client(baseDelay: int, maxDelay: int, lastSeq: int, closed: bool, attempt: nat,
                           source: Current, timer: Timer, connections: seq<int>)

  /** What calls the subscription back; `leaves` says that the application unsubscribes while it is told. */
  datatype Callback =
    | Opens(leaves: bool)
    | Gets(w: Wire, leaves: bool)
    | Reconnects(target: int, parsed: bool)
    | Errs(leaves: bool)
    | Fires
    | Unsubscribes

  /** Only an open source and an armed timer call back. */
  predicate Enabled(c: Client, cb: Callback) {
    match cb
    case Opens(_) => c.source.Open?
    case Gets(w, _) => c.source.Open? && (w.AmEvent? || w.AmRender? || w.AmDelta?)
    case Reconnects(_, _) => c.source.Open?
    case Errs(_) => c.source.Open?
    case Fires => c.timer.Armed?
    case Unsubscribes => true
  }

  function Connected(c: Client): Client {
    if c.closed then c
    else c.(timer := Idle, source := Open(c.lastSeq), connections := c.connections + [c.lastSeq])
  }

  function Scheduled(c: Client): Client {
    if c.closed then c
    else c.(timer := Armed(Backoff.Capped(c.baseDelay, c.attempt, c.maxDelay)), attempt := c.attempt + 1)
  }

  function Unsubscribed(c: Client): Client {
    c.(closed := true, timer := Idle, source := NoSource)
  }

  function LeavesIf(c: Client, leaves: bool): Client {
    if leaves then Unsubscribed(c) else c
  }

  function Handle(c: Client, cb: Callback): Client {
    match cb
    case Opens(leaves) => LeavesIf(c.(attempt := 0), leaves)
    case Gets(w, leaves) => LeavesIf(c.(lastSeq := CursorAfter(c.lastSeq, w)), leaves)
    case Reconnects(target, parsed) =>
      Connected(c.(lastSeq := if parsed then target else c.lastSeq, source := NoSource))
    case Errs(leaves) => Scheduled(LeavesIf(c, leaves).(source := NoSource))
    case Fires => Connected(c)
    case Unsubscribes => Unsubscribed(c)
  }

  function Subscribed(afterSeq: int, baseDelay: int, maxDelay: int): Client {
    Connected(Client(baseDelay, maxDelay, afterSeq, false, 0, NoSource, Idle, []))
  }

  predicate IsRun(clients: seq<Client>, cbs: seq<Callback>) {
    && |clients| == |cbs| + 1
    && clients[0] == Subscribed(clients[0].lastSeq, clients[0].baseDelay, clients[0].maxDelay)
    && forall i :: 0 <= i < |cbs| ==> Enabled(clients[i], cbs[i]) && clients[i + 1] == Handle(clients[i], cbs[i])
  }

  // ---------- What every sequence of callbacks keeps ----------

  /** How many errors since the source last opened. */
  function Failures(cbs: seq<Callback>, n: nat): nat
    requires n <= |cbs|
  {
    if n == 0 then 0
    else match cbs[n - 1]
      case Opens(_) => 0
      case Errs(leaves) => Failures(cbs, n - 1) + (if leaves then 0 else 1)
      case _ => Failures(cbs, n - 1)
  }

  predicate Alive(c: Client, failures: nat) {
    && (!c.closed ==> (c.source.Open? != c.timer.Armed?))
    && (c.closed ==> c.source.NoSource? && c.timer.Idle?)
    && c.attempt == failures
    && (c.timer.Armed? ==> failures > 0 && c.timer.delay == Backoff.Capped(c.baseDelay, failures - 1, c.maxDelay))
    && (c.source.Open? ==> c.connections != [] && c.connections[|c.connections| - 1] == c.source.afterSeq)
  }

  lemma {:induction false} RunAlive(clients: seq<Client>, cbs: seq<Callback>, i: nat)
    requires IsRun(clients, cbs) && i < |clients|
    ensures Alive(clients[i], Failures(cbs, i))
  {
    if i > 0 {
      RunAlive(clients, cbs, i - 1);
    }
  }

  /**
   After any callbacks: while subscribed there is exactly one of an open source and an armed timer, so the subscription
   never dies and never runs twice; an armed timer waits base * 2^(n-1), capped, after the n-th error since the
   last open.
   */
  lemma AliveExactlyOnce(clients: seq<Client>, cbs: seq<Callback>, i: nat)
    requires IsRun(clients, cbs) && i < |clients|
    ensures var c := clients[i];
            && (!c.closed <==> c.source.Open? != c.timer.Armed?)
            && (c.closed ==> c.source.NoSource? && c.timer.Idle?)
            && (c.timer.Armed? ==>
                  Failures(cbs, i) > 0
                      && c.timer.delay == Backoff.Capped(c.baseDelay, Failures(cbs, i) - 1, c.maxDelay))
  {
    RunAlive(clients, cbs, i);
  }

  /** Once unsubscribed, by a call or from within a callback, nothing ever connects again. */
  lemma {:induction false} NeverConnectsAgain(clients: seq<Client>, cbs: seq<Callback>, i: nat, j: nat)
    requires IsRun(clients, cbs) && i <= j < |clients| && clients[i].closed
    ensures clients[j].closed && clients[j].connections == clients[i].connections
    ensures clients[j].source.NoSource? && clients[j].timer.Idle?
  {
    RunAlive(clients, cbs, i);
    if i < j {
      NeverConnectsAgain(clients, cbs, i, j - 1);
    }
  }

  /** No parsed reconnect target lies behind the cursor it replaces; a server's never does. */
  predicate TargetsAhead(clients: seq<Client>, cbs: seq<Callback>)
    requires |clients| == |cbs| + 1
  {
    forall i :: 0 <= i < |cbs| ==> cbs[i].Reconnects? && cbs[i].parsed ==> cbs[i].target >= clients[i].lastSeq
  }

  predicate Climbing(xs: seq<int>, top: int) {
    && (forall a, b :: 0 <= a < b < |xs| ==> xs[a] <= xs[b])
    && (forall a :: 0 <= a < |xs| ==> xs[a] <= top)
  }

  lemma HandleClimbs(c: Client, cb: Callback)
    requires Enabled(c, cb) && Climbing(c.connections, c.lastSeq)
    requires cb.Reconnects? && cb.parsed ==> cb.target >= c.lastSeq
    ensures Handle(c, cb).lastSeq >= c.lastSeq && Climbing(Handle(c, cb).connections, Handle(c, cb).lastSeq)
    ensures c.connections <= Handle(c, cb).connections
  {
  }

  /** Then every connection resumes at the cursor of that moment, at or past where every earlier one did. */
  lemma {:induction false} ConnectionsClimb(clients: seq<Client>, cbs: seq<Callback>, i: nat, j: nat)
    requires IsRun(clients, cbs) && TargetsAhead(clients, cbs) && i <= j < |clients|
    ensures Climbing(clients[j].connections, clients[j].lastSeq)
    ensures clients[i].lastSeq <= clients[j].lastSeq && clients[i].connections <= clients[j].connections
    decreases j
  {
    if j > 0 {
      ConnectionsClimb(clients, cbs, if i < j then i else j - 1, j - 1);
      HandleClimbs(clients[j - 1], cbs[j - 1]);
    }
  }

  // ---------- The code ----------

  /** One EventSource; it dispatches nothing after close. */
  class Source {
    const afterSeq: int
    var open: bool

    constructor (afterSeq: int)
      ensures this.afterSeq == afterSeq && open
    {
      this.afterSeq, open := afterSeq, true;
    }

    method Close()
      modifies this
      ensures !open
    {
      open := false;
    }
  }

  function CursorsOf(sources: seq<Source>): seq<int> {
    seq(|sources|, i requires 0 <= i < |sources| => sources[i].afterSeq)
  }

  class Subscription {
    const baseDelay: int
    const maxDelay: int
    var lastSeq: int
    var closed: bool
    var attempt: nat
    var es: Source?
    var timer: Timer
    /** Every connection ever made. */
    ghost var sources: seq<Source>

    /** At most one source is open, and it is the current one; after unsubscribing there is neither source nor timer. */
    ghost predicate Valid()
      reads this, sources
    {
      && (es != null ==> es in sources && es.open)
      && (forall s :: s in sources && s.open ==> s == es)
      && !(es != null && timer.Armed?)
      && (closed ==> es == null && timer.Idle?)
    }

    ghost function State(): Client
      reads this, sources, es
    {
      Client(baseDelay, maxDelay, lastSeq, closed, attempt, if es == null then NoSource else Open(es.afterSeq), timer,
             CursorsOf(sources))
    }

    constructor (afterSeq: int, baseDelay: int, maxDelay: int)
      ensures Valid() && State() == Subscribed(afterSeq, baseDelay, maxDelay)
      ensures fresh(sources)
    {
      this.baseDelay, this.maxDelay := baseDelay, maxDelay;
      lastSeq, closed, attempt, es, timer, sources := afterSeq, false, 0, null, Idle, [];
      new;
      Connect();
    }

    method Connect()
      requires Valid() && es == null
      modifies this`es, this`timer, this`sources
      ensures Valid() && State() == Connected(old(State()))
      ensures if closed then sources == old(sources) else es != null && fresh(es) && sources == old(sources) + [es]
      ensures es != null ==> es.afterSeq == lastSeq && timer.Idle?
    {
      if closed {
        return;
      }
      timer := Idle;
      var source := new Source(lastSeq);
      es := source;
      sources := sources + [source];
      assert CursorsOf(sources) == CursorsOf(old(sources)) + [lastSeq];
    }

    method ScheduleReconnect()
      requires Valid() && es == null
      modifies this`timer, this`attempt
      ensures Valid() && State() == Scheduled(old(State()))
    {
      if closed {
        return;
      }
      timer := Armed(Backoff.Capped(baseDelay, attempt, maxDelay));
      attempt := attempt + 1;
    }

    method Unsubscribe()
      requires Valid()
      modifies this`closed, this`timer, this`es, sources
      ensures Valid() && State() == Handle(old(State()), Unsubscribes)
      ensures sources == old(sources) && forall s :: s in sources ==> !s.open
    {
      closed := true;
      timer := Idle;
      if es != null {
        es.Close();
        es := null;
      }
    }

    // ---------- Callbacks; `leaves` says that the application's own callback unsubscribes ----------

    method OnOpen(source: Source, leaves: bool)
      requires Valid() && source in sources && source.open
      modifies this`attempt, this`closed, this`timer, this`es, sources
      ensures Enabled(old(State()), Opens(leaves))
      ensures Valid() && sources == old(sources) && State() == Handle(old(State()), Opens(leaves))
      ensures attempt == 0 && closed == leaves
    {
      attempt := 0;
      if leaves {
        Unsubscribe();
      }
    }

    /** An event, render or delta frame. Only an event moves the cursor, and only forward. */
    method OnFrame(source: Source, w: Wire, leaves: bool)
      requires Valid() && source in sources && source.open && (w.AmEvent? || w.AmRender? || w.AmDelta?)
      modifies this`lastSeq, this`closed, this`timer, this`es, sources
      ensures Enabled(old(State()), Gets(w, leaves))
      ensures Valid() && sources == old(sources) && State() == Handle(old(State()), Gets(w, leaves))
      ensures lastSeq == if w.AmEvent? && w.event.seqNo > old(lastSeq) then w.event.seqNo else old(lastSeq)
    {
      if w.AmEvent? && w.event.seqNo > lastSeq {
        lastSeq := w.event.seqNo;
      }
      if leaves {
        Unsubscribe();
      }
    }

    /** The server's reconnect frame; one whose payload does not parse leaves the cursor alone. */
    method OnReconnect(source: Source, target: int, parsed: bool)
      requires Valid() && source in sources && source.open
      modifies this`lastSeq, this`timer, this`es, this`sources, sources
      ensures Enabled(old(State()), Reconnects(target, parsed))
      ensures Valid() && State() == Handle(old(State()), Reconnects(target, parsed))
      ensures lastSeq == (if parsed then target else old(lastSeq)) && !source.open
      ensures es != null && fresh(es) && sources == old(sources) + [es] && es.afterSeq == lastSeq
    {
      if parsed {
        lastSeq := target;
      }
      source.Close();
      if es == source {
        es := null;
      }
      Connect();
    }

    method OnError(source: Source, leaves: bool)
      requires Valid() && source in sources && source.open
      modifies this`closed, this`timer, this`es, this`attempt, sources
      ensures Enabled(old(State()), Errs(leaves))
      ensures Valid() && sources == old(sources) && State() == Handle(old(State()), Errs(leaves))
      ensures es == null && !source.open && closed == leaves && (timer.Armed? <==> !leaves)
    {
      if leaves {
        Unsubscribe();
      }
      source.Close();
      if es == source {
        es := null;
      }
      ScheduleReconnect();
    }

    method OnTimer()
      requires Valid() && timer.Armed?
      modifies this`es, this`timer, this`sources
      ensures Enabled(old(State()), Fires)
      ensures Valid() && State() == Handle(old(State()), Fires)
      ensures es != null && fresh(es) && sources == old(sources) + [es]
    {
      Connect();
    }
  }
}
