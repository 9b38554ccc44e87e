/** The client of the replication is the subscription's machine: what the one is sent, the other is called back with. */
module ReplicaClient {
  import opened Stream
  import Replica
  import SseClient

  /** What a step of the replication is to the client: at most one callback. */
  function Calls(s: Replica.State, step: Replica.Step, c: SseClient.Client): (cbs: seq<SseClient.Callback>)
    requires Replica.Enabled(s, step)
    ensures |cbs| <= 1
  {
    match step
    case Connect => if c.timer.Armed? then [SseClient.Fires] else []
    case Snap => [SseClient.Opens(false)]
    case Receive => WireCalls(s.sent[s.got])
    case Cut => [SseClient.Errs(false)]
    case Restart => if s.link.Subscribed? then [SseClient.Errs(false)] else []
    case _ => []
  }

  function WireCalls(w: Wire): (cbs: seq<SseClient.Callback>)
    ensures |cbs| <= 1
  {
    match w
    case Reconnect(n) => [SseClient.Reconnects(n, true)]
    case Ping => []
    case _ => [SseClient.Gets(w, false)]
  }

  function Called(c: SseClient.Client, cbs: seq<SseClient.Callback>): SseClient.Client {
    if cbs == [] then c else SseClient.Handle(c, cbs[0])
  }

  /** The subscription, started where the replication's client starts, after the first i steps. */
  ghost function ClientAt(states: seq<Replica.State>, steps: seq<Replica.Step>, i: nat, baseDelay: int, maxDelay: int):
    SseClient.Client
    requires Replica.IsRun(states, steps) && i < |states|
  {
    if i == 0 then SseClient.Subscribed(states[0].start, baseDelay, maxDelay)
    else
      var c := ClientAt(states, steps, i - 1, baseDelay, maxDelay);
      Called(c, Calls(states[i - 1], steps[i - 1], c))
  }

  /** Same cursor; connected where the server was asked to resume, or on the way there, or waiting. */
  predicate Tracks(s: Replica.State, c: SseClient.Client) {
    && !c.closed && c.lastSeq == s.cursor && (c.source.Open? != c.timer.Armed?)
    && (s.link.Down? ==> c.timer.Armed? || c.source == SseClient.Open(s.cursor))
    && (!s.link.Down? ==> c.source == SseClient.Open(s.from))
  }

  predicate Admits(c: SseClient.Client, cbs: seq<SseClient.Callback>) {
    cbs != [] ==> SseClient.Enabled(c, cbs[0])
  }

  lemma ReceiveTracks(s: Replica.State, c: SseClient.Client)
    requires Tracks(s, c) && Replica.Enabled(s, Replica.Receive)
    ensures Admits(c, WireCalls(s.sent[s.got])) && Tracks(Replica.Received(s), Called(c, WireCalls(s.sent[s.got])))
  {
  }

  lemma StepTracks(s: Replica.State, step: Replica.Step, c: SseClient.Client)
    requires Tracks(s, c) && Replica.Enabled(s, step)
    ensures Admits(c, Calls(s, step, c)) && Tracks(Replica.Do(s, step), Called(c, Calls(s, step, c)))
  {
    if step.Receive? {
      ReceiveTracks(s, c);
    }
  }

  /** Over any run of the replication, the subscription's cursor is its client's, and it resumes where the server is
  asked to. */
  lemma {:induction false} ClientTracks(states: seq<Replica.State>, steps: seq<Replica.Step>, i: nat,
                                        baseDelay: int, maxDelay: int)
    requires Replica.IsRun(states, steps) && i < |states|
    ensures Tracks(states[i], ClientAt(states, steps, i, baseDelay, maxDelay))
  {
    if i > 0 {
      ClientTracks(states, steps, i - 1, baseDelay, maxDelay);
      StepTracks(states[i - 1], steps[i - 1], ClientAt(states, steps, i - 1, baseDelay, maxDelay));
    }
  }

  // ---------- It is a run of the subscription, and no target lies behind ----------

  predicate NotBehind(c: SseClient.Client, cbs: seq<SseClient.Callback>) {
    cbs != [] && cbs[0].Reconnects? && cbs[0].parsed ==> cbs[0].target >= c.lastSeq
  }

  lemma StepNotBehind(states: seq<Replica.State>, steps: seq<Replica.Step>, i: nat, baseDelay: int, maxDelay: int)
    requires Replica.IsOrderlyRun(states, steps) && i < |steps|
    ensures var c := ClientAt(states, steps, i, baseDelay, maxDelay); NotBehind(c, Calls(states[i], steps[i], c))
  {
    ClientTracks(states, steps, i, baseDelay, maxDelay);
    if steps[i].Receive? && states[i].sent[states[i].got].Reconnect? {
      Replica.ReconnectRepeatsCursor(states, steps, i);
    }
  }

  lemma CallMore(clients: seq<SseClient.Client>, cbs: seq<SseClient.Callback>, cb: SseClient.Callback)
    requires SseClient.IsRun(clients, cbs) && SseClient.TargetsAhead(clients, cbs)
    requires SseClient.Enabled(clients[|cbs|], cb) && NotBehind(clients[|cbs|], [cb])
    ensures SseClient.IsRun(clients + [SseClient.Handle(clients[|cbs|], cb)], cbs + [cb])
    ensures SseClient.TargetsAhead(clients + [SseClient.Handle(clients[|cbs|], cb)], cbs + [cb])
  {
    var more, all := clients + [SseClient.Handle(clients[|cbs|], cb)], cbs + [cb];
    forall i | 0 <= i < |all|
      ensures SseClient.Enabled(more[i], all[i]) && more[i + 1] == SseClient.Handle(more[i], all[i])
      ensures all[i].Reconnects? && all[i].parsed ==> all[i].target >= more[i].lastSeq
    {
      if i < |cbs| {
        assert more[i] == clients[i] && more[i + 1] == clients[i + 1] && all[i] == cbs[i];
      }
    }
  }

  /** With one committer, the callbacks are a run of the subscription in which every reconnect target is the cursor. */
  lemma {:induction false} CallbacksOf(states: seq<Replica.State>, steps: seq<Replica.Step>, i: nat,
                                       baseDelay: int, maxDelay: int)
    returns (clients: seq<SseClient.Client>, cbs: seq<SseClient.Callback>)
    requires Replica.IsOrderlyRun(states, steps) && i < |states|
    ensures SseClient.IsRun(clients, cbs) && SseClient.TargetsAhead(clients, cbs)
    ensures clients[0] == SseClient.Subscribed(states[0].start, baseDelay, maxDelay)
    ensures clients[|cbs|] == ClientAt(states, steps, i, baseDelay, maxDelay)
  {
    if i == 0 {
      clients, cbs := [SseClient.Subscribed(states[0].start, baseDelay, maxDelay)], [];
    } else {
      clients, cbs := CallbacksOf(states, steps, i - 1, baseDelay, maxDelay);
      var c := ClientAt(states, steps, i - 1, baseDelay, maxDelay);
      var next := Calls(states[i - 1], steps[i - 1], c);
      ClientTracks(states, steps, i - 1, baseDelay, maxDelay);
      StepTracks(states[i - 1], steps[i - 1], c);
      StepNotBehind(states, steps, i - 1, baseDelay, maxDelay);
      if next != [] {
        assert next == [next[0]];
        CallMore(clients, cbs, next[0]);
        clients, cbs := clients + [SseClient.Handle(c, next[0])], cbs + next;
      }
    }
  }

  /**
   So against the server, with nothing assumed of its frames: the subscription's cursor is the replication's, and the
   cursors its successive connections resume at never decrease and never pass it.
   */
  lemma ConnectionsResumeAhead(states: seq<Replica.State>, steps: seq<Replica.Step>, i: nat, baseDelay: int,
                               maxDelay: int)
    requires Replica.IsOrderlyRun(states, steps) && i < |states|
    ensures var c := ClientAt(states, steps, i, baseDelay, maxDelay);
            c.lastSeq == states[i].cursor && SseClient.Climbing(c.connections, c.lastSeq)
  {
    var clients, cbs := CallbacksOf(states, steps, i, baseDelay, maxDelay);
    ClientTracks(states, steps, i, baseDelay, maxDelay);
    SseClient.ConnectionsClimb(clients, cbs, |cbs|, |cbs|);
  }
}
