/** A run of service and client together in which a client that stays connected never sees an event. */
module FeedExamples {
  import opened Ledger
  import opened Render
  import opened Tables
  import opened Lifecycle
  import opened LifecycleOrder
  import opened LifecycleRuns
  import opened LifecycleScenes
  import opened LifecycleExamples
  import opened LifecycleFeed
  import opened Stream
  import Replica

  // ---------- Joint runs from empty tables ----------

  /** These moves, from empty tables and a client of session "s" that has seen nothing, lead to this joint state. */
  ghost predicate JointlyReachedBy(ms: seq<Move>, j: Joint) {
    exists js: seq<Joint> ::
      IsJointRun(js, ms, "s") && js[0].life.db == EMPTY && js[0].rep == Unconnected([]) && js[|ms|] == j
  }

  /** Replication before anyone connects. */
  function Unconnected(es: seq<Event>): Replica.State {
    Replica.State(es, [], Replica.Down, [], [], 0, 0, 0, [], 0, true)
  }

  ghost predicate MovesTo(j: Joint, m: Move, next: Joint) {
    May(j, m, "s") && next == Next(j, m, "s")
  }

  lemma JointlyThen(ms: seq<Move>, j: Joint, m: Move, next: Joint)
    requires JointlyReachedBy(ms, j) && MovesTo(j, m, next)
    ensures JointlyReachedBy(ms + [m], next)
  {
    var js: seq<Joint> :| IsJointRun(js, ms, "s") && js[0].life.db == EMPTY && js[0].rep == Unconnected([])
        && js[|ms|] == j;
    JointMore(js, ms, m, "s");
    var more := js + [next];
    assert more[0] == js[0] && more[|ms + [m]|] == next;
  }

  function Serving(steps: seq<Step>): seq<Move> {
    seq(|steps|, k requires 0 <= k < |steps| => Serves(steps[k]))
  }

  /** Such steps are disciplined in every state. */
  predicate Harmless(steps: seq<Step>) {
    forall k :: 0 <= k < |steps| ==> !steps[k].AdvanceInterrupt? && !steps[k].Delete?
  }

  predicate StillUnconnected(r: Replica.State) {
    r == Unconnected(r.ledger).(unpublished := r.unpublished)
  }

  lemma FedUnconnected(r: Replica.State, effect: Effect)
    requires StillUnconnected(r)
    ensures StillUnconnected(Fed(r, effect))
  {
  }

  lemma ServedUnconnected(js: seq<Joint>, ms: seq<Move>, k: nat)
    requires IsJointRun(js, ms, "s") && k < |ms| && ms[k].Serves? && StillUnconnected(js[k].rep)
    ensures StillUnconnected(js[k + 1].rep)
  {
    FedUnconnected(js[k].rep, EffectOf(js[k].life, ms[k].step, "s"));
  }

  lemma {:induction false} AllUnconnected(js: seq<Joint>, ms: seq<Move>, i: nat)
    requires IsJointRun(js, ms, "s") && i < |js| && forall k :: 0 <= k < |ms| ==> ms[k].Serves?
    requires js[0].rep == Unconnected([])
    ensures StillUnconnected(js[i].rep)
  {
    if i > 0 {
      AllUnconnected(js, ms, i - 1);
      ServedUnconnected(js, ms, i - 1);
    }
  }

  /** A run of the service alone, of harmless steps, when no client is there. */
  lemma ServedAlone(steps: seq<Step>, s: State)
    requires ReachedBy(steps, s) && Harmless(steps) && !Committing(s, "s")
    ensures JointlyReachedBy(Serving(steps), Joint(s, Unconnected(LedgerOf(s.db, "s"))))
  {
    var states: seq<State> :| IsRun(states, steps) && states[0].db == EMPTY && states[|steps|] == s;
    var js, ms := EveryRunIsJoint(states, steps, "s", Unconnected([]), |steps|);
    assert ms == Serving(steps);
    EmptyTablesAreSound();
    forall i | 0 <= i < |ms| ensures DisciplinedMove(js[i], ms[i]) {
      assert ms[i] == Serves(steps[i]);
    }
    JointFits(js, ms, |ms|, "s");
    AllUnconnected(js, ms, |ms|);
    assert js[|ms|] == Joint(s, Unconnected(LedgerOf(s.db, "s")));
  }

  // ---------- The service: two commits of one session at once ----------

  const SPOKEN := Event(3, "r", AssistantMessage("ok"))
  const LATE_CUT := Event(4, "r", RunFinished(Interrupted))

  function Ledger2(): seq<Event> {
    Begun([], "r")
  }

  /** The goroutine has appended what its provider said, and the interrupter the finish of the run it had found. */
  function Both(): seq<Event> {
    Ledger2() + [SPOKEN] + [LATE_CUT]
  }

  function Spoke(): State {
    Advanced(Waiting("", FOUND), "r", Emits(AssistantMessage("ok")))
  }

  function CutShort(): State
    requires 0 in Spoke().interrupters
  {
    Interrupting(Spoke(), 0)
  }

  lemma SpokeFacts()
    ensures Enabled(Waiting("", FOUND), Advance("r", Emits(AssistantMessage("ok"))))
    ensures var s := Spoke();
            && s.mode.Serving? && s.interrupters == FOUND && "r" in s.tasks
            && s.tasks["r"].session == "s" && s.tasks["r"].stage == AtProviderBump(3)
            && LedgerOf(s.db, "s") == Ledger2() + [SPOKEN]
    ensures EffectOf(Waiting("", FOUND), Advance("r", Emits(AssistantMessage("ok"))), "s") ==
            Appending("r", AssistantMessage("ok"))
  {
    FirstRows("");
    NumberedMax(Ledger2());
  }

  lemma CutFacts()
    ensures 0 in Spoke().interrupters && Enabled(Spoke(), AdvanceInterrupt(0))
    ensures var s := CutShort();
            && s.mode.Serving? && 0 in s.interrupters && s.interrupters[0] == ToBump("s", "r", 4)
                && s.tasks == Spoke().tasks
    ensures EffectOf(Spoke(), AdvanceInterrupt(0), "s") == Appending("r", RunFinished(Interrupted))
  {
    SpokeFacts();
    NumberedMax(Ledger2() + [SPOKEN]);
  }

  /** The interrupter bumps and publishes first. */
  function BumpedFirst(): State
    requires 0 in Spoke().interrupters && 0 in CutShort().interrupters
  {
    Interrupting(CutShort(), 0)
  }

  lemma BumpFacts()
    ensures 0 in Spoke().interrupters && 0 in CutShort().interrupters && Enabled(CutShort(), AdvanceInterrupt(0))
    ensures EffectOf(CutShort(), AdvanceInterrupt(0), "s") == Publishing(4)
    ensures BumpedFirst().mode.Serving? && BumpedFirst().tasks == Spoke().tasks
    ensures Enabled(BumpedFirst(), Advance("r", Go)) && EffectOf(BumpedFirst(), Advance("r", Go), "s") == Publishing(3)
  {
    SpokeFacts();
    CutFacts();
  }

  // ---------- The connection and its client ----------

  function OpeningWires(): seq<Wire> {
    [AmEvent(Ledger2()[0]), AmEvent(Ledger2()[1]), AmRender(Snapshot(Ledger2()))]
  }

  /** Connected after the run has started. */
  function Streaming(ledger: seq<Event>, unpublished: seq<Event>, queue: seq<Frame>): Replica.State {
    Replica.State(ledger, unpublished, Replica.Streaming(Sub(queue, true), Conn(Ledger2(), 2, 2), 2), [],
                  OpeningWires(),
                  0, 0, 0, [], 0, true)
  }

  lemma ConnectStep()
    ensures var r := Unconnected(Ledger2());
            && Replica.Enabled(r, Replica.Connect)
            && Replica.Do(r, Replica.Connect) == r.(link := Replica.Subscribed(Sub([], true)))
  {
  }

  lemma SnapStep()
    ensures var r := Unconnected(Ledger2()).(link := Replica.Subscribed(Sub([], true)));
            Replica.Enabled(r, Replica.Snap) && Replica.Do(r, Replica.Snap) == Streaming(Ledger2(), [], [])
  {
    var es := Ledger2();
    assert Tail(es, RENDER_CAP) == es;
    assert OpeningFrames(es, 0) == OpeningWires();
  }

  lemma FedAppend(ledger: seq<Event>, unpublished: seq<Event>, e: Event)
    requires e.seqNo == |ledger| + 1
    ensures Fed(Streaming(ledger, unpublished, []), Appending(e.run, e.body)) ==
            Streaming(ledger + [e], unpublished + [e], [])
  {
  }

  lemma FedPublish(ledger: seq<Event>, unpublished: seq<Event>, k: nat, queue: seq<Frame>, n: int)
    requires k < |unpublished| && Position(unpublished, n) == k && |queue| < BUFFER
    ensures Fed(Streaming(ledger, unpublished, queue), Publishing(n)) ==
            Streaming(ledger, unpublished[..k] + unpublished[k + 1..], queue + [EventFrame(unpublished[k])])
  {
  }

  lemma Appends()
    ensures [] + [SPOKEN] == [SPOKEN] && [SPOKEN] + [LATE_CUT] == [SPOKEN, LATE_CUT]
    ensures [] + [EventFrame(LATE_CUT)] == [EventFrame(LATE_CUT)]
    ensures [EventFrame(LATE_CUT)] + [EventFrame(SPOKEN)] == [EventFrame(LATE_CUT), EventFrame(SPOKEN)]
  {
  }

  lemma FedSpoken()
    ensures Fed(Streaming(Ledger2(), [], []), Appending("r", AssistantMessage("ok"))) ==
            Streaming(Ledger2() + [SPOKEN], [SPOKEN], [])
  {
    FedAppend(Ledger2(), [], SPOKEN);
    Appends();
  }

  lemma FedCut()
    ensures Fed(Streaming(Ledger2() + [SPOKEN], [SPOKEN], []), Appending("r", RunFinished(Interrupted))) ==
            Streaming(Both(), [SPOKEN, LATE_CUT], [])
  {
    FedAppend(Ledger2() + [SPOKEN], [SPOKEN], LATE_CUT);
    Appends();
  }

  lemma FedLate()
    ensures Fed(Streaming(Both(), [SPOKEN, LATE_CUT], []), Publishing(4)) ==
            Streaming(Both(), [SPOKEN], [EventFrame(LATE_CUT)])
  {
    assert [SPOKEN, LATE_CUT][1..] == [LATE_CUT] && Position([LATE_CUT], 4) == 0
        && Position([SPOKEN, LATE_CUT], 4) == 1;
    assert [SPOKEN, LATE_CUT][..1] + [SPOKEN, LATE_CUT][2..] == [SPOKEN];
    FedPublish(Both(), [SPOKEN, LATE_CUT], 1, [], 4);
    Appends();
  }

  lemma FedOvertaken()
    ensures Fed(Streaming(Both(), [SPOKEN], [EventFrame(LATE_CUT)]), Publishing(3)) ==
            Streaming(Both(), [], [EventFrame(LATE_CUT), EventFrame(SPOKEN)])
  {
    assert Position([SPOKEN], 3) == 0 && [SPOKEN][..0] + [SPOKEN][1..] == [];
    FedPublish(Both(), [SPOKEN], 0, [EventFrame(LATE_CUT)], 3);
    Appends();
  }

  function Seen(): seq<Event> {
    Ledger2() + [LATE_CUT]
  }

  /** Both frames consumed; the client has processed the first n of the five it was sent. */
  function Consumed(queue: seq<Frame>, taken: seq<Frame>, got: nat, cursor: int, log: seq<Event>): Replica.State {
    Replica.State(Both(), [], Replica.Streaming(Sub(queue, true), Conn(Seen(), 4, 4), 2), taken, Sent(), got,
                  0, cursor, log, 0, true)
  }

  lemma ConsumeSteps()
    ensures var r0 := Streaming(Both(), [], [EventFrame(LATE_CUT), EventFrame(SPOKEN)]);
            var r1 := Consumed([EventFrame(SPOKEN)], [EventFrame(LATE_CUT)], 0, 0, []);
            && Replica.Enabled(r0, Replica.Consume) && Replica.Do(r0, Replica.Consume) == r1
            && Replica.Enabled(r1, Replica.Consume)
            && Replica.Do(r1, Replica.Consume) == Consumed([], [EventFrame(LATE_CUT), EventFrame(SPOKEN)], 0, 0, [])
  {
    var conn := Conn(Ledger2(), 2, 2);
    assert [EventFrame(LATE_CUT), EventFrame(SPOKEN)][1..] == [EventFrame(SPOKEN)] && [EventFrame(SPOKEN)][1..] == [];
    assert Written(conn, EventFrame(LATE_CUT)) == [AmEvent(LATE_CUT), AmRender(Snapshot(Seen()))];
    assert [] + [EventFrame(LATE_CUT)] == [EventFrame(LATE_CUT)];
    assert [EventFrame(LATE_CUT)] + [EventFrame(SPOKEN)] == [EventFrame(LATE_CUT), EventFrame(SPOKEN)];
  }

  const TAKEN: seq<Frame> := [EventFrame(LATE_CUT), EventFrame(SPOKEN)]

  function Sent(): seq<Wire> {
    OpeningWires() + [AmEvent(LATE_CUT), AmRender(Snapshot(Seen()))]
  }

  lemma SentFrames()
    ensures |Sent()| == 5 && Sent()[0] == AmEvent(Ledger2()[0]) && Sent()[1] == AmEvent(Ledger2()[1])
    ensures Sent()[2].AmRender? && Sent()[3] == AmEvent(LATE_CUT) && Sent()[4].AmRender?
  {
  }

  /** An event moves the client's cursor and log, a render neither. */
  lemma Processes(n: nat, cursor: int, log: seq<Event>)
    requires n < 5
    ensures Sent()[n].AmEvent? && Sent()[n].event.seqNo > cursor ==>
              Receives(Consumed([], TAKEN, n, cursor, log),
                       Consumed([], TAKEN, n + 1, Sent()[n].event.seqNo, log + [Sent()[n].event]))
    ensures Sent()[n].AmRender? ==>
              Receives(Consumed([], TAKEN, n, cursor, log), Consumed([], TAKEN, n + 1, cursor, log))
  {
    SentFrames();
  }

  lemma ReceiveSteps()
    ensures var es := Ledger2();
            && Receives(Consumed([], TAKEN, 0, 0, []), Consumed([], TAKEN, 1, 1, es[..1]))
            && Receives(Consumed([], TAKEN, 1, 1, es[..1]), Consumed([], TAKEN, 2, 2, es))
            && Receives(Consumed([], TAKEN, 2, 2, es), Consumed([], TAKEN, 3, 2, es))
            && Receives(Consumed([], TAKEN, 3, 2, es), Consumed([], TAKEN, 4, 4, Seen()))
            && Receives(Consumed([], TAKEN, 4, 4, Seen()), Consumed([], TAKEN, 5, 4, Seen()))
  {
    var es := Ledger2();
    SentFrames();
    Processes(0, 0, []);
    Processes(1, 1, es[..1]);
    Processes(2, 2, es);
    Processes(3, 2, es);
    Processes(4, 4, Seen());
    assert [] + [es[0]] == es[..1] && es[..1] + [es[1]] == es;
  }

  predicate Receives(r: Replica.State, next: Replica.State) {
    Replica.Enabled(r, Replica.Receive) && Replica.Do(r, Replica.Receive) == next
  }

  // ---------- The run ----------

  lemma StreamsTo(ms: seq<Move>, s: State, r: Replica.State, rstep: Replica.Step, next: Replica.State)
    requires JointlyReachedBy(ms, Joint(s, r)) && !rstep.Append? && !rstep.Publish? && !rstep.Restart?
    requires Replica.Enabled(r, rstep) && Replica.Do(r, rstep) == next
    ensures JointlyReachedBy(ms + [Streams(rstep)], Joint(s, next))
  {
    JointlyThen(ms, Joint(s, r), Streams(rstep), Joint(s, next));
  }

  lemma ServesTo(ms: seq<Move>, s: State, r: Replica.State, step: Step, effect: Effect, next: State,
                 next': Replica.State)
    requires JointlyReachedBy(ms, Joint(s, r)) && StepsTo(s, step, next) && !step.Delete?
    requires EffectOf(s, step, "s") == effect && Fed(r, effect) == next'
    ensures JointlyReachedBy(ms + [Serves(step)], Joint(next, next'))
  {
    JointlyThen(ms, Joint(s, r), Serves(step), Joint(next, next'));
  }

  const CONNECTED: seq<Move> := Serving(CAUGHT) + [Streams(Replica.Connect)] + [Streams(Replica.Snap)]
  const TOLD: seq<Move> :=
    CONNECTED + [Serves(AdvanceInterrupt(0))] + [Serves(Advance("r", Emits(AssistantMessage("ok"))))]
  const OVERTAKING: seq<Move> :=
      TOLD + [Serves(AdvanceInterrupt(0))] + [Serves(AdvanceInterrupt(0))] + [Serves(Advance("r", Go))]

  lemma CaughtIsHarmless()
    ensures Harmless(CAUGHT)
  {
  }

  lemma ReachesConnected()
    ensures JointlyReachedBy(CONNECTED, Joint(Waiting("", CHECKED), Streaming(Ledger2(), [], [])))
  {
    var s, r := Waiting("", CHECKED), Unconnected(Ledger2());
    Caught();
    CaughtIsHarmless();
    ServedAlone(CAUGHT, s);
    ConnectStep();
    SnapStep();
    StreamsTo(Serving(CAUGHT), s, r, Replica.Connect, r.(link := Replica.Subscribed(Sub([], true))));
    StreamsTo(Serving(CAUGHT) + [Streams(Replica.Connect)], s, r.(link := Replica.Subscribed(Sub([], true))),
              Replica.Snap,
              Streaming(Ledger2(), [], []));
  }

  lemma ReachesTold()
    ensures JointlyReachedBy(TOLD, Joint(Spoke(), Streaming(Ledger2() + [SPOKEN], [SPOKEN], [])))
  {
    ReachesConnected();
    LookStep("");
    ServesTo(CONNECTED, Waiting("", CHECKED), Streaming(Ledger2(), [], []), AdvanceInterrupt(0), Silent,
             Waiting("", FOUND), Streaming(Ledger2(), [], []));
    SpokeFacts();
    FedSpoken();
    ServesTo(CONNECTED + [Serves(AdvanceInterrupt(0))], Waiting("", FOUND), Streaming(Ledger2(), [], []),
             Advance("r", Emits(AssistantMessage("ok"))), Appending("r", AssistantMessage("ok")), Spoke(),
             Streaming(Ledger2() + [SPOKEN], [SPOKEN], []));
  }

  lemma ReachesBoth()
    ensures 0 in Spoke().interrupters
    ensures JointlyReachedBy(TOLD + [Serves(AdvanceInterrupt(0))],
                             Joint(CutShort(), Streaming(Both(), [SPOKEN, LATE_CUT], [])))
  {
    ReachesTold();
    CutFacts();
    FedCut();
    ServesTo(TOLD, Spoke(), Streaming(Ledger2() + [SPOKEN], [SPOKEN], []), AdvanceInterrupt(0),
             Appending("r", RunFinished(Interrupted)), CutShort(), Streaming(Both(), [SPOKEN, LATE_CUT], []));
  }

  lemma ReachesLate()
    ensures 0 in Spoke().interrupters && 0 in CutShort().interrupters
    ensures JointlyReachedBy(TOLD + [Serves(AdvanceInterrupt(0))] + [Serves(AdvanceInterrupt(0))],
                             Joint(BumpedFirst(), Streaming(Both(), [SPOKEN], [EventFrame(LATE_CUT)])))
  {
    ReachesBoth();
    BumpFacts();
    FedLate();
    ServesTo(TOLD + [Serves(AdvanceInterrupt(0))], CutShort(), Streaming(Both(), [SPOKEN, LATE_CUT], []),
             AdvanceInterrupt(0),
             Publishing(4), BumpedFirst(), Streaming(Both(), [SPOKEN], [EventFrame(LATE_CUT)]));
  }

  lemma ReachesOvertaking() returns (s: State)
    ensures JointlyReachedBy(OVERTAKING, Joint(s, Streaming(Both(), [], [EventFrame(LATE_CUT), EventFrame(SPOKEN)])))
    ensures s.mode.Serving?
  {
    ReachesLate();
    BumpFacts();
    FedOvertaken();
    s := Advanced(BumpedFirst(), "r", Go);
    ServesTo(TOLD + [Serves(AdvanceInterrupt(0))] + [Serves(AdvanceInterrupt(0))], BumpedFirst(),
             Streaming(Both(), [SPOKEN], [EventFrame(LATE_CUT)]), Advance("r", Go), Publishing(3), s,
             Streaming(Both(), [], [EventFrame(LATE_CUT), EventFrame(SPOKEN)]));
  }

  const CONSUME: Move := Streams(Replica.Consume)
  const RECEIVE: Move := Streams(Replica.Receive)

  lemma ConsumesBoth(ms: seq<Move>, s: State)
    requires JointlyReachedBy(ms, Joint(s, Streaming(Both(), [], [EventFrame(LATE_CUT), EventFrame(SPOKEN)])))
    ensures JointlyReachedBy(ms + [CONSUME] + [CONSUME], Joint(s, Consumed([], TAKEN, 0, 0, [])))
  {
    var r1 := Consumed([EventFrame(SPOKEN)], [EventFrame(LATE_CUT)], 0, 0, []);
    ConsumeSteps();
    StreamsTo(ms, s, Streaming(Both(), [], [EventFrame(LATE_CUT), EventFrame(SPOKEN)]), Replica.Consume, r1);
    StreamsTo(ms + [CONSUME], s, r1, Replica.Consume, Consumed([], TAKEN, 0, 0, []));
  }

  lemma ReceivesThree(ms: seq<Move>, s: State)
    requires JointlyReachedBy(ms, Joint(s, Consumed([], TAKEN, 0, 0, [])))
    ensures JointlyReachedBy(ms + [RECEIVE] + [RECEIVE] + [RECEIVE], Joint(s, Consumed([], TAKEN, 3, 2, Ledger2())))
  {
    var es := Ledger2();
    ReceiveSteps();
    StreamsTo(ms, s, Consumed([], TAKEN, 0, 0, []), Replica.Receive, Consumed([], TAKEN, 1, 1, es[..1]));
    StreamsTo(ms + [RECEIVE], s, Consumed([], TAKEN, 1, 1, es[..1]), Replica.Receive, Consumed([], TAKEN, 2, 2, es));
    StreamsTo(ms + [RECEIVE] + [RECEIVE], s, Consumed([], TAKEN, 2, 2, es), Replica.Receive,
              Consumed([], TAKEN, 3, 2, es));
  }

  lemma ReceivesTwo(ms: seq<Move>, s: State)
    requires JointlyReachedBy(ms, Joint(s, Consumed([], TAKEN, 3, 2, Ledger2())))
    ensures JointlyReachedBy(ms + [RECEIVE] + [RECEIVE], Joint(s, Consumed([], TAKEN, 5, 4, Seen())))
  {
    ReceiveSteps();
    StreamsTo(ms, s, Consumed([], TAKEN, 3, 2, Ledger2()), Replica.Receive, Consumed([], TAKEN, 4, 4, Seen()));
    StreamsTo(ms + [RECEIVE], s, Consumed([], TAKEN, 4, 4, Seen()), Replica.Receive, Consumed([], TAKEN, 5, 4, Seen()));
  }

  lemma LostFacts()
    ensures Replica.Between(Both(), 0, 4) == Both() && Both() != Seen() && SPOKEN !in Seen()
  {
    assert |Both()| == 4 && |Seen()| == 3;
    assert forall e :: e in Seen() ==> e.seqNo != 3;
  }

  const LOSING: seq<Move> :=
      OVERTAKING + [CONSUME] + [CONSUME] + [RECEIVE] + [RECEIVE] + [RECEIVE] + [RECEIVE] + [RECEIVE]

  /**
   A late Interrupt appends its run_finished behind the goroutine's message and publishes it first. The client,
       connected
   throughout and within the cap,
       processes all it is sent and never sees the message: its cursor has passed it,
   so no reconnect will bring it.
   */
  lemma OvertakenEventIsLost() returns (s: State, r: Replica.State)
    ensures JointlyReachedBy(LOSING, Joint(s, r)) && s.mode.Serving?
    ensures r.ledger == Both() && r.unpublished == [] && r.withinCap && r.start == 0
    ensures r.link.Streaming? && r.link.sub == Sub([], true) && r.got == |r.sent|
    ensures r.log == Ledger2() + [LATE_CUT] && r.cursor == 4 && SPOKEN !in r.log
    ensures r.log != Replica.Between(r.ledger, r.start, r.cursor)
  {
    s := ReachesOvertaking();
    ConsumesBoth(OVERTAKING, s);
    ReceivesThree(OVERTAKING + [CONSUME] + [CONSUME], s);
    ReceivesTwo(OVERTAKING + [CONSUME] + [CONSUME] + [RECEIVE] + [RECEIVE] + [RECEIVE], s);
    r := Consumed([], TAKEN, 5, 4, Seen());
    LostFacts();
  }
}
