/**
 The lifecycle and the replication of one session run together: what the goroutines, interrupters and recovery
 append, publish and lose is what the replica's connection and client get to see.
 */
module LifecycleFeed {
  import opened Ledger
  import opened Tables
  import opened Recovery
  import opened Lifecycle
  import opened LifecycleSafety
  import opened LifecycleOrder
  import Replica
  import ReplicaRace
  import Stream

  // ---------- What a step is to a session's subscribers ----------

  /** A commit appends its event, then bumps the projection to its number and publishes it. */
  datatype Effect =
    | Silent
    | Appending(run: RunId, body: Body)
    | Publishing(n: int)
    | Restarting

  function TaskEffect(run: RunId, t: Task, input: Input, sid: SessionId): Effect {
    var w := NextWrite(run, t, input);
    if t.session != sid then Silent
    else if w.AppendBody? then Appending(run, w.body)
    else if w.Bump? then Publishing(w.n)
    else Silent
  }

  function InterrupterEffect(i: Interrupter, sid: SessionId): Effect {
    if i.session != sid then Silent
    else match i
      case Found(_, run) => Appending(run, RunFinished(Interrupted))
      case ToBump(_, _, n) => Publishing(n)
      case _ => Silent
  }

  function SettleEffect(ref: RunRef, at: SettleAt, sid: SessionId): Effect {
    if ref.session != sid then Silent
    else match at
      case SettleAppend => Appending(ref.run, RunFinished(Interrupted))
      case SettleBump(n) => Publishing(n)
      case _ => Silent
  }

  function EffectOf(s: State, step: Step, sid: SessionId): Effect {
    match step
    case Advance(run, input) => if run in s.tasks then TaskEffect(run, s.tasks[run], input, sid) else Silent
    case AdvanceInterrupt(k) => if k in s.interrupters then InterrupterEffect(s.interrupters[k], sid) else Silent
    case SettleNext => if s.mode.Settling?
        && s.mode.todo != [] then SettleEffect(s.mode.todo[0], s.mode.at, sid) else Silent
    case Crash => Restarting
    case _ => Silent
  }

  function Grown(es: seq<Event>, effect: Effect): seq<Event> {
    if effect.Appending? then es + [Event(|es| + 1, effect.run, effect.body)] else es
  }

  // ---------- The ledger follows the effects ----------

  lemma AppendGrows(db: Db, sid: SessionId, run: RunId, body: Body, other: SessionId)
    requires Numbered(LedgerOf(db, other))
    ensures LedgerOf(Append(db, sid, run, body), other) ==
            Grown(LedgerOf(db, other), if sid == other then Appending(run, body) else Silent)
  {
    NumberedMax(LedgerOf(db, other));
  }

  lemma WriteGrows(db: Db, run: RunId, t: Task, input: Input, sid: SessionId)
    requires Numbered(LedgerOf(db, sid))
    ensures LedgerOf(TaskWrites(db, run, t, input), sid) == Grown(LedgerOf(db, sid), TaskEffect(run, t, input, sid))
  {
    var w := NextWrite(run, t, input);
    if w.AppendBody? {
      AppendGrows(db, t.session, run, w.body, sid);
    } else {
      assert Apply(db, t.session, run, w).ledgers == db.ledgers;
    }
  }

  lemma AdvanceGrows(s: State, run: RunId, input: Input, sid: SessionId)
    requires Enabled(s, Advance(run, input)) && Numbered(LedgerOf(s.db, sid))
    ensures LedgerOf(Advanced(s, run, input).db, sid) ==
            Grown(LedgerOf(s.db, sid), EffectOf(s, Advance(run, input), sid))
  {
    if !s.tasks[run].stage.AtRelease? {
      WriteGrows(s.db, run, s.tasks[run], input, sid);
    }
  }

  lemma InterrupterGrows(db: Db, i: Interrupter, sid: SessionId)
    requires Numbered(LedgerOf(db, sid))
    ensures LedgerOf(InterrupterWrites(db, i), sid) == Grown(LedgerOf(db, sid), InterrupterEffect(i, sid))
  {
    if i.Found? {
      AppendGrows(db, i.session, i.run, RunFinished(Interrupted), sid);
    } else {
      assert InterrupterWrites(db, i).ledgers == db.ledgers;
    }
  }

  lemma SettleGrows(db: Db, ref: RunRef, at: SettleAt, sid: SessionId)
    requires Numbered(LedgerOf(db, sid))
    ensures LedgerOf(SettleWrites(db, ref, at), sid) == Grown(LedgerOf(db, sid), SettleEffect(ref, at, sid))
  {
    if at.SettleAppend? {
      AppendGrows(db, ref.session, ref.run, RunFinished(Interrupted), sid);
    } else {
      assert SettleWrites(db, ref, at).ledgers == db.ledgers;
    }
  }

  predicate SideStep(step: Step) {
    || step.Create? || step.LookUp? || step.Send? || step.CheckInterrupt? || step.Delete? || step.Crash?
    || step.QueryDangling? || step.QueryRunning? || step.SweepNext?
  }

  lemma SideLedgers(s: State, step: Step, sid: SessionId)
    requires Enabled(s, step) && SideStep(step) && step != Delete(sid)
    ensures LedgerOf(Do(s, step).db, sid) == LedgerOf(s.db, sid)
  {
    if step.SweepNext? {
      SweepLedgers(s);
    }
  }

  lemma SweepLedgers(s: State)
    requires s.mode.Sweeping?
    ensures SweptOn(s).db.ledgers == s.db.ledgers
  {
    if s.mode.todo != [] {
      assert SweepWrites(s.db, s.mode.todo[0], s.mode.step).ledgers == s.db.ledgers;
    }
  }

  lemma StepGrows(s: State, step: Step, sid: SessionId)
    requires Inv(s) && Enabled(s, step) && step != Delete(sid) && Numbered(LedgerOf(s.db, sid))
    ensures LedgerOf(Do(s, step).db, sid) == Grown(LedgerOf(s.db, sid), EffectOf(s, step, sid))
  {
    if step.Advance? {
      AdvanceGrows(s, step.run, step.input, sid);
    } else if step.AdvanceInterrupt? {
      InterrupterGrows(s.db, s.interrupters[step.k], sid);
    } else if step.InterruptAtOnce? {
      InterruptAtOnceKeeps(s, step.sid);
    } else if step.SettleNext? {
      SettleGrows(s.db, s.mode.todo[0], s.mode.at, sid);
    } else {
      SideLedgers(s, step, sid);
    }
  }

  // ---------- The two together ----------

  /** Where the event of a number is, or the length if it is not there. */
  function Position(es: seq<Event>, n: int): (k: nat)
    ensures k <= |es| && (k < |es| ==> es[k].seqNo == n)
  {
    if es == [] then 0 else if es[0].seqNo == n then 0 else 1 + Position(es[1..], n)
  }

  /** The replica's part in a step of the lifecycle: at most one of its own. */
  function Feed(r: Replica.State, effect: Effect): (rsteps: seq<Replica.Step>)
    ensures |rsteps| <= 1 && (rsteps != [] ==> Replica.Enabled(r, rsteps[0]))
  {
    match effect
    case Silent => []
    case Appending(run, body) => [Replica.Append(run, body)]
    case Publishing(n) =>
      if Position(r.unpublished, n) < |r.unpublished| then [Replica.Publish(Position(r.unpublished, n))] else []
    case Restarting => [Replica.Restart]
  }

  function Fed(r: Replica.State, effect: Effect): Replica.State {
    var rsteps := Feed(r, effect);
    if rsteps == [] then r else Replica.Do(r, rsteps[0])
  }

  datatype Joint = Joint(life: State, rep: Replica.State)

  /** Either the service takes a step, or the session's connection and client do. */
  datatype Move = Serves(step: Step) | Streams(rstep: Replica.Step)

  ghost predicate May(j: Joint, m: Move, sid: SessionId) {
    match m
    case Serves(step) => Enabled(j.life, step) && step != Delete(sid)
    case Streams(rstep) => !rstep.Append? && !rstep.Publish? && !rstep.Restart? && Replica.Enabled(j.rep, rstep)
  }

  ghost function Next(j: Joint, m: Move, sid: SessionId): Joint
    requires May(j, m, sid)
  {
    match m
    case Serves(step) => Joint(Do(j.life, step), Fed(j.rep, EffectOf(j.life, step, sid)))
    case Streams(rstep) => Joint(j.life, Replica.Do(j.rep, rstep))
  }

  ghost predicate Begins(j: Joint, sid: SessionId) {
    Initial(j.life) && Replica.Initial(j.rep) && j.rep.ledger == LedgerOf(j.life.db, sid)
  }

  ghost predicate IsJointRun(js: seq<Joint>, ms: seq<Move>, sid: SessionId) {
    && |js| == |ms| + 1 && Begins(js[0], sid)
    && forall i :: 0 <= i < |ms| ==> May(js[i], ms[i], sid) && js[i + 1] == Next(js[i], ms[i], sid)
  }

  /** Every step of the lifecycle that does not delete the session is a move, whatever the client is doing. */
  lemma {:induction false} EveryRunIsJoint(states: seq<State>, steps: seq<Step>, sid: SessionId, rep: Replica.State,
                                           n: nat)
    returns (js: seq<Joint>, ms: seq<Move>)
    requires IsRun(states, steps) && n <= |steps| && forall k :: 0 <= k < |steps| ==> steps[k] != Delete(sid)
    requires Begins(Joint(states[0], rep), sid)
    ensures IsJointRun(js, ms, sid) && |ms| == n && js[0].rep == rep
    ensures forall k :: 0 <= k <= n ==> js[k].life == states[k]
    ensures forall k :: 0 <= k < n ==> ms[k] == Serves(steps[k])
  {
    if n == 0 {
      js, ms := [Joint(states[0], rep)], [];
    } else {
      js, ms := EveryRunIsJoint(states, steps, sid, rep, n - 1);
      JointMore(js, ms, Serves(steps[n - 1]), sid);
      js, ms := js + [Next(js[n - 1], Serves(steps[n - 1]), sid)], ms + [Serves(steps[n - 1])];
    }
  }

  lemma JointMore(js: seq<Joint>, ms: seq<Move>, m: Move, sid: SessionId)
    requires IsJointRun(js, ms, sid) && May(js[|ms|], m, sid)
    ensures IsJointRun(js + [Next(js[|ms|], m, sid)], ms + [m], sid)
  {
    var more, all := js + [Next(js[|ms|], m, sid)], ms + [m];
    forall i | 0 <= i < |all| ensures May(more[i], all[i], sid) && more[i + 1] == Next(more[i], all[i], sid) {
      if i < |ms| {
        assert more[i] == js[i] && more[i + 1] == js[i + 1] && all[i] == ms[i];
      }
    }
  }

  // ---------- The replica has the session's ledger ----------

  ghost predicate Mirrors(j: Joint, sid: SessionId) {
    Inv(j.life) && j.rep.ledger == LedgerOf(j.life.db, sid) && Numbered(j.rep.ledger)
  }

  lemma FedLedger(r: Replica.State, effect: Effect)
    requires Numbered(r.ledger)
    ensures Fed(r, effect).ledger == Grown(r.ledger, effect) && Numbered(Fed(r, effect).ledger)
  {
  }

  lemma StreamsLedger(r: Replica.State, rstep: Replica.Step)
    requires Replica.Enabled(r, rstep) && !rstep.Append?
    ensures Replica.Do(r, rstep).ledger == r.ledger
  {
  }

  lemma MoveMirrors(j: Joint, m: Move, sid: SessionId)
    requires Mirrors(j, sid) && May(j, m, sid)
    ensures Mirrors(Next(j, m, sid), sid)
  {
    match m
    case Serves(step) =>
      StepKeeps(j.life, step);
      StepGrows(j.life, step, sid);
      FedLedger(j.rep, EffectOf(j.life, step, sid));
    case Streams(rstep) => StreamsLedger(j.rep, rstep);
  }

  /** Under every interleaving, late interrupters and crashes included, the replica's ledger is the session's. */
  lemma {:induction false} JointMirrors(js: seq<Joint>, ms: seq<Move>, i: nat, sid: SessionId)
    requires IsJointRun(js, ms, sid) && i < |js|
    ensures Mirrors(js[i], sid)
  {
    if i > 0 {
      JointMirrors(js, ms, i - 1, sid);
      MoveMirrors(js[i - 1], ms[i - 1], sid);
    }
  }

  // ---------- Its part is a run of replication ----------

  /** The step of the replica in a move, if any. */
  function PartOf(j: Joint, m: Move, sid: SessionId): seq<Replica.Step> {
    match m
    case Serves(step) => Feed(j.rep, EffectOf(j.life, step, sid))
    case Streams(rstep) => [rstep]
  }

  predicate Plays(r: Replica.State, part: seq<Replica.Step>, r': Replica.State) {
    && |part| <= 1 && (part != [] ==> Replica.Enabled(r, part[0]))
    && r' == if part == [] then r else Replica.Do(r, part[0])
  }

  lemma PartMoves(j: Joint, m: Move, sid: SessionId)
    requires May(j, m, sid)
    ensures Plays(j.rep, PartOf(j, m, sid), Next(j, m, sid).rep)
  {
  }

  lemma ReplicaMore(rstates: seq<Replica.State>, rsteps: seq<Replica.Step>, step: Replica.Step)
    requires Replica.IsRun(rstates, rsteps) && Replica.Enabled(rstates[|rsteps|], step)
    ensures Replica.IsRun(rstates + [Replica.Do(rstates[|rsteps|], step)], rsteps + [step])
    ensures Replica.IsOrderlyRun(rstates, rsteps) && Replica.Orderly(rstates[|rsteps|], step) ==>
              Replica.IsOrderlyRun(rstates + [Replica.Do(rstates[|rsteps|], step)], rsteps + [step])
  {
    var more, all := rstates + [Replica.Do(rstates[|rsteps|], step)], rsteps + [step];
    forall i | 0 <= i < |all|
      ensures Replica.Enabled(more[i], all[i]) && more[i + 1] == Replica.Do(more[i], all[i])
      ensures i < |rsteps| ==> more[i] == rstates[i] && all[i] == rsteps[i]
    {
      if i < |rsteps| {
        assert more[i] == rstates[i] && more[i + 1] == rstates[i + 1] && all[i] == rsteps[i];
      }
    }
  }

  predicate OrderlyPart(r: Replica.State, part: seq<Replica.Step>) {
    part != [] ==> Replica.Orderly(r, part[0])
  }

  lemma {:induction false} FromParts(reps: seq<Replica.State>, parts: seq<seq<Replica.Step>>, i: nat)
    returns (rstates: seq<Replica.State>, rsteps: seq<Replica.Step>)
    requires |reps| == |parts| + 1 && i <= |parts| && Replica.Initial(reps[0])
    requires forall k :: 0 <= k < |parts| ==> Plays(reps[k], parts[k], reps[k + 1])
    ensures Replica.IsRun(rstates, rsteps) && rstates[0] == reps[0] && rstates[|rsteps|] == reps[i]
    ensures (forall k :: 0 <= k < i ==> OrderlyPart(reps[k], parts[k])) ==> Replica.IsOrderlyRun(rstates, rsteps)
  {
    if i == 0 {
      rstates, rsteps := [reps[0]], [];
    } else {
      rstates, rsteps := FromParts(reps, parts, i - 1);
      var k := i - 1;
      assert Plays(reps[k], parts[k], reps[k + 1]);
      if parts[k] != [] {
        ReplicaMore(rstates, rsteps, parts[k][0]);
        rstates, rsteps := rstates + [reps[i]], rsteps + [parts[k][0]];
      }
    }
  }

  function Reps(js: seq<Joint>): (reps: seq<Replica.State>)
    ensures |reps| == |js|
  {
    seq(|js|, k requires 0 <= k < |js| => js[k].rep)
  }

  function Parts(js: seq<Joint>, ms: seq<Move>, sid: SessionId): (parts: seq<seq<Replica.Step>>)
    requires |js| == |ms| + 1
    ensures |parts| == |ms|
  {
    seq(|ms|, k requires 0 <= k < |ms| => PartOf(js[k], ms[k], sid))
  }

  lemma JointPlays(js: seq<Joint>, ms: seq<Move>, sid: SessionId, k: nat)
    requires IsJointRun(js, ms, sid) && k < |ms|
    ensures Plays(Reps(js)[k], Parts(js, ms, sid)[k], Reps(js)[k + 1])
  {
    PartMoves(js[k], ms[k], sid);
  }

  /** So what is proved of every run of replication holds of the replica in every joint state. */
  lemma ReplicaPart(js: seq<Joint>, ms: seq<Move>, i: nat, sid: SessionId)
    returns (rstates: seq<Replica.State>, rsteps: seq<Replica.Step>)
    requires IsJointRun(js, ms, sid) && i < |js|
    ensures Replica.IsRun(rstates, rsteps) && rstates[0] == js[0].rep && rstates[|rsteps|] == js[i].rep
    ensures (forall k :: 0 <= k < i ==> OrderlyPart(js[k].rep, PartOf(js[k], ms[k], sid))) ==>
              Replica.IsOrderlyRun(rstates, rsteps)
  {
    forall k | 0 <= k < |ms| ensures Plays(Reps(js)[k], Parts(js, ms, sid)[k], Reps(js)[k + 1]) {
      JointPlays(js, ms, sid, k);
    }
    rstates, rsteps := FromParts(Reps(js), Parts(js, ms, sid), i);
  }

  /**
   In every joint state of any run, undisciplined ones included, once all is published and the subscription drained:
   the connection has accumulated its window of the session's ledger and all that followed, and has written all of it
   past the client's cursor, if and only if the frames it consumed past those points came in ascending order.
   */
  lemma CompleteIffPublishedInOrder(js: seq<Joint>, ms: seq<Move>, i: nat, sid: SessionId)
    requires IsJointRun(js, ms, sid) && i < |js| && js[i].rep.link.Streaming?
    requires js[i].rep.link.sub == Stream.Sub([], true) && js[i].rep.unpublished == []
    ensures var r, es := js[i].rep, LedgerOf(js[i].life.db, sid);
            var size, b := r.link.size, ReplicaRace.Newer(r.link.size, r.from);
            && size <= |es|
            && (r.link.conn.events == es[Replica.Base(size)..] <==>
                ReplicaRace.Ascends(size, ReplicaRace.Past(r.taken, size)))
            && (Stream.EventsOf(r.sent) == es[Replica.First(r.from, size, |es|)..] <==>
                  ReplicaRace.Ascends(b, ReplicaRace.Past(r.taken, b)))
  {
    JointMirrors(js, ms, i, sid);
    var rstates, rsteps := ReplicaPart(js, ms, i, sid);
    ReplicaRace.CompleteIffInOrder(rstates, rsteps, |rsteps|);
  }

  // ---------- Disciplined runs are those of one committer ----------

  /** A commit of this session stands between its append and its second write, with which it publishes. */
  predicate Committing(s: State, sid: SessionId) {
    || (sid in s.active && s.active[sid] in s.tasks && BumpStage(s.tasks[s.active[sid]].stage))
    || (s.mode.Settling? && s.mode.todo != [] && s.mode.todo[0].session == sid && s.mode.at.SettleBump?)
  }

  function Newest(es: seq<Event>): seq<Event> {
    if es == [] then [] else [es[|es| - 1]]
  }

  /** What an effect does to the commit in progress, if one committer at a time makes them. */
  predicate CommitsOneByOne(effect: Effect, size: nat, committing: bool, committing': bool) {
    match effect
    case Silent => committing' == committing
    case Appending(_, _) => !committing && committing'
    case Publishing(n) => committing && !committing' && n == size
    case Restarting => !committing'
  }

  predicate OneCommitter(s: State, effect: Effect, s': State, sid: SessionId) {
    CommitsOneByOne(effect, |LedgerOf(s.db, sid)|, Committing(s, sid), Committing(s', sid))
  }

  lemma NextStage(db: Db, run: RunId, t: Task, input: Input)
    requires Accepts(t.stage, input) && !t.stage.AtRelease?
    ensures BumpStage(TaskMoves(db, t, input).stage) <==> NextWrite(run, t, input).AppendBody?
    ensures BumpStage(t.stage) <==> NextWrite(run, t, input).Bump?
    ensures BumpStage(t.stage) ==> NextWrite(run, t, input) == Bump(t.stage.n)
    ensures TaskMoves(db, t, input).session == t.session
  {
  }

  lemma OtherAdvance(s: State, run: RunId, input: Input, sid: SessionId)
    requires Inv(s) && Enabled(s, Advance(run, input)) && s.tasks[run].session != sid
    ensures Committing(Advanced(s, run, input), sid) <==> Committing(s, sid)
  {
  }

  lemma OwnAdvance(s: State, run: RunId, input: Input)
    requires Inv(s) && Enabled(s, Advance(run, input)) && !s.tasks[run].stage.AtRelease?
    ensures var t := s.tasks[run];
            && (Committing(s, t.session) <==> BumpStage(t.stage))
            && (Committing(Advanced(s, run, input), t.session) <==> NextWrite(run, t, input).AppendBody?)
  {
    NextStage(s.db, run, s.tasks[run], input);
  }

  lemma Released(s: State, run: RunId, input: Input)
    requires Inv(s) && Enabled(s, Advance(run, input)) && s.tasks[run].stage.AtRelease?
    ensures var sid := s.tasks[run].session; !Committing(s, sid) && !Committing(Advanced(s, run, input), sid)
  {
  }

  lemma AdvanceCommits(s: State, run: RunId, input: Input, sid: SessionId)
    requires Ordered(s) && Enabled(s, Advance(run, input))
    ensures OneCommitter(s, EffectOf(s, Advance(run, input), sid), Advanced(s, run, input), sid)
  {
    var t := s.tasks[run];
    if t.session != sid {
      OtherAdvance(s, run, input, sid);
    } else if t.stage.AtRelease? {
      Released(s, run, input);
    } else {
      assert TaskSound(s.db, run, t);
      OwnAdvance(s, run, input);
      NextStage(s.db, run, t, input);
    }
  }

  lemma SettlingCommits(s: State, sid: SessionId)
    requires Inv(s) && Enabled(s, SettleNext)
    ensures Committing(s, sid) <==> s.mode.todo[0].session == sid && s.mode.at.SettleBump?
    ensures Committing(SettledOn(s), sid) <==> s.mode.todo[0].session == sid && s.mode.at.SettleAppend?
  {
  }

  lemma SettleCommits(s: State, sid: SessionId)
    requires Ordered(s) && Enabled(s, SettleNext)
    ensures OneCommitter(s, EffectOf(s, SettleNext, sid), SettledOn(s), sid)
  {
    SettlingCommits(s, sid);
  }

  lemma SideCommits(s: State, step: Step, sid: SessionId)
    requires Inv(s) && Enabled(s, step) && SideStep(step) && !step.Crash?
    ensures Committing(Do(s, step), sid) <==> Committing(s, sid)
  {
  }

  lemma LookCommits(s: State, k: nat, sid: SessionId)
    requires Enabled(s, AdvanceInterrupt(k)) && s.interrupters[k].Checked?
    ensures OneCommitter(s, EffectOf(s, AdvanceInterrupt(k), sid), Do(s, AdvanceInterrupt(k)), sid)
  {
    LookWrites(s, k);
  }

  /** No other append to a session falls between an append and its publication. */
  lemma StepCommits(s: State, step: Step, sid: SessionId)
    requires Ordered(s) && Enabled(s, step) && Disciplined(s, step)
    ensures OneCommitter(s, EffectOf(s, step, sid), Do(s, step), sid)
  {
    if step.Advance? {
      AdvanceCommits(s, step.run, step.input, sid);
    } else if step.AdvanceInterrupt? {
      LookCommits(s, step.k, sid);
    } else if step.InterruptAtOnce? {
      InterruptAtOnceKeeps(s, step.sid);
    } else if step.SettleNext? {
      SettleCommits(s, sid);
    } else if !step.Crash? {
      SideCommits(s, step, sid);
    }
  }

  /** What the replica has still to publish is the event being committed. */
  ghost predicate Matches(j: Joint, sid: SessionId) {
    j.rep.unpublished == if Committing(j.life, sid) then Newest(j.rep.ledger) else []
  }

  lemma FeedMatches(r: Replica.State, effect: Effect, committing: bool, committing': bool)
    requires Numbered(r.ledger) && r.unpublished == if committing then Newest(r.ledger) else []
    requires CommitsOneByOne(effect, |r.ledger|, committing, committing')
    ensures Fed(r, effect).unpublished == if committing' then Newest(Fed(r, effect).ledger) else []
    ensures OrderlyPart(r, Feed(r, effect))
  {
    if effect.Publishing? && r.ledger != [] {
      assert Position([r.ledger[|r.ledger| - 1]], |r.ledger|) == 0;
    }
  }

  /** Each disciplined step is to a session at most one step of a single committer, who publishes before the next
  append. */
  lemma StepFeeds(j: Joint, step: Step, sid: SessionId)
    requires Mirrors(j, sid) && Matches(j, sid) && Ordered(j.life) && Disciplined(j.life, step)
             && May(j, Serves(step), sid)
    ensures Mirrors(Next(j, Serves(step), sid), sid) && Matches(Next(j, Serves(step), sid), sid)
    ensures OrderlyPart(j.rep, PartOf(j, Serves(step), sid))
  {
    MoveMirrors(j, Serves(step), sid);
    StepCommits(j.life, step, sid);
    FeedMatches(j.rep, EffectOf(j.life, step, sid), Committing(j.life, sid), Committing(Do(j.life, step), sid));
  }

  lemma StreamsUnpublished(r: Replica.State, rstep: Replica.Step)
    requires Replica.Enabled(r, rstep) && !rstep.Append? && !rstep.Publish? && !rstep.Restart?
    ensures Replica.Do(r, rstep).unpublished == r.unpublished && Replica.Do(r, rstep).ledger == r.ledger
  {
  }

  ghost predicate DisciplinedMove(j: Joint, m: Move) {
    m.Serves? ==> Disciplined(j.life, m.step)
  }

  ghost predicate IsDisciplinedJointRun(js: seq<Joint>, ms: seq<Move>, sid: SessionId) {
    && IsJointRun(js, ms, sid) && DbSound(js[0].life.db)
    && forall i :: 0 <= i < |ms| ==> DisciplinedMove(js[i], ms[i])
  }

  ghost predicate Fits(j: Joint, sid: SessionId) {
    Mirrors(j, sid) && Matches(j, sid) && Ordered(j.life)
  }

  lemma MoveFits(j: Joint, m: Move, sid: SessionId)
    requires Fits(j, sid) && May(j, m, sid) && DisciplinedMove(j, m)
    ensures Fits(Next(j, m, sid), sid) && OrderlyPart(j.rep, PartOf(j, m, sid))
  {
    if m.Serves? {
      StepFeeds(j, m.step, sid);
      StepOrdered(j.life, m.step);
    } else {
      StreamsUnpublished(j.rep, m.rstep);
    }
  }

  lemma {:induction false} JointFits(js: seq<Joint>, ms: seq<Move>, i: nat, sid: SessionId)
    requires IsDisciplinedJointRun(js, ms, sid) && i < |js|
    ensures Fits(js[i], sid)
  {
    if i > 0 {
      JointFits(js, ms, i - 1, sid);
      assert DisciplinedMove(js[i - 1], ms[i - 1]);
      MoveFits(js[i - 1], ms[i - 1], sid);
    } else {
      JointMirrors(js, ms, 0, sid);
    }
  }

  lemma JointOrderly(js: seq<Joint>, ms: seq<Move>, i: nat, sid: SessionId)
    requires IsDisciplinedJointRun(js, ms, sid) && i < |ms|
    ensures OrderlyPart(js[i].rep, PartOf(js[i], ms[i], sid))
  {
    JointFits(js, ms, i, sid);
    assert DisciplinedMove(js[i], ms[i]);
    MoveFits(js[i], ms[i], sid);
  }

  lemma OrderlyReplica(js: seq<Joint>, ms: seq<Move>, i: nat, sid: SessionId)
    returns (rstates: seq<Replica.State>, rsteps: seq<Replica.Step>)
    requires IsDisciplinedJointRun(js, ms, sid) && i < |js|
    ensures Replica.IsOrderlyRun(rstates, rsteps) && rstates[0] == js[0].rep && rstates[|rsteps|] == js[i].rep
  {
    rstates, rsteps := ReplicaPart(js, ms, i, sid);
    forall k | 0 <= k < i ensures OrderlyPart(js[k].rep, PartOf(js[k], ms[k], sid)) {
      JointOrderly(js, ms, k, sid);
    }
  }

  /**
   The service's commits, whoever makes them, reach the client: in every joint state of every disciplined run, through
   crashes, overflows, disconnects and reconnects, the replica's ledger is the session's, its invariant holds,
       the client's
   onEvent has seen strictly ascending events of it, and every one from its start to its cursor, each once, while no
   connection opened with more than RENDER_CAP pending.
   */
  lemma DeliveredFromTheService(js: seq<Joint>, ms: seq<Move>, i: nat, sid: SessionId)
    requires IsDisciplinedJointRun(js, ms, sid) && i < |js|
    ensures var r, es := js[i].rep, LedgerOf(js[i].life.db, sid);
            && r.ledger == es && Replica.Inv(r)
            && (forall p, q :: 0 <= p < q < |r.log| ==> r.log[p].seqNo < r.log[q].seqNo)
            && (forall e :: e in r.log ==> e in es && e.seqNo > r.start)
            && (r.withinCap ==> r.log == Replica.Between(es, r.start, r.cursor))
  {
    JointFits(js, ms, i, sid);
    var rstates, rsteps := OrderlyReplica(js, ms, i, sid);
    Replica.RunKeeps(rstates, rsteps, |rsteps|);
    Replica.DeliveredInOrderExactlyOnce(rstates, rsteps, |rsteps|);
  }
}
