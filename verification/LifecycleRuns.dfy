/** Building runs of the lifecycle: step by step, with a goroutine left alone, and from empty tables. */
module LifecycleRuns {
  import opened Ledger
  import opened Tables
  import opened Recovery
  import opened Lifecycle
  import Folds
  import opened Turn

  /** These steps, taken by a process that starts on empty tables, lead to this state. */
  ghost predicate ReachedBy(steps: seq<Step>, s: State) {
    exists states: seq<State> :: IsRun(states, steps) && states[0].db == EMPTY && states[|steps|] == s
  }

  lemma RunMore(states: seq<State>, steps: seq<Step>, step: Step)
    requires IsRun(states, steps) && Enabled(states[|steps|], step)
    ensures IsRun(states + [Do(states[|steps|], step)], steps + [step])
  {
    var more, all := states + [Do(states[|steps|], step)], steps + [step];
    forall i | 0 <= i < |all| ensures Enabled(more[i], all[i]) && more[i + 1] == Do(more[i], all[i]) {
      if i < |steps| {
        assert more[i] == states[i] && more[i + 1] == states[i + 1] && all[i] == steps[i];
      }
    }
  }

  ghost predicate StepsTo(s: State, step: Step, next: State) {
    Enabled(s, step) && next == Do(s, step)
  }

  lemma Then(steps: seq<Step>, s: State, step: Step, next: State)
    requires ReachedBy(steps, s) && StepsTo(s, step, next)
    ensures ReachedBy(steps + [step], next)
  {
    var states: seq<State> :| IsRun(states, steps) && states[0].db == EMPTY && states[|steps|] == s;
    RunMore(states, steps, step);
    var more := states + [next];
    assert more[0] == states[0] && more[|steps + [step]|] == next;
  }

  // ---------- A goroutine left alone ----------

  function Goes(run: RunId, inputs: seq<Input>): seq<Step> {
    seq(|inputs|, i requires 0 <= i < |inputs| => Advance(run, inputs[i]))
  }

  /** A state of which a goroutine has brought its tables and itself this far. */
  function Moved(s: State, p: Progress): State {
    s.(db := p.db, tasks := s.tasks[p.run := p.task])
  }

  lemma MovedOnce(s: State, p: Progress, input: Input)
    requires s.mode.Serving? && OneStep(p, input).accepted
    ensures StepsTo(Moved(s, p), Advance(p.run, input), Moved(s, OneStep(p, input)))
  {
    var q := OneStep(p, input);
    assert s.tasks[p.run := p.task][p.run := q.task] == s.tasks[p.run := q.task];
  }

  lemma GoesMore(run: RunId, inputs: seq<Input>, k: nat)
    requires k < |inputs|
    ensures Goes(run, inputs[..k + 1]) == Goes(run, inputs[..k]) + [Advance(run, inputs[k])]
  {
  }

  lemma ThenGoesOne(steps: seq<Step>, run: RunId, inputs: seq<Input>, k: nat, s: State, next: State)
    requires k < |inputs| && ReachedBy(steps + Goes(run, inputs[..k]), s) && StepsTo(s, Advance(run, inputs[k]), next)
    ensures ReachedBy(steps + Goes(run, inputs[..k + 1]), next)
  {
    Then(steps + Goes(run, inputs[..k]), s, Advance(run, inputs[k]), next);
    GoesMore(run, inputs, k);
    var before, last := Goes(run, inputs[..k]), [Advance(run, inputs[k])];
    assert steps + before + last == steps + (before + last);
  }

  lemma ThenGoes(steps: seq<Step>, run: RunId, inputs: seq<Input>, states: seq<State>)
    requires |states| == |inputs| + 1 && ReachedBy(steps, states[0])
    requires forall k :: 0 <= k < |inputs| ==> StepsTo(states[k], Advance(run, inputs[k]), states[k + 1])
    ensures ReachedBy(steps + Goes(run, inputs), states[|inputs|])
  {
    ghost var rungs :=
      seq(|states|, k requires 0 <= k < |states| => ReachedBy(steps + Goes(run, inputs[..k]), states[k]));
    assert steps + Goes(run, inputs[..0]) == steps;
    forall k | 0 < k < |rungs| ensures rungs[k - 1] ==> rungs[k] {
      if rungs[k - 1] {
        ThenGoesOne(steps, run, inputs, k - 1, states[k - 1], states[k]);
      }
    }
    Folds.Climb(rungs, 0, |inputs|);
    assert inputs[..|inputs|] == inputs;
  }

  lemma OneStepKeeps(p: Progress, input: Input)
    ensures Keeps(p, OneStep(p, input))
  {
  }

  predicate Keeps(p: Progress, q: Progress) {
    q.run == p.run && (q.accepted ==> p.accepted)
  }

  lemma {:induction false} KeptTo(ps: seq<Progress>, i: nat, j: nat)
    requires i <= j < |ps| && forall k :: 0 < k < |ps| ==> Keeps(ps[k - 1], ps[k])
    ensures Keeps(ps[i], ps[j])
  {
    if i < j {
      KeptTo(ps, i, j - 1);
      assert Keeps(ps[j - 1], ps[j]);
    }
  }

  lemma AllKeep(ps: seq<Progress>)
    requires ps != [] && ps[|ps| - 1].accepted && forall k :: 0 < k < |ps| ==> Keeps(ps[k - 1], ps[k])
    ensures forall k :: 0 <= k < |ps| ==> ps[k].run == ps[0].run && ps[k].accepted
  {
    forall k | 0 <= k < |ps| ensures Keeps(ps[0], ps[k]) && Keeps(ps[k], ps[|ps| - 1]) {
      KeptTo(ps, 0, k);
      KeptTo(ps, k, |ps| - 1);
    }
  }

  /** Where a goroutine stands after each of its inputs. */
  function Stations(p: Progress, inputs: seq<Input>): (ps: seq<Progress>)
    ensures |ps| == |inputs| + 1
  {
    seq(|inputs| + 1, k requires 0 <= k <= |inputs| => Folds.Fold(OneStep, p, inputs, k))
  }

  lemma NextStation(p: Progress, inputs: seq<Input>, k: nat)
    requires k < |inputs|
    ensures Stations(p, inputs)[k + 1] == OneStep(Stations(p, inputs)[k], inputs[k])
    ensures Keeps(Stations(p, inputs)[k], Stations(p, inputs)[k + 1])
  {
    OneStepKeeps(Stations(p, inputs)[k], inputs[k]);
  }

  lemma StationsKeep(p: Progress, inputs: seq<Input>)
    ensures forall k :: 0 < k <= |inputs| ==> Keeps(Stations(p, inputs)[k - 1], Stations(p, inputs)[k])
  {
    forall k | 0 < k <= |inputs| ensures Keeps(Stations(p, inputs)[k - 1], Stations(p, inputs)[k]) {
      NextStation(p, inputs, k - 1);
    }
  }

  lemma EndStations(p: Progress, inputs: seq<Input>)
    ensures Stations(p, inputs)[0] == p && Stations(p, inputs)[|inputs|] == All(p, inputs)
  {
  }

  lemma StationsKept(p: Progress, inputs: seq<Input>)
    requires All(p, inputs).accepted
    ensures forall k :: 0 <= k <= |inputs| ==> Stations(p, inputs)[k].run == p.run && Stations(p, inputs)[k].accepted
  {
    StationsKeep(p, inputs);
    EndStations(p, inputs);
    AllKeep(Stations(p, inputs));
  }

  /** What a goroutine does when left alone, it can do in a run. */
  lemma LeftAlone(steps: seq<Step>, s: State, p: Progress, inputs: seq<Input>, q: Progress)
    requires ReachedBy(steps, Moved(s, p)) && s.mode.Serving? && All(p, inputs) == q && q.accepted
    ensures ReachedBy(steps + Goes(p.run, inputs), Moved(s, q))
  {
    var ps := Stations(p, inputs);
    StationsKept(p, inputs);
    var states := seq(|ps|, k requires 0 <= k < |ps| => Moved(s, ps[k]));
    forall k | 0 <= k < |inputs| ensures StepsTo(states[k], Advance(p.run, inputs[k]), states[k + 1]) {
      NextStation(p, inputs, k);
      MovedOnce(s, ps[k], inputs[k]);
    }
    ThenGoes(steps, p.run, inputs, states);
  }

  // ---------- Starting up ----------

  /** The process begins on these tables. */
  function Launched(db: Db): State {
    State(db, Starting, map[], map[], map[], map[], map[])
  }

  /** A serving process with nothing going on. */
  function Resting(db: Db, sent: map<RunId, (SessionId, IntentId)>): State {
    State(db, Serving, map[], map[], map[], map[], sent)
  }

  const RECOVERY: seq<Step> := [QueryDangling([])] + [QueryRunning([])] + [SweepNext]

  /** Recovery on tables that need none. */
  lemma NothingToRecover(db: Db, sent: map<RunId, (SessionId, IntentId)>)
    requires LiveSessions(db.ledgers) == {} && RunningRuns(db.runs) == {}
    ensures var s := Resting(db, sent);
            && StepsTo(s.(mode := Starting), QueryDangling([]), s.(mode := Settling(db, [], SettleAppend)))
            && StepsTo(s.(mode := Settling(db, [], SettleAppend)), QueryRunning([]),
                       s.(mode := Sweeping(db, [], SweepFinish)))
            && StepsTo(s.(mode := Sweeping(db, [], SweepFinish)), SweepNext, s)
  {
  }

  lemma RecoveryPasses(steps: seq<Step>, db: Db, sent: map<RunId, (SessionId, IntentId)>)
    requires ReachedBy(steps, Resting(db, sent).(mode := Starting))
    requires LiveSessions(db.ledgers) == {} && RunningRuns(db.runs) == {}
    ensures ReachedBy(steps + RECOVERY, Resting(db, sent))
  {
    var s := Resting(db, sent);
    NothingToRecover(db, sent);
    var s1, s2 := s.(mode := Settling(db, [], SettleAppend)), s.(mode := Sweeping(db, [], SweepFinish));
    Then(steps, s.(mode := Starting), QueryDangling([]), s1);
    Then(steps + [QueryDangling([])], s1, QueryRunning([]), s2);
    Then(steps + [QueryDangling([])] + [QueryRunning([])], s2, SweepNext, s);
    assert steps + [QueryDangling([])] + [QueryRunning([])] + [SweepNext] == steps + RECOVERY;
  }
}
