/** Run boundaries that strictly alternate: run_started(r), run_finished(r), run_started(q), ... */
module Alternation {
  import opened Ledger

  /** The boundary events of a ledger, in order. */
  function Boundaries(es: seq<Event>): seq<Event> {
    BoundariesBelow(es, |es|)
  }

  function BoundariesBelow(es: seq<Event>, n: nat): seq<Event>
    requires n <= |es|
  {
    if n == 0 then []
    else BoundariesBelow(es, n - 1) + if IsBoundary(es[n - 1]) then [es[n - 1]] else []
  }

  /** Even boundaries start a run; each odd one finishes the run started just before it. */
  predicate Paired(bs: seq<Event>) {
    forall i :: 0 <= i < |bs| ==> PairedAt(bs, i)
  }

  predicate PairedAt(bs: seq<Event>, i: nat)
    requires i < |bs|
  {
    if i % 2 == 0 then bs[i].body.RunStarted? else bs[i].body.RunFinished? && bs[i].run == bs[i - 1].run
  }

  predicate Alternates(es: seq<Event>) {
    Paired(Boundaries(es))
  }

  predicate Starts(es: seq<Event>, run: RunId) {
    exists e :: e in es && e.body.RunStarted? && e.run == run
  }

  predicate Finishes(es: seq<Event>, run: RunId) {
    exists e :: e in es && e.body.RunFinished? && e.run == run
  }

  lemma {:induction false} SameBoundaries(es: seq<Event>, fs: seq<Event>, n: nat)
    requires n <= |es| <= |fs| && forall i :: 0 <= i < n ==> es[i] == fs[i]
    ensures BoundariesBelow(es, n) == BoundariesBelow(fs, n)
  {
    if n > 0 {
      SameBoundaries(es, fs, n - 1);
    }
  }

  lemma {:induction false} BoundaryMembers(es: seq<Event>, n: nat)
    requires n <= |es|
    ensures forall e :: e in BoundariesBelow(es, n) ==> e in es && IsBoundary(e)
    ensures forall i :: 0 <= i < n && IsBoundary(es[i]) ==> es[i] in BoundariesBelow(es, n)
  {
    if n > 0 {
      BoundaryMembers(es, n - 1);
    }
  }

  lemma {:induction false} NewestIsLastBelow(es: seq<Event>, n: nat)
    requires n <= |es|
    ensures var bs, b := BoundariesBelow(es, n), BoundaryBelow(es, n);
            (bs == [] <==> b == -1) && (bs != [] ==> bs[|bs| - 1] == es[b])
  {
    if n > 0 {
      NewestIsLastBelow(es, n - 1);
    }
  }

  lemma NewestIsLast(es: seq<Event>)
    ensures forall e :: e in Boundaries(es) <==> e in es && IsBoundary(e)
    ensures var bs, b := Boundaries(es), LastBoundary(es);
            (bs == [] <==> b == -1) && (bs != [] ==> bs[|bs| - 1] == es[b])
  {
    BoundaryMembers(es, |es|);
    NewestIsLastBelow(es, |es|);
  }

  /** In an alternating ledger the newest boundary is odd exactly when the ledger is live. */
  lemma LiveIsUnpaired(es: seq<Event>)
    requires Alternates(es)
    ensures Live(es) <==> |Boundaries(es)| % 2 == 1
  {
    NewestIsLast(es);
    var bs := Boundaries(es);
    assert bs != [] ==> PairedAt(bs, |bs| - 1);
  }

  lemma BoundariesAppend(es: seq<Event>, e: Event)
    ensures Boundaries(es + [e]) == if IsBoundary(e) then Boundaries(es) + [e] else Boundaries(es)
  {
    SameBoundaries(es, es + [e], |es|);
  }

  lemma PairedAppend(bs: seq<Event>, e: Event)
    ensures Paired(bs + [e]) <==> Paired(bs) && PairedAt(bs + [e], |bs|)
  {
    assert forall i :: 0 <= i < |bs| ==> PairedAt(bs + [e], i) == PairedAt(bs, i);
  }

  /** Which boundary may follow alternating ones. */
  lemma NextPaired(bs: seq<Event>, e: Event)
    ensures PairedAt(bs + [e], |bs|) <==>
            if |bs| % 2 == 0 then e.body.RunStarted? else e.body.RunFinished? && e.run == bs[|bs| - 1].run
  {
  }

  lemma LiveBoundary(es: seq<Event>)
    requires Alternates(es) && Live(es)
    ensures Boundaries(es) != [] && LiveRun(es) == Boundaries(es)[|Boundaries(es)| - 1].run
  {
    NewestIsLast(es);
  }

  /**
   Which event keeps an alternating ledger alternating: a start exactly on a settled ledger, a finish
   exactly on a live one and for its live run, anything else always.
   */
  lemma AlternatesAppend(es: seq<Event>, e: Event)
    ensures Alternates(es + [e]) <==>
            && Alternates(es)
            && (e.body.RunStarted? ==> Settled(es))
            && (e.body.RunFinished? ==> Live(es) && LiveRun(es) == e.run)
  {
    BoundariesAppend(es, e);
    if IsBoundary(e) {
      PairedAppend(Boundaries(es), e);
      if Alternates(es) {
        NextPaired(Boundaries(es), e);
        LiveIsUnpaired(es);
        if Live(es) {
          LiveBoundary(es);
        }
      }
    }
  }

  /** A started run is finished unless it is the live one; at most one start is unmatched, the newest. */
  lemma StartedIsFinishedOrLive(es: seq<Event>, run: RunId)
    requires Alternates(es) && Starts(es, run) && !(Live(es) && LiveRun(es) == run)
    ensures Finishes(es, run)
  {
    var e :| e in es && e.body.RunStarted? && e.run == run;
    var bs := Boundaries(es);
    NewestIsLast(es);
    var i :| 0 <= i < |bs| && bs[i] == e;
    assert PairedAt(bs, i);
    if i + 1 < |bs| {
      assert PairedAt(bs, i + 1);
      assert bs[i + 1] in bs;
    }
  }
}
