/** The records of an accept/reject loop: a first record, then one record
    per iteration computed from the one before by a step function; the loop
    leaves after an iteration whose record passes a stop test, and in any
    case once `len` records exist (the first one and `len - 1` iterations).

    Both loops of the solver have this shape; their proofs only need the
    facts below, stated once for every step function and stop test. */
module Runs {

  /** The run continued from the records `tr`. */
  function RunFrom<S>(step: S -> S, stops: (S, S) -> bool, len: nat, tr: seq<S>): (r: seq<S>)
    requires 1 <= |tr| <= len
    ensures |tr| <= |r| <= len
    decreases len - |tr|
  {
    if |tr| == len then tr
    else
      var next := step(tr[|tr| - 1]);
      if stops(tr[|tr| - 1], next) then tr + [next] else RunFrom(step, stops, len, tr + [next])
  }

  /** The whole run from the first record `start`. */
  function Run<S>(step: S -> S, stops: (S, S) -> bool, len: nat, start: S): (r: seq<S>)
    requires len >= 1
    ensures 1 <= |r| <= len
  {
    RunFrom(step, stops, len, [start])
  }

  /** Every record after the first is the step of the one before. */
  ghost predicate Chain<S>(step: S -> S, tr: seq<S>)
  {
    forall i :: 0 < i < |tr| ==> tr[i] == step(tr[i - 1])
  }

  /** The records end where the loop ends: at the bound, or after an
      iteration that passed the stop test. */
  predicate Ends<S>(stops: (S, S) -> bool, len: nat, tr: seq<S>)
  {
    |tr| == len || (|tr| >= 2 && stops(tr[|tr| - 2], tr[|tr| - 1]))
  }

  /** One more iteration: the run stops after the new record or goes on
      from it. */
  lemma RunFromOnce<S>(step: S -> S, stops: (S, S) -> bool, len: nat, tr: seq<S>)
    requires 1 <= |tr| < len
    ensures var next := step(tr[|tr| - 1]);
      RunFrom(step, stops, len, tr) ==
        if stops(tr[|tr| - 1], next) then tr + [next] else RunFrom(step, stops, len, tr + [next])
  {
  }

  /** At the bound, the run is the records themselves. */
  lemma RunFromFull<S>(step: S -> S, stops: (S, S) -> bool, len: nat, tr: seq<S>)
    requires 1 <= |tr| == len
    ensures RunFrom(step, stops, len, tr) == tr
  {
  }

  /** Continuing records keeps them as the beginning, each added record is
      the step of the one before, the run ends where the loop ends, and no
      added iteration but the last passed the stop test. */
  lemma {:induction false} RunFromShape<S>(step: S -> S, stops: (S, S) -> bool, len: nat, tr: seq<S>)
    requires 1 <= |tr| <= len
    ensures var r := RunFrom(step, stops, len, tr);
      r[..|tr|] == tr && Ends(stops, len, r) &&
      (forall i :: |tr| <= i < |r| ==> r[i] == step(r[i - 1])) &&
      (forall i :: |tr| <= i < |r| - 1 ==> !stops(r[i - 1], r[i]))
    decreases len - |tr|
  {
    if |tr| < len {
      var next := step(tr[|tr| - 1]);
      var tr' := tr + [next];
      assert tr'[..|tr|] == tr;
      if !stops(tr[|tr| - 1], next) {
        RunFromShape(step, stops, len, tr');
        var r := RunFrom(step, stops, len, tr');
        assert r[..|tr|] == r[..|tr'|][..|tr|];
        assert r[|tr| - 1] == tr'[|tr| - 1];
        assert r[|tr|] == tr'[|tr|];
      }
    }
  }

  /** A whole run starts at `start`, is a chain, ends where the loop ends,
      and only its last iteration can have passed the stop test. */
  lemma RunShape<S>(step: S -> S, stops: (S, S) -> bool, len: nat, start: S)
    requires len >= 1
    ensures var r := Run(step, stops, len, start);
      r[0] == start && Chain(step, r) && Ends(stops, len, r) &&
      forall i :: 0 < i < |r| - 1 ==> !stops(r[i - 1], r[i])
  {
    RunFromShape(step, stops, len, [start]);
    var r := Run(step, stops, len, start);
    assert r[0] == r[..1][0];
  }

  /** The stopping facts of a run alone: it ends where `Ends` says, and no
      pair of consecutive records but the last one met the stop test. */
  lemma RunStops<S>(step: S -> S, stops: (S, S) -> bool, len: nat, start: S)
    requires len >= 1
    ensures var r := Run(step, stops, len, start);
      Ends(stops, len, r) && forall i :: 0 < i < |r| - 1 ==> !stops(r[i - 1], r[i])
  {
    RunShape(step, stops, len, start);
  }

  /** A property that holds of the first record and that every step keeps
      holds of every record, and a relation that every step from such a
      record satisfies holds between consecutive records. */
  lemma {:induction false} RunKeeps<S>(step: S -> S, stops: (S, S) -> bool, len: nat, start: S,
                                       inv: S -> bool, rel: (S, S) -> bool)
    requires len >= 1 && inv(start)
    requires forall s :: inv(s) ==> inv(step(s)) && rel(s, step(s))
    ensures var r := Run(step, stops, len, start);
      (forall i :: 0 <= i < |r| ==> inv(r[i])) &&
      (forall i :: 0 < i < |r| ==> rel(r[i - 1], r[i]))
  {
    RunShape(step, stops, len, start);
    var r := Run(step, stops, len, start);
    ChainKeeps(step, r, inv, |r| - 1);
    forall i | 0 < i < |r|
      ensures rel(r[i - 1], r[i])
    {
      StepKeeps(step, inv, rel, r[i - 1]);
    }
  }

  lemma StepKeeps<S>(step: S -> S, inv: S -> bool, rel: (S, S) -> bool, x: S)
    requires inv(x)
    requires forall s :: inv(s) ==> inv(step(s)) && rel(s, step(s))
    ensures rel(x, step(x))
  {
  }

  lemma {:induction false} ChainKeeps<S>(step: S -> S, tr: seq<S>, inv: S -> bool, j: nat)
    requires Chain(step, tr) && j < |tr| && inv(tr[0])
    requires forall s :: inv(s) ==> inv(step(s))
    ensures forall i :: 0 <= i <= j ==> inv(tr[i])
    decreases j
  {
    if j > 0 {
      ChainKeeps(step, tr, inv, j - 1);
      assert tr[j] == step(tr[j - 1]);
    }
  }
}
