/** py/serve.py's Executor: a plan carried out step by step, against machines that may fail anywhere. */
module Executor {
  import opened Prelude
  import opened ClusterPlan

  /** Done is a plan that stopped because the work was done already; Failed gives the step that raised. */
  datatype Outcome = Completed | Done | Failed(at: nat)

  /** What the machines answer to each step, by its place: whether it goes through. An up-already step that
      does not finds its engine answering. */
  type Answers = nat -> bool

  predicate GoesOn(s: Step, answer: bool) { answer || (s.Run? && s.ignoreErrors) }

  /** The steps that go through before the first that does not. */
  function Progress(steps: seq<Step>, answers: Answers): (n: nat)
    ensures n <= |steps|
    ensures forall k :: 0 <= k < n ==> GoesOn(steps[k], answers(k))
    ensures n < |steps| ==> !GoesOn(steps[n], answers(n))
  {
    if steps == [] then 0
    else
      var n := Progress(steps[..|steps| - 1], answers);
      if n < |steps| - 1 || !GoesOn(steps[|steps| - 1], answers(|steps| - 1)) then n else |steps|
  }

  /** How a plan ends, and the steps it carried out: an up-already step that finds its engine runs its own
      steps first. */
  function Carried(steps: seq<Step>, answers: Answers, inner: Answers): (Outcome, seq<Step>) {
    var n := Progress(steps, answers);
    if n == |steps| then (Completed, steps)
    else if steps[n].UpAlready? then
      var m := Progress(steps[n].meanwhile, inner);
      (if m == |steps[n].meanwhile| then Done else Failed(n), steps[..n] + steps[n].meanwhile[..m])
    else (Failed(n), steps[..n])
  }

  /** serving.json: what is recorded as serving, and whether by an external engine. */
  datatype Serving = Serving(recipe: string, external: bool)

  /** What a step that goes through leaves there. */
  function Recorded(s: Step, record: Option<Serving>): Option<Serving> {
    if s.Record? then Some(Serving(s.serving, false))
    else if s.ExternalFirst? && record.Some? && record.value.external then None
    else record
  }

  function RecordedAll(steps: seq<Step>, record: Option<Serving>): Option<Serving> {
    if steps == [] then record else Recorded(steps[|steps| - 1], RecordedAll(steps[..|steps| - 1], record))
  }

  class Executor {
    var record: Option<Serving>
    ghost var carried: seq<Step>

    constructor (serving: Option<Serving>)
      ensures record == serving && carried == []
    {
      record, carried := serving, [];
    }

    /** do_<kind>: one step, and whether it went through. */
    method Do(s: Step, answer: bool) returns (ok: bool)
      modifies this
      ensures ok == GoesOn(s, answer)
      ensures carried == old(carried) + if ok then [s] else []
      ensures record == if ok then Recorded(s, old(record)) else old(record)
    {
      if !answer && !(s.Run? && s.ignoreErrors) {
        return false;
      }
      if s.Record? {
        record := Some(Serving(s.serving, false));
      } else if s.ExternalFirst? && record.Some? && record.value.external {
        record := None;
      }
      carried := carried + [s];
      return true;
    }

    /** The steps an up-already step runs before it stops the plan. */
    method Meanwhile(steps: seq<Step>, answers: Answers) returns (ok: bool)
      modifies this
      ensures ok == (Progress(steps, answers) == |steps|)
      ensures carried == old(carried) + steps[..Progress(steps, answers)]
      ensures record == RecordedAll(steps[..Progress(steps, answers)], old(record))
    {
      assert steps[..0] == [] && RecordedAll([], record) == record;
      hide Recorded, RecordedAll, Progress, GoesOn;
      for i := 0 to |steps|
        invariant forall k :: 0 <= k < i ==> GoesOn(steps[k], answers(k))
        invariant carried == old(carried) + steps[..i] && record == RecordedAll(steps[..i], old(record))
      {
        var fine := Do(steps[i], answers(i));
        if !fine {
          ProgressIs(steps, answers, i);
          return false;
        }
        RecordedNext(steps, i, old(record));
        CarriedNext(old(carried), steps, i);
      }
      ProgressIs(steps, answers, |steps|);
      return true;
    }

    method Execute(steps: seq<Step>, answers: Answers, inner: Answers) returns (outcome: Outcome)
      modifies this
      ensures outcome == Carried(steps, answers, inner).0
      ensures carried == old(carried) + Carried(steps, answers, inner).1
      ensures record == RecordedAll(Carried(steps, answers, inner).1, old(record))
    {
      assert steps[..0] == [] && RecordedAll([], record) == record;
      hide Recorded, RecordedAll, Carried, Progress, GoesOn;
      for i := 0 to |steps|
        invariant forall k :: 0 <= k < i ==> GoesOn(steps[k], answers(k))
        invariant carried == old(carried) + steps[..i] && record == RecordedAll(steps[..i], old(record))
      {
        GoesOnIs(steps[i], answers(i));
        if steps[i].UpAlready? && !answers(i) {
          var fine := Meanwhile(steps[i].meanwhile, inner);
          StopsAt(steps, answers, inner, i);
          ghost var also := steps[i].meanwhile[..Progress(steps[i].meanwhile, inner)];
          RecordedMore(steps[..i], also, old(record));
          CarriedMore(old(carried), steps[..i], also);
          return if fine then Done else Failed(i);
        }
        var ok := Do(steps[i], answers(i));
        if !ok {
          StopsAt(steps, answers, inner, i);
          return Failed(i);
        }
        RecordedNext(steps, i, old(record));
        CarriedNext(old(carried), steps, i);
      }
      assert steps[..|steps|] == steps;
      RunsOut(steps, answers, inner);
      return Completed;
    }
  }

  /** An engine that answers already stops the plan where it is found: the steps held for that case run then,
      and the plan is done exactly when all of them go through. */
  lemma FoundUp(steps: seq<Step>, answers: Answers, inner: Answers, n: nat)
    requires n < |steps| && steps[n].UpAlready? && !answers(n)
    requires forall k :: 0 <= k < n ==> GoesOn(steps[k], answers(k))
    ensures var (outcome, carried) := Carried(steps, answers, inner);
            var also := steps[n].meanwhile;
            && ((forall k: nat :: k < |also| ==> GoesOn(also[k], inner(k))) ==>
                  outcome == Done && carried == steps[..n] + also)
            && (!(forall k: nat :: k < |also| ==> GoesOn(also[k], inner(k))) ==>
                  outcome == Failed(n) && |carried| < n + |also| && carried <= steps[..n] + also)
  {
    GoesOnIs(steps[n], answers(n));
    hide GoesOn;
    StopsAt(steps, answers, inner, n);
  }

  lemma CarriedNext(before: seq<Step>, steps: seq<Step>, i: nat)
    requires i < |steps|
    ensures before + steps[..i] + [steps[i]] == before + steps[..i + 1]
  {
  }

  lemma CarriedMore(before: seq<Step>, a: seq<Step>, b: seq<Step>)
    ensures before + a + b == before + (a + b)
  {
  }

  lemma GoesOnIs(s: Step, answer: bool)
    ensures GoesOn(s, answer) <==> answer || (s.Run? && s.ignoreErrors)
  {
  }

  lemma ProgressIs(steps: seq<Step>, answers: Answers, n: nat)
    requires n <= |steps| && (forall k :: 0 <= k < n ==> GoesOn(steps[k], answers(k)))
    requires n < |steps| ==> !GoesOn(steps[n], answers(n))
    ensures Progress(steps, answers) == n
  {
    hide GoesOn;
  }

  lemma StopsAt(steps: seq<Step>, answers: Answers, inner: Answers, n: nat)
    requires n < |steps| && !GoesOn(steps[n], answers(n)) && forall k :: 0 <= k < n ==> GoesOn(steps[k], answers(k))
    ensures Progress(steps, answers) == n
    ensures Carried(steps, answers, inner) ==
            if steps[n].UpAlready? then
              var m := Progress(steps[n].meanwhile, inner);
              (if m == |steps[n].meanwhile| then Done else Failed(n), steps[..n] + steps[n].meanwhile[..m])
            else (Failed(n), steps[..n])
  {
    hide GoesOn;
  }

  lemma RunsOut(steps: seq<Step>, answers: Answers, inner: Answers)
    requires forall k :: 0 <= k < |steps| ==> GoesOn(steps[k], answers(k))
    ensures Carried(steps, answers, inner) == (Completed, steps)
  {
    hide GoesOn;
  }

  lemma RecordedNext(steps: seq<Step>, i: nat, record: Option<Serving>)
    requires i < |steps|
    ensures RecordedAll(steps[..i + 1], record) == Recorded(steps[i], RecordedAll(steps[..i], record))
  {
    assert steps[..i + 1][..i] == steps[..i];
  }

  lemma {:induction false} RecordedMore(a: seq<Step>, b: seq<Step>, record: Option<Serving>)
    ensures RecordedAll(a + b, record) == RecordedAll(b, RecordedAll(a, record))
  {
    if b == [] {
      assert a + b == a;
    } else {
      assert (a + b)[..|a + b| - 1] == a + b[..|b| - 1];
      RecordedMore(a, b[..|b| - 1], record);
    }
  }
}
