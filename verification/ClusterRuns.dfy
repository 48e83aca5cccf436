/** Every execution of a cluster plan, whatever fails and wherever it stops. */
module ClusterRuns {
  import opened Prelude
  import opened ClusterPlan
  import opened ClusterOrder
  import opened ClusterSays
  import opened Executor

  /** The plan of a rack up across machines. */
  function Planned(site: Site, job: Job, facts: Facts, nodes: seq<Node>, mode: Mode, external: bool): seq<Step>
    requires nodes != [] && Up(site, job, facts, nodes, mode, external).Ok?
  {
    Up(site, job, facts, nodes, mode, external).value
  }

  /** Step k was attempted: it went through, or it is the one the run stopped at. */
  predicate Tried(steps: seq<Step>, answers: Answers, k: nat) { k < |steps| && k <= Progress(steps, answers) }

  /** Step k went through with no error passed over. */
  predicate Went(steps: seq<Step>, answers: Answers, k: nat) {
    k < Progress(steps, answers) && (answers(k) || steps[k].Run?)
        && (steps[k].Run? && !steps[k].ignoreErrors ==> answers(k))
  }

  /** In an ordered plan, a step is attempted only after every step of an earlier phase went through. */
  lemma EarlierWent(steps: seq<Step>, answers: Answers, i: nat, j: nat)
    requires Ordered(steps) && Tried(steps, answers, i) && j < |steps| && 0 < Phase(steps[j]) < Phase(steps[i])
    ensures j < i && Went(steps, answers, j)
  {
    assert j < i;
    assert GoesOn(steps[j], answers(j));
  }

  /** Where a picked step stands. */
  lemma {:induction false} PickedAt(steps: seq<Step>, k: nat) returns (j: nat)
    requires k < |FlatMap(steps, FreeOf)|
    ensures j < |steps| && steps[j].Free? && steps[j] == FlatMap(steps, FreeOf)[k]
  {
    var init, last := steps[..|steps| - 1], steps[|steps| - 1];
    if k < |FlatMap(init, FreeOf)| {
      j := PickedAt(init, k);
    } else {
      j := |steps| - 1;
    }
  }

  /** When a container is started anywhere, every machine had been asked for all that must not run on it, rack's own
      containers, those of other engines and, where rack runs, the port, and answered that none of it does. */
  lemma EveryGuardPassed(site: Site, job: Job, facts: Facts, nodes: seq<Node>, mode: Mode, external: bool,
                         answers: Answers, i: nat, k: nat) returns (j: nat)
    requires nodes != [] && Up(site, job, facts, nodes, mode, external).Ok? && k < |nodes|
    requires var plan := Planned(site, job, facts, nodes, mode, external);
             Tried(plan, answers, i) && (IsStart(plan[i]) || IsLaunch(plan[i]))
    ensures var plan := Planned(site, job, facts, nodes, mode, external);
            j < i && GuardSays(site, job.port, nodes[k], plan[j]) && answers(j)
  {
    hide *;
    var plan := Planned(site, job, facts, nodes, mode, external);
    PlannedIs(site, job, facts, nodes, mode, external);
    TriedIs(plan, answers, i);
    GuardsSay(site, job, facts, nodes, mode, external);
    j := PickedAt(plan, k);
    UpOrdered(site, job, facts, nodes, mode, external);
    GuardBefore(plan, i, j);
    EarlierWent(plan, answers, i, j);
    FreeWent(plan, answers, j);
  }

  /** No container is started, on any machine, and no rank launched, before every machine's guard passed, one that asks
      for all that must not run there; and no rank is launched before every container runs. */
  lemma GuardedStarts(site: Site, job: Job, facts: Facts, nodes: seq<Node>, mode: Mode, external: bool,
                      answers: Answers, i: nat, j: nat)
    requires nodes != [] && Up(site, job, facts, nodes, mode, external).Ok?
    requires var plan := Planned(site, job, facts, nodes, mode, external); Tried(plan, answers, i) && j < |plan|
    ensures var plan := Planned(site, job, facts, nodes, mode, external);
            IsStart(plan[i]) || IsLaunch(plan[i]) ==>
              forall k: nat :: k < |nodes| ==>
                exists g: nat :: g < i && GuardSays(site, job.port, nodes[k], plan[g]) && answers(g)
    ensures var plan := Planned(site, job, facts, nodes, mode, external);
            && (IsStart(plan[i]) && plan[j].Free? ==> Went(plan, answers, j))
            && (IsLaunch(plan[i]) && (plan[j].Free? || IsStart(plan[j])) ==> Went(plan, answers, j))
            && (plan[i].Wait? && (plan[j].Free? || IsStart(plan[j]) || IsLaunch(plan[j])) ==> Went(plan, answers, j))
  {
    hide Up, Went, Progress;
    var plan := Planned(site, job, facts, nodes, mode, external);
    UpOrdered(site, job, facts, nodes, mode, external);
    assert Phase(plan[i]) <= 7 && Phase(plan[j]) <= 7;
    if 0 < Phase(plan[j]) < Phase(plan[i]) {
      EarlierWent(plan, answers, i, j);
    }
    hide GuardSays;
    forall k: nat | k < |nodes| && (IsStart(plan[i]) || IsLaunch(plan[i]))
      ensures exists g: nat :: g < i && GuardSays(site, job.port, nodes[k], plan[g]) && answers(g)
    {
      var g := EveryGuardPassed(site, job, facts, nodes, mode, external, answers, i, k);
    }
  }

  lemma PlannedIs(site: Site, job: Job, facts: Facts, nodes: seq<Node>, mode: Mode, external: bool)
    requires nodes != [] && Up(site, job, facts, nodes, mode, external).Ok?
    ensures Planned(site, job, facts, nodes, mode, external) == Up(site, job, facts, nodes, mode, external).value
  {
    hide Up;
  }

  lemma TriedIs(steps: seq<Step>, answers: Answers, i: nat)
    requires Tried(steps, answers, i)
    ensures i < |steps|
  {
  }

  lemma GuardBefore(plan: seq<Step>, i: nat, j: nat)
    requires i < |plan| && j < |plan| && plan[j].Free? && (IsStart(plan[i]) || IsLaunch(plan[i])) && UpTo(plan, 7)
    ensures 0 < Phase(plan[j]) < Phase(plan[i])
  {
  }

  lemma FreeWent(plan: seq<Step>, answers: Answers, j: nat)
    requires j < |plan| && plan[j].Free? && Went(plan, answers, j)
    ensures answers(j)
  {
  }

  /** The steps an up-already step runs are only boot-unit chores. */
  ghost predicate Harmless(steps: seq<Step>) {
    forall k :: 0 <= k < |steps| && steps[k].UpAlready? ==> Only(steps[k].meanwhile, 0)
  }

  lemma StepsHarmless(site: Site, job: Job, facts: Facts, nodes: seq<Node>, mode: Mode)
    requires nodes != []
    ensures Harmless(Steps(site, job, facts, nodes, mode))
  {
    hide BootUnit, Guards, Prepared, Containers, Equipped, Launches, Closing, Phase, Only;
    AlreadyFirst(site, job, facts, nodes, mode);
    Parts(site, job, facts, nodes, mode);
    BootOnly(job, facts, nodes[0]);
    OnlyNothing();
    var steps := Steps(site, job, facts, nodes, mode);
    var opening := Opening(job, facts, nodes, mode);
    if steps != [] && steps[0].UpAlready? {
      if opening == [] {
        GuardsLead(site, job, nodes, mode);
        assert false;
      } else {
        assert steps[0] == opening[0];
      }
    }
  }

  lemma OnlyNothing()
    ensures Only([], 0)
  {
  }

  /** The guards start with the head's: its free step, after the removal of its engine when it is replaced. */
  lemma GuardsLead(site: Site, job: Job, nodes: seq<Node>, mode: Mode)
    requires nodes != []
    ensures var guards, replace := Guards(site, job, nodes, mode), mode.replace || mode.boot;
            && GuardFor(site, job.port, replace, nodes[0]) <= guards
            && guards != [] && !guards[0].UpAlready?
            && (replace ==> |guards| >= 2 && guards[0].Run? && guards[1].Free?)
  {
    var f := Guard(site, job.port, mode.replace || mode.boot);
    EachLeads(nodes, f);
    assert f(0, nodes[0]) == GuardFor(site, job.port, mode.replace || mode.boot, nodes[0]);
  }

  lemma {:induction false} EachLeads(nodes: seq<Node>, f: PerNode)
    requires nodes != []
    ensures f(0, nodes[0]) <= Each(nodes, f)
  {
    if |nodes| == 1 {
      assert nodes[..0] == [];
    } else {
      EachLeads(nodes[..|nodes| - 1], f);
    }
  }

  lemma UpHarmless(site: Site, job: Job, facts: Facts, nodes: seq<Node>, mode: Mode, external: bool)
    requires nodes != [] && Up(site, job, facts, nodes, mode, external).Ok?
    ensures Harmless(Planned(site, job, facts, nodes, mode, external))
  {
    hide Steps, NodeRefusal, ModRefusal, Only, ExternalAt;
    StepsHarmless(site, job, facts, nodes, mode);
    var steps := Steps(site, job, facts, nodes, mode);
    var at := ExternalAt(steps);
    var plan := Planned(site, job, facts, nodes, mode, external);
    forall k | 0 <= k < |plan| && plan[k].UpAlready?
      ensures Only(plan[k].meanwhile, 0)
    {
      var k' := if external && k > at then k - 1 else k;
      assert plan[k] == steps[k'];
    }
  }

  lemma {:induction false} NoRecords(steps: seq<Step>, record: Option<Serving>)
    requires forall k :: 0 <= k < |steps| ==> !steps[k].Record?
    ensures RecordedAll(steps, record) == record
            || (RecordedAll(steps, record) == None && record.Some? && record.value.external)
    ensures Only(steps, 0) ==> RecordedAll(steps, record) == record
  {
    if steps != [] {
      var init := steps[..|steps| - 1];
      NoRecords(init, record);
      assert Phase(steps[|steps| - 1]) == 2 <==> steps[|steps| - 1].ExternalFirst?;
    }
  }

  /** serving.json names the recipe exactly when every step went through, the wait for health included; otherwise
      it says what it said, or nothing once an external engine was stopped. */
  lemma RecordedLast(site: Site, job: Job, facts: Facts, nodes: seq<Node>, mode: Mode, external: bool,
                     answers: Answers, inner: Answers, before: Option<Serving>)
    requires nodes != [] && Up(site, job, facts, nodes, mode, external).Ok?
    ensures var plan := Planned(site, job, facts, nodes, mode, external);
            var (outcome, carried) := Carried(plan, answers, inner);
            && (outcome == Completed <==> forall k :: 0 <= k < |plan| ==> GoesOn(plan[k], answers(k)))
            && (outcome == Completed <==> exists k :: 0 <= k < |carried| && carried[k].Record?)
            && (outcome == Completed ==> RecordedAll(carried, before) == Some(Serving(job.recipe, false)))
            && (outcome != Completed ==>
                 RecordedAll(carried, before) == before
                 || (before.Some? && before.value.external && RecordedAll(carried, before) == None))
  {
    hide Up, Only, Ordered, UpTo;
    var plan := Planned(site, job, facts, nodes, mode, external);
    UpOrdered(site, job, facts, nodes, mode, external);
    UpHarmless(site, job, facts, nodes, mode, external);
    var (outcome, carried) := Carried(plan, answers, inner);
    var n := Progress(plan, answers);
    if n == |plan| {
      assert carried[|plan| - 1].Record?;
    } else {
      forall k | 0 <= k < |carried|
        ensures !carried[k].Record?
      {
        if k >= n {
          NoRecordInside(plan[n].meanwhile);
          assert carried[k] == plan[n].meanwhile[k - n];
        }
      }
      NoRecords(carried, before);
    }
  }

  lemma NoRecordInside(steps: seq<Step>)
    requires Only(steps, 0)
    ensures forall k :: 0 <= k < |steps| ==> !steps[k].Record?
  {
    forall k | 0 <= k < |steps|
      ensures !steps[k].Record?
    {
      assert Phase(steps[k]) == 0;
    }
  }

  // --------------------------------------------------------------- when a guard refuses

  /** Steps that only ask. */
  predicate Looks(s: Step) { s.UpAlready? || s.Reach? || s.Free? || s.SameImage? || s.Wait? }

  /** A step that goes through changes a machine or serving.json: a command, a file, a download, or the external
      engine that serving.json (before) names, which is stopped and forgotten. */
  predicate Touches(s: Step, before: Option<Serving>) {
    !Looks(s) && (s.ExternalFirst? ==> before.Some? && before.value.external)
  }

  ghost predicate Untouched(steps: seq<Step>, before: Option<Serving>) {
    forall k :: 0 <= k < |steps| ==> !Touches(steps[k], before)
  }

  ghost predicate Guardless(steps: seq<Step>) { forall k :: 0 <= k < |steps| ==> !steps[k].Free? }

  /** Nothing is touched before the last guard. */
  ghost predicate GuardsFirst(steps: seq<Step>, before: Option<Serving>) {
    forall j, k :: 0 <= j < k < |steps| && Touches(steps[j], before) ==> !steps[k].Free?
  }

  lemma NotFree(steps: seq<Step>, p: nat)
    requires Only(steps, p) && p != 3
    ensures Guardless(steps)
  {
    forall k | 0 <= k < |steps|
      ensures !steps[k].Free?
    {
      assert Phase(steps[k]) != 3;
    }
  }

  lemma {:induction false} EachUntouched(nodes: seq<Node>, f: PerNode, before: Option<Serving>)
    requires forall rank: nat, n: Node :: Untouched(f(rank, n), before)
    ensures Untouched(Each(nodes, f), before)
  {
    hide Touches;
    if nodes != [] {
      EachUntouched(nodes[..|nodes| - 1], f, before);
      assert Untouched(f(|nodes| - 1, nodes[|nodes| - 1]), before);
    }
  }

  lemma Joined(a: seq<Step>, b: seq<Step>, before: Option<Serving>)
    ensures Untouched(a + b, before) <==> Untouched(a, before) && Untouched(b, before)
    ensures Guardless(a + b) <==> Guardless(a) && Guardless(b)
    ensures GuardsFirst(a + b, before) <==>
            GuardsFirst(a, before) && GuardsFirst(b, before) && (Untouched(a, before) || Guardless(b))
  {
    hide Touches;
    var both := a + b;
    assert forall k :: 0 <= k < |a| ==> both[k] == a[k];
    assert forall k :: 0 <= k < |b| ==> both[|a| + k] == b[k];
    JoinedOrder(a, b, before);
  }

  lemma JoinedOrder(a: seq<Step>, b: seq<Step>, before: Option<Serving>)
    ensures GuardsFirst(a + b, before) <==>
            GuardsFirst(a, before) && GuardsFirst(b, before) && (Untouched(a, before) || Guardless(b))
  {
    hide Touches;
    var both := a + b;
    assert forall k :: 0 <= k < |a| ==> both[k] == a[k];
    assert forall k :: |a| <= k < |both| ==> both[k] == b[k - |a|];
    if GuardsFirst(both, before) {
      assert forall k :: 0 <= k < |b| ==> both[|a| + k] == b[k];
    }
  }

  lemma Alone(s: Step, before: Option<Serving>)
    ensures GuardsFirst([s], before) && (Untouched([s], before) <==> !Touches(s, before))
            && (Guardless([s]) <==> !s.Free?)
  {
    hide Touches;
    assert [s][0] == s;
  }

  lemma StepsGuarded(site: Site, job: Job, facts: Facts, nodes: seq<Node>, mode: Mode, before: Option<Serving>)
    requires nodes != []
    ensures GuardsFirst(Steps(site, job, facts, nodes, mode), before) <==> !mode.replace && !mode.boot
    ensures !Guardless(Steps(site, job, facts, nodes, mode))
  {
    hide Opening, Guards, Prepared, Containers, Equipped, Launches, Closing, GuardsFirst, Untouched, Guardless;
    var opening, guards := Opening(job, facts, nodes, mode), Guards(site, job, nodes, mode);
    var rest := Prepared(job, nodes) + Containers(site, job, facts, nodes)
      + Equipped(site, job, nodes) + Launches(site, job, nodes) + Closing(job, facts, nodes);
    assert Steps(site, job, facts, nodes, mode) == opening + guards + rest;
    Joined(opening, guards, before);
    Joined(opening + guards, rest, before);
    OpeningLooks(job, facts, nodes, mode, before);
    GuardsGuard(site, job, nodes, mode, before);
    RestGuardless(site, job, facts, nodes, mode);
    Either(opening, before);
    Either(guards, before);
    Either(rest, before);
  }

  lemma Either(steps: seq<Step>, before: Option<Serving>)
    ensures Untouched(steps, before) || Guardless(steps) ==> GuardsFirst(steps, before)
  {
    hide Touches;
  }

  lemma OpeningLooks(job: Job, facts: Facts, nodes: seq<Node>, mode: Mode, before: Option<Serving>)
    requires nodes != []
    ensures Untouched(Opening(job, facts, nodes, mode), before)
  {
    hide BootUnit;
  }

  lemma GuardsGuard(site: Site, job: Job, nodes: seq<Node>, mode: Mode, before: Option<Serving>)
    requires nodes != []
    ensures var guards := Guards(site, job, nodes, mode);
            && !Guardless(guards)
            && (mode.replace || mode.boot ==> !GuardsFirst(guards, before))
            && (!mode.replace && !mode.boot ==> Untouched(guards, before))
  {
    hide Guards;
    GuardsLead(site, job, nodes, mode);
    if !mode.replace && !mode.boot {
      GuardsPlain(site, job, nodes, mode);
      EachUntouched(nodes, Guard(site, job.port, false), before);
    }
  }

  lemma GuardsPlain(site: Site, job: Job, nodes: seq<Node>, mode: Mode)
    requires !mode.replace && !mode.boot
    ensures Guards(site, job, nodes, mode) == Each(nodes, Guard(site, job.port, false))
  {
  }

  lemma RestGuardless(site: Site, job: Job, facts: Facts, nodes: seq<Node>, mode: Mode)
    requires nodes != []
    ensures Guardless(Prepared(job, nodes) + Containers(site, job, facts, nodes)
              + Equipped(site, job, nodes) + Launches(site, job, nodes) + Closing(job, facts, nodes))
  {
    hide Prepared, Containers, Equipped, Launches, Closing, Phase, Only;
    Parts(site, job, facts, nodes, mode);
    NotFree(Prepared(job, nodes), 0);
    NotFree(Containers(site, job, facts, nodes), 4);
    NotFree(Equipped(site, job, nodes), 0);
    NotFree(Launches(site, job, nodes), 5);
    NotFree(Closing(job, facts, nodes), 6);
  }

  lemma UpGuarded(site: Site, job: Job, facts: Facts, nodes: seq<Node>, mode: Mode, external: bool,
                  before: Option<Serving>)
    requires nodes != [] && Up(site, job, facts, nodes, mode, external).Ok?
    ensures GuardsFirst(Planned(site, job, facts, nodes, mode, external), before)
       <==> !mode.replace && !mode.boot && !(external && before.Some? && before.value.external)
  {
    hide Steps, NodeRefusal, ModRefusal, GuardsFirst, Touches, Guardless, ExternalAt;
    var steps, last := Steps(site, job, facts, nodes, mode), Record(nodes[0].name, job.recipe);
    StepsGuarded(site, job, facts, nodes, mode, before);
    Alone(last, before);
    if external {
      var at, x := ExternalAt(steps), ExternalFirst(nodes[0].name, mode.replace);
      assert steps == steps[..at] + steps[at..];
      Alone(x, before);
      OpensWithout(site, job, facts, nodes, mode);
      Inserted(steps[..at], x, steps[at..], last, before);
      TouchesExternal(x, before);
    } else {
      Joined(steps, [last], before);
    }
  }

  /** What stands before an external engine's step holds no guard. */
  lemma OpensWithout(site: Site, job: Job, facts: Facts, nodes: seq<Node>, mode: Mode)
    requires nodes != []
    ensures var steps := Steps(site, job, facts, nodes, mode); Guardless(steps[..ExternalAt(steps)])
  {
    hide Steps;
    AlreadyFirst(site, job, facts, nodes, mode);
  }

  lemma TouchesExternal(s: Step, before: Option<Serving>)
    requires s.ExternalFirst?
    ensures Touches(s, before) <==> before.Some? && before.value.external
  {
  }

  /** A step put before the guards keeps them first exactly when it touches nothing. */
  lemma Inserted(a: seq<Step>, x: Step, b: seq<Step>, last: Step, before: Option<Serving>)
    requires Guardless(a) && !Guardless(a + b) && !x.Free? && last.Record?
    ensures GuardsFirst(a + [x] + b + [last], before) <==> GuardsFirst(a + b, before) && !Touches(x, before)
  {
    hide Touches, GuardsFirst, Guardless, Untouched;
    Alone(x, before);
    Alone(last, before);
    Joined(a, b, before);
    Joined(a, [x], before);
    Joined(a + [x], b, before);
    Joined(a + [x] + b, [last], before);
  }

  /** The run stopped at a guard. */
  predicate Refused(plan: seq<Step>, answers: Answers) {
    Progress(plan, answers) < |plan| && plan[Progress(plan, answers)].Free?
  }

  /** A run that a guard refused leaves every machine as it was, and serving.json, which says before, too. */
  ghost predicate RefusalTouchesNothing(plan: seq<Step>, before: Option<Serving>) {
    forall answers: Answers, inner: Answers, s ::
      (Refused(plan, answers) && s in Carried(plan, answers, inner).1) ==> !Touches(s, before)
  }

  /** That holds for a plan exactly when it neither replaces an engine nor re-forms one after a boot, which remove
      rack's own engine from a machine before the guard of the next one can refuse, nor has an external engine to
      stop, which it does before any guard. */
  lemma RefusalWhen(site: Site, job: Job, facts: Facts, nodes: seq<Node>, mode: Mode, external: bool,
                    before: Option<Serving>)
    requires nodes != [] && Up(site, job, facts, nodes, mode, external).Ok?
    ensures RefusalTouchesNothing(Planned(site, job, facts, nodes, mode, external), before)
       <==> !mode.replace && !mode.boot && !(external && before.Some? && before.value.external)
  {
    hide Up, Planned, Touches;
    var plan := Planned(site, job, facts, nodes, mode, external);
    UpGuarded(site, job, facts, nodes, mode, external, before);
    if GuardsFirst(plan, before) {
      forall answers: Answers, inner: Answers, s | Refused(plan, answers) && s in Carried(plan, answers, inner).1
        ensures !Touches(s, before)
      {
        var j :| 0 <= j < Progress(plan, answers) && plan[j] == s;
      }
    } else {
      var j, k :| 0 <= j < k < |plan| && Touches(plan[j], before) && plan[k].Free?;
      var answers := RefusedAt(plan, k);
      assert plan[j] == plan[..k][j] && plan[j] in Carried(plan, answers, answers).1;
    }
  }

  /** Every guard can be the one that refuses, after all that stands before it. */
  lemma RefusedAt(plan: seq<Step>, k: nat) returns (answers: Answers)
    requires k < |plan| && plan[k].Free?
    ensures Refused(plan, answers) && forall inner: Answers :: Carried(plan, answers, inner).1 == plan[..k]
  {
    answers := i => i != k;
    assert Progress(plan, answers) == k;
  }

  // ------------------------------------------------------------ serving.json when a guard refuses

  function ExternalOf(s: Step): seq<string> { if s.ExternalFirst? then [s.node] else [] }

  lemma StepsExternalless(site: Site, job: Job, facts: Facts, nodes: seq<Node>, mode: Mode)
    requires nodes != []
    ensures forall k :: 0 <= k < |Steps(site, job, facts, nodes, mode)| ==>
            !Steps(site, job, facts, nodes, mode)[k].ExternalFirst?
  {
    hide Steps;
    var steps := Steps(site, job, facts, nodes, mode);
    assert Picks(ExternalOf, 2);
    PickedFrom(site, job, facts, nodes, mode, ExternalOf, 2);
    forall k | 0 <= k < |steps|
      ensures !steps[k].ExternalFirst?
    {
      if steps[k].ExternalFirst? {
        FlatMapSomething(steps, ExternalOf, k);
      }
    }
  }

  lemma {:induction false} Forgets(steps: seq<Step>, before: Option<Serving>)
    requires forall k :: 0 <= k < |steps| ==> !steps[k].Record?
    ensures (exists k :: 0 <= k < |steps| && steps[k].ExternalFirst?) && before.Some? && before.value.external ==>
              RecordedAll(steps, before) == None
    ensures (forall k :: 0 <= k < |steps| ==> !steps[k].ExternalFirst?) ==> RecordedAll(steps, before) == before
  {
    if steps != [] {
      var init := steps[..|steps| - 1];
      Forgets(init, before);
      NoRecords(init, before);
    }
  }

  /** A plan that meets a recorded external engine has a run in which that engine is stopped and serving.json
      removed, and only then a guard refuses: nothing serves, and nothing is recorded. */
  lemma StoppedThenRefused(site: Site, job: Job, facts: Facts, nodes: seq<Node>, mode: Mode, before: Option<Serving>)
    returns (answers: Answers)
    requires nodes != [] && Up(site, job, facts, nodes, mode, true).Ok?
    ensures var plan := Planned(site, job, facts, nodes, mode, true);
            && Refused(plan, answers)
            && forall inner: Answers :: var carried := Carried(plan, answers, inner).1;
                 && ExternalFirst(nodes[0].name, mode.replace) in carried
                 && (before.Some? && before.value.external ==> RecordedAll(carried, before) == None)
  {
    hide Steps, NodeRefusal, ModRefusal, ExternalAt, RecordedAll, Ordered, UpTo, GuardsFirst, Touches;
    var steps := Steps(site, job, facts, nodes, mode);
    StepsGuarded(site, job, facts, nodes, mode, before);
    AlreadyFirst(site, job, facts, nodes, mode);
    UpOrdered(site, job, facts, nodes, mode, true);
    var free :| 0 <= free < |steps| && steps[free].Free?;
    var at, x, last := ExternalAt(steps), ExternalFirst(nodes[0].name, mode.replace), Record(nodes[0].name, job.recipe);
    var plan := Planned(site, job, facts, nodes, mode, true);
    assert plan == steps[..at] + [x] + steps[at..] + [last];
    assert free >= at;
    assert plan[free + 1] == steps[free];
    answers := RefusedAt(plan, free + 1);
    var early := plan[..free + 1];
    assert early[at] == x;
    Forgets(early, before);
  }

  /** Whatever a guard refuses, serving.json says what it said, exactly when there is no external engine to stop. */
  ghost predicate RefusalKeepsRecord(plan: seq<Step>, before: Option<Serving>) {
    forall answers: Answers, inner: Answers ::
      Refused(plan, answers) ==> RecordedAll(Carried(plan, answers, inner).1, before) == before
  }

  lemma RecordKeptWhen(site: Site, job: Job, facts: Facts, nodes: seq<Node>, mode: Mode, external: bool,
                       before: Option<Serving>)
    requires nodes != [] && Up(site, job, facts, nodes, mode, external).Ok?
    ensures RefusalKeepsRecord(Planned(site, job, facts, nodes, mode, external), before)
       <==> !(external && before.Some? && before.value.external)
  {
    hide Steps, NodeRefusal, ModRefusal, ExternalAt, RecordedAll, Ordered, UpTo;
    var plan := Planned(site, job, facts, nodes, mode, external);
    if external && before.Some? && before.value.external {
      var answers := StoppedThenRefused(site, job, facts, nodes, mode, before);
      assert RecordedAll(Carried(plan, answers, answers).1, before) == None;
    } else {
      UpOrdered(site, job, facts, nodes, mode, external);
      StepsExternalless(site, job, facts, nodes, mode);
      forall answers: Answers, inner: Answers | Refused(plan, answers)
        ensures RecordedAll(Carried(plan, answers, inner).1, before) == before
      {
        var early := plan[..Progress(plan, answers)];
        assert Carried(plan, answers, inner).1 == early;
        NoRecords(early, before);
        Forgets(early, before);
        assert !external ==> forall k :: 0 <= k < |early| ==> early[k] == Steps(site, job, facts, nodes, mode)[k];
      }
    }
  }

  /** In every mode, a run that a guard refused started no container, launched no rank and recorded nothing. */
  lemma RefusedStartsNothing(site: Site, job: Job, facts: Facts, nodes: seq<Node>, mode: Mode, external: bool,
                             answers: Answers, inner: Answers, s: Step)
    requires nodes != [] && Up(site, job, facts, nodes, mode, external).Ok?
    requires var plan := Planned(site, job, facts, nodes, mode, external);
             Refused(plan, answers) && s in Carried(plan, answers, inner).1
    ensures !IsStart(s) && !IsLaunch(s) && !s.Record?
  {
    hide Up;
    var plan := Planned(site, job, facts, nodes, mode, external);
    UpOrdered(site, job, facts, nodes, mode, external);
    var n := Progress(plan, answers);
    var j :| 0 <= j < n && plan[j] == s;
    assert Phase(plan[n]) == 3 && Phase(plan[j]) <= 7;
  }
}
