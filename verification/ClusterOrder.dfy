/** The order every cluster plan keeps, for any number of machines. */
module ClusterOrder {
  import opened Prelude
  import opened ClusterPlan

  predicate IsStart(s: Step) { s.Run? && |s.argv| >= 2 && s.argv[0] == "docker" && s.argv[1] == "run" }

  predicate IsLaunch(s: Step) {
    s.Run? && |s.argv| >= 3 && s.argv[0] == "docker" && s.argv[1] == "exec" && s.argv[2] == "-d"
  }

  /** What a step is for: 0 for those whose place is not at issue, 8 for a start or launch whose failure would
      be overlooked, which no plan has. */
  function Phase(s: Step): nat {
    if s.UpAlready? then 1
    else if s.ExternalFirst? then 2
    else if s.Free? then 3
    else if (IsStart(s) || IsLaunch(s)) && s.ignoreErrors then 8
    else if IsStart(s) then 4
    else if IsLaunch(s) then 5
    else if s.Wait? then 6
    else if s.Record? then 7
    else 0
  }

  /** Phases never go back. */
  ghost predicate Ordered(steps: seq<Step>) {
    forall i, j :: 0 <= i < j < |steps| && Phase(steps[i]) > 0 && Phase(steps[j]) > 0
        ==> Phase(steps[i]) <= Phase(steps[j])
  }

  ghost predicate Only(steps: seq<Step>, p: nat) {
    forall k :: 0 <= k < |steps| ==> Phase(steps[k]) == 0 || Phase(steps[k]) == p
  }

  ghost predicate UpTo(steps: seq<Step>, p: nat) {
    forall k :: 0 <= k < |steps| ==> Phase(steps[k]) <= p
  }

  lemma Grow(a: seq<Step>, b: seq<Step>, p: nat, q: nat)
    requires Ordered(a) && UpTo(a, p) && Only(b, q) && p <= q
    ensures Ordered(a + b) && UpTo(a + b, q)
  {
    hide Phase;
  }

  lemma {:induction false} EachOnly(nodes: seq<Node>, f: PerNode, p: nat)
    requires forall rank: nat, n: Node :: Only(f(rank, n), p)
    ensures Only(Each(nodes, f), p) && Only(EachDown(nodes, f), p)
  {
    hide Phase;
    if nodes != [] {
      EachOnly(nodes[..|nodes| - 1], f, p);
      assert Only(f(|nodes| - 1, nodes[|nodes| - 1]), p);
    }
  }

  lemma {:induction false} ModsOnly(site: Site, nodes: seq<Node>, mods: seq<string>)
    ensures Only(ModSteps(site, nodes, mods), 0)
  {
    if mods != [] {
      var m := mods[|mods| - 1];
      ModsOnly(site, nodes, mods[..|mods| - 1]);
      if m != "" && m in site.mods {
        EachOnly(nodes, Modded(site.mods[m], m), 0);
      }
    }
  }

  lemma GuardsOnly(site: Site, port: nat, replace: bool, n: Node)
    ensures Only(GuardFor(site, port, replace, n), 3)
    ensures FlatMap(GuardFor(site, port, replace, n), GuardOf) == [n.name]
  {
    var out := GuardFor(site, port, replace, n);
    FlatMapNothing(out[..|out| - 1], GuardOf);
    assert FlatMap(out, GuardOf) == FlatMap(out[..|out| - 1], GuardOf) + GuardOf(out[|out| - 1]);
  }

  lemma ContainersOnly(site: Site, job: Job, facts: Facts, head: Node, rank: nat, n: Node)
    ensures Only(ContainerFor(site, job, facts, head, rank, n), 4)
    ensures FlatMap(ContainerFor(site, job, facts, head, rank, n), StartOf) == [n.name]
  {
    hide DockerCommon, NodeEnv, Caches;
    var out := ContainerFor(site, job, facts, head, rank, n);
    assert out[0].argv[0] == "mkdir" && out[1].argv[1] == "rm" && out[2].argv[0] == "docker" && out[2].argv[1] == "run";
    ThirdOnly(out, StartOf);
  }

  lemma LaunchOnly(site: Site, job: Job, head: Node, total: nat, rank: nat, n: Node)
    ensures Only(LaunchFor(site, job, head, total, rank, n), 5)
    ensures FlatMap(LaunchFor(site, job, head, total, rank, n), LaunchOf) == [n.name]
  {
    hide Command;
    var out := LaunchFor(site, job, head, total, rank, n);
    assert out[0].argv[1] == "exec" && out[0].argv[2] == "-w" && out[0].argv[2][1] == 'w';
    assert out[2].argv[0] == "docker" && out[2].argv[1] == "exec" && out[2].argv[2] == "-d";
    ThirdOnly(out, LaunchOf);
  }

  lemma ThirdOnly(out: seq<Step>, g: Step -> seq<string>)
    requires |out| == 3 && g(out[0]) == [] && g(out[1]) == []
    ensures FlatMap(out, g) == g(out[2])
  {
    FlatMapNothing(out[..2], g);
  }

  function GuardOf(s: Step): seq<string> { if s.Free? then [s.node] else [] }

  function StartOf(s: Step): seq<string> { if IsStart(s) && !s.ignoreErrors then [s.node] else [] }

  function LaunchOf(s: Step): seq<string> { if IsLaunch(s) && !s.ignoreErrors then [s.node] else [] }

  lemma WatchOnly(site: Site, n: Node)
    ensures Only(WatchFor(site, n), 0) && Only(DropCaches(n), 0)
  {
  }

  lemma BootOnly(job: Job, facts: Facts, head: Node)
    ensures Only(BootUnit(job, facts, head), 0)
  {
  }

  lemma {:induction false} EachNames(nodes: seq<Node>, f: PerNode, g: Step -> seq<string>)
    requires forall rank: nat, n: Node :: FlatMap(f(rank, n), g) == [n.name]
    ensures FlatMap(Each(nodes, f), g) == Names(nodes)
  {
    if nodes != [] {
      var init, n := nodes[..|nodes| - 1], nodes[|nodes| - 1];
      EachNames(init, f, g);
      FlatMapAppend(Each(init, f), f(|nodes| - 1, n), g);
      assert Names(nodes) == Names(init) + [n.name];
    }
  }

  function Backwards(names: seq<string>): (b: seq<string>)
    ensures |b| == |names|
    ensures forall k :: 0 <= k < |names| ==> b[k] == names[|names| - 1 - k]
  {
    seq(|names|, k requires 0 <= k < |names| => names[|names| - 1 - k])
  }

  lemma {:induction false} EachDownNames(nodes: seq<Node>, f: PerNode, g: Step -> seq<string>)
    requires forall rank: nat, n: Node :: FlatMap(f(rank, n), g) == [n.name]
    ensures FlatMap(EachDown(nodes, f), g) == Backwards(Names(nodes))
  {
    if nodes != [] {
      var init, n := nodes[..|nodes| - 1], nodes[|nodes| - 1];
      EachDownNames(init, f, g);
      FlatMapAppend(f(|nodes| - 1, n), EachDown(init, f), g);
      hide FlatMap;
      BackwardsSnoc(nodes);
    }
  }

  lemma BackwardsSnoc(nodes: seq<Node>)
    requires nodes != []
    ensures Backwards(Names(nodes)) == [nodes[|nodes| - 1].name] + Backwards(Names(nodes[..|nodes| - 1]))
  {
  }

  /** A projection that picks steps of one phase. */
  ghost predicate Picks(g: Step -> seq<string>, p: nat) {
    p > 0 && forall s :: Phase(s) != p ==> g(s) == []
  }

  lemma OthersEmpty(steps: seq<Step>, q: nat, g: Step -> seq<string>, p: nat)
    requires Only(steps, q) && Picks(g, p) && p != q
    ensures FlatMap(steps, g) == []
  {
    hide Phase;
    FlatMapNothing(steps, g);
  }

  // ------------------------------------------------------------------- the parts of a plan

  /** The seven parts, each with the one phase its steps may have. */
  ghost predicate Parted(site: Site, job: Job, facts: Facts, nodes: seq<Node>, mode: Mode)
    requires nodes != []
  {
    && Only(Opening(job, facts, nodes, mode), 1)
    && Only(Guards(site, job, nodes, mode), 3)
    && Only(Prepared(job, nodes), 0)
    && Only(Containers(site, job, facts, nodes), 4)
    && Only(Equipped(site, job, nodes), 0)
    && Only(Launches(site, job, nodes), 5)
    && Only(Closing(job, facts, nodes), 6)
  }

  lemma Parts(site: Site, job: Job, facts: Facts, nodes: seq<Node>, mode: Mode)
    requires nodes != []
    ensures Parted(site, job, facts, nodes, mode)
  {
    hide Guards, Containers, Launches, Prepared, Equipped, Opening, Closing, Only;
    GuardsAre(site, job, nodes, mode);
    ContainersAre(site, job, facts, nodes);
    LaunchesAre(site, job, nodes);
    PreparedIs(job, nodes);
    EquippedIs(site, job, nodes);
    EndsAre(job, facts, nodes, mode);
  }

  lemma EndsAre(job: Job, facts: Facts, nodes: seq<Node>, mode: Mode)
    requires nodes != []
    ensures Only(Opening(job, facts, nodes, mode), 1) && Only(Closing(job, facts, nodes), 6)
  {
    BootOnly(job, facts, nodes[0]);
    hide BootUnit;
  }

  lemma GuardsAre(site: Site, job: Job, nodes: seq<Node>, mode: Mode)
    ensures Only(Guards(site, job, nodes, mode), 3)
    ensures FlatMap(Guards(site, job, nodes, mode), GuardOf) == Names(nodes)
  {
    hide GuardFor, Only, GuardOf;
    var replace := mode.replace || mode.boot;
    var f := Guard(site, job.port, replace);
    forall rank: nat, n: Node
      ensures Only(f(rank, n), 3) && FlatMap(f(rank, n), GuardOf) == [n.name]
    {
      GuardsOnly(site, job.port, replace, n);
    }
    EachOnly(nodes, f, 3);
    EachNames(nodes, f, GuardOf);
  }

  lemma ContainersAre(site: Site, job: Job, facts: Facts, nodes: seq<Node>)
    requires nodes != []
    ensures Only(Containers(site, job, facts, nodes), 4)
    ensures FlatMap(Containers(site, job, facts, nodes), StartOf) == Names(nodes)
  {
    hide ContainerFor, Only, StartOf;
    var f := Container(site, job, facts, nodes[0]);
    forall rank: nat, n: Node
      ensures Only(f(rank, n), 4) && FlatMap(f(rank, n), StartOf) == [n.name]
    {
      ContainersOnly(site, job, facts, nodes[0], rank, n);
    }
    EachOnly(nodes, f, 4);
    EachNames(nodes, f, StartOf);
  }

  lemma LaunchesAre(site: Site, job: Job, nodes: seq<Node>)
    requires nodes != []
    ensures Only(Launches(site, job, nodes), 5)
    ensures FlatMap(Launches(site, job, nodes), LaunchOf) == Backwards(Names(nodes))
  {
    hide LaunchFor, Only, LaunchOf;
    var f := Launch(site, job, nodes[0], |nodes|);
    forall rank: nat, n: Node
      ensures Only(f(rank, n), 5) && FlatMap(f(rank, n), LaunchOf) == [n.name]
    {
      LaunchOnly(site, job, nodes[0], |nodes|, rank, n);
    }
    EachOnly(nodes, f, 5);
    EachDownNames(nodes, f, LaunchOf);
  }

  lemma PreparedIs(job: Job, nodes: seq<Node>)
    requires nodes != []
    ensures Only(Prepared(job, nodes), 0)
  {
    EachOnly(nodes, Drop(), 0);
  }

  lemma EquippedIs(site: Site, job: Job, nodes: seq<Node>)
    requires nodes != []
    ensures Only(Equipped(site, job, nodes), 0)
  {
    hide WatchFor;
    forall rank: nat, n: Node
      ensures Only(Watch(site)(rank, n), 0)
    {
      WatchOnly(site, n);
    }
    EachOnly(nodes, Watch(site), 0);
    ModsOnly(site, nodes, job.mods);
  }

  /** Of the steps of a plan, those one projection picks come from one part. */
  lemma PickedFrom(site: Site, job: Job, facts: Facts, nodes: seq<Node>, mode: Mode, g: Step -> seq<string>, p: nat)
    requires nodes != [] && Picks(g, p)
    ensures FlatMap(Steps(site, job, facts, nodes, mode), g) ==
            (if p == 1 then FlatMap(Opening(job, facts, nodes, mode), g) else [])
            + (if p == 3 then FlatMap(Guards(site, job, nodes, mode), g) else [])
            + (if p == 4 then FlatMap(Containers(site, job, facts, nodes), g) else [])
            + (if p == 5 then FlatMap(Launches(site, job, nodes), g) else [])
            + (if p == 6 then FlatMap(Closing(job, facts, nodes), g) else [])
  {
    hide Opening, Guards, Prepared, Containers, Equipped, Launches, Closing, FlatMap, Phase, Only, Picks;
    Parts(site, job, facts, nodes, mode);
    var a, b, c := Opening(job, facts, nodes, mode), Guards(site, job, nodes, mode), Prepared(job, nodes);
    var d, e, f, h := Containers(site, job, facts, nodes), Equipped(site, job, nodes), Launches(site, job, nodes),
        Closing(job, facts, nodes);
    FlatMapAppend(a, b, g);
    FlatMapAppend(a + b, c, g);
    FlatMapAppend(a + b + c, d, g);
    FlatMapAppend(a + b + c + d, e, g);
    FlatMapAppend(a + b + c + d + e, f, g);
    FlatMapAppend(a + b + c + d + e + f, h, g);
    assert p > 0 by { assert Picks(g, p); PickedPositive(g, p); }
    OthersEmpty(c, 0, g, p);
    OthersEmpty(e, 0, g, p);
    if p != 1 { OthersEmpty(a, 1, g, p); }
    if p != 3 { OthersEmpty(b, 3, g, p); }
    if p != 4 { OthersEmpty(d, 4, g, p); }
    if p != 5 { OthersEmpty(f, 5, g, p); }
    if p != 6 { OthersEmpty(h, 6, g, p); }
  }

  lemma PickedPositive(g: Step -> seq<string>, p: nat)
    requires Picks(g, p)
    ensures p > 0
  {
  }

  lemma StepsOrdered(site: Site, job: Job, facts: Facts, nodes: seq<Node>, mode: Mode)
    requires nodes != []
    ensures Ordered(Steps(site, job, facts, nodes, mode)) && UpTo(Steps(site, job, facts, nodes, mode), 6)
  {
    hide Opening, Guards, Prepared, Containers, Equipped, Launches, Closing, Ordered, Only, UpTo;
    Parts(site, job, facts, nodes, mode);
    var a, b, c := Opening(job, facts, nodes, mode), Guards(site, job, nodes, mode), Prepared(job, nodes);
    var d, e, f, h := Containers(site, job, facts, nodes), Equipped(site, job, nodes), Launches(site, job, nodes),
        Closing(job, facts, nodes);
    Empty();
    Grow([], a, 0, 1);
    assert [] + a == a;
    Grow(a, b, 1, 3);
    NoneIs(c, 3);
    Grow(a + b, c, 3, 3);
    Grow(a + b + c, d, 3, 4);
    NoneIs(e, 4);
    Grow(a + b + c + d, e, 4, 4);
    Grow(a + b + c + d + e, f, 4, 5);
    Grow(a + b + c + d + e + f, h, 5, 6);
  }

  lemma Empty()
    ensures Ordered([]) && UpTo([], 0)
  {
  }

  lemma NoneIs(steps: seq<Step>, p: nat)
    requires Only(steps, 0)
    ensures Only(steps, p)
  {
    hide Phase;
  }

  // ------------------------------------------------------------------- the whole plan

  /** Only the first step can be an up-already. */
  lemma AlreadyFirst(site: Site, job: Job, facts: Facts, nodes: seq<Node>, mode: Mode)
    requires nodes != []
    ensures ExternalAt(Steps(site, job, facts, nodes, mode)) <= 1
    ensures forall k :: 0 < k < |Steps(site, job, facts, nodes, mode)| ==>
            !Steps(site, job, facts, nodes, mode)[k].UpAlready?
  {
    hide BootUnit, Guards, Prepared, Containers, Equipped, Launches, Closing, Phase;
    Parts(site, job, facts, nodes, mode);
    var steps := Steps(site, job, facts, nodes, mode);
    var rest := Guards(site, job, nodes, mode) + Prepared(job, nodes) + Containers(site, job, facts, nodes)
      + Equipped(site, job, nodes) + Launches(site, job, nodes) + Closing(job, facts, nodes);
    assert steps == Opening(job, facts, nodes, mode) + rest;
    forall k | 0 <= k < |rest|
      ensures !rest[k].UpAlready?
    {
      AlreadyPhase(rest[k]);
    }
    assert forall k :: 0 < k < |Opening(job, facts, nodes, mode)| ==> !Opening(job, facts, nodes, mode)[k].UpAlready?;
  }

  lemma AlreadyPhase(s: Step)
    ensures s.UpAlready? <==> Phase(s) == 1
  {
  }

  lemma InsertOrdered(head: string, steps: seq<Step>, external: bool, replace: bool)
    requires Ordered(steps) && UpTo(steps, 6) && ExternalAt(steps) <= 1
    requires forall k :: 0 < k < |steps| ==> Phase(steps[k]) != 1
    ensures Ordered(ExternalFirstIn(head, steps, external, replace))
            && UpTo(ExternalFirstIn(head, steps, external, replace), 6)
  {
    hide Phase, ExternalAt, Ordered, UpTo;
    var at, x := ExternalAt(steps), ExternalFirst(head, replace);
    if external {
      AlreadyAt(steps);
      ExternalPhase(head, replace);
      assert steps[..at] + steps[at..] == steps;
      InsertOne(steps[..at], steps[at..], x);
    }
  }

  lemma ExternalPhase(head: string, replace: bool)
    ensures Phase(ExternalFirst(head, replace)) == 2
  {
  }

  lemma AlreadyAt(steps: seq<Step>)
    requires ExternalAt(steps) <= 1 && forall k :: 0 < k < |steps| ==> Phase(steps[k]) != 1
    ensures forall k :: 0 <= k < |steps| ==> (k < ExternalAt(steps) <==> Phase(steps[k]) == 1)
  {
    hide Phase, ExternalAt;
    forall k | 0 <= k < |steps|
      ensures k < ExternalAt(steps) <==> Phase(steps[k]) == 1
    {
      AlreadyPhase(steps[k]);
    }
  }

  lemma InsertOne(a: seq<Step>, b: seq<Step>, x: Step)
    requires Ordered(a + b) && UpTo(a + b, 6) && Phase(x) == 2
    requires forall k :: 0 <= k < |a| ==> Phase(a[k]) == 1
    requires forall k :: 0 <= k < |b| ==> Phase(b[k]) != 1
    ensures Ordered(a + [x] + b) && UpTo(a + [x] + b, 6)
  {
    hide Phase;
    var both, out := a + b, a + [x] + b;
    forall k | 0 <= k < |out|
      ensures Phase(out[k]) <= 6 && (k < |a| ==> Phase(out[k]) == 1) && (k > |a| ==> Phase(out[k]) != 1)
      ensures k != |a| ==> out[k] == both[if k < |a| then k else k - 1]
    {
      if k < |a| {
        assert out[k] == both[k] == a[k];
      } else if k > |a| {
        assert out[k] == both[k - 1] == b[k - 1 - |a|];
      }
    }
    forall i, j | 0 <= i < j < |out| && Phase(out[i]) > 0 && Phase(out[j]) > 0
      ensures Phase(out[i]) <= Phase(out[j])
    {
      if i != |a| && j != |a| {
        var i', j' := if i < |a| then i else i - 1, if j < |a| then j else j - 1;
        assert Phase(both[i']) <= Phase(both[j']);
      }
    }
  }

  lemma InsertKeeps(head: string, steps: seq<Step>, external: bool, replace: bool, g: Step -> seq<string>)
    requires g(ExternalFirst(head, replace)) == []
    ensures FlatMap(ExternalFirstIn(head, steps, external, replace), g) == FlatMap(steps, g)
  {
    hide FlatMap, ExternalAt;
    var at, x := ExternalAt(steps), ExternalFirst(head, replace);
    if external {
      FlatMapSnoc(steps[..at], x, g);
      FlatMapAppend(steps[..at] + [x], steps[at..], g);
      FlatMapAppend(steps[..at], steps[at..], g);
      assert steps[..at] + steps[at..] == steps;
    }
  }

  /** Whatever the machines and the mode: an up-already check, then an external engine, then every guard,
      then every container, then every launch, then the wait, and the record last. */
  lemma UpOrdered(site: Site, job: Job, facts: Facts, nodes: seq<Node>, mode: Mode, external: bool)
    requires nodes != [] && Up(site, job, facts, nodes, mode, external).Ok?
    ensures var plan := Up(site, job, facts, nodes, mode, external).value;
            && Ordered(plan) && UpTo(plan, 7) && plan != [] && plan[|plan| - 1] == Record(nodes[0].name, job.recipe)
            && forall k :: 0 <= k < |plan| - 1 ==> !plan[k].Record?
  {
    hide Steps, ExternalFirstIn, Ordered, UpTo, ExternalAt, NodeRefusal, ModRefusal;
    var steps := Steps(site, job, facts, nodes, mode);
    StepsOrdered(site, job, facts, nodes, mode);
    AlreadyFirst(site, job, facts, nodes, mode);
    InsertOrdered(nodes[0].name, steps, external, mode.replace);
    var most := ExternalFirstIn(nodes[0].name, steps, external, mode.replace);
    assert Only([Record(nodes[0].name, job.recipe)], 7);
    Grow(most, [Record(nodes[0].name, job.recipe)], 6, 7);
    BelowRecord(most);
  }

  lemma BelowRecord(steps: seq<Step>)
    requires UpTo(steps, 6)
    ensures forall k :: 0 <= k < |steps| ==> !steps[k].Record?
  {
    forall k | 0 <= k < |steps|
      ensures !steps[k].Record?
    {
      assert Phase(steps[k]) <= 6;
    }
  }

  lemma PickedInUp(site: Site, job: Job, facts: Facts, nodes: seq<Node>, mode: Mode, external: bool,
                   g: Step -> seq<string>)
    requires nodes != [] && Up(site, job, facts, nodes, mode, external).Ok?
    requires g(ExternalFirst(nodes[0].name, mode.replace)) == [] && g(Record(nodes[0].name, job.recipe)) == []
    ensures FlatMap(Up(site, job, facts, nodes, mode, external).value, g)
            == FlatMap(Steps(site, job, facts, nodes, mode), g)
  {
    hide Steps, FlatMap, ExternalFirstIn, NodeRefusal, ModRefusal;
    var steps := Steps(site, job, facts, nodes, mode);
    InsertKeeps(nodes[0].name, steps, external, mode.replace, g);
    FlatMapSnoc(ExternalFirstIn(nodes[0].name, steps, external, mode.replace), Record(nodes[0].name, job.recipe), g);
  }

  /** Each machine has one guard, one container start and one launch, in rank order, the launches from the last
      rank down to the head. */
  lemma OncePerNode(site: Site, job: Job, facts: Facts, nodes: seq<Node>, mode: Mode, external: bool)
    requires nodes != [] && Up(site, job, facts, nodes, mode, external).Ok?
    ensures var plan := Up(site, job, facts, nodes, mode, external).value;
            && FlatMap(plan, GuardOf) == Names(nodes)
            && FlatMap(plan, StartOf) == Names(nodes)
            && FlatMap(plan, LaunchOf) == Backwards(Names(nodes))
  {
    hide Up, Steps, FlatMap, Guards, Containers, Launches;
    PickedInUp(site, job, facts, nodes, mode, external, GuardOf);
    PickedInUp(site, job, facts, nodes, mode, external, StartOf);
    PickedInUp(site, job, facts, nodes, mode, external, LaunchOf);
    Pickers();
    hide Picks;
    PickedFrom(site, job, facts, nodes, mode, GuardOf, 3);
    PickedFrom(site, job, facts, nodes, mode, StartOf, 4);
    PickedFrom(site, job, facts, nodes, mode, LaunchOf, 5);
    GuardsAre(site, job, nodes, mode);
    ContainersAre(site, job, facts, nodes);
    LaunchesAre(site, job, nodes);
  }

  lemma Pickers()
    ensures Picks(GuardOf, 3) && Picks(StartOf, 4) && Picks(LaunchOf, 5)
  {
  }

  // ------------------------------------------------------------------- what a rank runs

  /** The place of a rank's launch among the launches: a rank below it comes later. */
  lemma {:induction false} LaunchAt(nodes: seq<Node>, f: PerNode, rank: nat) returns (at: nat)
    requires rank < |nodes| && forall k: nat, n: Node :: |f(k, n)| == 3
    ensures at == 3 * (|nodes| - 1 - rank) && at + 3 <= |EachDown(nodes, f)| == 3 * |nodes|
    ensures EachDown(nodes, f)[at..at + 3] == f(rank, nodes[rank])
  {
    var init, last := nodes[..|nodes| - 1], f(|nodes| - 1, nodes[|nodes| - 1]);
    assert |last| == 3;
    EachDownLength(init, f);
    if rank == |nodes| - 1 {
      at := 0;
      assert EachDown(nodes, f)[..3] == last;
    } else {
      at := LaunchAt(init, f, rank);
      assert EachDown(nodes, f)[at + 3..at + 6] == EachDown(init, f)[at..at + 3];
      at := at + 3;
    }
  }

  lemma {:induction false} EachDownLength(nodes: seq<Node>, f: PerNode)
    requires forall k: nat, n: Node :: |f(k, n)| == 3
    ensures |EachDown(nodes, f)| == 3 * |nodes|
  {
    if nodes != [] {
      EachDownLength(nodes[..|nodes| - 1], f);
      assert |f(|nodes| - 1, nodes[|nodes| - 1])| == 3;
    }
  }

  /** The launch of a rank runs that rank's script, written just before on the same machine, and comes after
      those of higher ranks. */
  lemma LaunchRunsItsScript(site: Site, job: Job, nodes: seq<Node>, rank: nat)
    requires rank < |nodes|
    ensures var launches, at := Launches(site, job, nodes), 3 * (|nodes| - 1 - rank);
            && at + 3 <= |launches|
            && IsLaunch(launches[at + 2])
            && launches[at + 2] == Run(nodes[rank].name, ["docker", "exec", "-d", "serve_node", "bash", "-c",
                                                          "bash /workspace/launch.sh >> /proc/1/fd/1 2>&1"], false)
            && launches[at + 1] == Write(nodes[rank].name, Some(NODE), "/workspace/launch.sh",
                                         Exec(Command(site, job, nodes[0], |nodes|, rank)))
  {
    hide Command;
    var f := Launch(site, job, nodes[0], |nodes|);
    var at := LaunchAt(nodes, f, rank);
    var launch := LaunchFor(site, job, nodes[0], |nodes|, rank, nodes[rank]);
    assert Launches(site, job, nodes)[at..at + 3] == launch;
    assert launch[2].argv[0] == "docker" && launch[2].argv[1] == "exec" && launch[2].argv[2] == "-d";
  }

  /** An argument that gives one of the launcher's own flags: the flag alone, or joined to a value. */
  predicate Gives(a: string, flag: string) { a == flag || (flag in OWNED_WITH_VALUE && BeforeEquals(a) == flag) }

  /** The arguments that give a flag, counted. */
  function Given(args: seq<string>, flag: string): nat {
    if args == [] then 0 else Given(args[..|args| - 1], flag) + One(args[|args| - 1], flag)
  }

  function One(a: string, flag: string): nat { if Gives(a, flag) then 1 else 0 }

  /** The values of a command that come from outside, besides the recipe's arguments. */
  function Values(job: Job, head: Node, rank: nat): seq<string> {
    [job.model, head.fabricIp] + if rank == 0 then [job.host, job.name] else []
  }

  /** Only rank 0 is given an address, and each of its flags once, whatever the recipe's arguments say. */
  lemma FlagsOnce(site: Site, job: Job, head: Node, total: nat, rank: nat, flag: string)
    requires flag in OWNED_WITH_VALUE || flag == "--no-update-check"
    ensures Given(Command(site, job, head, total, rank), flag) ==
            Given(Values(job, head, rank), flag)
            + if rank == 0 && flag in ["--host", "--port", "--served-model-name"] then 1 else 0
  {
    hide *;
    FlagsDiffer(flag);
    StrippedGiveNone(job.args, flag);
    CommandParts(site, job, head, total, rank);
    var middle := Middle(Decimal(total), Decimal(rank), head.fabricIp, Decimal(site.masterPort));
    var tail := Tail(job.host, Decimal(job.port), job.name, rank);
    GivenAppend(Front(job.model) + Stripped(job.args) + middle, tail, flag);
    GivenAppend(Front(job.model) + Stripped(job.args), middle, flag);
    GivenAppend(Front(job.model), Stripped(job.args), flag);
    GivenFront(job.model, flag);
    GivenMiddle(Decimal(total), Decimal(rank), head.fabricIp, Decimal(site.masterPort), flag);
    GivenTail(job.host, Decimal(job.port), job.name, flag, rank);
    GivenValues(job, head, rank, flag);
  }

  function Front(model: string): seq<string> { ["vllm", "serve"] + [model] }

  function Middle(total: string, rank: string, ip: string, port: string): seq<string> {
    ["--nnodes", total] + ["--node-rank", rank] + ["--master-addr", ip] + ["--master-port", port]
  }

  function Tail(host: string, port: string, name: string, rank: nat): seq<string> {
    if rank > 0 then ["--headless"] else ["--host", host] + ["--port", port] + ["--served-model-name", name]
  }

  lemma CommandParts(site: Site, job: Job, head: Node, total: nat, rank: nat)
    ensures Command(site, job, head, total, rank) ==
            Front(job.model) + Stripped(job.args)
            + Middle(Decimal(total), Decimal(rank), head.fabricIp, Decimal(site.masterPort))
            + Tail(job.host, Decimal(job.port), job.name, rank)
  {
    hide Decimal, Stripped;
    assert Front(job.model) == ["vllm", "serve", job.model];
    assert Middle(Decimal(total), Decimal(rank), head.fabricIp, Decimal(site.masterPort)) ==
           ["--nnodes", Decimal(total), "--node-rank", Decimal(rank), "--master-addr", head.fabricIp,
            "--master-port", Decimal(site.masterPort)];
    if rank == 0 {
      assert Tail(job.host, Decimal(job.port), job.name, rank) ==
             ["--host", job.host, "--port", Decimal(job.port), "--served-model-name", job.name];
    }
  }

  lemma FlagsDiffer(flag: string)
    requires flag in OWNED_WITH_VALUE || flag == "--no-update-check"
    ensures flag != [] && flag[0] == '-' && |flag| in {6, 7, 9, 14, 17, 19}
  {
  }

  lemma {:induction false} GivenAppend(a: seq<string>, b: seq<string>, flag: string)
    ensures Given(a + b, flag) == Given(a, flag) + Given(b, flag)
  {
    hide One;
    if b == [] {
      assert a + b == a;
    } else {
      GivenAppend(a, b[..|b| - 1], flag);
      assert (a + b)[..|a + b| - 1] == a + b[..|b| - 1];
    }
  }

  lemma {:induction false} GivenNone(xs: seq<string>, flag: string)
    requires forall k :: 0 <= k < |xs| ==> !Gives(xs[k], flag)
    ensures Given(xs, flag) == 0
  {
    hide Gives;
    if xs != [] {
      GivenNone(xs[..|xs| - 1], flag);
    }
  }

  /** Stripped arguments give none of the launcher's flags, alone or joined. */
  lemma StrippedGiveNone(args: seq<string>, flag: string)
    requires flag in OWNED_WITH_VALUE || flag == "--no-update-check"
    ensures Given(Stripped(args), flag) == 0
  {
    hide OWNED_WITH_VALUE, Stripped, BeforeEquals, Given;
    NoneOwned(args);
    GivenNone(Stripped(args), flag);
  }

  lemma GivenPair(x: string, y: string, flag: string)
    ensures Given([x, y], flag) == One(x, flag) + One(y, flag) && Given([x], flag) == One(x, flag)
  {
    hide One;
    var both := [x, y];
    assert [x][..0] == [] && Given([x], flag) == One(x, flag);
    assert both[..1] == [x] && Given(both, flag) == Given(both[..1], flag) + One(y, flag);
  }

  /** A word without an equals sign gives no flag but itself; neither does one that does not begin like it. */
  lemma GivesNot(a: string, flag: string)
    requires a != flag && flag != "" && ('=' !in a || a[0] != flag[0])
    ensures One(a, flag) == 0
  {
    hide OWNED_WITH_VALUE;
  }

  lemma GivenFront(model: string, flag: string)
    requires flag != [] && flag[0] == '-'
    ensures Given(Front(model), flag) == One(model, flag)
  {
    hide Given, One;
    GivenPair("vllm", "serve", flag);
    GivenPair(model, model, flag);
    GivenAppend(["vllm", "serve"], [model], flag);
    GivesNot("vllm", flag);
    GivesNot("serve", flag);
  }

  lemma GivenMiddle(total: string, rank: string, ip: string, port: string, flag: string)
    requires flag != [] && flag[0] == '-' && |flag| in {6, 7, 9, 14, 17, 19}
    requires total != "" && '0' <= total[0] <= '9' && rank != "" && '0' <= rank[0] <= '9'
    requires port != "" && '0' <= port[0] <= '9'
    ensures Given(Middle(total, rank, ip, port), flag) == One(ip, flag)
  {
    hide Given, One;
    GivenPair("--nnodes", total, flag);
    GivenPair("--node-rank", rank, flag);
    GivenPair("--master-addr", ip, flag);
    GivenPair("--master-port", port, flag);
    GivenAppend(["--nnodes", total], ["--node-rank", rank], flag);
    GivenAppend(["--nnodes", total] + ["--node-rank", rank], ["--master-addr", ip], flag);
    GivenAppend(["--nnodes", total] + ["--node-rank", rank] + ["--master-addr", ip], ["--master-port", port], flag);
    MiddleWords(flag);
    GivesNot(total, flag);
    GivesNot(rank, flag);
    GivesNot(port, flag);
  }

  lemma MiddleWords(flag: string)
    requires flag != [] && |flag| in {6, 7, 9, 14, 17, 19}
    ensures One("--nnodes", flag) == One("--node-rank", flag) == One("--master-addr", flag)
            == One("--master-port", flag) == 0
  {
    hide One;
    GivesNot("--nnodes", flag);
    GivesNot("--node-rank", flag);
    GivesNot("--master-addr", flag);
    GivesNot("--master-port", flag);
  }

  lemma GivenTail(host: string, port: string, name: string, flag: string, rank: nat)
    requires flag != [] && flag[0] == '-' && |flag| in {6, 7, 9, 14, 17, 19} && port != "" && '0' <= port[0] <= '9'
    ensures Given(Tail(host, port, name, rank), flag) ==
            if rank > 0 then 0
            else (if flag in ["--host", "--port", "--served-model-name"] then 1 else 0)
                 + One(host, flag) + One(name, flag)
  {
    hide Given, One;
    if rank == 0 {
      GivenPair("--host", host, flag);
      GivenPair("--port", port, flag);
      GivenPair("--served-model-name", name, flag);
      GivenAppend(["--host", host], ["--port", port], flag);
      GivenAppend(["--host", host] + ["--port", port], ["--served-model-name", name], flag);
      TailWords(flag);
      GivesNot(port, flag);
    } else {
      GivenPair("--headless", "", flag);
      GivesNot("--headless", flag);
    }
  }

  lemma TailWords(flag: string)
    requires flag != []
    ensures One("--host", flag) + One("--port", flag) + One("--served-model-name", flag) ==
            if flag in ["--host", "--port", "--served-model-name"] then 1 else 0
  {
    hide One;
    AddressFlags();
    OneOf("--host", "--port", "--served-model-name", flag);
  }

  lemma AddressFlags()
    ensures "--host" != "--port" && "--host" != "--served-model-name" && "--port" != "--served-model-name"
    ensures '=' !in "--host" && '=' !in "--port" && '=' !in "--served-model-name"
  {
    assert "--host"[2] == 'h' && "--port"[2] == 'p' && |"--served-model-name"| == 19;
  }

  lemma OneOf(a: string, b: string, c: string, flag: string)
    requires a != b && a != c && b != c && '=' !in a && '=' !in b && '=' !in c && flag != []
    ensures One(a, flag) + One(b, flag) + One(c, flag) == if flag in [a, b, c] then 1 else 0
  {
    hide One;
    OneIs(a, flag);
    OneIs(b, flag);
    OneIs(c, flag);
  }

  lemma OneIs(a: string, flag: string)
    requires '=' !in a && flag != ""
    ensures One(a, flag) == if a == flag then 1 else 0
  {
    hide OWNED_WITH_VALUE;
  }

  lemma GivenValues(job: Job, head: Node, rank: nat, flag: string)
    ensures Given(Values(job, head, rank), flag) ==
            One(job.model, flag) + One(head.fabricIp, flag)
            + if rank == 0 then One(job.host, flag) + One(job.name, flag) else 0
  {
    hide Given, One;
    GivenPair(job.model, head.fabricIp, flag);
    GivenPair(job.host, job.name, flag);
    if rank == 0 {
      GivenAppend([job.model, head.fabricIp], [job.host, job.name], flag);
    } else {
      assert Values(job, head, rank) == [job.model, head.fabricIp];
    }
  }
}
