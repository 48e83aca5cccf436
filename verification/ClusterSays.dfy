/** What the steps of a cluster plan say, told without the functions that build them. */
module ClusterSays {
  import opened Prelude
  import opened ClusterPlan
  import opened ClusterOrder

  // ------------------------------------------------------- one part of a plan --

  /** Which part of a plan a step can stand in, by what it is: 0 for those whose content is not at issue here. */
  function Class(s: Step): nat {
    if s.UpAlready? || s.Reach? then 1
    else if s.Free? || IsRemoval(s) then 2
    else if s.SameImage? || s.Weights? || IsDrop(s) then 3
    else if IsStart(s) || IsFolders(s) then 4
    else if s.Mod? || s.Spawn? || IsCheck(s) || IsScript(s) then 5
    else if s.Remove? || s.Wait? || IsUnit(s) || IsUnitFile(s) then 6
    else 0
  }

  /** rack's own engine is removed. */
  predicate IsRemoval(s: Step) { s.Run? && |s.argv| == 5 && s.argv[0] == "docker" && s.argv[1] == "rm" }

  /** Folders are made on a machine. */
  predicate IsFolders(s: Step) { s.Run? && |s.argv| == 5 && s.argv[0] == "mkdir" }

  predicate IsDrop(s: Step) { s.Run? && |s.argv| == 3 && s.argv[0] == "sh" }

  predicate IsCheck(s: Step) {
    s.Run? && |s.argv| == 6 && s.argv[0] == "docker" && s.argv[1] == "exec" && s.argv[2] == NODE
  }

  /** Files written to a machine itself: a script, or a unit. */
  predicate IsScript(s: Step) { s.Write? && s.container == None && s.path != "" && s.path[|s.path| - 1] == 'h' }

  predicate IsUnitFile(s: Step) { s.Write? && s.container == None && s.path != "" && s.path[|s.path| - 1] == 'e' }

  predicate IsUnit(s: Step) { s.Run? && |s.argv| >= 3 && s.argv[0] == "systemctl" }

  ghost predicate Sole(steps: seq<Step>, c: nat) {
    forall k :: 0 <= k < |steps| ==> Class(steps[k]) == 0 || Class(steps[k]) == c
  }

  /** What picks steps of one class. */
  ghost predicate PicksClass<T(!new)>(g: Step -> seq<T>, c: nat) {
    c > 0 && forall s :: Class(s) != c ==> g(s) == []
  }

  lemma {:induction false} EachSole(nodes: seq<Node>, f: PerNode, c: nat)
    requires forall rank: nat, n: Node :: Sole(f(rank, n), c)
    ensures Sole(Each(nodes, f), c) && Sole(EachDown(nodes, f), c)
  {
    hide Class;
    if nodes != [] {
      EachSole(nodes[..|nodes| - 1], f, c);
      assert Sole(f(|nodes| - 1, nodes[|nodes| - 1]), c);
    }
  }

  lemma SoleOthers<T(!new)>(steps: seq<Step>, q: nat, g: Step -> seq<T>, c: nat)
    requires Sole(steps, q) && PicksClass(g, c) && q != c
    ensures FlatMap(steps, g) == []
  {
    hide Class;
    FlatMapNothing(steps, g);
  }

  lemma WordsApart()
    ensures "docker" != "sh" && "docker" != "systemctl" && "docker" != "mkdir" && "docker" != "pkill"
    ensures "sh" != "systemctl" && "mkdir" != "sh" && "mkdir" != "systemctl"
    ensures "pkill" != "sh" && "pkill" != "systemctl"
    ensures "rm" != "exec" && "rm" != "run" && "exec" != "run" && NODE != "-w" && NODE != "-d"
  {
    assert "exec"[0] == 'e' && "run"[0] == 'r' && "rm"[0] == 'r' && "rm"[1] == 'm' && "run"[1] == 'u';
    assert "mkdir"[0] == 'm' && "pkill"[0] == 'p' && NODE[0] == 's' && "-w"[0] == '-' && "-d"[0] == '-';
  }

  lemma GuardSole(site: Site, port: nat, replace: bool, n: Node)
    ensures Sole(GuardFor(site, port, replace, n), 2)
  {
    WordsApart();
  }

  lemma DropSole(n: Node)
    ensures Sole(DropCaches(n), 3)
  {
    WordsApart();
  }

  lemma ContainerSole(site: Site, job: Job, facts: Facts, head: Node, rank: nat, n: Node)
    ensures Sole(ContainerFor(site, job, facts, head, rank, n), 4)
  {
    hide DockerCommon, NodeEnv;
    WordsApart();
    var out := ContainerFor(site, job, facts, head, rank, n);
    assert |Caches(n)| == 3;
    assert out[0].argv[0] == "mkdir" && |out[1].argv| == 4 && out[1].argv[0] == "docker" && out[1].argv[1] == "rm";
    assert out[2].argv[0] == "docker" && out[2].argv[1] == "run";
  }

  lemma WatchSole(site: Site, n: Node)
    ensures Sole(WatchFor(site, n), 5)
  {
    WordsApart();
  }

  lemma LaunchSole(site: Site, job: Job, head: Node, total: nat, rank: nat, n: Node)
    ensures Sole(LaunchFor(site, job, head, total, rank, n), 0)
  {
    hide Command;
    WordsApart();
    var out := LaunchFor(site, job, head, total, rank, n);
    assert |out[0].argv| == 8 && |out[2].argv| == 7;
    assert out[0].argv[1] == "exec" && out[2].argv[1] == "exec";
  }

  lemma {:induction false} ModsSole(site: Site, nodes: seq<Node>, mods: seq<string>)
    ensures Sole(ModSteps(site, nodes, mods), 5)
  {
    if mods != [] {
      var m := mods[|mods| - 1];
      ModsSole(site, nodes, mods[..|mods| - 1]);
      if m != "" && m in site.mods {
        EachSole(nodes, Modded(site.mods[m], m), 5);
      }
    }
  }

  lemma EndsSole(job: Job, facts: Facts, nodes: seq<Node>, mode: Mode)
    requires nodes != []
    ensures Sole(Opening(job, facts, nodes, mode), 1) && Sole(Closing(job, facts, nodes), 6)
  {
    WordsApart();
    hide Names;
  }

  /** Each part holds steps of its own class. */
  ghost predicate Classed(site: Site, job: Job, facts: Facts, nodes: seq<Node>, mode: Mode)
    requires nodes != []
  {
    && Sole(Opening(job, facts, nodes, mode), 1)
    && Sole(Guards(site, job, nodes, mode), 2)
    && Sole(Prepared(job, nodes), 3)
    && Sole(Containers(site, job, facts, nodes), 4)
    && Sole(Equipped(site, job, nodes), 5)
    && Sole(Launches(site, job, nodes), 0)
    && Sole(Closing(job, facts, nodes), 6)
  }

  lemma PartsClassed(site: Site, job: Job, facts: Facts, nodes: seq<Node>, mode: Mode)
    requires nodes != []
    ensures Classed(site, job, facts, nodes, mode)
  {
    hide Opening, Closing, GuardFor, ContainerFor, WatchFor, LaunchFor, DropCaches, Class, Sole, ModSteps;
    EndsSole(job, facts, nodes, mode);
    var guard, container := Guard(site, job.port, mode.replace || mode.boot), Container(site, job, facts, nodes[0]);
    var launch := Launch(site, job, nodes[0], |nodes|);
    forall rank: nat, n: Node
      ensures Sole(guard(rank, n), 2) && Sole(Drop()(rank, n), 3) && Sole(container(rank, n), 4)
      ensures Sole(Watch(site)(rank, n), 5) && Sole(launch(rank, n), 0)
    {
      GuardSole(site, job.port, mode.replace || mode.boot, n);
      DropSole(n);
      ContainerSole(site, job, facts, nodes[0], rank, n);
      WatchSole(site, n);
      LaunchSole(site, job, nodes[0], |nodes|, rank, n);
    }
    EachSole(nodes, guard, 2);
    EachSole(nodes, Drop(), 3);
    EachSole(nodes, container, 4);
    EachSole(nodes, Watch(site), 5);
    EachSole(nodes, launch, 0);
    ModsSole(site, nodes, job.mods);
    SharedSole(job, nodes);
    CheckSole(nodes[0]);
    SoleParts(job, nodes, Each(nodes, Drop()), site);
  }

  lemma SoleParts(job: Job, nodes: seq<Node>, drops: seq<Step>, site: Site)
    requires nodes != [] && drops == Each(nodes, Drop()) && Sole(drops, 3) && Sole(Each(nodes, Watch(site)), 5)
    requires Sole(ModSteps(site, nodes, job.mods), 5)
    requires Class(SameImage(nodes[0].name, job.image, Names(nodes))) == 3
    requires Class(Weights(nodes[0].name, job.model, Names(nodes))) == 3
    requires Class(Run(nodes[0].name, ["docker", "exec", NODE, "python3", "-c", SPANS], false)) == 5
    ensures Sole(Prepared(job, nodes), 3) && Sole(Equipped(site, job, nodes), 5)
  {
    hide Class, Names, Each, ModSteps, SPANS, NODE;
  }

  lemma SharedSole(job: Job, nodes: seq<Node>)
    requires nodes != []
    ensures Class(SameImage(nodes[0].name, job.image, Names(nodes))) == 3
    ensures Class(Weights(nodes[0].name, job.model, Names(nodes))) == 3
  {
    hide Names;
  }

  lemma CheckSole(n: Node)
    ensures Class(Run(n.name, ["docker", "exec", NODE, "python3", "-c", SPANS], false)) == 5
  {
    WordsApart();
  }

  /** What picks one class of a plan's steps finds them all in one part. */
  lemma ClassFrom<T(!new)>(site: Site, job: Job, facts: Facts, nodes: seq<Node>, mode: Mode, external: bool,
                           g: Step -> seq<T>, c: nat)
    requires nodes != [] && Up(site, job, facts, nodes, mode, external).Ok? && PicksClass(g, c) && c <= 6
    ensures FlatMap(Up(site, job, facts, nodes, mode, external).value, g) ==
            if c == 1 then FlatMap(Opening(job, facts, nodes, mode), g)
            else if c == 2 then FlatMap(Guards(site, job, nodes, mode), g)
            else if c == 3 then FlatMap(Prepared(job, nodes), g)
            else if c == 4 then FlatMap(Containers(site, job, facts, nodes), g)
            else if c == 5 then FlatMap(Equipped(site, job, nodes), g)
            else FlatMap(Closing(job, facts, nodes), g)
  {
    hide *;
    PartsClassed(site, job, facts, nodes, mode);
    ClassedMeans(site, job, facts, nodes, mode);
    Unpicked(nodes[0].name, mode.replace, job.recipe, g, c);
    UpPicked(site, job, facts, nodes, mode, external, g);
    var a, b, d, e := Opening(job, facts, nodes, mode), Guards(site, job, nodes, mode), Prepared(job, nodes),
        Containers(site, job, facts, nodes);
    var f, l, z := Equipped(site, job, nodes), Launches(site, job, nodes), Closing(job, facts, nodes);
    StepsAre(site, job, facts, nodes, mode);
    FlatMapAppend(a, b, g);
    FlatMapAppend(a + b, d, g);
    FlatMapAppend(a + b + d, e, g);
    FlatMapAppend(a + b + d + e, f, g);
    FlatMapAppend(a + b + d + e + f, l, g);
    FlatMapAppend(a + b + d + e + f + l, z, g);
    if c != 1 { SoleOthers(a, 1, g, c); }
    if c != 2 { SoleOthers(b, 2, g, c); }
    if c != 3 { SoleOthers(d, 3, g, c); }
    if c != 4 { SoleOthers(e, 4, g, c); }
    if c != 5 { SoleOthers(f, 5, g, c); }
    SoleOthers(l, 0, g, c);
    if c != 6 { SoleOthers(z, 6, g, c); }
  }

  lemma ClassedMeans(site: Site, job: Job, facts: Facts, nodes: seq<Node>, mode: Mode)
    requires nodes != [] && Classed(site, job, facts, nodes, mode)
    ensures Sole(Opening(job, facts, nodes, mode), 1) && Sole(Guards(site, job, nodes, mode), 2)
    ensures Sole(Prepared(job, nodes), 3) && Sole(Containers(site, job, facts, nodes), 4)
    ensures Sole(Equipped(site, job, nodes), 5) && Sole(Launches(site, job, nodes), 0)
    ensures Sole(Closing(job, facts, nodes), 6)
  {
    hide Sole;
  }

  lemma StepsAre(site: Site, job: Job, facts: Facts, nodes: seq<Node>, mode: Mode)
    requires nodes != []
    ensures Steps(site, job, facts, nodes, mode) ==
            Opening(job, facts, nodes, mode) + Guards(site, job, nodes, mode) + Prepared(job, nodes)
            + Containers(site, job, facts, nodes) + Equipped(site, job, nodes) + Launches(site, job, nodes)
            + Closing(job, facts, nodes)
  {
    hide Opening, Guards, Prepared, Containers, Equipped, Launches, Closing;
  }

  lemma Unpicked<T(!new)>(head: string, replace: bool, recipe: string, g: Step -> seq<T>, c: nat)
    requires PicksClass(g, c)
    ensures c > 0 && g(ExternalFirst(head, replace)) == [] && g(Record(head, recipe)) == []
  {
  }

  lemma UpPicked<T>(site: Site, job: Job, facts: Facts, nodes: seq<Node>, mode: Mode, external: bool,
                    g: Step -> seq<T>)
    requires nodes != [] && Up(site, job, facts, nodes, mode, external).Ok?
    requires g(ExternalFirst(nodes[0].name, mode.replace)) == [] && g(Record(nodes[0].name, job.recipe)) == []
    ensures FlatMap(Up(site, job, facts, nodes, mode, external).value, g)
            == FlatMap(Steps(site, job, facts, nodes, mode), g)
  {
    hide Steps, FlatMap, ExternalAt, NodeRefusal, ModRefusal;
    var steps, x := Steps(site, job, facts, nodes, mode), ExternalFirst(nodes[0].name, mode.replace);
    var at := ExternalAt(steps);
    FlatMapSnoc(ExternalFirstIn(nodes[0].name, steps, external, mode.replace), Record(nodes[0].name, job.recipe), g);
    if external {
      FlatMapSnoc(steps[..at], x, g);
      FlatMapAppend(steps[..at] + [x], steps[at..], g);
      FlatMapAppend(steps[..at], steps[at..], g);
      assert steps[..at] + steps[at..] == steps;
    }
  }

  /** Where every machine gives one, in rank order. */
  lemma {:induction false} EachPicks<T>(nodes: seq<Node>, f: PerNode, g: Step -> seq<T>, h: (nat, Node) -> T)
    requires forall rank: nat, n: Node :: FlatMap(f(rank, n), g) == [h(rank, n)]
    ensures |FlatMap(Each(nodes, f), g)| == |nodes|
    ensures forall k: nat :: k < |nodes| ==> FlatMap(Each(nodes, f), g)[k] == h(k, nodes[k])
  {
    if nodes != [] {
      var init, n := nodes[..|nodes| - 1], nodes[|nodes| - 1];
      EachPicks(init, f, g, h);
      FlatMapAppend(Each(init, f), f(|nodes| - 1, n), g);
      assert FlatMap(f(|nodes| - 1, n), g) == [h(|nodes| - 1, n)];
    }
  }

  lemma Two<T>(a: Step, b: Step, g: Step -> seq<T>)
    ensures FlatMap([a, b], g) == g(a) + g(b) && FlatMap([a], g) == g(a)
  {
    FlatMapOne(a, g);
    FlatMapSnoc([a], b, g);
    assert [a] + [b] == [a, b];
  }

  lemma Three<T>(a: Step, b: Step, c: Step, g: Step -> seq<T>)
    ensures FlatMap([a, b, c], g) == g(a) + g(b) + g(c)
  {
    Two(a, b, g);
    FlatMapSnoc([a, b], c, g);
    assert [a, b] + [c] == [a, b, c];
  }

  // ------------------------------------------------------------------ guards --

  function FreeOf(s: Step): seq<Step> { if s.Free? then [s] else [] }

  function RemovalOf(s: Step): seq<Step> { if IsRemoval(s) then [s] else [] }

  /** A guard asks for everything that must not run on a machine: rack's own containers, those of other engines, and,
      where rack itself runs, the port. */
  predicate GuardSays(site: Site, port: nat, n: Node, s: Step) {
    && s.Free? && s.node == n.name
    && "serve_solo" in s.containers && "serve_node" in s.containers
    && (forall c :: c in site.foreign ==> c in s.containers)
    && (forall c :: c in s.containers ==> c == "serve_solo" || c == "serve_node" || c in site.foreign)
    && (n.local ==> s.port_ == Some(port)) && (!n.local ==> s.port_ == None)
  }

  lemma GuardForSays(site: Site, port: nat, replace: bool, n: Node)
    ensures FlatMap(GuardFor(site, port, replace, n), FreeOf)
            == [Free(n.name, [SOLO, NODE] + site.foreign, if n.local then Some(port) else None)]
    ensures FlatMap(GuardFor(site, port, replace, n), RemovalOf)
            == if replace then [Run(n.name, ["docker", "rm", "-f", SOLO, NODE], true)] else []
  {
    hide *;
    var out := Run(n.name, ["docker", "rm", "-f", SOLO, NODE], true);
    var free := Free(n.name, [SOLO, NODE] + site.foreign, if n.local then Some(port) else None);
    RemovalIs(n);
    FreeIs(free);
    GuardForIs(site, port, replace, n);
    Two(out, free, FreeOf);
    Two(out, free, RemovalOf);
    Two(free, free, FreeOf);
    Two(free, free, RemovalOf);
  }

  lemma GuardForIs(site: Site, port: nat, replace: bool, n: Node)
    ensures var out := Run(n.name, ["docker", "rm", "-f", SOLO, NODE], true);
            var free := Free(n.name, [SOLO, NODE] + site.foreign, if n.local then Some(port) else None);
            GuardFor(site, port, replace, n) == if replace then [out, free] else [free]
  {
  }

  lemma RemovalIs(n: Node)
    ensures var out := Run(n.name, ["docker", "rm", "-f", SOLO, NODE], true);
            FreeOf(out) == [] && RemovalOf(out) == [out]
  {
  }

  lemma FreeIs(s: Step)
    requires s.Free?
    ensures FreeOf(s) == [s] && RemovalOf(s) == []
  {
  }

  /** Every machine has one guard, in rank order, that asks for all of it; and rack's own engine is removed from each
      exactly when the plan replaces it or re-forms one after a boot. */
  lemma GuardsSay(site: Site, job: Job, facts: Facts, nodes: seq<Node>, mode: Mode, external: bool)
    requires nodes != [] && Up(site, job, facts, nodes, mode, external).Ok?
    ensures var plan := Up(site, job, facts, nodes, mode, external).value;
            var frees, removals := FlatMap(plan, FreeOf), FlatMap(plan, RemovalOf);
            && |frees| == |nodes| && (forall k: nat :: k < |nodes| ==> GuardSays(site, job.port, nodes[k], frees[k]))
            && (if mode.replace || mode.boot then
                  && |removals| == |nodes|
                  && forall k: nat :: k < |nodes| ==>
                       removals[k] == Run(nodes[k].name, ["docker", "rm", "-f", "serve_solo", "serve_node"], true)
                else removals == [])
  {
    hide *;
    Containing();
    var replace, f := mode.replace || mode.boot, Guard(site, job.port, mode.replace || mode.boot);
    GuardPicks();
    ClassFrom(site, job, facts, nodes, mode, external, FreeOf, 2);
    ClassFrom(site, job, facts, nodes, mode, external, RemovalOf, 2);
    GuardsEach(site, job, nodes, mode);
    var h := (rank: nat, n: Node) =>
      Free(n.name, [SOLO, NODE] + site.foreign, if n.local then Some(job.port) else None);
    var r := (rank: nat, n: Node) => Run(n.name, ["docker", "rm", "-f", SOLO, NODE], true);
    forall rank: nat, n: Node
      ensures FlatMap(f(rank, n), FreeOf) == [h(rank, n)]
      ensures FlatMap(f(rank, n), RemovalOf) == if replace then [r(rank, n)] else []
    {
      GuardForSays(site, job.port, replace, n);
      GuardAt(site, job.port, replace, rank, n);
    }
    EachPicks(nodes, f, FreeOf, h);
    forall k: nat | k < |nodes|
      ensures GuardSays(site, job.port, nodes[k], h(k, nodes[k]))
    {
      SaysFree(site, job.port, nodes[k]);
    }
    if replace {
      EachPicks(nodes, f, RemovalOf, r);
    } else {
      EachPicksNone(nodes, f, RemovalOf);
    }
  }

  lemma Containing()
    ensures SOLO == "serve_solo" && NODE == "serve_node"
  {
  }

  lemma GuardPicks()
    ensures PicksClass(FreeOf, 2) && PicksClass(RemovalOf, 2)
  {
  }

  lemma GuardsEach(site: Site, job: Job, nodes: seq<Node>, mode: Mode)
    ensures Guards(site, job, nodes, mode) == Each(nodes, Guard(site, job.port, mode.replace || mode.boot))
  {
    hide Each, Guard;
  }

  lemma GuardAt(site: Site, port: nat, replace: bool, rank: nat, n: Node)
    ensures Guard(site, port, replace)(rank, n) == GuardFor(site, port, replace, n)
  {
    hide GuardFor;
  }

  lemma SaysFree(site: Site, port: nat, n: Node)
    ensures GuardSays(site, port, n, Free(n.name, [SOLO, NODE] + site.foreign, if n.local then Some(port) else None))
  {
    Containing();
    hide SOLO, NODE;
    var cs := [SOLO, NODE] + site.foreign;
    assert cs[0] == SOLO && cs[1] == NODE;
    assert forall k :: 0 <= k < |site.foreign| ==> cs[k + 2] == site.foreign[k];
  }

  lemma {:induction false} EachPicksNone<T>(nodes: seq<Node>, f: PerNode, g: Step -> seq<T>)
    requires forall rank: nat, n: Node :: FlatMap(f(rank, n), g) == []
    ensures FlatMap(Each(nodes, f), g) == []
  {
    if nodes != [] {
      var init, n := nodes[..|nodes| - 1], nodes[|nodes| - 1];
      EachPicksNone(init, f, g);
      FlatMapAppend(Each(init, f), f(|nodes| - 1, n), g);
      assert FlatMap(f(|nodes| - 1, n), g) == [];
    }
  }

  // ------------------------------------------------- images, weights, caches --

  function SharedOf(s: Step): seq<Step> { if s.SameImage? || s.Weights? then [s] else [] }

  function DropOf(s: Step): seq<Step> { if IsDrop(s) then [s] else [] }

  lemma SharedPicks()
    ensures PicksClass(SharedOf, 3) && PicksClass(DropOf, 3)
  {
  }

  /** One image and one set of weights, the job's, on every machine; the page caches are dropped on each machine of a
      DGX rack, and on no other. */
  lemma SharedSays(site: Site, job: Job, facts: Facts, nodes: seq<Node>, mode: Mode, external: bool)
    requires nodes != [] && Up(site, job, facts, nodes, mode, external).Ok?
    ensures var plan := Up(site, job, facts, nodes, mode, external).value;
            var drops := FlatMap(plan, DropOf);
            && FlatMap(plan, SharedOf) == [SameImage(nodes[0].name, job.image, Names(nodes)),
                                           Weights(nodes[0].name, job.model, Names(nodes))]
            && (job.platform != "dgx" ==> drops == [])
            && (job.platform == "dgx" ==>
                  && |drops| == |nodes|
                  && forall k: nat :: k < |nodes| ==>
                       drops[k] == Run(nodes[k].name, ["sh", "-c", DROP], true))
  {
    hide *;
    SharedPicks();
    ClassFrom(site, job, facts, nodes, mode, external, SharedOf, 3);
    ClassFrom(site, job, facts, nodes, mode, external, DropOf, 3);
    var a, b := SameImage(nodes[0].name, job.image, Names(nodes)), Weights(nodes[0].name, job.model, Names(nodes));
    var drops := if job.platform == "dgx" then Each(nodes, Drop()) else [];
    PreparedAre(job, nodes, drops);
    FlatMapAppend([a, b], drops, SharedOf);
    FlatMapAppend([a, b], drops, DropOf);
    Two(a, b, SharedOf);
    Two(a, b, DropOf);
    SharedIs(a, b);
    FlatMapNothing<Step, Step>([], SharedOf);
    FlatMapNothing<Step, Step>([], DropOf);
    var h := (rank: nat, n: Node) => Run(n.name, ["sh", "-c", DROP], true);
    forall rank: nat, n: Node
      ensures FlatMap(Drop()(rank, n), SharedOf) == [] && FlatMap(Drop()(rank, n), DropOf) == [h(rank, n)]
    {
      DropIs(rank, n);
      Two(h(rank, n), h(rank, n), SharedOf);
      Two(h(rank, n), h(rank, n), DropOf);
    }
    EachPicks(nodes, Drop(), DropOf, h);
    EachPicksNone(nodes, Drop(), SharedOf);
  }

  lemma PreparedAre(job: Job, nodes: seq<Node>, drops: seq<Step>)
    requires nodes != [] && drops == if job.platform == "dgx" then Each(nodes, Drop()) else []
    ensures Prepared(job, nodes) == [SameImage(nodes[0].name, job.image, Names(nodes)),
                                     Weights(nodes[0].name, job.model, Names(nodes))] + drops
  {
    hide Names, Each;
  }

  lemma SharedIs(a: Step, b: Step)
    requires a.SameImage? && b.Weights?
    ensures SharedOf(a) == [a] && SharedOf(b) == [b] && DropOf(a) == [] && DropOf(b) == []
  {
  }

  lemma DropIs(rank: nat, n: Node)
    ensures var run := Run(n.name, ["sh", "-c", DROP], true);
            Drop()(rank, n) == [run] && SharedOf(run) == [] && DropOf(run) == [run]
  {
  }

  // -------------------------------------------------------------- mods, watch --

  function ModOf(s: Step): seq<Step> { if s.Mod? then [s] else [] }

  function SpawnOf(s: Step): seq<Step> { if s.Spawn? then [s] else [] }

  function ScriptOf(s: Step): seq<Step> { if IsScript(s) then [s] else [] }

  function CheckOf(s: Step): seq<Step> { if IsCheck(s) then [s] else [] }

  lemma EquippedPicks()
    ensures PicksClass(ModOf, 5) && PicksClass(SpawnOf, 5) && PicksClass(ScriptOf, 5) && PicksClass(CheckOf, 5)
  {
  }

  /** Where the memory watch lies on a machine. */
  predicate WatchScript(site: Site, n: Node, path: string) {
    path == if n.local then site.state + "/bin/memwatch.sh" else "~/.local/state/dgx-serve/bin/memwatch.sh"
  }

  lemma WatchIs(site: Site, rank: nat, n: Node, g: Step -> seq<Step>)
    requires site.watchdog.Some?
    ensures var script := (if n.local then site.state else "~/.local/state/dgx-serve") + "/bin/memwatch.sh";
            var write := Write(n.name, None, script, Text(site.watchdog.value));
            var spawn := Spawn(n.name, ["env", "MEMWATCH_KILL=" + site.watchdogKill, "bash", script, NODE, "3"]);
            var kill := Run(n.name, ["pkill", "-f", "[m]emwatch.sh " + NODE], true);
            && FlatMap(Watch(site)(rank, n), g) == g(write) + g(kill) + g(spawn)
            && WatchScript(site, n, script)
            && ScriptOf(write) == [write] && SpawnOf(write) == [] && ModOf(write) == [] && CheckOf(write) == []
            && ScriptOf(kill) == [] && SpawnOf(kill) == [] && ModOf(kill) == [] && CheckOf(kill) == []
            && ScriptOf(spawn) == [] && SpawnOf(spawn) == [spawn] && ModOf(spawn) == [] && CheckOf(spawn) == []
  {
    hide *;
    var script := (if n.local then site.state else "~/.local/state/dgx-serve") + "/bin/memwatch.sh";
    var write := Write(n.name, None, script, Text(site.watchdog.value));
    var spawn := Spawn(n.name, ["env", "MEMWATCH_KILL=" + site.watchdogKill, "bash", script, NODE, "3"]);
    var kill := Run(n.name, ["pkill", "-f", "[m]emwatch.sh " + NODE], true);
    WatchList(site, rank, n);
    ScriptEnds(site, n, script);
    WriteKind(write);
    SpawnKind(spawn);
    KillKind(kill);
    Three(write, kill, spawn, g);
  }

  lemma WatchList(site: Site, rank: nat, n: Node)
    requires site.watchdog.Some?
    ensures var script := (if n.local then site.state else "~/.local/state/dgx-serve") + "/bin/memwatch.sh";
            Watch(site)(rank, n) ==
              [Write(n.name, None, script, Text(site.watchdog.value)),
               Run(n.name, ["pkill", "-f", "[m]emwatch.sh " + NODE], true),
               Spawn(n.name, ["env", "MEMWATCH_KILL=" + site.watchdogKill, "bash", script, NODE, "3"])]
  {
  }

  lemma ScriptEnds(site: Site, n: Node, script: string)
    requires script == (if n.local then site.state else "~/.local/state/dgx-serve") + "/bin/memwatch.sh"
    ensures script != "" && script[|script| - 1] == 'h' && WatchScript(site, n, script)
  {
    assert "~/.local/state/dgx-serve" + "/bin/memwatch.sh" == "~/.local/state/dgx-serve/bin/memwatch.sh";
  }

  lemma WriteKind(s: Step)
    requires s.Write? && s.container == None && s.path != "" && s.path[|s.path| - 1] == 'h'
    ensures ScriptOf(s) == [s] && SpawnOf(s) == [] && ModOf(s) == [] && CheckOf(s) == []
  {
  }

  lemma SpawnKind(s: Step)
    requires s.Spawn?
    ensures ScriptOf(s) == [] && SpawnOf(s) == [s] && ModOf(s) == [] && CheckOf(s) == []
  {
  }

  lemma KillKind(s: Step)
    requires s.Run? && |s.argv| == 3
    ensures ScriptOf(s) == [] && SpawnOf(s) == [] && ModOf(s) == [] && CheckOf(s) == []
  {
  }

  lemma {:induction false} ModStepsPicked(site: Site, nodes: seq<Node>, mods: seq<string>, g: Step -> seq<Step>)
    requires forall s: Step :: s.Mod? ==> g(s) == []
    ensures FlatMap(ModSteps(site, nodes, mods), g) == []
  {
    if mods != [] {
      var m := mods[|mods| - 1];
      ModStepsPicked(site, nodes, mods[..|mods| - 1], g);
      if m != "" && m in site.mods {
        var f := Modded(site.mods[m], m);
        forall rank: nat, n: Node
          ensures FlatMap(f(rank, n), g) == []
        {
          FlatMapNothing(f(rank, n), g);
        }
        EachPicksNone(nodes, f, g);
        FlatMapAppend(ModSteps(site, nodes, mods[..|mods| - 1]), Each(nodes, f), g);
      } else {
        assert ModSteps(site, nodes, mods) == ModSteps(site, nodes, mods[..|mods| - 1]);
      }
    }
  }

  lemma EquippedParts(site: Site, job: Job, nodes: seq<Node>, g: Step -> seq<Step>)
    requires nodes != []
    ensures var check := Run(nodes[0].name, ["docker", "exec", NODE, "python3", "-c", SPANS], false);
            FlatMap(Equipped(site, job, nodes), g) ==
              g(check) + FlatMap(ModSteps(site, nodes, job.mods), g)
              + if job.platform == "dgx" then FlatMap(Each(nodes, Watch(site)), g) else []
  {
    hide FlatMap, Each, ModSteps, SPANS, NODE;
    var check := Run(nodes[0].name, ["docker", "exec", NODE, "python3", "-c", SPANS], false);
    var mods, watch := ModSteps(site, nodes, job.mods), if job.platform == "dgx" then Each(nodes, Watch(site)) else [];
    FlatMapAppend([check] + mods, watch, g);
    FlatMapAppend([check], mods, g);
    FlatMapOne(check, g);
    FlatMapNothing<Step, Step>([], g);
    if job.platform != "dgx" {
      assert [check] + mods + [] == [check] + mods;
      assert FlatMap([check] + mods, g) + [] == FlatMap([check] + mods, g);
    }
  }

  lemma CheckIs(head: string)
    ensures var check := Run(head, ["docker", "exec", NODE, "python3", "-c", SPANS], false);
            CheckOf(check) == [check] && ModOf(check) == [] && SpawnOf(check) == [] && ScriptOf(check) == []
  {
    WordsApart();
  }

  /** The image is asked on the head, before anything is launched, if it spans machines; and on a DGX rack every machine
      gets the memory watch, if there is one: the script, and the watch that runs it. */
  lemma WatchSays(site: Site, job: Job, facts: Facts, nodes: seq<Node>, mode: Mode, external: bool)
    requires nodes != [] && Up(site, job, facts, nodes, mode, external).Ok?
    ensures var plan := Up(site, job, facts, nodes, mode, external).value;
            var scripts, spawns := FlatMap(plan, ScriptOf), FlatMap(plan, SpawnOf);
            && FlatMap(plan, CheckOf) == [Run(nodes[0].name, ["docker", "exec", NODE, "python3", "-c", SPANS], false)]
            && (if job.platform == "dgx" && site.watchdog.Some? then
                  && |scripts| == |spawns| == |nodes|
                  && forall k: nat :: k < |nodes| ==>
                       && scripts[k].Write? && WatchScript(site, nodes[k], scripts[k].path)
                       && scripts[k] == Write(nodes[k].name, None, scripts[k].path, Text(site.watchdog.value))
                       && spawns[k] == Spawn(nodes[k].name, ["env", "MEMWATCH_KILL=" + site.watchdogKill, "bash",
                                                             scripts[k].path, NODE, "3"])
                else scripts == [] && spawns == [])
  {
    hide *;
    EquippedPicks();
    ClassFrom(site, job, facts, nodes, mode, external, CheckOf, 5);
    ClassFrom(site, job, facts, nodes, mode, external, SpawnOf, 5);
    ClassFrom(site, job, facts, nodes, mode, external, ScriptOf, 5);
    EquippedParts(site, job, nodes, CheckOf);
    EquippedParts(site, job, nodes, SpawnOf);
    EquippedParts(site, job, nodes, ScriptOf);
    CheckIs(nodes[0].name);
    NoMods();
    ModStepsPicked(site, nodes, job.mods, CheckOf);
    ModStepsPicked(site, nodes, job.mods, SpawnOf);
    ModStepsPicked(site, nodes, job.mods, ScriptOf);
    if site.watchdog.Some? {
      WatchEach(site, nodes);
    } else {
      NoWatch(site, nodes);
    }
  }

  lemma NoMods()
    ensures forall s: Step :: s.Mod? ==> CheckOf(s) == [] && SpawnOf(s) == [] && ScriptOf(s) == []
  {
  }

  lemma {:induction false} NoWatch(site: Site, nodes: seq<Node>)
    requires site.watchdog == None
    ensures Each(nodes, Watch(site)) == []
    ensures forall g: Step -> seq<Step> :: FlatMap(Each(nodes, Watch(site)), g) == []
  {
    if nodes != [] {
      NoWatch(site, nodes[..|nodes| - 1]);
    }
  }

  lemma WatchEach(site: Site, nodes: seq<Node>)
    requires site.watchdog.Some?
    ensures var all := Each(nodes, Watch(site));
            var scripts, spawns := FlatMap(all, ScriptOf), FlatMap(all, SpawnOf);
            && FlatMap(all, CheckOf) == [] && |scripts| == |spawns| == |nodes|
            && forall k: nat :: k < |nodes| ==>
                 && scripts[k].Write? && WatchScript(site, nodes[k], scripts[k].path)
                 && scripts[k] == Write(nodes[k].name, None, scripts[k].path, Text(site.watchdog.value))
                 && spawns[k] == Spawn(nodes[k].name, ["env", "MEMWATCH_KILL=" + site.watchdogKill, "bash",
                                                       scripts[k].path, NODE, "3"])
  {
    hide *;
    var path := (n: Node) => (if n.local then site.state else "~/.local/state/dgx-serve") + "/bin/memwatch.sh";
    var a := (rank: nat, n: Node) => Write(n.name, None, path(n), Text(site.watchdog.value));
    var b := (rank: nat, n: Node) =>
      Spawn(n.name, ["env", "MEMWATCH_KILL=" + site.watchdogKill, "bash", path(n), NODE, "3"]);
    forall rank: nat, n: Node
      ensures FlatMap(Watch(site)(rank, n), ScriptOf) == [a(rank, n)]
      ensures FlatMap(Watch(site)(rank, n), SpawnOf) == [b(rank, n)]
      ensures FlatMap(Watch(site)(rank, n), CheckOf) == [] && WatchScript(site, n, path(n))
    {
      WatchIs(site, rank, n, ScriptOf);
      WatchIs(site, rank, n, SpawnOf);
      WatchIs(site, rank, n, CheckOf);
    }
    EachPicks(nodes, Watch(site), ScriptOf, a);
    EachPicks(nodes, Watch(site), SpawnOf, b);
    EachPicksNone(nodes, Watch(site), CheckOf);
  }

  lemma {:induction false} EachModded(nodes: seq<Node>, src: string, m: string, s: Step)
    ensures s in Each(nodes, Modded(src, m)) <==> exists n :: n in nodes && s == Mod(n.name, src, m)
  {
    if nodes != [] {
      var init, n := nodes[..|nodes| - 1], nodes[|nodes| - 1];
      EachModded(init, src, m, s);
      assert nodes == init + [n];
      assert Modded(src, m)(|nodes| - 1, n) == [Mod(n.name, src, m)];
    }
  }

  lemma {:induction false} ModStepsSay(site: Site, nodes: seq<Node>, mods: seq<string>, s: Step)
    requires forall m :: m in mods && m != "" ==> m in site.mods
    ensures s in ModSteps(site, nodes, mods) <==>
            exists m, n :: m in mods && m != "" && n in nodes && s == Mod(n.name, site.mods[m], m)
  {
    if mods != [] {
      var init, m := mods[..|mods| - 1], mods[|mods| - 1];
      assert mods == init + [m];
      ModStepsSay(site, nodes, init, s);
      if m != "" {
        EachModded(nodes, site.mods[m], m, s);
      }
    }
  }

  lemma {:induction false} ModRefusalSpec(site: Site, mods: seq<string>)
    ensures ModRefusal(site, mods) == None <==> forall m :: m in mods && m != "" ==> m in site.mods
    ensures ModRefusal(site, mods).Some? ==>
              exists k :: 0 <= k < |mods| && mods[k] != "" && mods[k] !in site.mods
                          && ModRefusal(site, mods).value == ModMissing(mods[k])
                          && forall j :: 0 <= j < k && mods[j] != "" ==> mods[j] in site.mods
  {
    if mods != [] {
      var init, m := mods[..|mods| - 1], mods[|mods| - 1];
      ModRefusalSpec(site, init);
      assert mods == init + [m];
      if ModRefusal(site, init).Some? {
        var k :| 0 <= k < |init| && init[k] != "" && init[k] !in site.mods
                 && ModRefusal(site, init).value == ModMissing(init[k])
                 && forall j :: 0 <= j < k && init[j] != "" ==> init[j] in site.mods;
        assert mods[k] == init[k];
        assert forall j :: 0 <= j < k ==> mods[j] == init[j];
      } else if ModRefusal(site, mods).Some? {
        assert mods[|mods| - 1] == m;
        assert forall j :: 0 <= j < |mods| - 1 ==> mods[j] in init;
      }
    }
  }

  /** Machine k cannot take part. */
  predicate Unfit(job: Job, nodes: seq<Node>, k: nat)
    requires k < |nodes|
  {
    nodes[k].fabricIp == "" || (k > 0 && nodes[k].platform != "" && nodes[k].platform != job.platform)
  }

  lemma {:induction false} NodeRefusalSpec(job: Job, nodes: seq<Node>)
    ensures NodeRefusal(job, nodes) == None <==> forall k: nat :: k < |nodes| ==> !Unfit(job, nodes, k)
    ensures NodeRefusal(job, nodes).Some? ==>
              exists k: nat ::
                && k < |nodes| && Unfit(job, nodes, k) && (forall j: nat :: j < k ==> !Unfit(job, nodes, j))
                && NodeRefusal(job, nodes).value ==
                   if nodes[k].fabricIp == "" then NoFabric(nodes[k].name) else OtherPlatform(nodes[k].name)
  {
    if nodes != [] {
      var init := nodes[..|nodes| - 1];
      NodeRefusalSpec(job, init);
      assert forall k: nat :: k < |init| ==> (Unfit(job, nodes, k) <==> Unfit(job, init, k));
      if NodeRefusal(job, init) == None && NodeRefusal(job, nodes).Some? {
        assert Unfit(job, nodes, |nodes| - 1);
      }
    }
  }

  /** A plan is made exactly when every machine has a fabric address, no worker is of another platform, and every mod is
      there; else it names the first machine at fault, or the first mod. */
  lemma RefusedWhen(site: Site, job: Job, facts: Facts, nodes: seq<Node>, mode: Mode, external: bool)
    requires nodes != []
    ensures var r := Up(site, job, facts, nodes, mode, external);
            var fit := forall k: nat :: k < |nodes| ==> !Unfit(job, nodes, k);
            && (r.Ok? <==> fit && forall m :: m in job.mods && m != "" ==> m in site.mods)
            && (!fit ==>
                  exists k: nat :: k < |nodes| && Unfit(job, nodes, k)
                    && (forall j: nat :: j < k ==> !Unfit(job, nodes, j))
                    && r == Err(if nodes[k].fabricIp == "" then NoFabric(nodes[k].name)
                                else OtherPlatform(nodes[k].name)))
            && (fit && r.Err? ==>
                  exists k :: 0 <= k < |job.mods| && job.mods[k] != "" && job.mods[k] !in site.mods
                              && r == Err(ModMissing(job.mods[k]))
                              && forall j :: 0 <= j < k && job.mods[j] != "" ==> job.mods[j] in site.mods)
  {
    hide NodeRefusal, ModRefusal, Steps, ExternalFirstIn, Unfit;
    NodeRefusalSpec(job, nodes);
    ModRefusalSpec(site, job.mods);
  }

  /** Every mod is applied on every machine, and nothing else is. */
  lemma ModsSay(site: Site, job: Job, facts: Facts, nodes: seq<Node>, mode: Mode, external: bool, s: Step)
    requires nodes != [] && Up(site, job, facts, nodes, mode, external).Ok?
    ensures s.Mod? && s in Up(site, job, facts, nodes, mode, external).value <==>
            exists m, n :: m in job.mods && m != "" && m in site.mods && n in nodes && s == Mod(n.name, site.mods[m], m)
  {
    hide *;
    var plan := Up(site, job, facts, nodes, mode, external).value;
    RefusedWhen(site, job, facts, nodes, mode, external);
    EquippedPicks();
    ClassFrom(site, job, facts, nodes, mode, external, ModOf, 5);
    EquippedParts(site, job, nodes, ModOf);
    CheckIs(nodes[0].name);
    if site.watchdog.Some? {
      WatchModless(site, nodes);
    } else {
      NoWatch(site, nodes);
    }
    AllMods(site, nodes, job.mods);
    ModsIn(plan, s);
    ModStepsSay(site, nodes, job.mods, s);
  }

  lemma WatchModless(site: Site, nodes: seq<Node>)
    requires site.watchdog.Some?
    ensures FlatMap(Each(nodes, Watch(site)), ModOf) == []
  {
    hide *;
    forall rank: nat, n: Node
      ensures FlatMap(Watch(site)(rank, n), ModOf) == []
    {
      WatchIs(site, rank, n, ModOf);
    }
    EachPicksNone(nodes, Watch(site), ModOf);
  }

  lemma {:induction false} AllMods(site: Site, nodes: seq<Node>, mods: seq<string>)
    ensures FlatMap(ModSteps(site, nodes, mods), ModOf) == ModSteps(site, nodes, mods)
  {
    if mods != [] {
      var init, m := mods[..|mods| - 1], mods[|mods| - 1];
      AllMods(site, nodes, init);
      if m != "" && m in site.mods {
        FlatMapAppend(ModSteps(site, nodes, init), Each(nodes, Modded(site.mods[m], m)), ModOf);
        AllModded(nodes, site.mods[m], m);
      } else {
        assert ModSteps(site, nodes, mods) == ModSteps(site, nodes, init);
      }
    }
  }

  lemma {:induction false} AllModded(nodes: seq<Node>, src: string, m: string)
    ensures FlatMap(Each(nodes, Modded(src, m)), ModOf) == Each(nodes, Modded(src, m))
  {
    if nodes != [] {
      var init, n := nodes[..|nodes| - 1], nodes[|nodes| - 1];
      AllModded(init, src, m);
      FlatMapSnoc(Each(init, Modded(src, m)), Mod(n.name, src, m), ModOf);
      assert Modded(src, m)(|nodes| - 1, n) == [Mod(n.name, src, m)];
    }
  }

  lemma {:induction false} ModsIn(steps: seq<Step>, s: Step)
    ensures s in FlatMap(steps, ModOf) <==> s.Mod? && s in steps
  {
    if steps != [] {
      ModsIn(steps[..|steps| - 1], s);
      assert steps == steps[..|steps| - 1] + [steps[|steps| - 1]];
    }
  }

  // ------------------------------------------------------------ start and end --

  function OpeningOf(s: Step): seq<Step> { if s.UpAlready? || s.Reach? then [s] else [] }

  function ClosingOf(s: Step): seq<Step> {
    if s.Remove? || s.Wait? || IsUnit(s) || IsUnitFile(s) then [s] else []
  }

  /** With linger the unit that re-forms the engine at boot is written and enabled; without it is disabled and
      removed. */
  predicate UnitSays(facts: Facts, head: Node, steps: seq<Step>) {
    var path := head.home + "/" + (".config/systemd/user/" + "dgx-serve-boot.service");
    if facts.linger then
      && |steps| == 3 && steps[0] == Write(head.name, None, path, Text(facts.bootUnit))
      && steps[1] == Run(head.name, ["systemctl", "--user", "daemon-reload"], true)
      && steps[2] == Run(head.name, ["systemctl", "--user", "enable", "dgx-serve-boot.service"], true)
    else
      && |steps| == 2
      && steps[0] == Run(head.name, ["systemctl", "--user", "disable", "dgx-serve-boot.service"], true)
      && steps[1] == Remove(head.name, path)
  }

  lemma UnitFits(job: Job, facts: Facts, head: Node)
    ensures UnitSays(facts, head, BootUnit(job, facts, head))
    ensures FlatMap(BootUnit(job, facts, head), ClosingOf) == BootUnit(job, facts, head)
  {
    var steps := BootUnit(job, facts, head);
    UnitKinds(job, facts, head);
    hide FlatMap, ClosingOf;
    if facts.linger {
      Three(steps[0], steps[1], steps[2], ClosingOf);
      assert [steps[0], steps[1], steps[2]] == steps;
    } else {
      Two(steps[0], steps[1], ClosingOf);
      assert [steps[0], steps[1]] == steps;
    }
  }

  lemma UnitKinds(job: Job, facts: Facts, head: Node)
    ensures forall s :: s in BootUnit(job, facts, head) ==> ClosingOf(s) == [s]
  {
    assert BOOT_UNIT[|BOOT_UNIT| - 1] == 'e';
  }

  lemma EndPicks()
    ensures PicksClass(OpeningOf, 1) && PicksClass(ClosingOf, 6)
  {
  }

  /** After a boot nothing is re-formed while the engine answers, and every worker must; else, unless it replaces, the
      plan has nothing to do when this recipe serves already but see to the boot unit; and it ends with the boot unit
      and the wait for the head to answer on the job's port. */
  lemma EndsSay(site: Site, job: Job, facts: Facts, nodes: seq<Node>, mode: Mode, external: bool)
    requires nodes != [] && Up(site, job, facts, nodes, mode, external).Ok?
    ensures var plan, head := Up(site, job, facts, nodes, mode, external).value, nodes[0];
            var opening, closing := FlatMap(plan, OpeningOf), FlatMap(plan, ClosingOf);
            && (mode.boot ==>
                  opening == [UpAlready(head.name, job.port, None, []), Reach(head.name, Names(nodes[1..]))])
            && (!mode.boot && mode.replace ==> opening == [])
            && (!mode.boot && !mode.replace ==>
                  && |opening| == 1 && opening[0].UpAlready?
                  && opening[0] == UpAlready(head.name, job.port, Some(job.recipe), opening[0].meanwhile)
                  && UnitSays(facts, head, opening[0].meanwhile))
            && |closing| > 0 && closing[|closing| - 1] == Wait(head.name, job.port)
            && UnitSays(facts, head, closing[..|closing| - 1])
  {
    hide *;
    EndPicks();
    ClassFrom(site, job, facts, nodes, mode, external, OpeningOf, 1);
    ClassFrom(site, job, facts, nodes, mode, external, ClosingOf, 6);
    UnitFits(job, facts, nodes[0]);
    OpeningIs(job, facts, nodes, mode);
    var unit, wait := BootUnit(job, facts, nodes[0]), Wait(nodes[0].name, job.port);
    ClosingIs(job, facts, nodes);
    FlatMapSnoc(unit, wait, ClosingOf);
    WaitIs(wait);
    assert (unit + [wait])[..|unit|] == unit;
  }

  lemma WaitIs(s: Step)
    requires s.Wait?
    ensures ClosingOf(s) == [s]
  {
  }

  lemma ClosingIs(job: Job, facts: Facts, nodes: seq<Node>)
    requires nodes != []
    ensures Closing(job, facts, nodes) == BootUnit(job, facts, nodes[0]) + [Wait(nodes[0].name, job.port)]
  {
    hide BootUnit;
  }

  lemma OpeningIs(job: Job, facts: Facts, nodes: seq<Node>, mode: Mode)
    requires nodes != []
    ensures var head := nodes[0];
            FlatMap(Opening(job, facts, nodes, mode), OpeningOf) ==
              if mode.boot then [UpAlready(head.name, job.port, None, []), Reach(head.name, Names(nodes[1..]))]
              else if mode.replace then []
              else [UpAlready(head.name, job.port, Some(job.recipe), BootUnit(job, facts, head))]
  {
    hide BootUnit, Names;
    var head := nodes[0];
    var boot, reach := UpAlready(head.name, job.port, None, []), Reach(head.name, Names(nodes[1..]));
    var already := UpAlready(head.name, job.port, Some(job.recipe), BootUnit(job, facts, head));
    Two(boot, reach, OpeningOf);
    Two(already, reach, OpeningOf);
    assert [boot] + [reach] == [boot, reach];
  }
}
