/** py/serve.py: the plan that serves one model across machines, step by step. Texts shown to
    the user and shell quoting are left out; a launch script is the command it runs. */
module ClusterPlan {
  import opened Prelude

  const SOLO := "serve_solo"
  const NODE := "serve_node"
  const ENGINE_LABEL := "ai.bytebunker.dgx-serve=engine"
  const BOOT_UNIT := "dgx-serve-boot.service"

  /** A machine of the rack; home is its home directory, `~` over ssh. */
  datatype Node = Node(name: string, local: bool, platform: string, fabricIp: string, fabricIf: string, hcas: string,
                       home: string, hfCache: string)

  /** watchdog: what scripts/memwatch.sh holds, if it is there; mods: where each mod lies. */
  datatype Site = Site(keyed: bool, envFile: string, hfCache: string, state: string, masterPort: nat,
                       foreign: seq<string>, debug: bool, watchdog: Option<string>, watchdogKill: string,
                       watchdogLog: string, mods: map<string, string>)

  datatype Facts = Facts(systemd: bool, linger: bool, bootUnit: string)

  /** A recipe as the planner sees it: what it names, its engine arguments, and where it answers. */
  datatype Job = Job(recipe: string, platform: string, model: string, args: seq<string>, host: string, port: nat,
                     name: string, env: seq<string>, mods: seq<string>, image: string, memoryCap: Option<nat>)

  datatype Mode = Mode(replace: bool, boot: bool)

  datatype Content = Text(text: string) | Exec(command: seq<string>)

  datatype Step =
    | UpAlready(node: string, port: nat, recipe: Option<string>, meanwhile: seq<Step>)
    | ExternalFirst(node: string, replace: bool)
    | Reach(node: string, nodes: seq<string>)
    | Free(node: string, containers: seq<string>, port_: Option<nat>)
    | SameImage(node: string, image: string, nodes: seq<string>)
    | Weights(node: string, repo: string, nodes: seq<string>)
    | Run(node: string, argv: seq<string>, ignoreErrors: bool)
    | Mod(node: string, src: string, name: string)
    | Write(node: string, container: Option<string>, path: string, content: Content)
    | Spawn(node: string, argv: seq<string>)
    | Remove(node: string, path: string)
    | Wait(node: string, port: nat)
    | Record(node: string, serving: string)

  datatype Refusal = NoFabric(node: string) | OtherPlatform(node: string) | ModMissing(mod: string)

  function Decimal(n: nat): (s: string)
    ensures s != "" && '0' <= s[0] <= '9'
  {
    if n < 10 then [('0' as int + n) as char] else Decimal(n / 10) + [('0' as int + n % 10) as char]
  }

  // ------------------------------------------------------- the flags the launcher owns

  const OWNED_WITH_VALUE := ["--host", "--port", "--served-model-name", "--api-key", "--api-key-file", "--alias",
                             "--name", "--drafter"]

  /** a.split("=", 1)[0]. */
  function BeforeEquals(a: string): (h: string)
    ensures h <= a
    ensures '=' !in h
    ensures |h| < |a| ==> a[|h|] == '='
  {
    if a == "" || a[0] == '=' then "" else [a[0]] + BeforeEquals(a[1..])
  }

  predicate Owned(a: string) { BeforeEquals(a) in OWNED_WITH_VALUE || a == "--no-update-check" }

  /** The arguments without the owned flags; one written apart takes its value with it. */
  function Stripped(args: seq<string>): seq<string> {
    if args == [] then []
    else if args[0] in OWNED_WITH_VALUE then if |args| == 1 then [] else Stripped(args[2..])
    else if Owned(args[0]) then Stripped(args[1..])
    else [args[0]] + Stripped(args[1..])
  }

  method StripOwned(args: seq<string>) returns (out: seq<string>)
    ensures out == Stripped(args)
  {
    hide BeforeEquals, OWNED_WITH_VALUE;
    out := [];
    var skip := false;
    for i := 0 to |args|
      invariant skip ==> i > 0
      invariant Stripped(args) == out + Stripped(if skip && i < |args| then args[i + 1..] else args[i..])
    {
      var a := args[i];
      assert args[i..][0] == a && args[i..][1..] == args[i + 1..];
      assert i + 1 < |args| ==> args[i..][2..] == args[i + 2..];
      if skip {
        skip := false;
      } else if a in OWNED_WITH_VALUE {
        skip := true;
      } else if BeforeEquals(a) in OWNED_WITH_VALUE || a == "--no-update-check" {
      } else {
        out := out + [a];
      }
    }
  }

  /** None of them is left. */
  lemma {:induction false} NoneOwned(args: seq<string>)
    ensures forall k :: 0 <= k < |Stripped(args)| ==>
            !Owned(Stripped(args)[k]) && Stripped(args)[k] !in OWNED_WITH_VALUE
    decreases |args|
  {
    if args != [] {
      NoneOwned(args[1..]);
      if |args| > 1 {
        NoneOwned(args[2..]);
      }
    }
  }

  /** Arguments that hold none are kept as they are, in order. */
  lemma {:induction false} OthersKept(args: seq<string>)
    requires forall k :: 0 <= k < |args| ==> !Owned(args[k]) && args[k] !in OWNED_WITH_VALUE
    ensures Stripped(args) == args
  {
    if args != [] {
      OthersKept(args[1..]);
    }
  }

  /** A flag and its value go, wherever they stand among complete arguments, and nothing else does. */
  lemma {:induction false} FlagRemoved(before: seq<string>, flag: string, value: string, after: seq<string>)
    requires flag in OWNED_WITH_VALUE && forall k :: 0 <= k < |before| ==> before[k] !in OWNED_WITH_VALUE
    ensures Stripped(before + [flag, value] + after) == Stripped(before) + Stripped(after)
  {
    var all := before + [flag, value] + after;
    if before == [] {
      assert all[2..] == after;
    } else {
      assert all[1..] == before[1..] + [flag, value] + after;
      FlagRemoved(before[1..], flag, value, after);
    }
  }

  // ------------------------------------------------------------------- steps per node

  function Home(n: Node, rel: string): string { n.home + "/" + rel }

  /** One free step for each node; with replace, rack's own engine is stopped first. */
  function GuardFor(site: Site, port: nat, replace: bool, n: Node): seq<Step> {
    (if replace then [Run(n.name, ["docker", "rm", "-f", SOLO, NODE], true)] else [])
    + [Free(n.name, [SOLO, NODE] + site.foreign, if n.local then Some(port) else None)]
  }

  const DROP := "sudo -n /usr/local/sbin/drop-caches 2>/dev/null || "
    + "sudo -n sh -c 'sync; echo 3 > /proc/sys/vm/drop_caches' 2>/dev/null || "
    + "echo 'WARN: could not drop caches (no passwordless sudo): docs/12-platforms.md' >&2"

  function DropCaches(n: Node): seq<Step> { [Run(n.name, ["sh", "-c", DROP], true)] }

  function Caches(n: Node): seq<string> { [Home(n, ".cache/vllm"), Home(n, ".cache/flashinfer"), Home(n, ".triton")] }

  /** Each value after a `-e`. */
  function EnvFlags(values: seq<string>): seq<string> {
    if values == [] then []
    else EnvFlags(values[..|values| - 1]) + if values[|values| - 1] == "" then [] else ["-e", values[|values| - 1]]
  }

  function DockerCommon(site: Site, job: Job, facts: Facts, n: Node, head: bool): seq<string> {
    ["--label", ENGINE_LABEL, "--label", "ai.bytebunker.dgx-serve.recipe=" + job.recipe,
     "--network", "host", "--gpus", "all", "--ipc=host", "--ulimit", "nofile=1048576:1048576"]
    + (if job.memoryCap.Some? then
         ["--memory=" + Decimal(job.memoryCap.value) + "g", "--memory-swap=" + Decimal(job.memoryCap.value) + "g"]
       else [])
    + (if facts.systemd then ["--log-driver", "journald"]
       else ["--log-opt", "max-size=100m", "--log-opt", "max-file=3"])
    + (if head && site.keyed then ["--env-file", site.envFile] else [])
    + ["-e", "PYTORCH_CUDA_ALLOC_CONF=expandable_segments:True", "-e", "HF_HUB_OFFLINE=1",
       "-e", "TRANSFORMERS_OFFLINE=1",
       "-e", "VLLM_NO_USAGE_STATS=1", "-e", "DO_NOT_TRACK=1"]
    + ["-v", (if n.hfCache != "" then n.hfCache else site.hfCache) + ":/root/.cache/huggingface",
       "-v", Home(n, ".cache/vllm") + ":/root/.cache/vllm",
       "-v", Home(n, ".cache/flashinfer") + ":/root/.cache/flashinfer",
       "-v", Home(n, ".triton") + ":/root/.triton"]
  }

  function NodeEnv(site: Site, job: Job, head: Node, n: Node): seq<string> {
    var iface := if n.fabricIf != "" then n.fabricIf else head.fabricIf;
    var hcas := if n.hcas != "" then n.hcas else head.hcas;
    ["-e", "VLLM_HOST_IP=" + n.fabricIp]
    + (if iface == "" then [] else
         ["-e", "NCCL_SOCKET_IFNAME=" + iface, "-e", "GLOO_SOCKET_IFNAME=" + iface,
          "-e", "TP_SOCKET_IFNAME=" + iface, "-e", "UCX_NET_DEVICES=" + iface])
    + (if hcas != "" then ["-e", "NCCL_IB_HCA=" + hcas, "-e", "NCCL_IB_DISABLE=0"] else ["-e", "NCCL_IB_DISABLE=1"])
    + ["-e", "NCCL_IGNORE_CPU_AFFINITY=1"]
    + (if site.debug then ["-e", "NCCL_DEBUG=INFO"] else [])
    + EnvFlags(job.env)
  }

  function StartArgv(site: Site, job: Job, facts: Facts, head: Node, rank: nat, n: Node): seq<string> {
    ["docker", "run", "-d", "--name", NODE, "--restart", "unless-stopped", "--privileged"]
    + DockerCommon(site, job, facts, n, rank == 0) + NodeEnv(site, job, head, n)
    + ["--entrypoint=", job.image, "sleep", "infinity"]
  }

  /** A node's container, idle until the launch. */
  function ContainerFor(site: Site, job: Job, facts: Facts, head: Node, rank: nat, n: Node): seq<Step> {
    [Run(n.name, ["mkdir", "-p"] + Caches(n), false),
     Run(n.name, ["docker", "rm", "-f", NODE], true),
     Run(n.name, StartArgv(site, job, facts, head, rank, n), false)]
  }

  function WatchFor(site: Site, n: Node): seq<Step> {
    if site.watchdog == None then []
    else
      var script := (if n.local then site.state else "~/.local/state/dgx-serve") + "/bin/memwatch.sh";
      [Write(n.name, None, script, Text(site.watchdog.value)),
       Run(n.name, ["pkill", "-f", "[m]emwatch.sh " + NODE], true),
       Spawn(n.name, ["env", "MEMWATCH_KILL=" + site.watchdogKill, "bash", script, NODE, "3"])]
  }

  /** What a rank runs: only rank 0 serves, the others are headless. */
  function Command(site: Site, job: Job, head: Node, total: nat, rank: nat): seq<string> {
    ["vllm", "serve", job.model] + Stripped(job.args)
    + ["--nnodes", Decimal(total), "--node-rank", Decimal(rank), "--master-addr", head.fabricIp,
       "--master-port", Decimal(site.masterPort)]
    + if rank > 0 then ["--headless"]
      else ["--host", job.host, "--port", Decimal(job.port), "--served-model-name", job.name]
  }

  const LAUNCH := ["docker", "exec", "-d", NODE, "bash", "-c", "bash /workspace/launch.sh >> /proc/1/fd/1 2>&1"]

  function LaunchFor(site: Site, job: Job, head: Node, total: nat, rank: nat, n: Node): seq<Step> {
    [Run(n.name, ["docker", "exec", "-w", "/", NODE, "mkdir", "-p", "/workspace"], false),
     Write(n.name, Some(NODE), "/workspace/launch.sh", Exec(Command(site, job, head, total, rank))),
     Run(n.name, LAUNCH, false)]
  }

  function BootUnit(job: Job, facts: Facts, head: Node): seq<Step> {
    var unit := Home(head, ".config/systemd/user/" + BOOT_UNIT);
    if facts.linger then
      [Write(head.name, None, unit, Text(facts.bootUnit)),
       Run(head.name, ["systemctl", "--user", "daemon-reload"], true),
       Run(head.name, ["systemctl", "--user", "enable", BOOT_UNIT], true)]
    else
      [Run(head.name, ["systemctl", "--user", "disable", BOOT_UNIT], true), Remove(head.name, unit)]
  }

  // ------------------------------------------------------------------- the whole plan

  type PerNode = (nat, Node) -> seq<Step>

  /** The steps of every node, in rank order. */
  function Each(nodes: seq<Node>, f: PerNode): seq<Step> {
    if nodes == [] then [] else Each(nodes[..|nodes| - 1], f) + f(|nodes| - 1, nodes[|nodes| - 1])
  }

  /** The steps of every node, the last rank first. */
  function EachDown(nodes: seq<Node>, f: PerNode): seq<Step> {
    if nodes == [] then [] else f(|nodes| - 1, nodes[|nodes| - 1]) + EachDown(nodes[..|nodes| - 1], f)
  }

  function Guard(site: Site, port: nat, replace: bool): PerNode {
    (rank: nat, n: Node) => GuardFor(site, port, replace, n)
  }

  function Drop(): PerNode { (rank: nat, n: Node) => DropCaches(n) }

  function Container(site: Site, job: Job, facts: Facts, head: Node): PerNode {
    (rank: nat, n: Node) => ContainerFor(site, job, facts, head, rank, n)
  }

  function Modded(src: string, name: string): PerNode { (rank: nat, n: Node) => [Mod(n.name, src, name)] }

  function Watch(site: Site): PerNode { (rank: nat, n: Node) => WatchFor(site, n) }

  function Launch(site: Site, job: Job, head: Node, total: nat): PerNode {
    (rank: nat, n: Node) => LaunchFor(site, job, head, total, rank, n)
  }

  function Names(nodes: seq<Node>): (names: seq<string>)
    ensures |names| == |nodes| && forall k :: 0 <= k < |nodes| ==> names[k] == nodes[k].name
  {
    seq(|nodes|, k requires 0 <= k < |nodes| => nodes[k].name)
  }

  /** Every mod on every node, mod after mod. */
  function ModSteps(site: Site, nodes: seq<Node>, mods: seq<string>): seq<Step> {
    if mods == [] then []
    else
      var m := mods[|mods| - 1];
      ModSteps(site, nodes, mods[..|mods| - 1])
      + if m == "" || m !in site.mods then [] else Each(nodes, Modded(site.mods[m], m))
  }

  /** Why a plan is refused: a machine without a fabric address or of another platform, else a mod that is missing. */
  function NodeRefusal(job: Job, nodes: seq<Node>): Option<Refusal> {
    if nodes == [] then None
    else
      var before := NodeRefusal(job, nodes[..|nodes| - 1]);
      var n := nodes[|nodes| - 1];
      if before.Some? then before
      else if n.fabricIp == "" then Some(NoFabric(n.name))
      else if |nodes| > 1 && n.platform != "" && n.platform != job.platform then Some(OtherPlatform(n.name))
      else None
  }

  function ModRefusal(site: Site, mods: seq<string>): Option<Refusal> {
    if mods == [] then None
    else
      var before := ModRefusal(site, mods[..|mods| - 1]);
      var m := mods[|mods| - 1];
      if before.Some? then before else if m != "" && m !in site.mods then Some(ModMissing(m)) else None
  }

  /** Stop here when there is nothing to do; after a reboot, wait for the workers. */
  function Opening(job: Job, facts: Facts, nodes: seq<Node>, mode: Mode): seq<Step>
    requires nodes != []
  {
    var head := nodes[0];
    if mode.boot then [UpAlready(head.name, job.port, None, []), Reach(head.name, Names(nodes[1..]))]
    else if mode.replace then []
    else [UpAlready(head.name, job.port, Some(job.recipe), BootUnit(job, facts, head))]
  }

  function Guards(site: Site, job: Job, nodes: seq<Node>, mode: Mode): seq<Step> {
    Each(nodes, Guard(site, job.port, mode.replace || mode.boot))
  }

  function Prepared(job: Job, nodes: seq<Node>): seq<Step>
    requires nodes != []
  {
    [SameImage(nodes[0].name, job.image, Names(nodes)), Weights(nodes[0].name, job.model, Names(nodes))]
    + if job.platform == "dgx" then Each(nodes, Drop()) else []
  }

  function Containers(site: Site, job: Job, facts: Facts, nodes: seq<Node>): seq<Step>
    requires nodes != []
  {
    Each(nodes, Container(site, job, facts, nodes[0]))
  }

  const SPANS := "from vllm.engine.arg_utils import EngineArgs; assert hasattr(EngineArgs, 'nnodes')"

  function Equipped(site: Site, job: Job, nodes: seq<Node>): seq<Step>
    requires nodes != []
  {
    [Run(nodes[0].name, ["docker", "exec", NODE, "python3", "-c", SPANS], false)]
    + ModSteps(site, nodes, job.mods)
    + if job.platform == "dgx" then Each(nodes, Watch(site)) else []
  }

  function Launches(site: Site, job: Job, nodes: seq<Node>): seq<Step>
    requires nodes != []
  {
    EachDown(nodes, Launch(site, job, nodes[0], |nodes|))
  }

  function Closing(job: Job, facts: Facts, nodes: seq<Node>): seq<Step>
    requires nodes != []
  {
    BootUnit(job, facts, nodes[0]) + [Wait(nodes[0].name, job.port)]
  }

  function Steps(site: Site, job: Job, facts: Facts, nodes: seq<Node>, mode: Mode): seq<Step>
    requires nodes != []
  {
    Opening(job, facts, nodes, mode) + Guards(site, job, nodes, mode) + Prepared(job, nodes)
    + Containers(site, job, facts, nodes) + Equipped(site, job, nodes) + Launches(site, job, nodes)
    + Closing(job, facts, nodes)
  }

  function Cluster(site: Site, job: Job, facts: Facts, nodes: seq<Node>, mode: Mode): Result<seq<Step>, Refusal>
    requires nodes != []
  {
    var refused := NodeRefusal(job, nodes);
    var missing := ModRefusal(site, job.mods);
    if refused.Some? then Err(refused.value)
    else if missing.Some? then Err(missing.value)
    else Ok(Steps(site, job, facts, nodes, mode))
  }

  method GuardSteps(site: Site, nodes: seq<Node>, replace: bool, port: nat) returns (out: seq<Step>)
    ensures out == Each(nodes, Guard(site, port, replace))
  {
    out := [];
    for i := 0 to |nodes|
      invariant out == Each(nodes[..i], Guard(site, port, replace))
    {
      var n := nodes[i];
      ghost var before := out;
      if replace {
        out := out + [Run(n.name, ["docker", "rm", "-f", SOLO, NODE], true)];
      }
      out := out + [Free(n.name, [SOLO, NODE] + site.foreign, if n.local then Some(port) else None)];
      EachNext(nodes, i, Guard(site, port, replace));
      assert out == before + GuardFor(site, port, replace, n);
    }
    assert nodes[..|nodes|] == nodes;
  }

  lemma EachNext(nodes: seq<Node>, i: nat, f: PerNode)
    requires i < |nodes|
    ensures Each(nodes[..i + 1], f) == Each(nodes[..i], f) + f(i, nodes[i])
  {
    assert nodes[..i + 1][..i] == nodes[..i];
  }

  lemma EachDownNext(nodes: seq<Node>, i: nat, f: PerNode)
    requires i < |nodes|
    ensures EachDown(nodes[..i + 1], f) == f(i, nodes[i]) + EachDown(nodes[..i], f)
  {
    assert nodes[..i + 1][..i] == nodes[..i];
  }

  method CheckNodes(job: Job, nodes: seq<Node>) returns (refused: Option<Refusal>)
    requires nodes != []
    ensures refused == NodeRefusal(job, nodes)
  {
    if nodes[0].fabricIp == "" {
      RefusedEarly(job, nodes, 0);
      return Some(NoFabric(nodes[0].name));
    }
    for i := 1 to |nodes|
      invariant NodeRefusal(job, nodes[..i]) == None
    {
      var n := nodes[i];
      assert nodes[..i + 1][..i] == nodes[..i];
      if n.fabricIp == "" {
        RefusedEarly(job, nodes, i);
        return Some(NoFabric(n.name));
      }
      if n.platform != "" && n.platform != job.platform {
        RefusedEarly(job, nodes, i);
        return Some(OtherPlatform(n.name));
      }
    }
    assert nodes[..|nodes|] == nodes;
    return None;
  }

  lemma {:induction false} RefusedEarly(job: Job, nodes: seq<Node>, i: nat)
    requires i < |nodes| && NodeRefusal(job, nodes[..i + 1]).Some?
    ensures NodeRefusal(job, nodes) == NodeRefusal(job, nodes[..i + 1])
  {
    if i == |nodes| - 1 {
      assert nodes[..i + 1] == nodes;
    } else {
      assert nodes[..|nodes| - 1][..i + 1] == nodes[..i + 1];
      RefusedEarly(job, nodes[..|nodes| - 1], i);
    }
  }

  method ModStepsOf(site: Site, nodes: seq<Node>, mods: seq<string>) returns (r: Result<seq<Step>, Refusal>)
    ensures r == if ModRefusal(site, mods).Some? then Err(ModRefusal(site, mods).value)
            else Ok(ModSteps(site, nodes, mods))
  {
    var steps := [];
    for i := 0 to |mods|
      invariant ModRefusal(site, mods[..i]) == None && steps == ModSteps(site, nodes, mods[..i])
    {
      var m := mods[i];
      assert mods[..i + 1][..i] == mods[..i];
      if m != "" {
        if m !in site.mods {
          MissingEarly(site, mods, i);
          return Err(ModMissing(m));
        }
        ghost var before := steps;
        for j := 0 to |nodes|
          invariant steps == before + Each(nodes[..j], Modded(site.mods[m], m))
        {
          steps := steps + [Mod(nodes[j].name, site.mods[m], m)];
          EachNext(nodes, j, Modded(site.mods[m], m));
        }
        assert nodes[..|nodes|] == nodes;
      }
    }
    assert mods[..|mods|] == mods;
    return Ok(steps);
  }

  lemma {:induction false} MissingEarly(site: Site, mods: seq<string>, i: nat)
    requires i < |mods| && ModRefusal(site, mods[..i + 1]).Some?
    ensures ModRefusal(site, mods) == ModRefusal(site, mods[..i + 1])
  {
    if i == |mods| - 1 {
      assert mods[..i + 1] == mods;
    } else {
      assert mods[..|mods| - 1][..i + 1] == mods[..i + 1];
      MissingEarly(site, mods[..|mods| - 1], i);
    }
  }

  method WatchSteps(site: Site, nodes: seq<Node>) returns (out: seq<Step>)
    ensures out == Each(nodes, Watch(site))
  {
    out := [];
    for i := 0 to |nodes|
      invariant out == Each(nodes[..i], Watch(site))
    {
      EachNext(nodes, i, Watch(site));
      out := out + WatchFor(site, nodes[i]);
    }
    assert nodes[..|nodes|] == nodes;
  }

  method DropSteps(nodes: seq<Node>) returns (out: seq<Step>)
    ensures out == Each(nodes, Drop())
  {
    out := [];
    for i := 0 to |nodes|
      invariant out == Each(nodes[..i], Drop())
    {
      EachNext(nodes, i, Drop());
      out := out + DropCaches(nodes[i]);
    }
    assert nodes[..|nodes|] == nodes;
  }

  /** The loop of plan_cluster that starts the containers. */
  method ContainerSteps(site: Site, job: Job, facts: Facts, nodes: seq<Node>) returns (out: seq<Step>)
    requires nodes != []
    ensures out == Containers(site, job, facts, nodes)
  {
    hide StartArgv, Caches;
    var head := nodes[0];
    out := [];
    for rank := 0 to |nodes|
      invariant out == Each(nodes[..rank], Container(site, job, facts, head))
    {
      var n := nodes[rank];
      EachNext(nodes, rank, Container(site, job, facts, head));
      ghost var before := out;
      out := out + [Run(n.name, ["mkdir", "-p"] + Caches(n), false)];
      out := out + [Run(n.name, ["docker", "rm", "-f", NODE], true)];
      out := out + [Run(n.name, StartArgv(site, job, facts, head, rank, n), false)];
      assert out == before + ContainerFor(site, job, facts, head, rank, n);
    }
    assert nodes[..|nodes|] == nodes;
  }

  method LaunchRank(site: Site, job: Job, head: Node, total: nat, rank: nat, n: Node) returns (out: seq<Step>)
    ensures out == LaunchFor(site, job, head, total, rank, n)
  {
    var args := StripOwned(job.args);
    var cmd := ["vllm", "serve", job.model] + args
      + ["--nnodes", Decimal(total), "--node-rank", Decimal(rank), "--master-addr", head.fabricIp,
         "--master-port", Decimal(site.masterPort)];
    cmd := cmd + if rank > 0 then ["--headless"]
                 else ["--host", job.host, "--port", Decimal(job.port), "--served-model-name", job.name];
    out := [Run(n.name, ["docker", "exec", "-w", "/", NODE, "mkdir", "-p", "/workspace"], false)];
    out := out + [Write(n.name, Some(NODE), "/workspace/launch.sh", Exec(cmd))];
    out := out + [Run(n.name, LAUNCH, false)];
  }

  /** The loop that launches the ranks, workers first, the head last. */
  method LaunchSteps(site: Site, job: Job, nodes: seq<Node>) returns (out: seq<Step>)
    requires nodes != []
    ensures out == Launches(site, job, nodes)
  {
    hide LaunchFor;
    var head, total := nodes[0], |nodes|;
    var rank := total;
    out := [];
    assert nodes[..total] == nodes;
    while rank > 0
      invariant 0 <= rank <= |nodes|
      invariant out + EachDown(nodes[..rank], Launch(site, job, head, total)) == Launches(site, job, nodes)
    {
      EachDownNext(nodes, rank - 1, Launch(site, job, head, total));
      rank := rank - 1;
      var launch := LaunchRank(site, job, head, total, rank, nodes[rank]);
      assert out + (launch + EachDown(nodes[..rank], Launch(site, job, head, total)))
          == out + launch + EachDown(nodes[..rank], Launch(site, job, head, total));
      out := out + launch;
    }
    assert nodes[..0] == [] && out + [] == out;
  }

  /** Before the guards: nothing to do if it serves already, and after a reboot the workers must answer. */
  method OpeningSteps(job: Job, facts: Facts, nodes: seq<Node>, mode: Mode) returns (out: seq<Step>)
    requires nodes != []
    ensures out == Opening(job, facts, nodes, mode)
  {
    hide BootUnit, Names;
    var head := nodes[0];
    out := [];
    if mode.boot {
      out := out + [UpAlready(head.name, job.port, None, [])];
    } else if !mode.replace {
      out := out + [UpAlready(head.name, job.port, Some(job.recipe), BootUnit(job, facts, head))];
    }
    if mode.boot {
      out := out + [Reach(head.name, Names(nodes[1..]))];
    }
  }

  /** The same image and the weights on every node, and on a DGX the page caches dropped. */
  method PreparedSteps(job: Job, nodes: seq<Node>) returns (out: seq<Step>)
    requires nodes != []
    ensures out == Prepared(job, nodes)
  {
    hide Names;
    out := [SameImage(nodes[0].name, job.image, Names(nodes)), Weights(nodes[0].name, job.model, Names(nodes))];
    if job.platform == "dgx" {
      var drops := DropSteps(nodes);
      out := out + drops;
    }
  }

  /** What the containers need before the launch, or the mod that is missing. */
  method EquippedSteps(site: Site, job: Job, nodes: seq<Node>) returns (r: Result<seq<Step>, Refusal>)
    requires nodes != []
    ensures r == if ModRefusal(site, job.mods).Some? then Err(ModRefusal(site, job.mods).value)
                 else Ok(Equipped(site, job, nodes))
  {
    hide ModRefusal, ModSteps;
    var out := [Run(nodes[0].name, ["docker", "exec", NODE, "python3", "-c", SPANS], false)];
    var mods := ModStepsOf(site, nodes, job.mods);
    if mods.Err? {
      return Err(mods.error);
    }
    out := out + mods.value;
    if job.platform == "dgx" {
      var watch := WatchSteps(site, nodes);
      out := out + watch;
    } else {
      assert out + [] == out;
    }
    assert out == Equipped(site, job, nodes);
    return Ok(out);
  }

  /** plan_cluster: p["steps"], grown part by part. */
  method PlanCluster(site: Site, job: Job, facts: Facts, nodes: seq<Node>, mode: Mode)
    returns (r: Result<seq<Step>, Refusal>)
    requires nodes != []
    ensures r == Cluster(site, job, facts, nodes, mode)
  {
    var refused := CheckNodes(job, nodes);
    if refused.Some? {
      return Err(refused.value);
    }
    var steps := OpeningSteps(job, facts, nodes, mode);
    var guards := GuardSteps(site, nodes, mode.replace || mode.boot, job.port);
    steps := steps + guards;
    var shared := PreparedSteps(job, nodes);
    steps := steps + shared;
    var containers := ContainerSteps(site, job, facts, nodes);
    steps := steps + containers;
    var equipped := EquippedSteps(site, job, nodes);
    if equipped.Err? {
      return Err(equipped.error);
    }
    var launches := LaunchSteps(site, job, nodes);
    steps := steps + equipped.value + launches;
    hide NodeRefusal, ModRefusal, Prepared, Containers, Equipped, Launches, Opening, BootUnit, Each, Names;
    steps := steps + (BootUnit(job, facts, nodes[0]) + [Wait(nodes[0].name, job.port)]);
    return Ok(steps);
  }

  // ------------------------------------------------------------------- the tail of plan_up

  /** After the first up-already step, else at the start. */
  function ExternalAt(steps: seq<Step>): (at: nat)
    ensures at <= |steps|
    ensures at > 0 ==> steps[at - 1].UpAlready? && forall k :: 0 <= k < at - 1 ==> !steps[k].UpAlready?
    ensures at == 0 ==> forall k :: 0 <= k < |steps| ==> !steps[k].UpAlready?
  {
    if steps == [] then 0
    else
      var before := ExternalAt(steps[..|steps| - 1]);
      if before > 0 then before
      else if steps[|steps| - 1].UpAlready? then |steps| else 0
  }

  /** A plan that starts while an external engine is recorded deals with it first. */
  function ExternalFirstIn(head: string, steps: seq<Step>, external: bool, replace: bool): seq<Step> {
    var at := ExternalAt(steps);
    if external then steps[..at] + [ExternalFirst(head, replace)] + steps[at..] else steps
  }

  method StopExternalFirst(head: string, steps: seq<Step>, external: bool, replace: bool) returns (out: seq<Step>)
    ensures out == ExternalFirstIn(head, steps, external, replace)
  {
    if !external {
      return steps;
    }
    var at := 0;
    for i := 0 to |steps|
      invariant at == 0 && forall k :: 0 <= k < i ==> !steps[k].UpAlready?
    {
      if steps[i].UpAlready? {
        at := i + 1;
        break;
      }
    }
    assert at == ExternalAt(steps);
    out := steps[..at] + [ExternalFirst(head, replace)] + steps[at..];
  }

  /** A cluster's whole plan: an external engine first, the record last. */
  function Up(site: Site, job: Job, facts: Facts, nodes: seq<Node>, mode: Mode, external: bool)
      : Result<seq<Step>, Refusal>
    requires nodes != []
  {
    var r := Cluster(site, job, facts, nodes, mode);
    if r.Err? then r
    else Ok(ExternalFirstIn(nodes[0].name, r.value, external, mode.replace) + [Record(nodes[0].name, job.recipe)])
  }

  method PlanUp(site: Site, job: Job, facts: Facts, nodes: seq<Node>, mode: Mode, external: bool)
    returns (r: Result<seq<Step>, Refusal>)
    requires nodes != []
    ensures r == Up(site, job, facts, nodes, mode, external)
  {
    hide Cluster, ExternalFirstIn;
    var planned := PlanCluster(site, job, facts, nodes, mode);
    if planned.Err? {
      return planned;
    }
    var steps := StopExternalFirst(nodes[0].name, planned.value, external, mode.replace);
    return Ok(steps + [Record(nodes[0].name, job.recipe)]);
  }
}
