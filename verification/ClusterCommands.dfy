/** What the containers and the engine commands of a cluster plan are told, read off their words. */
module ClusterCommands {
  import opened Prelude
  import opened ClusterPlan
  import opened ClusterOrder
  import opened ClusterSays
  import opened Flags

  // ----------------------------------------------------------------- numbers --

  /** The number a string of digits writes. */
  function Written(s: string): int {
    if s == "" then 0 else 10 * Written(s[..|s| - 1]) + (s[|s| - 1] as int - '0' as int)
  }

  lemma {:induction false} DecimalWrites(n: nat)
    ensures Written(Decimal(n)) == n
    ensures forall k :: 0 <= k < |Decimal(n)| ==> '0' <= Decimal(n)[k] <= '9'
  {
    if n < 10 {
      assert Decimal(n)[..0] == "";
    } else {
      DecimalWrites(n / 10);
      var init, last := Decimal(n / 10), ('0' as int + n % 10) as char;
      assert (init + [last])[..|init|] == init;
    }
  }

  // -------------------------------------------------------------- containers --

  /** Two words stand one after the other. */
  ghost predicate Pair(argv: seq<string>, a: string, b: string) {
    exists k :: 0 <= k < |argv| - 1 && argv[k] == a && argv[k + 1] == b
  }

  lemma PairAt(argv: seq<string>, k: nat)
    requires k + 1 < |argv|
    ensures Pair(argv, argv[k], argv[k + 1])
  {
  }

  lemma PairWithin(x: seq<string>, argv: seq<string>, y: seq<string>, a: string, b: string)
    requires Pair(argv, a, b)
    ensures Pair(x + argv + y, a, b)
  {
    var k :| 0 <= k < |argv| - 1 && argv[k] == a && argv[k + 1] == b;
    var all := x + argv + y;
    assert all[|x| + k] == a && all[|x| + k + 1] == b;
  }

  lemma {:induction false} EnvPairs(values: seq<string>, v: string)
    requires v in values && v != ""
    ensures Pair(EnvFlags(values), "-e", v)
  {
    var init, last := values[..|values| - 1], values[|values| - 1];
    if last == v {
      var all := EnvFlags(values);
      assert all[|all| - 2] == "-e" && all[|all| - 1] == v;
    } else {
      assert values == init + [last];
      EnvPairs(init, v);
      PairWithin([], EnvFlags(init), if last == "" then [] else ["-e", last], "-e", v);
      assert [] + EnvFlags(init) == EnvFlags(init);
      assert EnvFlags(init) + [] == EnvFlags(init);
    }
  }

  lemma {:induction false} EnvPlain(values: seq<string>, w: string)
    requires w !in values && w != "-e"
    ensures w !in EnvFlags(values)
  {
    if values != [] {
      assert values == values[..|values| - 1] + [values[|values| - 1]];
      EnvPlain(values[..|values| - 1], w);
    }
  }

  /** The labels by which a guard finds it, the limits, where it keeps its caches, and on the head the key's file. */
  ghost predicate CommonSays(site: Site, job: Job, facts: Facts, n: Node, head: bool, argv: seq<string>) {
    && Pair(argv, "--label", "ai.bytebunker.dgx-serve=engine")
    && Pair(argv, "--label", "ai.bytebunker.dgx-serve.recipe=" + job.recipe)
    && Pair(argv, "--network", "host") && Pair(argv, "--gpus", "all")
    && (job.memoryCap.Some? ==>
          "--memory=" + Decimal(job.memoryCap.value) + "g" in argv
          && "--memory-swap=" + Decimal(job.memoryCap.value) + "g" in argv)
    && (if facts.systemd then Pair(argv, "--log-driver", "journald") else Pair(argv, "--log-opt", "max-size=100m"))
    && (head && site.keyed ==> Pair(argv, "--env-file", site.envFile))
    && (!(head && site.keyed) ==> "--env-file" !in argv)
    && Pair(argv, "-e", "HF_HUB_OFFLINE=1")
    && Pair(argv, "-v", (if n.hfCache != "" then n.hfCache else site.hfCache) + ":/root/.cache/huggingface")
    && Pair(argv, "-v", n.home + "/" + ".cache/vllm" + ":/root/.cache/vllm")
    && Pair(argv, "-v", n.home + "/" + ".cache/flashinfer" + ":/root/.cache/flashinfer")
    && Pair(argv, "-v", n.home + "/" + ".triton" + ":/root/.triton")
  }

  function Labels(job: Job): seq<string> {
    ["--label", ENGINE_LABEL, "--label", "ai.bytebunker.dgx-serve.recipe=" + job.recipe,
     "--network", "host", "--gpus", "all", "--ipc=host", "--ulimit", "nofile=1048576:1048576"]
  }

  function Limits(job: Job): seq<string> {
    if job.memoryCap.Some? then
      ["--memory=" + Decimal(job.memoryCap.value) + "g", "--memory-swap=" + Decimal(job.memoryCap.value) + "g"]
    else []
  }

  function Logs(facts: Facts): seq<string> {
    if facts.systemd then ["--log-driver", "journald"] else ["--log-opt", "max-size=100m", "--log-opt", "max-file=3"]
  }

  function KeyFile(site: Site, head: bool): seq<string> {
    if head && site.keyed then ["--env-file", site.envFile] else []
  }

  function Quiet(): seq<string> {
    ["-e", "PYTORCH_CUDA_ALLOC_CONF=expandable_segments:True", "-e", "HF_HUB_OFFLINE=1",
     "-e", "TRANSFORMERS_OFFLINE=1", "-e", "VLLM_NO_USAGE_STATS=1", "-e", "DO_NOT_TRACK=1"]
  }

  function Mounts(site: Site, n: Node): seq<string> {
    ["-v", (if n.hfCache != "" then n.hfCache else site.hfCache) + ":/root/.cache/huggingface",
     "-v", n.home + "/" + ".cache/vllm" + ":/root/.cache/vllm",
     "-v", n.home + "/" + ".cache/flashinfer" + ":/root/.cache/flashinfer",
     "-v", n.home + "/" + ".triton" + ":/root/.triton"]
  }

  lemma CommonParts(site: Site, job: Job, facts: Facts, n: Node, head: bool)
    ensures DockerCommon(site, job, facts, n, head)
            == Labels(job) + Limits(job) + Logs(facts) + KeyFile(site, head) + Quiet() + Mounts(site, n)
  {
    hide Decimal;
  }

  lemma PairTwice(argv: seq<string>, a: string, b: string, x: seq<string>, y: seq<string>)
    requires Pair(x, a, b) || Pair(y, a, b)
    requires argv == x + y
    ensures Pair(argv, a, b)
  {
    if Pair(x, a, b) {
      PairWithin([], x, y, a, b);
      assert [] + x == x;
    } else {
      PairWithin(x, y, [], a, b);
      assert x + y + [] == x + y;
    }
  }

  lemma LabelsSay(job: Job)
    ensures var l := Labels(job);
            && Pair(l, "--label", "ai.bytebunker.dgx-serve=engine")
            && Pair(l, "--label", "ai.bytebunker.dgx-serve.recipe=" + job.recipe)
            && Pair(l, "--network", "host") && Pair(l, "--gpus", "all")
  {
    hide Pair;
    PairAt(Labels(job), 0);
    PairAt(Labels(job), 2);
    PairAt(Labels(job), 4);
    PairAt(Labels(job), 6);
  }

  lemma LogsSay(facts: Facts)
    ensures if facts.systemd then Pair(Logs(facts), "--log-driver", "journald")
            else Pair(Logs(facts), "--log-opt", "max-size=100m")
  {
    hide Pair;
    PairAt(Logs(facts), 0);
  }

  lemma QuietSays()
    ensures Pair(Quiet(), "-e", "HF_HUB_OFFLINE=1")
  {
    hide Pair;
    PairAt(Quiet(), 2);
  }

  lemma MountsSay(site: Site, n: Node)
    ensures var m := Mounts(site, n);
            && Pair(m, "-v", (if n.hfCache != "" then n.hfCache else site.hfCache) + ":/root/.cache/huggingface")
            && Pair(m, "-v", n.home + "/" + ".cache/vllm" + ":/root/.cache/vllm")
            && Pair(m, "-v", n.home + "/" + ".cache/flashinfer" + ":/root/.cache/flashinfer")
            && Pair(m, "-v", n.home + "/" + ".triton" + ":/root/.triton")
  {
    hide Pair;
    PairAt(Mounts(site, n), 0);
    PairAt(Mounts(site, n), 2);
    PairAt(Mounts(site, n), 4);
    PairAt(Mounts(site, n), 6);
  }

  /** Words none of which is "--env-file". */
  predicate Keyless(ws: seq<string>) {
    forall k :: 0 <= k < |ws| ==> |ws[k]| != 10 || ws[k][2] != 'e'
  }

  lemma KeylessOut(ws: seq<string>)
    requires Keyless(ws)
    ensures "--env-file" !in ws
  {
    assert |"--env-file"| == 10 && "--env-file"[2] == 'e';
  }

  lemma LabelsKeyless(job: Job, facts: Facts)
    ensures Keyless(Labels(job)) && Keyless(Logs(facts)) && Keyless(Quiet())
  {
    assert "--ipc=host"[2] == 'i' && "max-file=3"[2] == 'x';
  }

  lemma LimitsKeyless(job: Job)
    ensures Keyless(Limits(job))
  {
    hide Decimal;
    assert forall k :: 0 <= k < |Limits(job)| ==> Limits(job)[k][2] == 'm';
  }

  lemma MountsKeyless(site: Site, n: Node)
    ensures Keyless(Mounts(site, n))
  {
    assert forall k :: 0 <= k < |Mounts(site, n)| ==> Mounts(site, n)[k] == "-v" || |Mounts(site, n)[k]| > 10;
  }

  lemma CommonFits(site: Site, job: Job, facts: Facts, n: Node, head: bool)
    ensures CommonSays(site, job, facts, n, head, DockerCommon(site, job, facts, n, head))
  {
    hide *;
    CommonParts(site, job, facts, n, head);
    LabelsSay(job);
    LogsSay(facts);
    QuietSays();
    MountsSay(site, n);
    LabelsKeyless(job, facts);
    LimitsKeyless(job);
    MountsKeyless(site, n);
    KeylessOut(Labels(job));
    KeylessOut(Limits(job));
    KeylessOut(Logs(facts));
    KeylessOut(Quiet());
    KeylessOut(Mounts(site, n));
    KeyFileSays(site, head);
    LimitsSay(job);
    Joined(site, job, facts, n, head, Labels(job), Limits(job), Logs(facts), KeyFile(site, head), Quiet(),
           Mounts(site, n));
  }

  lemma KeyFileSays(site: Site, head: bool)
    ensures head && site.keyed ==> Pair(KeyFile(site, head), "--env-file", site.envFile)
    ensures !(head && site.keyed) ==> KeyFile(site, head) == []
  {
    if head && site.keyed {
      PairAt(KeyFile(site, head), 0);
    }
  }

  lemma LimitsSay(job: Job)
    ensures job.memoryCap.Some? ==>
              "--memory=" + Decimal(job.memoryCap.value) + "g" in Limits(job)
              && "--memory-swap=" + Decimal(job.memoryCap.value) + "g" in Limits(job)
  {
    hide Decimal;
  }

  lemma Joined(site: Site, job: Job, facts: Facts, n: Node, head: bool, a: seq<string>, b: seq<string>, c: seq<string>,
               d: seq<string>, e: seq<string>, g: seq<string>)
    requires Pair(a, "--label", "ai.bytebunker.dgx-serve=engine")
    requires Pair(a, "--label", "ai.bytebunker.dgx-serve.recipe=" + job.recipe)
    requires Pair(a, "--network", "host") && Pair(a, "--gpus", "all")
    requires job.memoryCap.Some? ==>
               "--memory=" + Decimal(job.memoryCap.value) + "g" in b
               && "--memory-swap=" + Decimal(job.memoryCap.value) + "g" in b
    requires if facts.systemd then Pair(c, "--log-driver", "journald") else Pair(c, "--log-opt", "max-size=100m")
    requires head && site.keyed ==> Pair(d, "--env-file", site.envFile)
    requires !(head && site.keyed) ==> d == []
    requires Pair(e, "-e", "HF_HUB_OFFLINE=1")
    requires Pair(g, "-v", (if n.hfCache != "" then n.hfCache else site.hfCache) + ":/root/.cache/huggingface")
    requires Pair(g, "-v", n.home + "/" + ".cache/vllm" + ":/root/.cache/vllm")
    requires Pair(g, "-v", n.home + "/" + ".cache/flashinfer" + ":/root/.cache/flashinfer")
    requires Pair(g, "-v", n.home + "/" + ".triton" + ":/root/.triton")
    requires "--env-file" !in a && "--env-file" !in b && "--env-file" !in c && "--env-file" !in e && "--env-file" !in g
    ensures CommonSays(site, job, facts, n, head, a + b + c + d + e + g)
  {
    hide Pair, Decimal;
    var all := a + b + c + d + e + g;
    InSix(a, b, c, d, e, g);
    SixPairs(a, b, c, d, e, g, "--label", "ai.bytebunker.dgx-serve=engine");
    SixPairs(a, b, c, d, e, g, "--label", "ai.bytebunker.dgx-serve.recipe=" + job.recipe);
    SixPairs(a, b, c, d, e, g, "--network", "host");
    SixPairs(a, b, c, d, e, g, "--gpus", "all");
    if facts.systemd {
      SixPairs(a, b, c, d, e, g, "--log-driver", "journald");
    } else {
      SixPairs(a, b, c, d, e, g, "--log-opt", "max-size=100m");
    }
    if head && site.keyed {
      SixPairs(a, b, c, d, e, g, "--env-file", site.envFile);
    }
    SixPairs(a, b, c, d, e, g, "-e", "HF_HUB_OFFLINE=1");
    SixPairs(a, b, c, d, e, g, "-v",
             (if n.hfCache != "" then n.hfCache else site.hfCache) + ":/root/.cache/huggingface");
    SixPairs(a, b, c, d, e, g, "-v", n.home + "/" + ".cache/vllm" + ":/root/.cache/vllm");
    SixPairs(a, b, c, d, e, g, "-v", n.home + "/" + ".cache/flashinfer" + ":/root/.cache/flashinfer");
    SixPairs(a, b, c, d, e, g, "-v", n.home + "/" + ".triton" + ":/root/.triton");
  }

  lemma InSix(a: seq<string>, b: seq<string>, c: seq<string>, d: seq<string>, e: seq<string>, g: seq<string>)
    ensures forall w :: w in a + b + c + d + e + g <==> w in a || w in b || w in c || w in d || w in e || w in g
  {
  }

  lemma SixPairs(a: seq<string>, b: seq<string>, c: seq<string>, d: seq<string>, e: seq<string>, g: seq<string>,
                 x: string, y: string)
    requires Pair(a, x, y) || Pair(c, x, y) || Pair(d, x, y) || Pair(e, x, y) || Pair(g, x, y)
    ensures Pair(a + b + c + d + e + g, x, y)
  {
    hide Pair;
    if Pair(a, x, y) { PairTwice(a + b, x, y, a, b); }
    if Pair(a + b, x, y) || Pair(c, x, y) { PairTwice(a + b + c, x, y, a + b, c); }
    if Pair(a + b + c, x, y) || Pair(d, x, y) { PairTwice(a + b + c + d, x, y, a + b + c, d); }
    if Pair(a + b + c + d, x, y) || Pair(e, x, y) { PairTwice(a + b + c + d + e, x, y, a + b + c + d, e); }
    PairTwice(a + b + c + d + e + g, x, y, a + b + c + d + e, g);
  }

  /** Its own address, and how the machines talk to each other: the head's interface and adapters where it has none. */
  ghost predicate NodeSays(site: Site, job: Job, head: Node, n: Node, argv: seq<string>) {
    var iface := if n.fabricIf == "" then head.fabricIf else n.fabricIf;
    var hcas := if n.hcas == "" then head.hcas else n.hcas;
    && Pair(argv, "-e", "VLLM_HOST_IP=" + n.fabricIp)
    && (iface != "" ==>
          && Pair(argv, "-e", "NCCL_SOCKET_IFNAME=" + iface) && Pair(argv, "-e", "GLOO_SOCKET_IFNAME=" + iface)
          && Pair(argv, "-e", "TP_SOCKET_IFNAME=" + iface) && Pair(argv, "-e", "UCX_NET_DEVICES=" + iface))
    && (hcas != "" ==> Pair(argv, "-e", "NCCL_IB_HCA=" + hcas) && Pair(argv, "-e", "NCCL_IB_DISABLE=0"))
    && (hcas == "" ==> Pair(argv, "-e", "NCCL_IB_DISABLE=1"))
    && (site.debug ==> Pair(argv, "-e", "NCCL_DEBUG=INFO"))
    && (forall v :: v in job.env && v != "" ==> Pair(argv, "-e", v))
    && ("--env-file" !in job.env ==> "--env-file" !in argv)
  }

  function Interfaces(iface: string): seq<string> {
    if iface == "" then []
    else ["-e", "NCCL_SOCKET_IFNAME=" + iface, "-e", "GLOO_SOCKET_IFNAME=" + iface,
          "-e", "TP_SOCKET_IFNAME=" + iface, "-e", "UCX_NET_DEVICES=" + iface]
  }

  function Adapters(hcas: string): seq<string> {
    if hcas != "" then ["-e", "NCCL_IB_HCA=" + hcas, "-e", "NCCL_IB_DISABLE=0"] else ["-e", "NCCL_IB_DISABLE=1"]
  }

  lemma EnvParts(site: Site, job: Job, head: Node, n: Node)
    ensures NodeEnv(site, job, head, n) ==
            ["-e", "VLLM_HOST_IP=" + n.fabricIp]
            + Interfaces(if n.fabricIf != "" then n.fabricIf else head.fabricIf)
            + Adapters(if n.hcas != "" then n.hcas else head.hcas)
            + ["-e", "NCCL_IGNORE_CPU_AFFINITY=1"] + (if site.debug then ["-e", "NCCL_DEBUG=INFO"] else [])
            + EnvFlags(job.env)
  {
    hide EnvFlags;
  }

  lemma InterfacesSay(iface: string)
    ensures iface != "" ==>
              var x := Interfaces(iface);
              && Pair(x, "-e", "NCCL_SOCKET_IFNAME=" + iface) && Pair(x, "-e", "GLOO_SOCKET_IFNAME=" + iface)
              && Pair(x, "-e", "TP_SOCKET_IFNAME=" + iface) && Pair(x, "-e", "UCX_NET_DEVICES=" + iface)
    ensures Keyless(Interfaces(iface))
  {
    hide Pair;
    if iface != "" {
      PairAt(Interfaces(iface), 0);
      PairAt(Interfaces(iface), 2);
      PairAt(Interfaces(iface), 4);
      PairAt(Interfaces(iface), 6);
    }
  }

  lemma AdaptersSay(hcas: string)
    ensures hcas != "" ==> Pair(Adapters(hcas), "-e", "NCCL_IB_HCA=" + hcas)
                           && Pair(Adapters(hcas), "-e", "NCCL_IB_DISABLE=0")
    ensures hcas == "" ==> Pair(Adapters(hcas), "-e", "NCCL_IB_DISABLE=1")
    ensures Keyless(Adapters(hcas))
  {
    hide Pair;
    PairAt(Adapters(hcas), 0);
    if hcas != "" {
      PairAt(Adapters(hcas), 2);
    }
  }

  lemma AddressSays(ip: string)
    ensures Pair(["-e", "VLLM_HOST_IP=" + ip], "-e", "VLLM_HOST_IP=" + ip) && Keyless(["-e", "VLLM_HOST_IP=" + ip])
    ensures Pair(["-e", "NCCL_DEBUG=INFO"], "-e", "NCCL_DEBUG=INFO") && Keyless(["-e", "NCCL_DEBUG=INFO"])
    ensures Keyless(["-e", "NCCL_IGNORE_CPU_AFFINITY=1"])
  {
    hide Pair;
    PairAt(["-e", "VLLM_HOST_IP=" + ip], 0);
    PairAt(["-e", "NCCL_DEBUG=INFO"], 0);
  }

  lemma EnvFits(site: Site, job: Job, head: Node, n: Node)
    ensures NodeSays(site, job, head, n, NodeEnv(site, job, head, n))
  {
    hide *;
    var iface := if n.fabricIf != "" then n.fabricIf else head.fabricIf;
    var hcas := if n.hcas != "" then n.hcas else head.hcas;
    var a, b, c := ["-e", "VLLM_HOST_IP=" + n.fabricIp], Interfaces(iface), Adapters(hcas);
    var d, e, g := ["-e", "NCCL_IGNORE_CPU_AFFINITY=1"], if site.debug then ["-e", "NCCL_DEBUG=INFO"] else [],
        EnvFlags(job.env);
    EnvParts(site, job, head, n);
    AddressSays(n.fabricIp);
    InterfacesSay(iface);
    AdaptersSay(hcas);
    KeylessOut(a);
    KeylessOut(b);
    KeylessOut(c);
    KeylessOut(d);
    KeylessOut(["-e", "NCCL_DEBUG=INFO"]);
    EnvFlagsSay(job.env);
    EnvJoined(site, job, head, n, a, b, c, d, e, g);
  }

  lemma EnvFlagsSay(values: seq<string>)
    ensures forall v :: v in values && v != "" ==> Pair(EnvFlags(values), "-e", v)
    ensures "--env-file" !in values ==> "--env-file" !in EnvFlags(values)
  {
    hide Pair, EnvFlags;
    forall v | v in values && v != ""
      ensures Pair(EnvFlags(values), "-e", v)
    {
      EnvPairs(values, v);
    }
    if "--env-file" !in values {
      assert |"--env-file"| != |"-e"|;
      EnvPlain(values, "--env-file");
    }
  }

  lemma EnvJoined(site: Site, job: Job, head: Node, n: Node, a: seq<string>, b: seq<string>, c: seq<string>,
                  d: seq<string>, e: seq<string>, g: seq<string>)
    requires Pair(a, "-e", "VLLM_HOST_IP=" + n.fabricIp)
    requires var iface := if n.fabricIf == "" then head.fabricIf else n.fabricIf;
             iface != "" ==>
               && Pair(b, "-e", "NCCL_SOCKET_IFNAME=" + iface) && Pair(b, "-e", "GLOO_SOCKET_IFNAME=" + iface)
               && Pair(b, "-e", "TP_SOCKET_IFNAME=" + iface) && Pair(b, "-e", "UCX_NET_DEVICES=" + iface)
    requires var hcas := if n.hcas == "" then head.hcas else n.hcas;
             && (hcas != "" ==> Pair(c, "-e", "NCCL_IB_HCA=" + hcas) && Pair(c, "-e", "NCCL_IB_DISABLE=0"))
             && (hcas == "" ==> Pair(c, "-e", "NCCL_IB_DISABLE=1"))
    requires site.debug ==> Pair(e, "-e", "NCCL_DEBUG=INFO")
    requires forall v :: v in job.env && v != "" ==> Pair(g, "-e", v)
    requires "--env-file" !in a && "--env-file" !in b && "--env-file" !in c && "--env-file" !in d && "--env-file" !in e
    requires "--env-file" !in job.env ==> "--env-file" !in g
    ensures NodeSays(site, job, head, n, a + b + c + d + e + g)
  {
    hide Pair;
    var all := a + b + c + d + e + g;
    forall x, y
      ensures Pair(a, x, y) || Pair(c, x, y) || Pair(d, x, y) || Pair(e, x, y) || Pair(g, x, y) ==> Pair(all, x, y)
      ensures Pair(b, x, y) ==> Pair(all, x, y)
    {
      if Pair(b, x, y) {
        PairTwice(a + b, x, y, a, b);
        PairTwice(a + b + c, x, y, a + b, c);
        PairTwice(a + b + c + d, x, y, a + b + c, d);
        PairTwice(a + b + c + d + e, x, y, a + b + c + d, e);
        PairTwice(all, x, y, a + b + c + d + e, g);
      } else if Pair(a, x, y) || Pair(c, x, y) || Pair(d, x, y) || Pair(e, x, y) || Pair(g, x, y) {
        SixPairs(a, b, c, d, e, g, x, y);
      }
    }
  }

  // ------------------------------------------------------------------ starts --

  function StartStep(s: Step): seq<Step> { if IsStart(s) then [s] else [] }

  /** A container start that nothing overlooks: detached, under the name guards and launches know, with the job's image,
      idle; on a machine's own address and with its own caches; and only the head's may hold the key's file. */
  ghost predicate StartSays(site: Site, job: Job, facts: Facts, head: Node, rank: nat, n: Node, s: Step) {
    && s.Run? && s.node == n.name && !s.ignoreErrors
    && |s.argv| >= 8 && s.argv[0] == "docker" && s.argv[1] == "run" && s.argv[2] == "-d"
    && Pair(s.argv, "--name", "serve_node")
    && s.argv[|s.argv| - 4..] == ["--entrypoint=", job.image, "sleep", "infinity"]
    && (exists a, b, c, d :: s.argv == a + b + c + d
          && CommonSays(site, job, facts, n, rank == 0, b) && NodeSays(site, job, head, n, c))
    && (!(rank == 0 && site.keyed) && "--env-file" !in job.env && job.image != "--env-file" ==> "--env-file" !in s.argv)
  }

  lemma StartFits(site: Site, job: Job, facts: Facts, head: Node, rank: nat, n: Node)
    ensures StartSays(site, job, facts, head, rank, n, Run(n.name, StartArgv(site, job, facts, head, rank, n), false))
  {
    hide *;
    CommonFits(site, job, facts, n, rank == 0);
    EnvFits(site, job, head, n);
    StartParts(site, job, facts, head, rank, n);
    var a := ["docker", "run", "-d", "--name", NODE, "--restart", "unless-stopped", "--privileged"];
    var b, c := DockerCommon(site, job, facts, n, rank == 0), NodeEnv(site, job, head, n);
    var d := ["--entrypoint=", job.image, "sleep", "infinity"];
    NameSays(a);
    PairWithin([], a, b + c + d, "--name", NODE);
    assert [] + a + (b + c + d) == a + b + c + d;
    KeylessStart(site, job, facts, n, head, rank, a, b, c, d);
    StartIf(site, job, facts, head, rank, n, a, b, c, d);
  }

  lemma StartParts(site: Site, job: Job, facts: Facts, head: Node, rank: nat, n: Node)
    ensures StartArgv(site, job, facts, head, rank, n) ==
            ["docker", "run", "-d", "--name", NODE, "--restart", "unless-stopped", "--privileged"]
            + DockerCommon(site, job, facts, n, rank == 0) + NodeEnv(site, job, head, n)
            + ["--entrypoint=", job.image, "sleep", "infinity"]
  {
    hide DockerCommon, NodeEnv, NODE;
  }

  lemma StartIf(site: Site, job: Job, facts: Facts, head: Node, rank: nat, n: Node, a: seq<string>, b: seq<string>,
                c: seq<string>, d: seq<string>)
    requires |a| == 8 && a[0] == "docker" && a[1] == "run" && a[2] == "-d"
    requires Pair(a + b + c + d, "--name", "serve_node") && d == ["--entrypoint=", job.image, "sleep", "infinity"]
    requires CommonSays(site, job, facts, n, rank == 0, b) && NodeSays(site, job, head, n, c)
    requires !(rank == 0 && site.keyed) && "--env-file" !in job.env && job.image != "--env-file" ==>
               "--env-file" !in a + b + c + d
    ensures StartSays(site, job, facts, head, rank, n, Run(n.name, a + b + c + d, false))
  {
    hide CommonSays, NodeSays, Pair;
    var all := a + b + c + d;
    assert all[|all| - 4..] == d;
    assert all[..8] == a && all[0] == a[0] && all[1] == a[1] && all[2] == a[2];
  }

  lemma NameSays(a: seq<string>)
    requires a == ["docker", "run", "-d", "--name", NODE, "--restart", "unless-stopped", "--privileged"]
    ensures Pair(a, "--name", NODE) && NODE == "serve_node" && Keyless(a)
  {
    PairAt(a, 3);
    assert "serve_node"[2] == 'r' && "--restart"[2] == 'r';
  }

  lemma KeylessStart(site: Site, job: Job, facts: Facts, n: Node, head: Node, rank: nat, a: seq<string>,
                     b: seq<string>, c: seq<string>, d: seq<string>)
    requires Keyless(a) && CommonSays(site, job, facts, n, rank == 0, b) && NodeSays(site, job, head, n, c)
    requires d == ["--entrypoint=", job.image, "sleep", "infinity"]
    ensures !(rank == 0 && site.keyed) && "--env-file" !in job.env && job.image != "--env-file" ==>
              "--env-file" !in a + b + c + d
  {
    hide Pair, Keyless, Decimal;
    KeylessOut(a);
    assert |"--env-file"| == 10;
  }

  /** Every machine has one container start, in rank order. */
  lemma StartsSay(site: Site, job: Job, facts: Facts, nodes: seq<Node>, mode: Mode, external: bool)
    requires nodes != [] && Up(site, job, facts, nodes, mode, external).Ok?
    ensures var starts := FlatMap(Up(site, job, facts, nodes, mode, external).value, StartStep);
            && |starts| == |nodes|
            && forall k: nat :: k < |nodes| ==> StartSays(site, job, facts, nodes[0], k, nodes[k], starts[k])
  {
    hide *;
    StartPicks();
    ClassFrom(site, job, facts, nodes, mode, external, StartStep, 4);
    var f := Container(site, job, facts, nodes[0]);
    ContainersEach(site, job, facts, nodes);
    var h := (rank: nat, n: Node) => Run(n.name, StartArgv(site, job, facts, nodes[0], rank, n), false);
    forall rank: nat, n: Node
      ensures FlatMap(f(rank, n), StartStep) == [h(rank, n)]
      ensures StartSays(site, job, facts, nodes[0], rank, n, h(rank, n))
    {
      ContainerStarts(site, job, facts, nodes[0], rank, n);
      StartFits(site, job, facts, nodes[0], rank, n);
    }
    EachPicks(nodes, f, StartStep, h);
  }

  function FoldersStep(s: Step): seq<Step> { if IsFolders(s) then [s] else [] }

  /** Every machine's cache folders, those its container mounts, are made once, in rank order. */
  lemma FoldersSay(site: Site, job: Job, facts: Facts, nodes: seq<Node>, mode: Mode, external: bool)
    requires nodes != [] && Up(site, job, facts, nodes, mode, external).Ok?
    ensures var made := FlatMap(Up(site, job, facts, nodes, mode, external).value, FoldersStep);
            && |made| == |nodes|
            && forall k: nat :: k < |nodes| ==> FoldersMade(nodes[k], made[k])
  {
    hide *;
    FoldersPick();
    ClassFrom(site, job, facts, nodes, mode, external, FoldersStep, 4);
    var f := Container(site, job, facts, nodes[0]);
    ContainersEach(site, job, facts, nodes);
    var h := (rank: nat, n: Node) => Run(n.name, ["mkdir", "-p"] + Caches(n), false);
    forall rank: nat, n: Node
      ensures FlatMap(f(rank, n), FoldersStep) == [h(rank, n)]
      ensures FoldersMade(n, h(rank, n))
    {
      ContainerFolders(site, job, facts, nodes[0], rank, n);
    }
    EachPicks(nodes, f, FoldersStep, h);
  }

  predicate FoldersMade(n: Node, s: Step) {
    s == Run(n.name, ["mkdir", "-p", n.home + "/" + ".cache/vllm", n.home + "/" + ".cache/flashinfer",
                      n.home + "/" + ".triton"], false)
  }

  lemma FoldersPick()
    ensures PicksClass(FoldersStep, 4)
  {
    WordsApart();
  }

  lemma ContainerFolders(site: Site, job: Job, facts: Facts, head: Node, rank: nat, n: Node)
    ensures FlatMap(Container(site, job, facts, head)(rank, n), FoldersStep)
            == [Run(n.name, ["mkdir", "-p"] + Caches(n), false)]
    ensures FoldersMade(n, Run(n.name, ["mkdir", "-p"] + Caches(n), false))
  {
    var dirs, clear := Run(n.name, ["mkdir", "-p"] + Caches(n), false), Run(n.name, ["docker", "rm", "-f", NODE], true);
    var start := Run(n.name, StartArgv(site, job, facts, head, rank, n), false);
    WordsApart();
    StartKind(site, job, facts, head, rank, n);
    ContainerList(site, job, facts, head, rank, n);
    Folders(n, dirs, clear, start);
    hide *;
    Three(dirs, clear, start, FoldersStep);
  }

  lemma Folders(n: Node, dirs: Step, clear: Step, start: Step)
    requires dirs == Run(n.name, ["mkdir", "-p"] + Caches(n), false) && StartStep(start) == [start]
    requires clear == Run(n.name, ["docker", "rm", "-f", NODE], true)
    ensures FoldersMade(n, dirs) && FoldersStep(dirs) == [dirs] && FoldersStep(clear) == [] && FoldersStep(start) == []
  {
    WordsApart();
  }

  lemma StartPicks()
    ensures PicksClass(StartStep, 4)
  {
    WordsApart();
  }

  lemma ContainersEach(site: Site, job: Job, facts: Facts, nodes: seq<Node>)
    requires nodes != []
    ensures Containers(site, job, facts, nodes) == Each(nodes, Container(site, job, facts, nodes[0]))
  {
    hide Each, Container;
  }

  lemma ContainerStarts(site: Site, job: Job, facts: Facts, head: Node, rank: nat, n: Node)
    ensures FlatMap(Container(site, job, facts, head)(rank, n), StartStep)
            == [Run(n.name, StartArgv(site, job, facts, head, rank, n), false)]
  {
    var start := Run(n.name, StartArgv(site, job, facts, head, rank, n), false);
    var dirs, clear := Run(n.name, ["mkdir", "-p"] + Caches(n), false), Run(n.name, ["docker", "rm", "-f", NODE], true);
    StartKind(site, job, facts, head, rank, n);
    WordsApart();
    assert StartStep(dirs) == [] && StartStep(clear) == [];
    ContainerList(site, job, facts, head, rank, n);
    hide *;
    Three(dirs, clear, start, StartStep);
  }

  lemma ContainerList(site: Site, job: Job, facts: Facts, head: Node, rank: nat, n: Node)
    ensures Container(site, job, facts, head)(rank, n) ==
            [Run(n.name, ["mkdir", "-p"] + Caches(n), false), Run(n.name, ["docker", "rm", "-f", NODE], true),
             Run(n.name, StartArgv(site, job, facts, head, rank, n), false)]
  {
    hide StartArgv, Caches, NODE;
  }

  lemma StartKind(site: Site, job: Job, facts: Facts, head: Node, rank: nat, n: Node)
    ensures var start := Run(n.name, StartArgv(site, job, facts, head, rank, n), false); StartStep(start) == [start]
  {
    hide DockerCommon, NodeEnv;
  }

  // ---------------------------------------------------------------- commands --

  predicate Dashed(w: string) { "-" <= w }

  lemma SaysOne(args: seq<string>, i: nat, flag: string)
    requires i < |args|
    ensures Says(args, i, [flag]).Some? <==> Sets(args[i], flag)
    ensures args[i] == flag ==> Says(args, i, [flag]) == Some(Apart(args, i))
  {
    hide Apart;
    assert [flag][..0] == [];
  }

  /** A flag given last in some words is what they say of it. */
  lemma LastSays(x: seq<string>, t: seq<string>, flag: string, i: nat)
    requires i < |t| && t[i] == flag && forall j :: i < j < |t| ==> !Sets(t[j], flag)
    ensures Latest(x + t, [flag], |x + t|) ==
            if i + 1 < |t| && !Dashed(t[i + 1]) then Value(t[i + 1]) else Bare
  {
    hide Sets, Latest, Says;
    var all, at := x + t, |x| + i;
    assert all[at] == flag && (i + 1 < |t| ==> all[at + 1] == t[i + 1]);
    forall j: nat | at <= j < |all|
      ensures j == at ==> Says(all, j, [flag]) == Some(Apart(all, at))
      ensures j > at ==> Says(all, j, [flag]) == None
    {
      SaysOne(all, j, flag);
      assert all[j] == t[j - |x|];
    }
    LastOneWins(all, [flag], |all|, at);
  }

  /** A word without a dash sets no flag, and a flag alone only itself. */
  lemma SetsNot(w: string, flag: string)
    requires Dashed(flag) && (!Dashed(w) || ('=' !in w && w != flag))
    ensures !Sets(w, flag)
  {
    EqualsIn(w, flag);
  }

  lemma EqualsIn(w: string, flag: string)
    requires flag != ""
    ensures flag + "=" <= w ==> '=' in w && w != "" && w[0] == flag[0]
  {
    assert flag + "=" <= w ==> w[|flag|] == (flag + "=")[|flag|] && w[0] == (flag + "=")[0];
  }

  /** Words in pairs: each flag with its value. */
  ghost predicate Paired(t: seq<string>) {
    forall k :: 0 <= k < |t| ==> if k % 2 == 0 then Dashed(t[k]) && '=' !in t[k] else !Dashed(t[k])
  }

  lemma PairedSays(x: seq<string>, t: seq<string>, rest: seq<string>, i: nat)
    requires Paired(t) && i + 1 < |t| && i % 2 == 0
    requires forall j :: i < j < |t| && j % 2 == 0 ==> t[j] != t[i]
    requires forall w :: w in rest ==> Dashed(w) && '=' !in w && w != t[i]
    ensures Latest(x + t + rest, [t[i]], |x + t + rest|) == Value(t[i + 1])
  {
    hide Latest, Dashed, Sets;
    var all := t + rest;
    assert x + t + rest == x + all;
    forall j | i < j < |all|
      ensures !Sets(all[j], t[i])
    {
      if j >= |t| {
        assert all[j] == rest[j - |t|] && all[j] in rest;
      }
      SetsNot(all[j], t[i]);
    }
    LastSays(x, all, t[i], i);
  }

  function Told(site: Site, job: Job, head: Node, total: nat, rank: nat): seq<string> {
    ["--nnodes", Decimal(total), "--node-rank", Decimal(rank), "--master-addr", head.fabricIp,
     "--master-port", Decimal(site.masterPort)]
    + if rank > 0 then [] else ["--host", job.host, "--port", Decimal(job.port), "--served-model-name", job.name]
  }

  /** Values from outside that read as values, not as flags. */
  predicate Plain(job: Job, head: Node) { !Dashed(head.fabricIp) && !Dashed(job.host) && !Dashed(job.name) }

  lemma PairedJoined(a: seq<string>, b: seq<string>)
    requires Paired(a) && Paired(b) && |a| % 2 == 0
    ensures Paired(a + b)
  {
    hide Dashed;
  }

  lemma RanksPaired(site: Site, head: Node, total: nat, rank: nat)
    requires !Dashed(head.fabricIp)
    ensures Paired(["--nnodes", Decimal(total), "--node-rank", Decimal(rank), "--master-addr", head.fabricIp,
                    "--master-port", Decimal(site.masterPort)])
  {
  }

  lemma AddressPaired(job: Job)
    requires !Dashed(job.host) && !Dashed(job.name)
    ensures Paired(["--host", job.host, "--port", Decimal(job.port), "--served-model-name", job.name]) && Paired([])
  {
  }

  lemma ToldPaired(site: Site, job: Job, head: Node, total: nat, rank: nat)
    requires Plain(job, head)
    ensures var t := Told(site, job, head, total, rank);
            && Paired(t) && |t| == (if rank > 0 then 8 else 14)
            && t[0] == "--nnodes" && t[1] == Decimal(total) && t[2] == "--node-rank" && t[3] == Decimal(rank)
            && t[4] == "--master-addr" && t[5] == head.fabricIp
            && t[6] == "--master-port" && t[7] == Decimal(site.masterPort)
            && (rank == 0 ==>
                  && t[8] == "--host" && t[9] == job.host && t[10] == "--port" && t[11] == Decimal(job.port)
                  && t[12] == "--served-model-name" && t[13] == job.name)
  {
    hide Decimal, Dashed, Paired;
    RanksPaired(site, head, total, rank);
    AddressPaired(job);
    PairedJoined(["--nnodes", Decimal(total), "--node-rank", Decimal(rank), "--master-addr", head.fabricIp,
                  "--master-port", Decimal(site.masterPort)],
                 if rank > 0 then []
                 else ["--host", job.host, "--port", Decimal(job.port), "--served-model-name", job.name]);
  }

  lemma FlagsApart()
    ensures "--nnodes" != "--node-rank" && "--nnodes" != "--master-addr" && "--nnodes" != "--master-port"
    ensures "--nnodes" != "--host" && "--nnodes" != "--port" && "--nnodes" != "--served-model-name"
    ensures "--node-rank" != "--master-addr" && "--node-rank" != "--master-port" && "--node-rank" != "--host"
    ensures "--node-rank" != "--port" && "--node-rank" != "--served-model-name" && "--master-addr" != "--master-port"
    ensures "--master-addr" != "--host" && "--master-addr" != "--port" && "--master-addr" != "--served-model-name"
    ensures "--master-port" != "--host" && "--master-port" != "--port" && "--master-port" != "--served-model-name"
    ensures "--host" != "--port" && "--host" != "--served-model-name" && "--port" != "--served-model-name"
    ensures "--headless" != "--nnodes" && "--headless" != "--node-rank" && "--headless" != "--master-addr"
    ensures "--headless" != "--master-port" && Dashed("--headless") && '=' !in "--headless"
  {
    assert "--master-addr"[9] == 'a' && "--master-port"[9] == 'p' && "--host"[2] == 'h' && "--port"[2] == 'p';
  }

  lemma CommandIs(site: Site, job: Job, head: Node, total: nat, rank: nat)
    ensures Command(site, job, head, total, rank) ==
            (["vllm", "serve", job.model] + Stripped(job.args)) + Told(site, job, head, total, rank)
            + if rank > 0 then ["--headless"] else []
  {
    hide Decimal, Stripped;
  }

  /** What a rank's command says of each flag that is the launcher's to say, as rack itself reads flags, whatever the
      recipe's arguments say: the size of the cluster, its own rank, the head's address and port; a worker is headless,
      and the head serves where and under the name the job says. */
  lemma CommandSays(site: Site, job: Job, head: Node, total: nat, rank: nat)
    requires Plain(job, head)
    ensures var c := Command(site, job, head, total, rank);
            && ["vllm", "serve", job.model] + Stripped(job.args) <= c
            && Latest(c, ["--nnodes"], |c|) == Value(Decimal(total))
            && Latest(c, ["--node-rank"], |c|) == Value(Decimal(rank))
            && Latest(c, ["--master-addr"], |c|) == Value(head.fabricIp)
            && Latest(c, ["--master-port"], |c|) == Value(Decimal(site.masterPort))
            && (rank > 0 ==> Latest(c, ["--headless"], |c|) == Bare)
            && (rank == 0 ==>
                  && Latest(c, ["--host"], |c|) == Value(job.host)
                  && Latest(c, ["--port"], |c|) == Value(Decimal(job.port))
                  && Latest(c, ["--served-model-name"], |c|) == Value(job.name))
  {
    hide *;
    var x, t := ["vllm", "serve", job.model] + Stripped(job.args), Told(site, job, head, total, rank);
    var rest := if rank > 0 then ["--headless"] else [];
    CommandIs(site, job, head, total, rank);
    assert x <= x + t + rest;
    RankSays(x, site, job, head, total, rank);
    if rank > 0 {
      FlagsApart();
      LastSays(x + t, rest, "--headless", 0);
    } else {
      HeadSays(x, site, job, head, total);
    }
  }

  lemma RankSays(x: seq<string>, site: Site, job: Job, head: Node, total: nat, rank: nat)
    requires Plain(job, head)
    ensures var c := x + Told(site, job, head, total, rank) + if rank > 0 then ["--headless"] else [];
            && Latest(c, ["--nnodes"], |c|) == Value(Decimal(total))
            && Latest(c, ["--node-rank"], |c|) == Value(Decimal(rank))
            && Latest(c, ["--master-addr"], |c|) == Value(head.fabricIp)
            && Latest(c, ["--master-port"], |c|) == Value(Decimal(site.masterPort))
  {
    hide *;
    var t, rest := Told(site, job, head, total, rank), if rank > 0 then ["--headless"] else [];
    ToldPaired(site, job, head, total, rank);
    FlagsApart();
    PairedSays(x, t, rest, 0);
    PairedSays(x, t, rest, 2);
    PairedSays(x, t, rest, 4);
    PairedSays(x, t, rest, 6);
  }

  lemma HeadSays(x: seq<string>, site: Site, job: Job, head: Node, total: nat)
    requires Plain(job, head)
    ensures var c := x + Told(site, job, head, total, 0) + [];
            && Latest(c, ["--host"], |c|) == Value(job.host)
            && Latest(c, ["--port"], |c|) == Value(Decimal(job.port))
            && Latest(c, ["--served-model-name"], |c|) == Value(job.name)
  {
    hide *;
    var t := Told(site, job, head, total, 0);
    ToldPaired(site, job, head, total, 0);
    FlagsApart();
    PairedSays(x, t, [], 8);
    PairedSays(x, t, [], 10);
    PairedSays(x, t, [], 12);
  }

  /** A flag the launcher gives itself, or must not be given. */
  predicate Owns(flag: string) {
    flag in {"--host", "--port", "--served-model-name", "--api-key", "--api-key-file", "--alias", "--name", "--drafter"}
  }

  /** No argument that gives one is left. */
  lemma OwnedAre(args: seq<string>, k: nat, flag: string)
    requires k < |Stripped(args)| && Owns(flag)
    ensures !Sets(Stripped(args)[k], flag) && Stripped(args)[k] != "--no-update-check"
  {
    NoneOwned(args);
    OwnsIs(flag);
    OwnedPlain(flag);
    hide OWNED_WITH_VALUE, BeforeEquals, Stripped;
    var w := Stripped(args)[k];
    if flag + "=" <= w {
      EqualsAt(w, flag);
      assert false;
    }
  }

  lemma OwnsIs(flag: string)
    ensures Owns(flag) <==> flag in OWNED_WITH_VALUE
  {
  }
}
