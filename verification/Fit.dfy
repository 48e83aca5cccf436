/** py/rackfit.py and fit.py's assess: whether a model fits a platform's budget, and the longest
    window that does. Reals stand for floats; rounding for display is left out. */
module Fit {
  import opened Prelude

  datatype Platform = Dgx | Linux | Windows | Mac | OtherPlatform

  datatype Engine = Vllm | LlamaCpp | TensorFold | OtherEngine

  const KV_GUESS := 0.10
  const MIN_CONTEXT := 4096
  const BILLION := 1000000000.0

  function ReserveGb(p: Platform): real {
    match p
    case Dgx => 9.0
    case Linux => 0.5
    case Windows => 0.8
    case Mac => 0.5
    case OtherPlatform => 1.0
  }

  function OverheadGb(e: Engine): real {
    match e
    case Vllm => 1.5
    case LlamaCpp => 0.5
    case TensorFold => 1.0
    case OtherEngine => 1.5
  }

  function WeightFactor(e: Engine): real {
    match e
    case Vllm => 1.03
    case LlamaCpp => 1.0
    case TensorFold => 1.0
    case OtherEngine => 1.03
  }

  /** A rack to serve on. */
  datatype Rack = Rack(platform: Platform, budgetMb: real, nodes: int)

  function Nodes(r: Rack): real { Max(1, r.nodes) as real }

  function PerNode(r: Rack): real {
    var left := r.budgetMb / 1024.0 - ReserveGb(r.platform);
    if left < 0.0 then 0.0 else left
  }

  function UsableGb(r: Rack): real { PerNode(r) * Nodes(r) }

  function FixedGb(weights: real, e: Engine, r: Rack): real {
    weights * WeightFactor(e) + OverheadGb(e) * Nodes(r)
  }

  function NeedsGb(weights: real, e: Engine, kvGb: Option<real>, r: Rack): real {
    FixedGb(weights, e, r) + if kvGb.Some? then kvGb.value else weights * KV_GUESS
  }

  function Room(weights: real, e: Engine, r: Rack): real { UsableGb(r) - FixedGb(weights, e, r) }

  /** None when the KV bytes of a token are unknown or 0. */
  function MaxContext(weights: real, kv: Option<nat>, e: Engine, r: Rack): Option<nat> {
    if kv == None || kv.value == 0 then None
    else Some(Max(0, (Room(weights, e, r) * BILLION / kv.value as real).Floor))
  }

  /** Weights None: the size is unknown, and so is the verdict. */
  function Verdict(weights: Option<real>, e: Engine, kvGb: Option<real>, r: Rack): Option<bool> {
    if weights == None then None
    else Some(NeedsGb(weights.value, e, kvGb, r) <= UsableGb(r))
  }

  /** What fit asks about: the weights and the KV cache's per-token and fixed bytes. */
  datatype Model = Model(weights: nat, kv: Option<nat>, kvFixed: nat)

  function Gb(m: Model): real { m.weights as real / BILLION }

  /** The KV cache at a window of ctx tokens. */
  function KvGb(m: Model, ctx: nat): Option<real> {
    if m.kv == None || m.kv.value == 0 then None
    else Some((m.kv.value * ctx + m.kvFixed) as real / BILLION)
  }

  function Fits(m: Model, e: Engine, ctx: nat, r: Rack): bool {
    NeedsGb(Gb(m), e, KvGb(m, ctx), r) <= UsableGb(r)
  }

  function Longest(m: Model, e: Engine, r: Rack): Option<nat> {
    MaxContext(Gb(m) + m.kvFixed as real / BILLION, m.kv, e, r)
  }

  /** Bytes left for the growing part of the cache, as max_context counts them. */
  function RoomBytes(m: Model, e: Engine, r: Rack): real {
    Room(Gb(m) + m.kvFixed as real / BILLION, e, r) * BILLION
  }

  /** What the weight factor adds to the fixed cache: max_context loads it like weights, verdict does not. */
  function Slack(m: Model, e: Engine): real { (WeightFactor(e) - 1.0) * m.kvFixed as real }

  /** A window is within max_context exactly when its cache is within the room left. */
  lemma WithinRoom(m: Model, e: Engine, r: Rack, ctx: nat)
    requires Longest(m, e, r).Some? && ctx > 0
    ensures ctx <= Longest(m, e, r).value <==> (m.kv.value * ctx) as real <= RoomBytes(m, e, r)
  {
    hide *;
    LongestIs(m, e, r);
    var kv := m.kv.value as real;
    assert ctx <= (RoomBytes(m, e, r) / kv).Floor <==> ctx as real <= RoomBytes(m, e, r) / kv;
    Scaled(ctx as real, RoomBytes(m, e, r), kv);
    Product(m.kv.value, ctx);
  }

  lemma LongestIs(m: Model, e: Engine, r: Rack)
    requires Longest(m, e, r).Some?
    ensures m.kv.Some? && m.kv.value > 0
    ensures var floor := (RoomBytes(m, e, r) / m.kv.value as real).Floor;
            Longest(m, e, r).value == if floor < 0 then 0 else floor
  {
  }

  lemma Scaled(a: real, b: real, unit: real)
    requires unit > 0.0
    ensures a <= b / unit <==> unit * a <= b
  {
    var q := b / unit;
    if a <= q {
      assert unit * (q - a) >= 0.0;
    } else {
      assert unit * (a - q) > 0.0;
    }
  }

  lemma {:induction false} Product(a: nat, b: nat)
    ensures (a * b) as real == a as real * b as real
  {
    if b > 0 {
      Product(a, b - 1);
      assert a * b == a * (b - 1) + a;
    }
  }

  lemma FitsMeans(m: Model, e: Engine, r: Rack, ctx: nat)
    requires Longest(m, e, r).Some?
    ensures Fits(m, e, ctx, r) <==>
            Gb(m) * WeightFactor(e) + ((m.kv.value * ctx) as real + m.kvFixed as real) / BILLION
              <= UsableGb(r) - OverheadGb(e) * Nodes(r)
  {
    hide UsableGb, OverheadGb, Nodes, WeightFactor;
    assert (m.kv.value * ctx + m.kvFixed) as real == (m.kv.value * ctx) as real + m.kvFixed as real;
  }

  lemma RoomMeans(m: Model, e: Engine, r: Rack)
    requires Longest(m, e, r).Some?
    ensures RoomBytes(m, e, r) ==
            (UsableGb(r) - OverheadGb(e) * Nodes(r) - (Gb(m) + m.kvFixed as real / BILLION) * WeightFactor(e)) * BILLION
  {
    hide UsableGb, OverheadGb, Nodes, WeightFactor;
  }

  lemma RoomAndSlack(gb: real, fixed: real, f: real, cache: real, rest: real)
    ensures gb * f + (cache + fixed) / BILLION <= rest
       <==> cache <= (rest - (gb + fixed / BILLION) * f) * BILLION + (f - 1.0) * fixed
  {
    var g, h := gb * f, fixed * f;
    assert (gb + fixed / BILLION) * f == g + h / BILLION;
    assert (f - 1.0) * fixed == h - fixed;
  }

  /** A window fits exactly when its cache is within the room left and the slack together. */
  lemma FitsWithin(m: Model, e: Engine, r: Rack, ctx: nat)
    requires Longest(m, e, r).Some?
    ensures Fits(m, e, ctx, r) <==> (m.kv.value * ctx) as real <= RoomBytes(m, e, r) + Slack(m, e)
  {
    var cache, fixed, f := (m.kv.value * ctx) as real, m.kvFixed as real, WeightFactor(e);
    var rest := UsableGb(r) - OverheadGb(e) * Nodes(r);
    FitsMeans(m, e, r, ctx);
    RoomMeans(m, e, r);
    hide Fits, RoomBytes, UsableGb, OverheadGb, Nodes, Gb, WeightFactor;
    RoomAndSlack(Gb(m), fixed, f, cache, rest);
  }

  /** Verdict and longest window agree: a window within max_context fits, on every engine; one beyond
      it fits exactly when its cache is within the slack. */
  lemma VerdictAgrees(m: Model, e: Engine, r: Rack, ctx: nat)
    requires Longest(m, e, r).Some? && ctx > 0
    ensures ctx <= Longest(m, e, r).value ==> Fits(m, e, ctx, r)
    ensures Fits(m, e, ctx, r) && ctx > Longest(m, e, r).value <==>
            RoomBytes(m, e, r) < (m.kv.value * ctx) as real <= RoomBytes(m, e, r) + Slack(m, e)
  {
    WithinRoom(m, e, r, ctx);
    FitsWithin(m, e, r, ctx);
    assert Slack(m, e) >= 0.0;
    hide *;
  }

  /** On every rack, every window that fits is within max_context: the converse, for one engine and fixed cache. */
  ghost predicate LongestIsComplete(e: Engine, kvFixed: nat) {
    forall r, weights, kv, ctx: nat :: ctx > 0 && kv > 0 && Fits(Model(weights, Some(kv), kvFixed), e, ctx, r) ==>
      ctx <= Longest(Model(weights, Some(kv), kvFixed), e, r).value
  }

  /** It holds exactly for the engines that load weights as they are, and for models with no fixed cache. */
  lemma LongestCompleteWhen(e: Engine, kvFixed: nat)
    ensures LongestIsComplete(e, kvFixed) <==> WeightFactor(e) == 1.0 || kvFixed == 0
  {
    if WeightFactor(e) == 1.0 || kvFixed == 0 {
      forall r, weights, kv, ctx: nat | ctx > 0 && kv > 0 && Fits(Model(weights, Some(kv), kvFixed), e, ctx, r)
        ensures ctx <= Longest(Model(weights, Some(kv), kvFixed), e, r).value
      {
        VerdictAgrees(Model(weights, Some(kv), kvFixed), e, r, ctx);
        assert Slack(Model(weights, Some(kv), kvFixed), e) == 0.0;
      }
    } else {
      FitsBeyondLongest(e, kvFixed);
    }
  }

  /** A rack with room for the fixed cache and one token, but not for that cache times the factor. */
  lemma FitsBeyondLongest(e: Engine, kvFixed: nat)
    requires WeightFactor(e) != 1.0 && kvFixed > 0
    ensures !LongestIsComplete(e, kvFixed)
  {
    var r := Rack(Dgx, (9.0 + OverheadGb(e) + (kvFixed as real + 1.0) / BILLION) * 1024.0, 1);
    var m := Model(0, Some(1), kvFixed);
    assert Nodes(r) == 1.0;
    assert PerNode(r) == OverheadGb(e) + (kvFixed as real + 1.0) / BILLION;
    assert RoomBytes(m, e, r) == kvFixed as real + 1.0 - kvFixed as real * WeightFactor(e);
    VerdictAgrees(m, e, r, 1);
    assert RoomBytes(m, e, r) < 1.0;
    assert Fits(m, e, 1, r) && Longest(m, e, r).value == 0;
  }

  /** A negative budget is not special: with no room at all the longest window is 0, not None. */
  lemma NoRoomIsZero(m: Model, e: Engine, r: Rack)
    requires m.kv.Some? && m.kv.value > 0 && RoomBytes(m, e, r) < 0.0
    ensures Longest(m, e, r) == Some(0) && (forall ctx: nat | ctx > 0 && m.kvFixed == 0 :: !Fits(m, e, ctx, r))
  {
    assert RoomBytes(m, e, r) / m.kv.value as real < 0.0;
    forall ctx: nat | ctx > 0 && m.kvFixed == 0
      ensures !Fits(m, e, ctx, r)
    {
      FitsWithin(m, e, r, ctx);
    }
  }

  /** What fits on some machines fits on more of them. */
  lemma MoreNodesFit(m: Model, e: Engine, r: Rack, more: int, ctx: nat)
    requires more >= r.nodes && Fits(m, e, ctx, r)
    ensures Fits(m, e, ctx, r.(nodes := more))
  {
    var load := Load(m, e, ctx);
    NeedIs(m, e, r, ctx);
    NeedIs(m, e, r.(nodes := more), ctx);
    hide *;
    MoreOf(PerNode(r), OverheadGb(e), Nodes(r), Nodes(r.(nodes := more)), load);
  }

  /** What a model needs however many machines share it. */
  function Load(m: Model, e: Engine, ctx: nat): (gb: real)
    ensures gb >= 0.0
  {
    var kv := KvGb(m, ctx);
    Gb(m) * WeightFactor(e) + if kv.Some? then kv.value else Gb(m) * KV_GUESS
  }

  lemma NeedIs(m: Model, e: Engine, r: Rack, ctx: nat)
    ensures Fits(m, e, ctx, r) <==> Load(m, e, ctx) + OverheadGb(e) * Nodes(r) <= PerNode(r) * Nodes(r)
    ensures Nodes(r) >= 1.0
    ensures forall more: int :: more >= r.nodes ==>
            Nodes(r.(nodes := more)) >= Nodes(r) && PerNode(r.(nodes := more)) == PerNode(r)
  {
    hide KvGb, Gb;
  }

  lemma MoreOf(per: real, over: real, n: real, more: real, load: real)
    requires 1.0 <= n <= more && load >= 0.0 && load + over * n <= per * n
    ensures load + over * more <= per * more
  {
    assert (per - over) * n >= load;
    NonNegative(per - over, n);
    assert (per - over) * (more - n) >= 0.0;
  }

  lemma NonNegative(a: real, n: real)
    requires n >= 1.0 && a * n >= 0.0
    ensures a >= 0.0
  {
  }

  /** One line of fit's table. */
  datatype Row = Row(nodes: int, fits: Option<bool>, maxContext: Option<nat>)

  function Capped(mc: Option<nat>, native: Option<nat>): Option<nat> {
    if mc.Some? && native.Some? && native.value > 0 then Some(Min(mc.value, native.value)) else mc
  }

  function RowFor(m: Model, ctx: nat, native: Option<nat>, e: Engine, r: Rack): Row {
    Row(r.nodes, Some(Fits(m, e, ctx, r)), Capped(Longest(m, e, r), native))
  }

  /** The node counts asked about, in order: one machine and the whole rack. */
  function NodeCounts(nodes: int): (c: seq<int>)
    ensures forall n :: n in c <==> n == 1 || n == nodes
    ensures forall i, k :: 0 <= i < k < |c| ==> c[i] < c[k]
  {
    if nodes == 1 then [1] else if nodes < 1 then [nodes, 1] else [1, nodes]
  }

  /** The window asked about: a recipe's, or the smallest useful one. */
  function Asked(context: Option<nat>): nat {
    if context.Some? && context.value > 0 then context.value else MIN_CONTEXT
  }

  /** assess: one row for one machine and one for the rack, windows capped by the model's own. */
  method Assess(m: Model, context: Option<nat>, native: Option<nat>, e: Engine, r: Rack)
    returns (kvGb: Option<real>, rows: seq<Row>)
    ensures kvGb == KvGb(m, Asked(context))
    ensures |rows| == |NodeCounts(r.nodes)|
    ensures forall k :: 0 <= k < |rows| ==>
              rows[k] == RowFor(m, Asked(context), native, e, r.(nodes := NodeCounts(r.nodes)[k]))
  {
    hide NeedsGb, UsableGb, MaxContext, KvGb, Gb;
    var gb, ctx := Gb(m), Asked(context);
    kvGb := KvGb(m, ctx);
    var counts := NodeCounts(r.nodes);
    rows := [];
    for i := 0 to |counts|
      invariant |rows| == i
      invariant forall k :: 0 <= k < i ==> rows[k] == RowFor(m, ctx, native, e, r.(nodes := counts[k]))
    {
      var rack := r.(nodes := counts[i]);
      var fits := Verdict(Some(gb), e, kvGb, rack);
      var mc := MaxContext(gb + m.kvFixed as real / BILLION, m.kv, e, rack);
      if mc.Some? && native.Some? && native.value > 0 {
        mc := Some(Min(mc.value, native.value));
      }
      rows := rows + [Row(counts[i], fits, mc)];
    }
  }

  /** Within a row: every window up to its longest fits, so the one asked about is said to fit if it is no longer. */
  lemma RowAgrees(m: Model, ctx: nat, native: Option<nat>, e: Engine, r: Rack, c: nat)
    requires RowFor(m, ctx, native, e, r).maxContext.Some? && 0 < c <= RowFor(m, ctx, native, e, r).maxContext.value
    ensures Fits(m, e, c, r)
    ensures ctx == c ==> RowFor(m, ctx, native, e, r).fits == Some(true)
  {
    hide Fits, Longest;
    VerdictAgrees(m, e, r, c);
  }

  // ---------------------------------------------------------------- in numbers --

  /** What a machine has to spare for the system and the engine together, and how much bigger weights get once
      loaded. */
  predicate Spares(p: Platform, e: Engine, spare: real, factor: real) {
    && factor == (if e == LlamaCpp || e == TensorFold then 1.0 else 1.03)
    && match p
       case Dgx => spare == (if e == LlamaCpp then 9.5 else if e == TensorFold then 10.0 else 10.5)
       case Linux => spare == (if e == LlamaCpp then 1.0 else if e == TensorFold then 1.5 else 2.0)
       case Windows => spare == (if e == LlamaCpp then 1.3 else if e == TensorFold then 1.8 else 2.3)
       case Mac => spare == (if e == LlamaCpp then 1.0 else if e == TensorFold then 1.5 else 2.0)
       case OtherPlatform => spare == (if e == LlamaCpp then 1.5 else if e == TensorFold then 2.0 else 2.5)
  }

  lemma SparesIs(p: Platform, e: Engine, spare: real, factor: real)
    requires Spares(p, e, spare, factor)
    ensures spare == ReserveGb(p) + OverheadGb(e) && factor == WeightFactor(e) && OverheadGb(e) > 0.0
  {
  }

  /** How many machines count: at least one. */
  predicate Counts(r: Rack, n: real) { n == if r.nodes >= 1 then r.nodes as real else 1.0 }

  /** A model fits exactly when its loaded weights and its cache, a tenth of the weights where it is not known,
      leave every machine what it has to spare. */
  lemma FitsInNumbers(m: Model, e: Engine, r: Rack, ctx: nat, spare: real, factor: real, n: real)
    requires Spares(r.platform, e, spare, factor) && Counts(r, n)
    ensures var weights := m.weights as real / 1000000000.0;
            var cache := if m.kv.Some? && m.kv.value > 0 then (m.kv.value * ctx + m.kvFixed) as real / 1000000000.0
                         else weights / 10.0;
            Fits(m, e, ctx, r) <==> weights * factor + cache + spare * n <= r.budgetMb / 1024.0 * n
  {
    hide *;
    SparesIs(r.platform, e, spare, factor);
    NeedIs(m, e, r, ctx);
    LoadIs(m, e, ctx);
    NodesIs(r, n);
    PerNodeIs(r);
    Shared(Load(m, e, ctx), r.budgetMb / 1024.0, ReserveGb(r.platform), OverheadGb(e), PerNode(r), n);
  }

  lemma NodesIs(r: Rack, n: real)
    requires Counts(r, n)
    ensures Nodes(r) == n >= 1.0
  {
  }

  lemma PerNodeIs(r: Rack)
    ensures var left := r.budgetMb / 1024.0 - ReserveGb(r.platform);
            PerNode(r) == if left < 0.0 then 0.0 else left
  {
  }

  lemma LoadIs(m: Model, e: Engine, ctx: nat)
    ensures var weights := m.weights as real / 1000000000.0;
            var cache := if m.kv.Some? && m.kv.value > 0 then (m.kv.value * ctx + m.kvFixed) as real / 1000000000.0
                         else weights / 10.0;
            Load(m, e, ctx) == weights * WeightFactor(e) + cache && Load(m, e, ctx) >= 0.0
  {
  }

  lemma Shared(load: real, budget: real, reserve: real, over: real, per: real, n: real)
    requires load >= 0.0 && over > 0.0 && n >= 1.0
    requires per == if budget - reserve < 0.0 then 0.0 else budget - reserve
    ensures load + over * n <= per * n <==> load + (reserve + over) * n <= budget * n
  {
    assert (reserve + over) * n == reserve * n + over * n;
    if budget < reserve {
      Grows(budget, reserve, n);
      Grows(0.0, over, n);
    } else {
      assert per * n == budget * n - reserve * n;
    }
  }

  lemma Grows(a: real, b: real, n: real)
    requires a < b && n >= 1.0
    ensures a * n < b * n
  {
    assert (b - a) * n > 0.0;
  }

  /** And a window is within the longest exactly when its cache, with the weights and the fixed cache loaded, does. */
  lemma LongestInNumbers(m: Model, e: Engine, r: Rack, ctx: nat, spare: real, factor: real, n: real)
    requires Spares(r.platform, e, spare, factor) && Counts(r, n)
    ensures Longest(m, e, r).Some? <==> m.kv.Some? && m.kv.value > 0
    ensures Longest(m, e, r).Some? && ctx > 0 ==>
              var loaded := (m.weights as real + m.kvFixed as real) / 1000000000.0 * factor;
              (ctx <= Longest(m, e, r).value <==>
               loaded + (m.kv.value * ctx) as real / 1000000000.0 + spare * n <= r.budgetMb / 1024.0 * n)
  {
    hide *;
    LongestKnown(m, e, r);
    if Longest(m, e, r).Some? && ctx > 0 {
      SparesIs(r.platform, e, spare, factor);
      NodesIs(r, n);
      PerNodeIs(r);
      WithinRoom(m, e, r, ctx);
      var gb, bytes := (m.weights as real + m.kvFixed as real) / 1000000000.0, (m.kv.value * ctx) as real;
      RoomIs(m, e, r, n);
      LoadedPositive(gb, factor);
      Billions(bytes, PerNode(r), n, gb * factor, OverheadGb(e));
      Shared(gb * factor + bytes / 1000000000.0, r.budgetMb / 1024.0, ReserveGb(r.platform), OverheadGb(e),
             PerNode(r), n);
    }
  }

  lemma Billions(bytes: real, per: real, n: real, loaded: real, over: real)
    requires bytes >= 0.0
    ensures bytes <= (per * n - loaded - over * n) * 1000000000.0
       <==> loaded + bytes / 1000000000.0 + over * n <= per * n
    ensures bytes / 1000000000.0 >= 0.0
  {
    var x, y := per * n, over * n;
    assert bytes <= (x - loaded - y) * 1000000000.0 <==> bytes / 1000000000.0 <= x - loaded - y;
  }

  lemma LoadedPositive(gb: real, factor: real)
    ensures gb >= 0.0 && factor >= 0.0 ==> gb * factor >= 0.0
  {
  }

  lemma LongestKnown(m: Model, e: Engine, r: Rack)
    ensures Longest(m, e, r).Some? <==> m.kv.Some? && m.kv.value > 0
    ensures WeightFactor(e) >= 1.0
  {
    hide Room, Gb;
  }

  lemma RoomIs(m: Model, e: Engine, r: Rack, n: real)
    requires Nodes(r) == n
    ensures RoomBytes(m, e, r) == (PerNode(r) * n
                                   - (m.weights as real + m.kvFixed as real) / 1000000000.0 * WeightFactor(e)
                                   - OverheadGb(e) * n) * 1000000000.0
  {
    hide PerNode, Nodes, WeightFactor, OverheadGb;
    assert m.weights as real / BILLION + m.kvFixed as real / BILLION
        == (m.weights as real + m.kvFixed as real) / 1000000000.0;
  }

  /** A row's window is the longest that fits, but no longer than the model's own; and a repo without a recipe is asked
      about at the smallest useful window. */
  lemma RowSays(m: Model, ctx: nat, native: Option<nat>, e: Engine, r: Rack, context: Option<nat>)
    ensures var row := RowFor(m, ctx, native, e, r);
            && row.nodes == r.nodes && row.fits == Some(Fits(m, e, ctx, r))
            && (row.maxContext.Some? <==> Longest(m, e, r).Some?)
            && (row.maxContext.Some? ==>
                  && row.maxContext.value <= Longest(m, e, r).value
                  && (native.Some? && native.value > 0 ==> row.maxContext.value <= native.value)
                  && (native == None || native.value == 0 ==> row.maxContext == Longest(m, e, r))
                  && (row.maxContext == Longest(m, e, r) || row.maxContext == native))
    ensures Asked(context) == if context.Some? && context.value > 0 then context.value else 4096
  {
    hide Fits, Longest;
  }
}
