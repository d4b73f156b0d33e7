/**
 * The plugin contract and the configuration of the system monitor: `Addon`, `Addons`
 * and `Options`, with the validators that run when they are constructed.
 */
module MonitorOptions {
  import opened Wrappers
  import opened PyValues

  /** A resource kind the monitor can sample. */
  datatype Kind = Memory | Swap | Cpu | Disk | Network

  /** The name under which a kind appears in `Options.monitoring` and as an `Addons` field. */
  function Name(k: Kind): string {
    match k
    case Memory => "memory"
    case Swap => "swap"
    case Cpu => "cpu"
    case Disk => "disk"
    case Network => "network"
  }

  /** The module-level `Monitoring` set of known kind names. */
  const Monitoring: set<string> := {"memory", "swap", "cpu", "disk", "network"}

  /** The default of `Options.monitoring`: every kind, in declaration order. */
  const DefaultMonitoring: seq<string> := ["memory", "swap", "cpu", "disk", "network"]

  /** The kind a name stands for; exactly the names in `Monitoring` have one. */
  function KindOf(s: string): (r: Option<Kind>)
    ensures r.Some? <==> s in Monitoring
    ensures r.Some? ==> Name(r.value) == s
  {
    if s == "memory" then Some(Memory)
    else if s == "swap" then Some(Swap)
    else if s == "cpu" then Some(Cpu)
    else if s == "disk" then Some(Disk)
    else if s == "network" then Some(Network)
    else None
  }

  /** `_has_explicit_param`: `inspect.signature` raises `TypeError` on a non-callable. */
  function HasExplicitParam(v: Value, name: string): (r: Result<bool>)
    ensures r.Err? <==> v.Obj?
    ensures r.Ok? ==> (r.value <==> exists i :: 0 <= i < |v.info.params| && v.info.params[i].name == name)
  {
    match v
    case Obj(_) => Err(TypeError)
    case Fn(info) => Ok(exists i :: 0 <= i < |info.params| && info.params[i].name == name)
  }

  /** `_is_coroutine_function`: false for anything that is not a coroutine function. */
  function IsCoroutineFunction(v: Value): bool {
    v.Fn? && v.info.isCoroutine
  }

  /** The addon contract: a coroutine function that declares a parameter named `item`. */
  predicate Acceptable(v: Value) {
    v.Fn? && v.info.isCoroutine && exists i :: 0 <= i < |v.info.params| && v.info.params[i].name == "item"
  }

  /** `_anticipant_callable`: the parameter test runs first, so a non-callable raises. */
  function AnticipantCallable(v: Value): (r: Result<bool>)
    ensures r.Err? <==> v.Obj?
    ensures r.Ok? ==> (r.value <==> Acceptable(v))
  {
    var hasItem :- HasExplicitParam(v, "item");
    Ok(hasItem && IsCoroutineFunction(v))
  }

  /** The rejection a failed `_anticipant_callable` check produces. */
  function Refusal(v: Value): Error {
    if v.Obj? then TypeError else Validation
  }

  /** `Addon`: one processor for the unified stream. */
  datatype Addon = Addon(unite: Value, test: int)

  /** Constructing an `Addon` runs `_check_unite` on `unite`. */
  function MakeAddon(unite: Value, test: int := 1): (r: Result<Addon>)
    ensures r.Ok? <==> Acceptable(unite)
    ensures r.Ok? ==> r.value == Addon(unite, test)
    ensures r.Err? ==> r.error == Refusal(unite)
  {
    match AnticipantCallable(unite)
    case Err(e) => Err(e)
    case Ok(ok) => if ok then Ok(Addon(unite, test)) else Err(Validation)
  }

  /** `Addons`: one optional processor per kind. */
  datatype Addons = Addons(memory: Option<Value>, swap: Option<Value>, cpu: Option<Value>,
                           disk: Option<Value>, network: Option<Value>)

  /** The field of `Addons` named after a kind. */
  function Field(a: Addons, k: Kind): Option<Value> {
    match k
    case Memory => a.memory
    case Swap => a.swap
    case Cpu => a.cpu
    case Disk => a.disk
    case Network => a.network
  }

  /** Every kind, in declaration order. */
  const AllKinds: seq<Kind> := [Memory, Swap, Cpu, Disk, Network]

  lemma AllKindsComplete()
    ensures forall k :: k in AllKinds
  {
    forall k: Kind ensures k in AllKinds {
      match k
      case Memory => case Swap => case Cpu => case Disk => case Network =>
    }
  }

  /** A statement about every field is a statement about the five named fields. */
  lemma FieldsCover(a: Addons)
    ensures (forall k :: Field(a, k).Some? ==> Acceptable(Field(a, k).value)) <==>
            && (a.memory.Some? ==> Acceptable(a.memory.value))
            && (a.swap.Some? ==> Acceptable(a.swap.value))
            && (a.cpu.Some? ==> Acceptable(a.cpu.value))
            && (a.disk.Some? ==> Acceptable(a.disk.value))
            && (a.network.Some? ==> Acceptable(a.network.value))
  {
    assert Field(a, Memory) == a.memory && Field(a, Swap) == a.swap && Field(a, Cpu) == a.cpu;
    assert Field(a, Disk) == a.disk && Field(a, Network) == a.network;
    AllKindsComplete();
  }

  /** The validator shared by the five `Addons` fields: `None` passes, anything else must be acceptable. */
  function CheckOptional(v: Option<Value>): (r: Result<Option<Value>>)
    ensures r.Ok? <==> (v.Some? ==> Acceptable(v.value))
    ensures r.Ok? ==> r.value == v
  {
    match v
    case None => Ok(None)
    case Some(f) =>
      match AnticipantCallable(f)
      case Err(e) => Err(e)
      case Ok(ok) => if ok then Ok(v) else Err(Validation)
  }

  /** Constructing an `Addons`: every field may be `None`; every other field must meet the addon contract. */
  function MakeAddons(memory: Option<Value>, swap: Option<Value>, cpu: Option<Value>,
                      disk: Option<Value>, network: Option<Value>): (r: Result<Addons>)
    ensures r.Ok? <==> forall k :: Field(Addons(memory, swap, cpu, disk, network), k).Some? ==>
                                     Acceptable(Field(Addons(memory, swap, cpu, disk, network), k).value)
    ensures r.Ok? ==> r.value == Addons(memory, swap, cpu, disk, network)
  {
    var a := Addons(memory, swap, cpu, disk, network);
    FieldsCover(a);
    var m :- CheckOptional(memory);
    var s :- CheckOptional(swap);
    var c :- CheckOptional(cpu);
    var d :- CheckOptional(disk);
    var n :- CheckOptional(network);
    Ok(Addons(m, s, c, d, n))
  }

  /** `_check_monitoring`: a non-empty collection of known kind names, returned as given. */
  function CheckMonitoring(v: seq<string>): (r: Result<seq<string>>)
    ensures r.Ok? <==> |v| > 0 && forall i :: 0 <= i < |v| ==> v[i] in Monitoring
    ensures r.Ok? ==> r.value == v
    ensures r.Err? ==> r.error == Validation
  {
    if |v| == 0 then Err(Validation)
    else if exists i :: 0 <= i < |v| && v[i] !in Monitoring then Err(Validation)
    else Ok(v)
  }

  /** `_check_refresh_interval`: negatives become 0, everything else is kept. */
  function CheckRefreshInterval(v: real): (r: real)
    ensures r >= 0.0
    ensures v >= 0.0 ==> r == v
    ensures v < 0.0 ==> r == 0.0
  {
    if v < 0.0 then 0.0 else v
  }

  /** `_check_thread_pool_max_workers`: anything not positive becomes 1, everything else is kept. */
  function CheckThreadPoolMaxWorkers(v: int): (r: int)
    ensures r >= 1
    ensures v > 0 ==> r == v
    ensures v <= 0 ==> r == 1
  {
    if v <= 0 then 1 else v
  }

  /** `_channel_queue_max_size`: negatives become 0 (an unbounded queue), everything else is kept. */
  function CheckChannelQueueMaxSize(v: int): (r: int)
    ensures r >= 0
    ensures v >= 0 ==> r == v
    ensures v < 0 ==> r == 0
  {
    if v < 0 then 0 else v
  }

  /** Each clamp is idempotent: a validated value validates to itself. */
  lemma ClampsAreIdempotent(refresh: real, workers: int, capacity: int)
    ensures CheckRefreshInterval(CheckRefreshInterval(refresh)) == CheckRefreshInterval(refresh)
    ensures CheckThreadPoolMaxWorkers(CheckThreadPoolMaxWorkers(workers)) == CheckThreadPoolMaxWorkers(workers)
    ensures CheckChannelQueueMaxSize(CheckChannelQueueMaxSize(capacity)) == CheckChannelQueueMaxSize(capacity)
  {
  }

  /** The raw `addons` argument as the before-validator sees it. */
  datatype AddonsInput = AddonInstance(addon: Addon) | AddonsInstance(addons: Addons) | OtherInput(other: Value)

  /** What `_check_addons` as written hands back: the `Addon`, or the value of the last `Addons` field. */
  datatype AddonsReturned = ReturnedAddon(addon: Addon) | ReturnedField(field: Option<Value>)

  /** Every kind named in `monitoring` has an addon. */
  predicate Complete(a: Addons, monitoring: seq<string>) {
    forall k :: Name(k) in monitoring ==> Field(a, k).Some?
  }

  /**
   * `_check_addons` as written. The selection rule is right, but the completeness loop
   * `for k, v in dict(v).items()` rebinds `v`, so the non-unified branch returns the
   * value of the last field, `network`, instead of the `Addons` object.
   */
  function CheckAddonsAsWritten(v: AddonsInput, unite: bool, monitoring: seq<string>): (r: Result<AddonsReturned>)
  {
    if unite then
      if v.AddonInstance? then Ok(ReturnedAddon(v.addon)) else Err(Validation)
    else if !v.AddonsInstance? then Err(Validation)
    else if !Complete(v.addons, monitoring) then Err(Validation)
    else Ok(ReturnedField(v.addons.network))
  }

  /** The addon binding a validated `Options` holds. */
  datatype Binding = Unified(addon: Addon) | PerKind(addons: Addons)

  /**
   * `_check_addons` as intended: unified mode needs an `Addon`; otherwise an `Addons`
   * with an addon for every monitored kind, returned as it is.
   */
  function CheckAddons(v: AddonsInput, unite: bool, monitoring: seq<string>): (r: Result<Binding>)
    ensures r.Ok? <==> (unite && v.AddonInstance?) || (!unite && v.AddonsInstance? && Complete(v.addons, monitoring))
    ensures r.Ok? && unite ==> r.value == Unified(v.addon)
    ensures r.Ok? && !unite ==> r.value == PerKind(v.addons)
    ensures r.Err? ==> r.error == Validation
  {
    if unite then
      if v.AddonInstance? then Ok(Unified(v.addon)) else Err(Validation)
    else if v.AddonsInstance? && Complete(v.addons, monitoring) then Ok(PerKind(v.addons))
    else Err(Validation)
  }

  /**
   * The as-written validator accepts exactly what the intended one accepts, but in
   * non-unified mode returns the `network` field rather than the `Addons` object.
   */
  lemma CheckAddonsReturnsLastField(v: AddonsInput, unite: bool, monitoring: seq<string>)
    ensures CheckAddonsAsWritten(v, unite, monitoring).Ok? <==> CheckAddons(v, unite, monitoring).Ok?
    ensures CheckAddons(v, unite, monitoring).Ok? && !unite ==>
      CheckAddonsAsWritten(v, unite, monitoring) == Ok(ReturnedField(v.addons.network))
    ensures CheckAddons(v, unite, monitoring).Ok? && unite ==>
      CheckAddonsAsWritten(v, unite, monitoring) == Ok(ReturnedAddon(v.addon))
  {
  }

  /** Concretely: a complete `Addons` of one processor `f` validates, as written, to `f` itself. */
  lemma CheckAddonsAsWrittenExample(f: Value)
    ensures var a := Addons(Some(f), Some(f), Some(f), Some(f), Some(f));
      CheckAddonsAsWritten(AddonsInstance(a), false, DefaultMonitoring) == Ok(ReturnedField(Some(f)))
  {
  }

  /**
   * The `addons` field as written: what the before-validator returns is then validated
   * as the declared `Union[Addon, Addons]`. An `Addon` passes; a bare field value (a
   * callable or `None`) is neither model and is refused.
   */
  function CheckAddonsFieldAsWritten(v: AddonsInput, unite: bool, monitoring: seq<string>): (r: Result<Binding>)
  {
    var returned :- CheckAddonsAsWritten(v, unite, monitoring);
    match returned
    case ReturnedAddon(a) => Ok(Unified(a))
    case ReturnedField(_) => Err(Validation)
  }

  /**
   * As written, no configuration with `unite_async_generator=False` validates, however
   * complete its `Addons`; a unified configuration validates exactly as intended.
   */
  lemma PerKindOptionsNeverValidate(v: AddonsInput, unite: bool, monitoring: seq<string>)
    ensures !unite ==> CheckAddonsFieldAsWritten(v, unite, monitoring) == Err(Validation)
    ensures unite ==> CheckAddonsFieldAsWritten(v, unite, monitoring) == CheckAddons(v, unite, monitoring)
    ensures !unite && v.AddonsInstance? && Complete(v.addons, monitoring) ==>
      CheckAddons(v, unite, monitoring) == Ok(PerKind(v.addons))
  {
  }

  /** The validated configuration. */
  datatype Options = Options(monitoring: seq<Kind>, unite: bool, addons: Binding,
                             refreshInterval: real, threadPoolMaxWorkers: int, channelQueueMaxSize: int)

  /** What every validated `Options` satisfies. */
  predicate ValidOptions(o: Options) {
    && |o.monitoring| > 0
    && o.refreshInterval >= 0.0
    && o.threadPoolMaxWorkers >= 1
    && o.channelQueueMaxSize >= 0
    && (o.unite <==> o.addons.Unified?)
    && (o.addons.PerKind? ==> forall k :: k in o.monitoring ==> Field(o.addons.addons, k).Some?)
  }

  /** The kinds a validated list of names stands for, in the same order. */
  function Kinds(names: seq<string>): (ks: seq<Kind>)
    requires forall i :: 0 <= i < |names| ==> names[i] in Monitoring
    ensures |ks| == |names|
    ensures forall i :: 0 <= i < |names| ==> Name(ks[i]) == names[i]
  {
    if names == [] then [] else [KindOf(names[0]).value] + Kinds(names[1..])
  }

  /** `Name` is one-to-one, so a kind is monitored exactly when its name is. */
  lemma {:induction false} KindsMembership(names: seq<string>, k: Kind)
    requires forall i :: 0 <= i < |names| ==> names[i] in Monitoring
    ensures k in Kinds(names) <==> Name(k) in names
  {
    var ks := Kinds(names);
    if k in ks {
      var i :| 0 <= i < |ks| && ks[i] == k;
      assert names[i] == Name(k);
    }
    if Name(k) in names {
      var i :| 0 <= i < |names| && names[i] == Name(k);
      assert Name(ks[i]) == Name(k);
      NameInjective(ks[i], k);
    }
  }

  lemma NameInjective(a: Kind, b: Kind)
    requires Name(a) == Name(b)
    ensures a == b
  {
  }

  /**
   * Constructing `Options`: the monitoring list and the addons are validated (in
   * declaration order, so the addon check sees the monitoring list and the mode), the
   * three numeric fields are clamped. Any failing validator rejects the whole model.
   */
  function MakeOptions(monitoring: seq<string>, unite: bool, addons: AddonsInput,
                       refreshInterval: real, threadPoolMaxWorkers: int, channelQueueMaxSize: int): (r: Result<Options>)
    ensures r.Ok? <==> CheckMonitoring(monitoring).Ok? && CheckAddons(addons, unite, monitoring).Ok?
    ensures r.Ok? ==> ValidOptions(r.value)
    ensures r.Ok? ==> |r.value.monitoring| == |monitoring| &&
                      forall i :: 0 <= i < |monitoring| ==> Name(r.value.monitoring[i]) == monitoring[i]
    ensures r.Ok? ==> r.value.unite == unite && r.value.addons == CheckAddons(addons, unite, monitoring).value
    ensures r.Ok? ==> r.value.refreshInterval == CheckRefreshInterval(refreshInterval)
    ensures r.Ok? ==> r.value.threadPoolMaxWorkers == CheckThreadPoolMaxWorkers(threadPoolMaxWorkers)
    ensures r.Ok? ==> r.value.channelQueueMaxSize == CheckChannelQueueMaxSize(channelQueueMaxSize)
  {
    var names :- CheckMonitoring(monitoring);
    var binding :- CheckAddons(addons, unite, monitoring);
    var kinds := Kinds(names);
    assert binding.PerKind? ==> forall k :: k in kinds ==> Field(binding.addons, k).Some? by {
      forall k | k in kinds ensures binding.PerKind? ==> Field(binding.addons, k).Some? {
        KindsMembership(names, k);
      }
    }
    Ok(Options(kinds, unite, binding, CheckRefreshInterval(refreshInterval),
               CheckThreadPoolMaxWorkers(threadPoolMaxWorkers), CheckChannelQueueMaxSize(channelQueueMaxSize)))
  }

  /** In non-unified mode an `Addons` missing any monitored kind is rejected at construction. */
  lemma MissingAddonRejected(monitoring: seq<string>, a: Addons, k: Kind,
                             refreshInterval: real, threadPoolMaxWorkers: int, channelQueueMaxSize: int)
    requires Name(k) in monitoring && Field(a, k).None?
    ensures MakeOptions(monitoring, false, AddonsInstance(a), refreshInterval, threadPoolMaxWorkers, channelQueueMaxSize).Err?
  {
  }

  /** The declared defaults: every kind, unified mode, refresh 1, ten workers, unbounded queues. */
  function DefaultOptions(addon: Addon): (o: Options)
    ensures ValidOptions(o)
    ensures |o.monitoring| == 5 && forall k :: k in o.monitoring
  {
    AllKindsComplete();
    Options(AllKinds, true, Unified(addon), 1.0, 10, 0)
  }
}
