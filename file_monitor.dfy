/**
 * The watchdog handler builder: `BuildArguments` validates a handler name, a base
 * class and a table of attributes, and `FileMonitoringHandler` registers the built
 * handler classes and named observers.
 *
 * The watchdog `events` module enters as `EventsLibrary`: the names of its handler
 * classes (in `dir` order) and the public callback names of the first of them.
 */
module FileMonitor {
  import opened Wrappers
  import opened PyValues

  datatype EventsLibrary = EventsLibrary(handlers: seq<string>, callbacks: set<string>)

  /** The validated arguments of `build_handler`. */
  datatype BuildArguments = BuildArguments(name: string, baseClass: string, attr: map<string, Value>)

  /** A class built with `type(name, (base,), attr)`. */
  datatype HandlerClass = HandlerClass(name: string, baseClass: string, attr: map<string, Value>)

  /** A watchdog `Observer`, told apart by a serial. */
  datatype ObserverHandle = ObserverHandle(serial: nat)

  /** `validate_name`: every name but "MyHandler" is accepted as it is. */
  function ValidateName(name: string): (r: Result<string>)
    ensures r.Err? <==> name == "MyHandler"
    ensures r.Ok? ==> r.value == name
  {
    if name == "MyHandler" then Err(Validation) else Ok(name)
  }

  /** `validate_base_class`: the base must be one of the library's handler classes. */
  function ValidateBaseClass(baseClass: string, lib: EventsLibrary): (r: Result<string>)
    ensures r.Ok? <==> baseClass in lib.handlers
    ensures r.Ok? ==> r.value == baseClass
  {
    if baseClass !in lib.handlers then Err(Validation) else Ok(baseClass)
  }

  /** A parameter kind a callback may not use in its first two positions. */
  predicate Forbidden(k: ParamKind) {
    k == PositionalOnly || k == KeywordOnly
  }

  /**
   * The shape a known callback must have: a plain, non-coroutine function whose first
   * two parameters exist and are neither positional-only nor keyword-only.
   */
  predicate CallbackShapeOk(info: CallableInfo) {
    && info.isFunction && !info.isCoroutine
    && |info.params| >= 2
    && !Forbidden(info.params[0].kind) && !Forbidden(info.params[1].kind)
  }

  /** One attribute as `validate_attr` checks it: only a callable under a callback name is inspected. */
  function CheckAttribute(k: string, v: Value, lib: EventsLibrary): (r: Result<Unit>)
    ensures r.Ok? <==> !(v.Fn? && k in lib.callbacks) || CallbackShapeOk(v.info)
  {
    if v.Fn? && k in lib.callbacks then
      var info := v.info;
      if !info.isFunction || info.isCoroutine then Err(Validation)
      else if |info.params| == 0 || Forbidden(info.params[0].kind) then Err(Validation)
      else if |info.params| == 1 || Forbidden(info.params[1].kind) then Err(Validation)
      else Ok(Unit)
    else Ok(Unit)
  }

  /** Whether every callable under a callback name has the callback shape. */
  predicate AttrOk(attr: map<string, Value>, lib: EventsLibrary) {
    forall k :: k in attr && attr[k].Fn? && k in lib.callbacks ==> CallbackShapeOk(attr[k].info)
  }

  /**
   * `validate_attr`: `None` becomes the empty table; otherwise every attribute is
   * checked and the table is returned unchanged.
   */
  function ValidateAttr(attr: Option<map<string, Value>>, lib: EventsLibrary): (r: Result<map<string, Value>>)
    ensures attr.None? ==> r == Ok(map[])
    ensures attr.Some? ==> (r.Ok? <==> AttrOk(attr.value, lib))
    ensures attr.Some? && r.Ok? ==> r.value == attr.value
  {
    match attr
    case None => Ok(map[])
    case Some(table) =>
      if exists k :: k in table && CheckAttribute(k, table[k], lib).Err? then Err(Validation)
      else Ok(table)
  }

  /** Constructing `BuildArguments`: all three validators must pass. */
  function MakeBuildArguments(name: string, baseClass: string, attr: Option<map<string, Value>>,
                              lib: EventsLibrary): (r: Result<BuildArguments>)
    ensures r.Ok? <==> ValidateName(name).Ok? && ValidateBaseClass(baseClass, lib).Ok? && ValidateAttr(attr, lib).Ok?
    ensures r.Ok? ==> r.value == BuildArguments(name, baseClass, ValidateAttr(attr, lib).value)
  {
    var n :- ValidateName(name);
    var b :- ValidateBaseClass(baseClass, lib);
    var a :- ValidateAttr(attr, lib);
    Ok(BuildArguments(n, b, a))
  }

  /** A callback with fewer than two parameters, or a coroutine callback, is refused. */
  lemma MalformedCallbacksRefused(k: string, info: CallableInfo, lib: EventsLibrary)
    requires k in lib.callbacks
    requires |info.params| < 2 || info.isCoroutine || !info.isFunction
    ensures ValidateAttr(Some(map[k := Fn(info)]), lib).Err?
  {
    assert !AttrOk(map[k := Fn(info)], lib);
  }

  /** Non-callables, and callables under names that are not callbacks, pass unchecked. */
  lemma UncheckedAttributesPass(k: string, v: Value, lib: EventsLibrary)
    requires v.Obj? || k !in lib.callbacks
    ensures ValidateAttr(Some(map[k := v]), lib) == Ok(map[k := v])
  {
  }

  class FileMonitoringHandler {
    var handlers: map<string, HandlerClass>
    var observers: map<string, ObserverHandle>
    var nextObserver: nat

    constructor ()
      ensures handlers == map[] && observers == map[]
    {
      handlers := map[];
      observers := map[];
      nextObserver := 0;
    }

    /** `new_observer`: a new observer, stored under the name (replacing any earlier one). */
    method NewObserver(name: string) returns (o: ObserverHandle)
      modifies this
      ensures o == ObserverHandle(old(nextObserver)) && nextObserver == old(nextObserver) + 1
      ensures observers == old(observers)[name := o]
      ensures handlers == old(handlers)
    {
      o := ObserverHandle(nextObserver);
      nextObserver := nextObserver + 1;
      observers := observers[name := o];
    }

    /**
     * `build_handler`: validates the arguments, builds the class and stores it under the
     * validated name, overwriting any earlier entry; a refused argument changes nothing.
     */
    method BuildHandler(name: string, baseClass: string, attr: Option<map<string, Value>>,
                        lib: EventsLibrary) returns (r: Result<HandlerClass>)
      modifies this
      ensures MakeBuildArguments(name, baseClass, attr, lib).Err? ==> r == Err(Validation) && handlers == old(handlers)
      ensures MakeBuildArguments(name, baseClass, attr, lib).Ok? ==>
        var args := MakeBuildArguments(name, baseClass, attr, lib).value;
        r == Ok(HandlerClass(args.name, args.baseClass, args.attr)) && handlers == old(handlers)[name := r.value]
      ensures observers == old(observers) && nextObserver == old(nextObserver)
    {
      match MakeBuildArguments(name, baseClass, attr, lib)
      case Err(e) =>
        r := Err(Validation);
      case Ok(args) =>
        var built := HandlerClass(args.name, args.baseClass, args.attr);
        handlers := handlers[args.name := built];
        r := Ok(built);
    }
  }
}
