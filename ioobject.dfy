/**
 * Ext.io.Object: the client-side proxy of a naming-service object. The
 * naming RPC service is represented by the outcome it answers with, the
 * requests the proxy sends are returned as a list, and the `updated` events
 * it fires are appended to a log on the object. The config store is the
 * one Ext.io.Io hands out; it is passed in explicitly.
 */
module IoObject {
  import opened Js
  import opened LocalStore
  import opened ConfigStore

  /** What the RPC service answers: `{status: "success", value}` or an error. */
  datatype Outcome = Success(value: Value) | Failure(error: Value)

  /** What a listing RPC answers: an array of configs, or an error. */
  datatype ListOutcome = Listed(values: seq<Value>) | ListFailed(error: Value)

  /** A request sent to the naming RPC service: its method name and arguments. */
  datatype RpcCall = RpcCall(name: string, args: seq<Value>)

  /**
   * What the callback receives: a result, the service's error, or no call
   * at all because a TypeError or SyntaxError was thrown first.
   */
  datatype Reply<+T> = Done(value: T) | Failed(error: Value) | Threw(exception: Exception)

  /** One firing of the `updated` event: the fields changed and whether the change came from the server. */
  datatype Event = Updated(data: seq<Member>, isRemote: bool)

  /** createObject's argument to Ext.create: `{id: config._key, data: config.data, allowedActions: config.allowedActions}`. */
  datatype Init = Init(id: Value, data: Value, allowedActions: Value)

  /** An object's fields as data. */
  datatype Snapshot = Snapshot(id: Value, data: Value, allowedActions: Value, watched: bool, events: seq<Event>)

  // ---------------------------------------------------------------------
  // Pure parts

  /** The instance config createObject builds; reading `_key` of null or undefined raises a TypeError. */
  function InitOf(config: Value): (r: Result<Init>)
    ensures r.Raised? <==> Nullish(config)
    ensures r.Raised? ==> r.exception == TypeError
    ensures config.Obj? ==> r == Ok(Init(Get(config.members, "_key"), Get(config.members, "data"), Get(config.members, "allowedActions")))
    ensures r.Ok? && !config.Obj? ==> r.value == Init(Undefined, Undefined, Undefined)
  {
    match Property(config, "_key")
    case Raised(e) => Raised(e)
    case Ok(id) => Ok(Init(id, Property(config, "data").value, Property(config, "allowedActions").value))
  }

  /** createObject over a list of configs, in order; the first null or undefined config raises. */
  function InitsOf(configs: seq<Value>): (r: Result<seq<Init>>)
    ensures r.Ok? <==> forall i :: 0 <= i < |configs| ==> !Nullish(configs[i])
    ensures r.Raised? ==> r.exception == TypeError
    ensures r.Ok? ==> |r.value| == |configs|
    ensures r.Ok? ==> forall i :: 0 <= i < |configs| ==> InitOf(configs[i]) == Ok(r.value[i])
  {
    if configs == [] then Ok([])
    else
      match InitOf(configs[0])
      case Raised(e) => Raised(e)
      case Ok(first) =>
        match InitsOf(configs[1..])
        case Raised(e) => Raised(e)
        case Ok(rest) => Ok([first] + rest)
  }

  /** The config store key of `[className, key]`. */
  function CacheKey(className: string, key: Value): (k: string)
    ensures StartsWith(k, KeyPrefix)
  {
    StoreKeyPrefix(Arr([Str(className), key]));
    StoreKey(Arr([Str(className), key])).value
  }

  /** `[className, key]` is joined with "-" under the config prefix. */
  lemma CacheKeyText(className: string, key: Value)
    ensures CacheKey(className, key) == KeyPrefix + className + "-" + JoinText(key)
  {
    var texts := ElementTexts([Str(className), key]);
    assert texts == [className, JoinText(key)];
    assert Join(texts, "-") == className + "-" + JoinText(key);
  }

  /** A fetched truthy config cached by getCachedObject makes the next getCachedObject a hit. */
  lemma FetchThenHit(c: Cache, className: string, key: Value, conf: Value)
    requires Truthy(conf)
    ensures var k := CacheKey(className, key);
      Lookup(Stored(AfterLookup(c, k), k, conf), k) == Ok(conf)
  {
  }

  /**
   * _update: merge `data` into the object's data, refresh the cached
   * config's `data` if a cached config is found, then fire one `updated`
   * event. A merge into null or undefined, or a stored config that is not
   * JSON, raises before the event fires.
   */
  function LocalUpdate(className: string, s: Snapshot, c: Cache, data: seq<Member>, isRemote: bool)
    : (r: (Result<()>, Snapshot, Cache))
  {
    match MergeData(s.data, data)
    case Raised(e) => (Raised(e), s, c)
    case Ok(merged) =>
      var k := CacheKey(className, s.id);
      match Lookup(c, k)
      case Raised(e) => (Raised(e), s.(data := merged), c)
      case Ok(conf) =>
        var after := AfterLookup(c, k);
        (Ok(()),
         s.(data := merged, events := s.events + [Updated(data, isRemote)]),
         if Truthy(conf) then Stored(after, k, SetProperty(conf, "data", merged).value) else after)
  }

  /** _update changes the object's data and event log only, and fires exactly one event when it completes. */
  lemma LocalUpdateObject(className: string, s: Snapshot, c: Cache, data: seq<Member>, isRemote: bool)
    ensures var (result, after, _) := LocalUpdate(className, s, c, data, isRemote);
      && after.id == s.id && after.allowedActions == s.allowedActions && after.watched == s.watched
      && (MergeData(s.data, data).Raised? ==> after == s && result == Raised(MergeData(s.data, data).exception))
      && (MergeData(s.data, data).Ok? ==> after.data == MergeData(s.data, data).value)
      && (result.Ok? ==> after.events == s.events + [Updated(data, isRemote)])
      && (result.Raised? ==> after.events == s.events)
  {
  }

  /**
   * The top level of the merged data: keys absent from `data` keep their
   * value and keys whose new value is not a plain object take it.
   */
  lemma LocalUpdateMerge(className: string, s: Snapshot, c: Cache, data: seq<Member>, isRemote: bool, key: string)
    requires s.data.Obj? && DistinctKeys(data)
    ensures var after := LocalUpdate(className, s, c, data, isRemote).1;
      && after.data.Obj?
      && (!HasKey(data, key) ==> Get(after.data.members, key) == Get(s.data.members, key))
      && (HasKey(data, key) && !IsPlainObject(Get(data, key)) ==> Get(after.data.members, key) == Get(data, key))
  {
  }

  /**
   * Without a cached config the cache is left as it was, up to an
   * unobservable backfill; with one, the cached config's `data` becomes
   * the merged data. Other keys are never affected.
   */
  lemma LocalUpdateCache(className: string, s: Snapshot, c: Cache, data: seq<Member>, isRemote: bool, other: string)
    requires MergeData(s.data, data).Ok?
    ensures var k := CacheKey(className, s.id);
      var merged := MergeData(s.data, data).value;
      var after := LocalUpdate(className, s, c, data, isRemote).2;
      && (Lookup(c, k).Ok? && !Truthy(Lookup(c, k).value) ==> Lookup(after, other) == Lookup(c, other))
      && (Lookup(c, k).Ok? && Lookup(c, k).value.Obj? ==>
            Lookup(after, k).Ok? && Lookup(after, k).value.Obj? && Get(Lookup(after, k).value.members, "data") == merged)
      && (other != k ==> Lookup(after, other) == Lookup(c, other))
  {
    var k := CacheKey(className, s.id);
    LookupUnobservable(c, k, other);
  }

  // ---------------------------------------------------------------------
  // The proxy object

  class IoObject {
    /** The Ext class name of the object (`$className`). */
    const className: string
    var id: Value
    var data: Value
    var allowedActions: Value
    var registeredForNamingEvents: bool
    /** The `updated` events fired so far. */
    var events: seq<Event>

    function Snap(): Snapshot
      reads this
    {
      Snapshot(id, data, allowedActions, registeredForNamingEvents, events)
    }

    /** A proxy of class `klass` freshly made from `init`. */
    predicate Made(klass: string, init: Init)
      reads this
    {
      className == klass && Snap() == Snapshot(init.id, init.data, init.allowedActions, false, [])
    }

    /**
     * Ext.create(klass, init): the config's fields become the object's.
     * (The constructor also copies a `_key` member of its argument into
     * the id, but createObject's argument has none.)
     */
    constructor(klass: string, init: Init)
      ensures Made(klass, init)
    {
      className := klass;
      id := init.id;
      data := init.data;
      allowedActions := init.allowedActions;
      registeredForNamingEvents := false;
      events := [];
    }

    // -------------------------------------------------------------------
    // Statics

    /** createObject: a new proxy for a config; a null or undefined config raises. */
    static method CreateObject(klass: string, config: Value) returns (r: Result<IoObject>)
      ensures r.Raised? <==> Nullish(config)
      ensures r.Raised? ==> r.exception == TypeError
      ensures r.Ok? ==> fresh(r.value) && r.value.Made(klass, InitOf(config).value)
    {
      var init := InitOf(config);
      if init.Raised? {
        return Raised(init.exception);
      }
      var o := new IoObject(klass, init.value);
      r := Ok(o);
    }

    /** The loop of findObjects and its relatives: one new proxy per config, in order. */
    static method CreateAll(klass: string, configs: seq<Value>) returns (r: Result<seq<IoObject>>)
      ensures match InitsOf(configs)
        case Raised(e) => r == Raised(e)
        case Ok(inits) =>
          && r.Ok? && |r.value| == |configs|
          && (forall i :: 0 <= i < |configs| ==> fresh(r.value[i]) && r.value[i].Made(klass, inits[i]))
          && (forall i, j :: 0 <= i < j < |configs| ==> r.value[i] != r.value[j])
    {
      var objects: seq<IoObject> := [];
      var i := 0;
      while i < |configs|
        invariant 0 <= i <= |configs| && |objects| == i
        invariant forall j :: 0 <= j < i ==> !Nullish(configs[j])
        invariant forall j :: 0 <= j < i ==> fresh(objects[j]) && objects[j].Made(klass, InitOf(configs[j]).value)
        invariant forall j, j' :: 0 <= j < j' < i ==> objects[j] != objects[j']
      {
        var o := CreateObject(klass, configs[i]);
        if o.Raised? {
          return Raised(o.exception);
        }
        objects := objects + [o.value];
        i := i + 1;
      }
      r := Ok(objects);
    }

    /** getObject: one `get` request; on success a new proxy for the config returned. */
    static method GetObject(klass: string, key: Value, outcome: Outcome) returns (reply: Reply<IoObject>, calls: seq<RpcCall>)
      ensures calls == [RpcCall("get", [Str(klass), key])]
      ensures match outcome
        case Failure(e) => reply == Failed(e)
        case Success(v) =>
          if Nullish(v) then reply == Threw(TypeError)
          else reply.Done? && fresh(reply.value) && reply.value.Made(klass, InitOf(v).value)
    {
      calls := [RpcCall("get", [Str(klass), key])];
      if outcome.Failure? {
        return Failed(outcome.error), calls;
      }
      var o := CreateObject(klass, outcome.value);
      if o.Raised? {
        return Threw(o.exception), calls;
      }
      reply := Done(o.value);
    }

    /**
     * getCachedObject: a truthy cached config makes a proxy with no request
     * sent; otherwise the object is fetched and its config cached when a
     * proxy was made.
     */
    static method GetCachedObject(klass: string, key: Value, store: ConfigStore, outcome: Outcome)
      returns (reply: Reply<IoObject>, calls: seq<RpcCall>)
      requires store.Valid()
      modifies store, store.localStore
      ensures store.Valid()
      ensures var k, before := CacheKey(klass, key), old(store.State());
        match Lookup(before, k)
        case Raised(e) => reply == Threw(e) && calls == [] && store.State() == before
        case Ok(conf) =>
          if Truthy(conf) then
            && calls == [] && store.State() == AfterLookup(before, k)
            && reply.Done? && fresh(reply.value) && reply.value.Made(klass, InitOf(conf).value)
          else
            && calls == [RpcCall("get", [Str(klass), key])]
            && match outcome
               case Failure(e) => reply == Failed(e) && store.State() == AfterLookup(before, k)
               case Success(v) =>
                 if Nullish(v) then reply == Threw(TypeError) && store.State() == AfterLookup(before, k)
                 else
                   && reply.Done? && fresh(reply.value) && reply.value.Made(klass, InitOf(v).value)
                   && store.State() == Stored(AfterLookup(before, k), k, v)
    {
      var cacheKey := Arr([Str(klass), key]);
      var objConf := store.GetObjectConfig(cacheKey);
      if objConf.Raised? {
        return Threw(objConf.exception), [];
      }
      if Truthy(objConf.value) {
        var o := CreateObject(klass, objConf.value);
        return Done(o.value), [];
      }
      reply, calls := GetObject(klass, key, outcome);
      if reply.Done? {
        var _ := store.SetObjectConfig(cacheKey, outcome.value);
      }
    }

    /** cacheObjectConfig: writes the config under `[className, key]`. */
    static method CacheObjectConfig(klass: string, key: Value, conf: Value, store: ConfigStore)
      requires store.Valid()
      modifies store, store.localStore
      ensures store.Valid() && store.State() == Stored(old(store.State()), CacheKey(klass, key), conf)
    {
      var _ := store.SetObjectConfig(Arr([Str(klass), key]), conf);
    }

    /** removeCachedObject: drops the config under `[className, key]` from both tiers. */
    static method RemoveCachedObject(klass: string, key: Value, store: ConfigStore)
      requires store.Valid()
      modifies store, store.localStore
      ensures store.Valid() && store.State() == Removed(old(store.State()), CacheKey(klass, key))
    {
      var _ := store.Remove(Arr([Str(klass), key]));
    }

    /** findObjects: one `find` request; on success one new proxy per config returned, in order. */
    static method FindObjects(klass: string, query: Value, start: Value, rows: Value, outcome: ListOutcome)
      returns (reply: Reply<seq<IoObject>>, calls: seq<RpcCall>)
      ensures calls == [RpcCall("find", [Str(klass), query, start, rows])]
      ensures match outcome
        case ListFailed(e) => reply == Failed(e)
        case Listed(configs) =>
          match InitsOf(configs)
          case Raised(e) => reply == Threw(e)
          case Ok(inits) =>
            && reply.Done? && |reply.value| == |configs|
            && (forall i :: 0 <= i < |configs| ==> fresh(reply.value[i]) && reply.value[i].Made(klass, inits[i]))
    {
      calls := [RpcCall("find", [Str(klass), query, start, rows])];
      reply := ListReply(klass, outcome);
    }

    /** How the listing requests answer their callback. */
    static method ListReply(klass: string, outcome: ListOutcome) returns (reply: Reply<seq<IoObject>>)
      ensures match outcome
        case ListFailed(e) => reply == Failed(e)
        case Listed(configs) =>
          match InitsOf(configs)
          case Raised(e) => reply == Threw(e)
          case Ok(inits) =>
            && reply.Done? && |reply.value| == |configs|
            && (forall i :: 0 <= i < |configs| ==> fresh(reply.value[i]) && reply.value[i].Made(klass, inits[i]))
    {
      if outcome.ListFailed? {
        return Failed(outcome.error);
      }
      var objects := CreateAll(klass, outcome.values);
      if objects.Raised? {
        return Threw(objects.exception);
      }
      reply := Done(objects.value);
    }

    // -------------------------------------------------------------------
    // Instance methods

    /** watch: registers for naming events and answers the object itself. */
    method Watch(properties: Value) returns (self: IoObject)
      modifies this
      ensures self == this && Snap() == old(Snap()).(watched := true)
    {
      registeredForNamingEvents := true;
      self := this;
    }

    /** ignore: unregisters from naming events and answers the object itself. */
    method Ignore(properties: Value) returns (self: IoObject)
      modifies this
      ensures self == this && Snap() == old(Snap()).(watched := false)
    {
      registeredForNamingEvents := false;
      self := this;
    }

    /** _update, as LocalUpdate describes it. */
    method UpdateLocal(update: seq<Member>, isRemote: bool, store: ConfigStore) returns (r: Result<()>)
      requires store.Valid()
      modifies this, store, store.localStore
      ensures store.Valid()
      ensures (r, Snap(), store.State()) == LocalUpdate(className, old(Snap()), old(store.State()), update, isRemote)
    {
      var merged := MergeData(data, update);
      if merged.Raised? {
        return Raised(merged.exception);
      }
      data := merged.value;
      var cacheKey := Arr([Str(className), id]);
      var objConf := store.GetObjectConfig(cacheKey);
      if objConf.Raised? {
        return Raised(objConf.exception);
      }
      if Truthy(objConf.value) {
        var conf := SetProperty(objConf.value, "data", merged.value);
        var _ := store.SetObjectConfig(cacheKey, conf.value);
      }
      events := events + [Updated(update, isRemote)];
      r := Ok(());
    }

    /**
     * update: the local update first, then one `update` request; the
     * service's answer goes to the callback and a failure does not undo the
     * local update.
     */
    method Update(update: seq<Member>, store: ConfigStore, outcome: Outcome) returns (reply: Reply<()>, calls: seq<RpcCall>)
      requires store.Valid()
      modifies this, store, store.localStore
      ensures store.Valid()
      ensures var (result, after, cache) := LocalUpdate(className, old(Snap()), old(store.State()), update, false);
        && Snap() == after && store.State() == cache
        && (result.Raised? ==> reply == Threw(result.exception) && calls == [])
        && (result.Ok? ==>
              && calls == [RpcCall("update", [Str(className), old(id), Obj(update)])]
              && reply == if outcome.Success? then Done(()) else Failed(outcome.error))
    {
      var local := UpdateLocal(update, false, store);
      if local.Raised? {
        return Threw(local.exception), [];
      }
      calls := [RpcCall("update", [Str(className), id, Obj(update)])];
      reply := if outcome.Success? then Done(()) else Failed(outcome.error);
    }

    /** removeCached: drops this object's config from both tiers. */
    method RemoveCached(store: ConfigStore)
      requires store.Valid()
      modifies store, store.localStore
      ensures store.Valid() && store.State() == Removed(old(store.State()), CacheKey(className, id))
    {
      var _ := store.Remove(Arr([Str(className), id]));
    }

    /** destroy: one `destroy` request; it changes nothing locally and never touches the config store. */
    method Destroy(outcome: Outcome) returns (reply: Reply<()>, calls: seq<RpcCall>)
      ensures calls == [RpcCall("destroy", [Str(className), id])]
      ensures reply == if outcome.Success? then Done(()) else Failed(outcome.error)
    {
      calls := [RpcCall("destroy", [Str(className), id])];
      reply := if outcome.Success? then Done(()) else Failed(outcome.error);
    }

    /** createRelatedObject: one request; on success a new proxy of class `klass`, or of this object's class when `klass` is missing or empty. */
    method CreateRelatedObject(relatedMethod: string, klass: Option<string>, update: Value, outcome: Outcome)
      returns (reply: Reply<IoObject>, calls: seq<RpcCall>)
      ensures calls == [RpcCall("createRelatedObject", [Str(className), id, Str(relatedMethod), update])]
      ensures match outcome
        case Failure(e) => reply == Failed(e)
        case Success(v) =>
          if Nullish(v) then reply == Threw(TypeError)
          else
            && reply.Done? && fresh(reply.value)
            && reply.value.Made(if klass.Some? && klass.value != "" then klass.value else className, InitOf(v).value)
    {
      calls := [RpcCall("createRelatedObject", [Str(className), id, Str(relatedMethod), update])];
      if outcome.Failure? {
        return Failed(outcome.error), calls;
      }
      var o := CreateObject(if klass.Some? && klass.value != "" then klass.value else className, outcome.value);
      if o.Raised? {
        return Threw(o.exception), calls;
      }
      reply := Done(o.value);
    }

    /** getRelatedObject: one request; a falsy answer means there is no linked object, which is no error. */
    method GetRelatedObject(klass: string, key: Value, tag: Value, outcome: Outcome)
      returns (reply: Reply<Option<IoObject>>, calls: seq<RpcCall>)
      ensures calls == [RpcCall("getRelatedObject", [Str(className), id, Str(klass), key, tag])]
      ensures match outcome
        case Failure(e) => reply == Failed(e)
        case Success(v) =>
          if Truthy(v) then
            reply.Done? && reply.value.Some? && fresh(reply.value.value) && reply.value.value.Made(klass, InitOf(v).value)
          else reply == Done(None)
    {
      calls := [RpcCall("getRelatedObject", [Str(className), id, Str(klass), key, tag])];
      if outcome.Failure? {
        return Failed(outcome.error), calls;
      }
      if !Truthy(outcome.value) {
        return Done(None), calls;
      }
      var o := CreateObject(klass, outcome.value);
      reply := Done(Some(o.value));
    }

    /** getRelatedObjects: one request; on success one new proxy per config, in order. */
    method GetRelatedObjects(klass: string, tag: Value, outcome: ListOutcome)
      returns (reply: Reply<seq<IoObject>>, calls: seq<RpcCall>)
      ensures calls == [RpcCall("getRelatedObjects", [Str(className), id, Str(klass), tag])]
      ensures match outcome
        case ListFailed(e) => reply == Failed(e)
        case Listed(configs) =>
          match InitsOf(configs)
          case Raised(e) => reply == Threw(e)
          case Ok(inits) =>
            && reply.Done? && |reply.value| == |configs|
            && (forall i :: 0 <= i < |configs| ==> fresh(reply.value[i]) && reply.value[i].Made(klass, inits[i]))
    {
      calls := [RpcCall("getRelatedObjects", [Str(className), id, Str(klass), tag])];
      reply := ListReply(klass, outcome);
    }

    /** findRelatedObjects: one request; on success one new proxy per config, in order. */
    method FindRelatedObjects(klass: string, key: Value, tag: Value, query: Value, outcome: ListOutcome)
      returns (reply: Reply<seq<IoObject>>, calls: seq<RpcCall>)
      ensures calls == [RpcCall("findRelatedObjects", [Str(className), id, Str(klass), key, tag, query])]
      ensures match outcome
        case ListFailed(e) => reply == Failed(e)
        case Listed(configs) =>
          match InitsOf(configs)
          case Raised(e) => reply == Threw(e)
          case Ok(inits) =>
            && reply.Done? && |reply.value| == |configs|
            && (forall i :: 0 <= i < |configs| ==> fresh(reply.value[i]) && reply.value[i].Made(klass, inits[i]))
    {
      calls := [RpcCall("findRelatedObjects", [Str(className), id, Str(klass), key, tag, query])];
      reply := ListReply(klass, outcome);
    }
  }
}
