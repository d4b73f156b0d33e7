/**
 * The Redis connection registry: `RedisHandler` keeps synchronous and asynchronous
 * connections by id, optionally opening a default synchronous connection at
 * construction. Connections are opaque values told apart by a serial; the pydantic
 * option models only check library types, so whether they accept an option
 * dictionary is a parameter.
 */
module MemoryDatabase {
  import opened Wrappers
  import opened PyValues

  /** What `new_*_redis` is given: an option dictionary or a URL. */
  datatype RedisOptions = DictOptions(kwargs: map<string, Value>, accepted: bool) | UrlOptions(url: string)

  /** A `redis.Redis` or `redis.asyncio.Redis` object. */
  datatype Connection = Connection(serial: nat)

  /**
   * `SyncRedisOptions.model_validate` / `AsyncRedisOptions.model_validate`: a model
   * validates a dictionary, never a string, so a URL is refused.
   */
  predicate OptionsValidate(o: RedisOptions) {
    o.DictOptions? && o.accepted
  }

  /** The id of the default connection: `redis_id or uuid4().hex`. */
  function DefaultId(redisId: Option<string>, generated: string): string {
    OrElse(redisId, generated)
  }

  class RedisHandler {
    var redis: Option<Connection>
    var redisId: string
    var syncConnections: map<string, Connection>
    var asyncConnections: map<string, Connection>
    var nextSerial: nat

    /** Every connection made so far has a serial below `nextSerial`. */
    predicate Valid()
      reads this
    {
      && (forall id :: id in syncConnections ==> syncConnections[id].serial < nextSerial)
      && (forall id :: id in asyncConnections ==> asyncConnections[id].serial < nextSerial)
      && (redis.Some? ==> redis.value.serial < nextSerial)
    }

    /**
     * The constructor once any option dictionary has validated: with `auto_connection`,
     * exactly one synchronous connection, the default, under the given id or the
     * generated one; otherwise both maps start empty.
     */
    constructor (autoConnection: bool, redisId: Option<string>, generatedId: string)
      ensures Valid() && asyncConnections == map[]
      ensures autoConnection ==>
        && redis == Some(Connection(0)) && this.redisId == DefaultId(redisId, generatedId)
        && syncConnections == map[DefaultId(redisId, generatedId) := Connection(0)]
      ensures !autoConnection ==> redis.None? && syncConnections == map[]
    {
      this.redisId := "";
      syncConnections := map[];
      asyncConnections := map[];
      if autoConnection {
        redis := Some(Connection(0));
        nextSerial := 1;
        this.redisId := DefaultId(redisId, generatedId);
        syncConnections := map[this.redisId := Connection(0)];
      } else {
        redis := None;
        nextSerial := 0;
      }
    }

    /** `default_redis` (a property, so `return_id` is always false): the default id and connection. */
    function DefaultRedis(): (r: Option<(string, Connection)>)
      reads this
      ensures r.Some? <==> redis.Some?
      ensures r.Some? ==> r.value.0 == redisId && Some(r.value.1) == redis
    {
      if redis.Some? then Some((redisId, redis.value)) else None
    }

    /** `connections_lookup`: the ids of both kinds of connection. */
    function ConnectionsLookup(): (ids: set<string>)
      reads this
      ensures forall id :: id in ids <==> id in syncConnections || id in asyncConnections
    {
      syncConnections.Keys + asyncConnections.Keys
    }

    /**
     * `new_sync_redis`: the options must validate; the new connection is stored under
     * the id, replacing any connection already there.
     */
    method NewSyncRedis(id: string, options: RedisOptions) returns (r: Result<Connection>)
      modifies this
      ensures old(Valid()) ==> Valid()
      ensures r.Ok? <==> OptionsValidate(options)
      ensures r.Err? ==> r.error == Validation && unchanged(this)
      ensures r.Ok? ==>
        && r.value == Connection(old(nextSerial)) && nextSerial == old(nextSerial) + 1
        && syncConnections == old(syncConnections)[id := r.value]
        && asyncConnections == old(asyncConnections) && redis == old(redis) && redisId == old(redisId)
    {
      if !OptionsValidate(options) {
        return Err(Validation);
      }
      var conn := Connection(nextSerial);
      nextSerial := nextSerial + 1;
      syncConnections := syncConnections[id := conn];
      r := Ok(conn);
    }

    /** `new_async_redis`: as `new_sync_redis`, for the asynchronous map. */
    method NewAsyncRedis(id: string, options: RedisOptions) returns (r: Result<Connection>)
      modifies this
      ensures old(Valid()) ==> Valid()
      ensures r.Ok? <==> OptionsValidate(options)
      ensures r.Err? ==> r.error == Validation && unchanged(this)
      ensures r.Ok? ==>
        && r.value == Connection(old(nextSerial)) && nextSerial == old(nextSerial) + 1
        && asyncConnections == old(asyncConnections)[id := r.value]
        && syncConnections == old(syncConnections) && redis == old(redis) && redisId == old(redisId)
    {
      if !OptionsValidate(options) {
        return Err(Validation);
      }
      var conn := Connection(nextSerial);
      nextSerial := nextSerial + 1;
      asyncConnections := asyncConnections[id := conn];
      r := Ok(conn);
    }

    /** `close_sync_redis`: removes the id when present; nothing else changes. */
    method CloseSyncRedis(id: string)
      modifies this
      ensures syncConnections == old(syncConnections) - {id}
      ensures asyncConnections == old(asyncConnections) && redis == old(redis)
      ensures redisId == old(redisId) && nextSerial == old(nextSerial)
      ensures old(Valid()) ==> Valid()
    {
      if id in syncConnections {
        syncConnections := syncConnections - {id};
      }
    }

    /** `close_async_redis`: removes the id when present; nothing else changes. */
    method CloseAsyncRedis(id: string)
      modifies this
      ensures asyncConnections == old(asyncConnections) - {id}
      ensures syncConnections == old(syncConnections) && redis == old(redis)
      ensures redisId == old(redisId) && nextSerial == old(nextSerial)
      ensures old(Valid()) ==> Valid()
    {
      if id in asyncConnections {
        asyncConnections := asyncConnections - {id};
      }
    }

    /**
     * `clear`: the synchronous connections are closed, then `gather` is handed the
     * uncalled `close` methods of the asynchronous ones, which it refuses with a
     * `TypeError` as soon as there is one; only without asynchronous connections are
     * both maps emptied.
     */
    method Clear() returns (r: Result<Unit>)
      modifies this
      ensures r.Err? <==> old(asyncConnections) != map[]
      ensures r.Err? ==> r.error == TypeError && unchanged(this)
      ensures r.Ok? ==>
        syncConnections == map[] && asyncConnections == map[] && redis == old(redis)
        && redisId == old(redisId) && nextSerial == old(nextSerial)
      ensures old(Valid()) ==> Valid()
    {
      if asyncConnections != map[] {
        return Err(TypeError);
      }
      syncConnections := map[];
      asyncConnections := map[];
      r := Ok(Unit);
    }
  }

  /**
   * Building a handler: with `auto_connection`, the given options (an empty dictionary
   * when they are not one) must validate before the default connection is opened.
   */
  method MakeRedisHandler(autoConnection: bool, redisId: Option<string>, redisOptions: Option<RedisOptions>,
                          generatedId: string) returns (r: Result<RedisHandler>)
    ensures r.Err? <==>
      autoConnection && redisOptions.Some? && redisOptions.value.DictOptions? && !redisOptions.value.accepted
    ensures r.Err? ==> r.error == Validation
    ensures r.Ok? ==> fresh(r.value) && r.value.Valid() && r.value.asyncConnections == map[]
    ensures r.Ok? && autoConnection ==>
      r.value.syncConnections.Keys == {DefaultId(redisId, generatedId)}
      && r.value.DefaultRedis() == Some((DefaultId(redisId, generatedId), Connection(0)))
    ensures r.Ok? && !autoConnection ==> r.value.syncConnections == map[] && r.value.DefaultRedis().None?
  {
    if autoConnection {
      var effective := if redisOptions.Some? && redisOptions.value.DictOptions? then redisOptions.value
                       else DictOptions(map[], true);
      if !OptionsValidate(effective) {
        return Err(Validation);
      }
    }
    var h := new RedisHandler(autoConnection, redisId, generatedId);
    r := Ok(h);
  }

  /**
   * Opening a synchronous connection under a new id and closing it again restores
   * the registry, and the id is in the lookup only in between.
   */
  method NewThenClose(h: RedisHandler, id: string, options: RedisOptions) returns (during: bool, after: bool)
    requires h.Valid() && OptionsValidate(options)
    requires id !in h.ConnectionsLookup()
    modifies h
    ensures during && !after
    ensures h.syncConnections == old(h.syncConnections) && h.asyncConnections == old(h.asyncConnections)
  {
    var r := h.NewSyncRedis(id, options);
    during := id in h.ConnectionsLookup();
    h.CloseSyncRedis(id);
    after := id in h.ConnectionsLookup();
  }

  /** With one asynchronous connection, `clear` leaves every connection in place. */
  method ClearFailsWithAsyncConnection(options: RedisOptions) returns (r: Result<Unit>, count: nat)
    requires OptionsValidate(options)
    ensures r == Err(TypeError) && count == 2
  {
    var h := new RedisHandler(true, Some("default"), "generated");
    var c := h.NewAsyncRedis("a", options);
    r := h.Clear();
    count := |h.ConnectionsLookup()|;
  }
}
