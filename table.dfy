/**
 * The table facade (src/Datasource/AwsS3Table.php): one connection, resolved from the
 * connection registry by the table's connection name when the table is built, and the
 * operations of that connection re-exposed unchanged, plus two compositions,
 * `getObjectBody` (get, then its `Body`) and `moveObject` (copy, then delete).
 *
 * The ghost `trace` records, in order, every call the facade makes on its connection,
 * with the arguments it passes.
 */
module Table {
  import opened Values
  import opened Requests
  import Sdk
  import opened Datasource

  /** The registry's exception for a name it has no configuration for. */
  datatype RegistryError = MissingDatasourceConfig(name: string)

  /**
   * The process-wide connection registry (`ConnectionManager`), reduced to the lookup the
   * table uses. Every lookup is recorded in `lookups`.
   */
  class ConnectionRegistry {
    const configured: map<string, Connection>
    var lookups: seq<string>

    constructor (configured: map<string, Connection>)
      ensures this.configured == configured && lookups == []
    {
      this.configured := configured;
      lookups := [];
    }

    /** `ConnectionManager::get($name)`. */
    method Get(name: string) returns (r: Result<Connection, RegistryError>)
      modifies this
      ensures lookups == old(lookups) + [name]
      ensures name in configured ==> r == Ok(configured[name])
      ensures name !in configured ==> r == Err(MissingDatasourceConfig(name))
    {
      lookups := lookups + [name];
      if name in configured {
        r := Ok(configured[name]);
      } else {
        r := Err(MissingDatasourceConfig(name));
      }
    }
  }

  /** The connection name of the base table class; a subclass redeclares it. */
  const BaseConnectionName: string := ""

  /** A call the facade makes on its connection, with the arguments it passes. */
  datatype Call =
    | CopyObjectCall(srcKey: string, destKey: string, options: Params)
    | DeleteObjectCall(key: string, options: Params)
    | DeleteObjectsCall(keys: seq<string>, options: Params)
    | DoesObjectExistCall(key: string, options: Params)
    | GetObjectCall(key: string, options: Params)
    | HeadObjectCall(key: string, options: Params)
    | PutObjectCall(key: string, content: Val, options: Params)

  class AwsS3Table {
    /** `static::$_connectionName`, fixed per table class. */
    const connectionName: string
    var connection: Connection?
    ghost var trace: seq<Call>

    ghost predicate Valid()
      reads this
    {
      connection != null
    }

    /**
     * The first half of `New`: a table with no connection yet, which is not `Valid()`.
     * Only `New` builds one, and it hands the table out only once `Initialize` has stored
     * a connection.
     */
    constructor Blank(connectionName: string)
      ensures this.connectionName == connectionName
      ensures connection == null && trace == []
    {
      this.connectionName := connectionName;
      connection := null;
      trace := [];
    }

    /**
     * `__construct`: the table resolves its connection at once, by asking the registry
     * exactly once for its connection name; construction fails with the registry's error
     * when the name is not configured.
     */
    static method New(connectionName: string, registry: ConnectionRegistry) returns (r: Result<AwsS3Table, RegistryError>)
      modifies registry
      ensures registry.lookups == old(registry.lookups) + [connectionName]
      ensures r.Ok? <==> connectionName in registry.configured
      ensures r.Ok? ==> && fresh(r.value) && r.value.Valid()
                        && r.value.DefaultConnectionName() == connectionName
                        && r.value.connection == registry.configured[connectionName]
                        && r.value.trace == []
      ensures r.Err? ==> r.error == MissingDatasourceConfig(connectionName)
    {
      var table := new AwsS3Table.Blank(connectionName);
      var failure := table.Initialize(registry);
      if failure.Some? {
        return Err(failure.value);
      }
      r := Ok(table);
    }

    /**
     * `defaultConnectionName()`: the registry name the table class is bound to, the one
     * `New` and `Initialize` look up.
     */
    function DefaultConnectionName(): string {
      connectionName
    }

    /**
     * `connection($conn)`: with no argument, the stored connection, unchanged; with a
     * connection, that connection, now stored.
     */
    method Connection(conn: Option<Connection>) returns (c: Connection?)
      modifies this
      ensures conn.None? ==> c == old(connection) && connection == old(connection)
      ensures conn.Some? ==> c == conn.value && connection == conn.value
      ensures trace == old(trace)
    {
      if conn.None? {
        return connection;
      }
      connection := conn.value;
      c := connection;
    }

    /** `initialize`: one registry lookup by the table's connection name, stored on success. */
    method Initialize(registry: ConnectionRegistry) returns (failure: Option<RegistryError>)
      modifies this, registry
      ensures registry.lookups == old(registry.lookups) + [connectionName]
      ensures connectionName in registry.configured ==>
                failure == None && connection == registry.configured[connectionName]
      ensures connectionName !in registry.configured ==>
                failure == Some(MissingDatasourceConfig(connectionName)) && connection == old(connection)
      ensures trace == old(trace)
    {
      var got := registry.Get(connectionName);
      if got.Err? {
        return Some(got.error);
      }
      var _ := Connection(Some(got.value));
      failure := None;
    }

    method CopyObject(srcKey: string, destKey: string, options: Params) returns (r: Outcome<AwsResult>)
      requires Valid()
      modifies this, connection.client
      ensures Valid() && connection == old(connection)
      ensures trace == old(trace) + [CopyObjectCall(srcKey, destKey, options)]
      ensures connection.client.log
           == old(connection.client.log) + [connection.CopyObjectRequest(srcKey, destKey, options)]
      ensures r == connection.client.respond(|old(connection.client.log)|,
                                             connection.CopyObjectRequest(srcKey, destKey, options))
    {
      trace := trace + [CopyObjectCall(srcKey, destKey, options)];
      r := connection.CopyObject(srcKey, destKey, options);
    }

    method DeleteObject(key: string, options: Params) returns (r: Outcome<AwsResult>)
      requires Valid()
      modifies this, connection.client
      ensures Valid() && connection == old(connection)
      ensures trace == old(trace) + [DeleteObjectCall(key, options)]
      ensures connection.client.log
           == old(connection.client.log) + [connection.DeleteObjectRequest(key, options)]
      ensures r == connection.client.respond(|old(connection.client.log)|,
                                             connection.DeleteObjectRequest(key, options))
    {
      trace := trace + [DeleteObjectCall(key, options)];
      r := connection.DeleteObject(key, options);
    }

    method DeleteObjects(keys: seq<string>, options: Params) returns (r: Outcome<AwsResult>)
      requires Valid()
      modifies this, connection.client
      ensures Valid() && connection == old(connection)
      ensures trace == old(trace) + [DeleteObjectsCall(keys, options)]
      ensures connection.client.log
           == old(connection.client.log) + [connection.DeleteObjectsRequest(keys, options)]
      ensures r == connection.client.respond(|old(connection.client.log)|,
                                             connection.DeleteObjectsRequest(keys, options))
    {
      trace := trace + [DeleteObjectsCall(keys, options)];
      r := connection.DeleteObjects(keys, options);
    }

    method DoesObjectExist(key: string, options: Params) returns (r: Outcome<bool>)
      requires Valid()
      modifies this, connection.client
      ensures Valid() && connection == old(connection)
      ensures trace == old(trace) + [DoesObjectExistCall(key, options)]
      ensures connection.client.log
           == old(connection.client.log) + [connection.DoesObjectExistRequest(key, options)]
      ensures r == connection.client.objectExists(|old(connection.client.log)|,
                                                  connection.DoesObjectExistRequest(key, options))
    {
      trace := trace + [DoesObjectExistCall(key, options)];
      r := connection.DoesObjectExist(key, options);
    }

    method GetObject(key: string, options: Params) returns (r: Outcome<AwsResult>)
      requires Valid()
      modifies this, connection.client
      ensures Valid() && connection == old(connection)
      ensures trace == old(trace) + [GetObjectCall(key, options)]
      ensures connection.client.log
           == old(connection.client.log) + [connection.GetObjectRequest(key, options)]
      ensures r == connection.client.respond(|old(connection.client.log)|,
                                             connection.GetObjectRequest(key, options))
    {
      trace := trace + [GetObjectCall(key, options)];
      r := connection.GetObject(key, options);
    }

    method HeadObject(key: string, options: Params) returns (r: Outcome<AwsResult>)
      requires Valid()
      modifies this, connection.client
      ensures Valid() && connection == old(connection)
      ensures trace == old(trace) + [HeadObjectCall(key, options)]
      ensures connection.client.log
           == old(connection.client.log) + [connection.HeadObjectRequest(key, options)]
      ensures r == connection.client.respond(|old(connection.client.log)|,
                                             connection.HeadObjectRequest(key, options))
    {
      trace := trace + [HeadObjectCall(key, options)];
      r := connection.HeadObject(key, options);
    }

    method PutObject(key: string, content: Val, options: Params) returns (r: Outcome<AwsResult>)
      requires Valid()
      modifies this, connection.client
      ensures Valid() && connection == old(connection)
      ensures trace == old(trace) + [PutObjectCall(key, content, options)]
      ensures connection.client.log
           == old(connection.client.log) + [connection.PutObjectRequest(key, content, options)]
      ensures r == connection.client.respond(|old(connection.client.log)|,
                                             connection.PutObjectRequest(key, content, options))
    {
      trace := trace + [PutObjectCall(key, content, options)];
      r := connection.PutObject(key, content, options);
    }

    /**
     * `getObjectBody`: one `getObject` with the same arguments; its failure passes through,
     * otherwise the result's `Body` field (null when the result has none).
     */
    method GetObjectBody(key: string, options: Params) returns (r: Outcome<Val>)
      requires Valid()
      modifies this, connection.client
      ensures Valid() && connection == old(connection)
      ensures trace == old(trace) + [GetObjectCall(key, options)]
      ensures connection.client.log
           == old(connection.client.log) + [connection.GetObjectRequest(key, options)]
      ensures var got := connection.client.respond(|old(connection.client.log)|,
                                                   connection.GetObjectRequest(key, options));
              && (got.Success? ==> r == Success(ResultGet(got.value, "Body")))
              && (got.Failure? ==> r == Failure(got.error))
    {
      var got := GetObject(key, options);
      if got.Failure? {
        return Failure(got.error);
      }
      r := Success(ResultGet(got.value, "Body"));
    }

    /**
     * `moveObject`: a copy with the caller's arguments, then, only if the copy returned, a
     * delete of the source key with empty options. The copy's result is returned; a failing
     * copy or a failing delete surfaces its own error, and a failing delete does not undo
     * the copy.
     */
    method MoveObject(srcKey: string, destKey: string, options: Params) returns (r: Outcome<AwsResult>)
      requires Valid()
      modifies this, connection.client
      ensures Valid() && connection == old(connection)
      ensures var n := |old(connection.client.log)|;
              var copyReq := connection.CopyObjectRequest(srcKey, destKey, options);
              var deleteReq := connection.DeleteObjectRequest(srcKey, map[]);
              var copied := connection.client.respond(n, copyReq);
              var deleted := connection.client.respond(n + 1, deleteReq);
              if copied.Failure? then
                && r == copied
                && trace == old(trace) + [CopyObjectCall(srcKey, destKey, options)]
                && connection.client.log == old(connection.client.log) + [copyReq]
              else
                && r == (if deleted.Failure? then deleted else copied)
                && trace == old(trace) + [CopyObjectCall(srcKey, destKey, options), DeleteObjectCall(srcKey, map[])]
                && connection.client.log == old(connection.client.log) + [copyReq, deleteReq]
    {
      r := CopyObject(srcKey, destKey, options);
      if r.Failure? {
        return;
      }
      var deleted := DeleteObject(srcKey, map[]);
      if deleted.Failure? {
        r := deleted;
      }
    }
  }

  /**
   * The two requests of a move name the same object: the delete's key is the key the copy
   * read from (when the caller did not override CopySource), and the delete carries only
   * the bucket and that key, whatever options the move was given.
   */
  lemma MoveDeletesTheCopySource(bucket: string, srcKey: string, destKey: string, options: Params)
    requires "CopySource" !in options
    ensures DeleteObjectParams(bucket, srcKey, map[]) == map["Bucket" := Str(bucket), "Key" := Str(NormalizeKey(srcKey))]
    ensures CopyObjectParams(bucket, srcKey, destKey, options)["CopySource"]
         == Str(bucket + "/" + DeleteObjectParams(bucket, srcKey, map[])["Key"].s)
  {
  }
}
