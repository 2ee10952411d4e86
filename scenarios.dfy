/**
 * The request maps the repository's test suite expects, derived from the model, and the
 * facade's call sequences replayed against a recording client.
 */
module Scenarios {
  import opened Values
  import opened Requests
  import Sdk
  import opened Datasource
  import opened Table

  const Bucket: string := "test-bucket"

  /** A copy with both keys slashed: the four defaults, slashes stripped. */
  lemma CopyObjectVector()
    ensures CopyObjectParams(Bucket, "/test-src-key", "/test-dest-key", map[]) == map[
      "Bucket" := Str("test-bucket"),
      "Key" := Str("test-dest-key"),
      "CopySource" := Str("test-bucket/test-src-key"),
      "ACL" := Str("public-read")
    ]
  {
    NormalizeUndoesSlash("test-src-key");
    NormalizeUndoesSlash("test-dest-key");
    assert Bucket + "/" + "test-src-key" == "test-bucket/test-src-key";
    CopyObjectNoOptions(Bucket, "/test-src-key", "/test-dest-key");
  }

  /**
   * A copy whose options override the ACL and add an option of their own: the caller's two
   * options, plus the bucket and the two keys stripped of their slash.
   */
  lemma CopyObjectOverrideVector(bucket: string, srcKey: string, destKey: string, acl: Val, extra: Val)
    requires !StartsWithSlash(srcKey) && !StartsWithSlash(destKey)
    ensures CopyObjectParams(bucket, "/" + srcKey, "/" + destKey,
                             map["ACL" := acl, "overwrote-options" := extra]) == map[
      "Bucket" := Str(bucket),
      "Key" := Str(destKey),
      "CopySource" := Str(bucket + "/" + srcKey),
      "ACL" := acl,
      "overwrote-options" := extra
    ]
  {
    NormalizeUndoesSlash(srcKey);
    NormalizeUndoesSlash(destKey);
  }


  lemma DeleteObjectVector()
    ensures DeleteObjectParams(Bucket, "/test-key", map["overwrote-options" := Bool(true)]) == map[
      "Bucket" := Str("test-bucket"),
      "Key" := Str("test-key"),
      "overwrote-options" := Bool(true)
    ]
  {
  }

  /**
   * The delete of `testMoveObject` names exactly the object its copy read: the bucket and
   * the source key, slash stripped, and nothing else.
   */
  lemma MoveObjectVector()
    ensures CopyObjectParams(Bucket, "/test-src-key", "/test-dest-key", map[])["CopySource"]
         == Str("test-bucket/test-src-key")
    ensures DeleteObjectParams(Bucket, "/test-src-key", map[]) == map[
      "Bucket" := Str("test-bucket"),
      "Key" := Str("test-src-key")
    ]
  {
    CopyObjectVector();
    NormalizeUndoesSlash("test-src-key");
  }

  /** Three slashed keys become three `['Key' => ...]` entries, in order. */
  lemma DeleteObjectsVector()
    ensures DeleteObjectsParams(Bucket, ["/test-key1", "/test-key2", "/test-key3"], map[]) == map[
      "Bucket" := Str("test-bucket"),
      "Delete" := Dict(map["Objects" := List([
        Dict(map["Key" := Str("test-key1")]),
        Dict(map["Key" := Str("test-key2")]),
        Dict(map["Key" := Str("test-key3")])
      ])])
    ]
  {
    var keys := ["/test-key1", "/test-key2", "/test-key3"];
    NormalizeUndoesSlash("test-key1");
    NormalizeUndoesSlash("test-key2");
    NormalizeUndoesSlash("test-key3");
    DeleteEntriesAt(keys, 0);
    DeleteEntriesAt(keys, 1);
    DeleteEntriesAt(keys, 2);
    assert DeleteEntries(keys) == [KeyEntry(keys[0]), KeyEntry(keys[1]), KeyEntry(keys[2])];
  }

  /** `'test-key'` and `'/test-key'` give the same get request. */
  lemma GetObjectVector()
    ensures GetObjectParams(Bucket, "test-key", map[]) == map[
      "Bucket" := Str("test-bucket"),
      "Key" := Str("test-key"),
      "ACL" := Str("public-read")
    ]
    ensures GetObjectParams(Bucket, "/test-key", map[]) == GetObjectParams(Bucket, "test-key", map[])
  {
  }

  lemma HeadObjectVector()
    ensures HeadObjectParams(Bucket, "/test-key", map[]) == map[
      "Bucket" := Str("test-bucket"),
      "Key" := Str("test-key")
    ]
  {
  }

  lemma PutObjectVector()
    ensures PutObjectParams(Bucket, "/test-key", Str("test-body"), map["overwrote-options" := Bool(true)]) == map[
      "Bucket" := Str("test-bucket"),
      "Key" := Str("test-key"),
      "Body" := Str("test-body"),
      "ACL" := Str("public-read"),
      "overwrote-options" := Bool(true)
    ]
  {
  }

  /** The configuration of `__getConnectionInstance`. */
  function TestConfig(): Config {
    map["key" := "test-key", "secret" := "test-secret", "region" := "test-region", "bucketName" := "test-bucket"]
  }

  /** The options every call of the forwarding test passes. */
  function TestOptions(): Params {
    map["option" := Bool(true)]
  }

  /**
   * A recording client that answers every request with `respond`, confirms every existence
   * check and knows every bucket.
   */
  method RecordingClient(respond: (nat, Sdk.Request) -> Outcome<AwsResult>) returns (client: Sdk.S3Client)
    ensures fresh(client) && client.log == []
    ensures client.respond == respond
    ensures forall b :: client.bucketExists(b)
  {
    client := new Sdk.S3Client(respond, (n: nat, req: Sdk.Request) => Success(true), (b: string) => true);
  }

  /** A connection made by `Open` from the test configuration over a recording client. */
  method TestConnection(respond: (nat, Sdk.Request) -> Outcome<AwsResult>) returns (conn: Connection)
    ensures fresh(conn) && fresh(conn.client)
    ensures conn.config == TestConfig() && conn.client.respond == respond
    ensures conn.client.log == [Sdk.DoesBucketExist(Bucket)]
  {
    var client := RecordingClient(respond);
    assert HasRequired(TestConfig());
    var made := Connection.Open(TestConfig(), client);
    conn := made.value;
  }

  /** A table of the base class, built by `New` from a registry that holds `conn` under its name. */
  method TestTable(conn: Connection) returns (table: AwsS3Table, lookups: seq<string>)
    ensures fresh(table) && table.Valid() && table.connection == conn && table.trace == []
    ensures lookups == [BaseConnectionName]
  {
    var registry := new ConnectionRegistry(map[BaseConnectionName := conn]);
    var built := AwsS3Table.New(BaseConnectionName, registry);
    table := built.value;
    lookups := registry.lookups;
  }

  /**
   * `testConnectionApi`: building the table asks the registry once, and each of the seven
   * forwarders makes exactly one call on the connection with the test's raw arguments,
   * which becomes exactly that operation's request.
   */
  method ForwardingScenario() returns (requests: seq<Sdk.Request>, lookups: seq<string>, ghost calls: seq<Call>)
    ensures lookups == [BaseConnectionName]
    // `[] +` keeps the shape of the callee's `old(trace) + [...]`, which the proof matches.
    ensures calls == []
      + [CopyObjectCall("/test-src-key", "/test-dest-key", TestOptions())]
      + [DeleteObjectCall("/test-key", TestOptions())]
      + [DeleteObjectsCall(["/test-key1", "/test-key2", "/test-key3"], TestOptions())]
      + [DoesObjectExistCall("/test-key", TestOptions())]
      + [GetObjectCall("/test-key", TestOptions())]
      + [HeadObjectCall("/test-key", TestOptions())]
      + [PutObjectCall("/test-key", Str("test-content"), TestOptions())]
    ensures requests == [Sdk.DoesBucketExist(Bucket)]
      + [Sdk.CopyObject(CopyObjectParams(Bucket, "/test-src-key", "/test-dest-key", TestOptions()))]
      + [Sdk.DeleteObject(DeleteObjectParams(Bucket, "/test-key", TestOptions()))]
      + [Sdk.DeleteObjects(DeleteObjectsParams(Bucket, ["/test-key1", "/test-key2", "/test-key3"], TestOptions()))]
      + [Sdk.DoesObjectExist(Bucket, "test-key", TestOptions())]
      + [Sdk.GetObject(GetObjectParams(Bucket, "/test-key", TestOptions()))]
      + [Sdk.HeadObject(HeadObjectParams(Bucket, "/test-key", TestOptions()))]
      + [Sdk.PutObject(PutObjectParams(Bucket, "/test-key", Str("test-content"), TestOptions()))]
  {
    var conn := TestConnection((n: nat, req: Sdk.Request) => Success(map[]));
    var table;
    table, lookups := TestTable(conn);
    assert conn.Bucket() == Bucket;
    CallEveryForwarder(table);
    NormalizeUndoesSlash("test-key");
    requests := conn.client.log;
    calls := table.trace;
  }

  /** The seven calls of the forwarding test, in its order, with its arguments. */
  method CallEveryForwarder(table: AwsS3Table)
    requires table.Valid()
    modifies table, table.connection.client
    ensures table.Valid() && table.connection == old(table.connection)
    ensures table.trace == old(table.trace)
      + [CopyObjectCall("/test-src-key", "/test-dest-key", TestOptions())]
      + [DeleteObjectCall("/test-key", TestOptions())]
      + [DeleteObjectsCall(["/test-key1", "/test-key2", "/test-key3"], TestOptions())]
      + [DoesObjectExistCall("/test-key", TestOptions())]
      + [GetObjectCall("/test-key", TestOptions())]
      + [HeadObjectCall("/test-key", TestOptions())]
      + [PutObjectCall("/test-key", Str("test-content"), TestOptions())]
    ensures var c := table.connection;
            c.client.log == old(c.client.log)
              + [c.CopyObjectRequest("/test-src-key", "/test-dest-key", TestOptions())]
              + [c.DeleteObjectRequest("/test-key", TestOptions())]
              + [c.DeleteObjectsRequest(["/test-key1", "/test-key2", "/test-key3"], TestOptions())]
              + [c.DoesObjectExistRequest("/test-key", TestOptions())]
              + [c.GetObjectRequest("/test-key", TestOptions())]
              + [c.HeadObjectRequest("/test-key", TestOptions())]
              + [c.PutObjectRequest("/test-key", Str("test-content"), TestOptions())]
  {
    var options := TestOptions();
    var c := table.connection;
    var keys := ["/test-key1", "/test-key2", "/test-key3"];
    var _ := table.CopyObject("/test-src-key", "/test-dest-key", options);
    var _ := table.DeleteObject("/test-key", options);
    var _ := table.DeleteObjects(keys, options);
    var _ := table.DoesObjectExist("/test-key", options);
    var _ := table.GetObject("/test-key", options);
    var _ := table.HeadObject("/test-key", options);
    var _ := table.PutObject("/test-key", Str("test-content"), options);
  }

  /**
   * `testGetObjectBody`: one get with the caller's key and empty options, and the `Body` of
   * its result as the answer.
   */
  method GetObjectBodyScenario() returns (got: Outcome<Val>, requests: seq<Sdk.Request>, lookups: seq<string>,
                                          ghost calls: seq<Call>)
    ensures lookups == [BaseConnectionName]
    ensures got == Success(Resource(7))
    // `[] +` keeps the shape of the callee's `old(trace) + [...]`, which the proof matches.
    ensures calls == [] + [GetObjectCall("/test-key", map[])]
    ensures requests == [Sdk.DoesBucketExist(Bucket)] + [Sdk.GetObject(GetObjectParams(Bucket, "/test-key", map[]))]
  {
    var conn := TestConnection((n: nat, req: Sdk.Request) => Success(map["Body" := Resource(7)]));
    var table;
    table, lookups := TestTable(conn);
    got := table.GetObjectBody("/test-key", map[]);
    requests := conn.client.log;
    calls := table.trace;
  }

  /**
   * `testMoveObject`: a copy with the caller's keys and empty options, then a delete of the
   * source with empty options, which names the object the copy read. Every answer carries
   * its position in the client's log, so the result is seen to be the copy's (position 1,
   * after the bucket check) and not the delete's (position 2).
   */
  method MoveObjectScenario() returns (moved: Outcome<AwsResult>, requests: seq<Sdk.Request>, lookups: seq<string>,
                                       ghost calls: seq<Call>)
    ensures lookups == [BaseConnectionName]
    ensures moved == Success(map["n" := Int(1)])
    // `[] +` keeps the shape of the callee's `old(trace) + [...]`, which the proof matches.
    ensures calls == [] + [CopyObjectCall("/test-src-key", "/test-dest-key", map[]), DeleteObjectCall("/test-src-key", map[])]
    ensures requests == [Sdk.DoesBucketExist(Bucket)] + [
      Sdk.CopyObject(CopyObjectParams(Bucket, "/test-src-key", "/test-dest-key", map[])),
      Sdk.DeleteObject(DeleteObjectParams(Bucket, "/test-src-key", map[]))
    ]
  {
    var conn := TestConnection((n: nat, req: Sdk.Request) => Success(map["n" := Int(n)]));
    var table;
    table, lookups := TestTable(conn);
    ghost var copyReq := conn.CopyObjectRequest("/test-src-key", "/test-dest-key", map[]);
    assert conn.client.respond(|conn.client.log|, copyReq) == Success(map["n" := Int(1)]);
    moved := table.MoveObject("/test-src-key", "/test-dest-key", map[]);
    requests := conn.client.log;
    calls := table.trace;
  }

  /**
   * A move whose copy is refused, a case the repository's tests do not cover: the copy's
   * error is the answer and no delete is issued.
   */
  method FailedCopyScenario() returns (moved: Outcome<AwsResult>, requests: seq<Sdk.Request>, ghost calls: seq<Call>)
    ensures moved == Failure(Str("denied"))
    // `[] +` keeps the shape of the callee's `old(trace) + [...]`, which the proof matches.
    ensures calls == [] + [CopyObjectCall("/test-src-key", "/test-dest-key", map["ACL" := Str("private")])]
    ensures requests == [Sdk.DoesBucketExist(Bucket)]
      + [Sdk.CopyObject(CopyObjectParams(Bucket, "/test-src-key", "/test-dest-key", map["ACL" := Str("private")]))]
  {
    var conn := TestConnection((n: nat, req: Sdk.Request) =>
                                 if req.CopyObject? then Failure(Str("denied")) else Success(map[]));
    var table, _ := TestTable(conn);
    moved := table.MoveObject("/test-src-key", "/test-dest-key", map["ACL" := Str("private")]);
    requests := conn.client.log;
    calls := table.trace;
  }

  /**
   * `testNewInstanceMissingArguments`: an empty configuration is refused for missing
   * credentials, before the client is asked anything.
   */
  method MissingCredentialsScenario() returns (made: Result<Connection, ConfigError>, requests: seq<Sdk.Request>)
    ensures made == Err(MissingCredentials)
    ensures requests == []
  {
    var client := RecordingClient((n: nat, req: Sdk.Request) => Success(map[]));
    made := Connection.Open(map[], client);
    ValidateEmptyConfig(client.bucketExists);
    requests := client.log;
  }
}
