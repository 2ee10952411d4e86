/**
 * The S3 connection (src/Datasource/Connection.php): a validated configuration bound to
 * one SDK client. Construction checks the configuration and asks the service whether the
 * bucket exists; each operation normalises its key(s), merges the defaults into the
 * caller's options and hands exactly one request to the client, returning what the client
 * returns (an exception from the client is a `Failure` passed through unchanged).
 */
module Datasource {
  import opened Values
  import opened Requests
  import Sdk

  /** The connection's configuration array; every entry is a string. */
  type Config = map<string, string>

  /** The entries the constructor refuses to do without. */
  const RequiredFields: seq<string> := ["key", "secret", "region", "bucketName"]

  /** PHP's `empty($config[$field])` for a string entry: absent, "" or "0". */
  predicate IsEmptyEntry(config: Config, field: string) {
    field !in config || config[field] == "" || config[field] == "0"
  }

  predicate HasRequired(config: Config) {
    && !IsEmptyEntry(config, "key")
    && !IsEmptyEntry(config, "secret")
    && !IsEmptyEntry(config, "region")
    && !IsEmptyEntry(config, "bucketName")
  }

  /** A configuration that passed the constructor's checks. */
  type ValidConfig = c: Config | HasRequired(c)
    witness map["key" := "k", "secret" := "s", "region" := "r", "bucketName" := "b"]

  /** The two `InvalidArgumentException`s the constructor throws. */
  datatype ConfigError = MissingCredentials | BucketNotFound(bucket: string)

  /**
   * What construction decides: refuse when a required entry is PHP-empty; otherwise refuse
   * when the service does not know the bucket; otherwise keep the configuration as given.
   */
  function Validate(config: Config, bucketExists: string -> bool): (r: Result<ValidConfig, ConfigError>)
    ensures r == Err(MissingCredentials)
            <==> exists field :: field in RequiredFields && IsEmptyEntry(config, field)
    ensures r.Ok? <==> HasRequired(config) && bucketExists(config["bucketName"])
    ensures r.Ok? ==> r.value == config
    ensures r.Err? && r.error.BucketNotFound? ==> r.error.bucket == config["bucketName"]
  {
    if !HasRequired(config) then
      assert exists field :: field in RequiredFields && IsEmptyEntry(config, field) by {
        if IsEmptyEntry(config, "key") {
          assert RequiredFields[0] == "key";
        } else if IsEmptyEntry(config, "secret") {
          assert RequiredFields[1] == "secret";
        } else if IsEmptyEntry(config, "region") {
          assert RequiredFields[2] == "region";
        } else {
          assert RequiredFields[3] == "bucketName";
        }
      }
      Err(MissingCredentials)
    else if !bucketExists(config["bucketName"]) then
      Err(BucketNotFound(config["bucketName"]))
    else
      Ok(config)
  }

  /** An empty configuration is refused before the service is asked anything. */
  lemma ValidateEmptyConfig(bucketExists: string -> bool)
    ensures Validate(map[], bucketExists) == Err(MissingCredentials)
  {
  }

  /** The string "0" counts as missing, as PHP's `empty` has it. */
  lemma ValidateZeroIsMissing(config: Config, bucketExists: string -> bool)
    requires "secret" in config && config["secret"] == "0"
    ensures Validate(config, bucketExists) == Err(MissingCredentials)
  {
  }

  class Connection {
    /** `config()`: the configuration exactly as it was given to the constructor. */
    const config: ValidConfig
    const client: Sdk.S3Client

    /**
     * The last step of `Open`, taken only once the configuration has passed its checks and
     * the service has confirmed the bucket; the subset type `ValidConfig` records the first
     * of these.
     */
    constructor Init(config: ValidConfig, client: Sdk.S3Client)
      ensures this.config == config && this.client == client
    {
      this.config := config;
      this.client := client;
    }

    /**
     * `__construct`: no connection is made, and the client is not asked, when the
     * configuration lacks a required entry; otherwise the client is asked once whether the
     * bucket exists, and the connection is made only when it does.
     */
    static method Open(config: Config, client: Sdk.S3Client) returns (r: Result<Connection, ConfigError>)
      modifies client
      ensures r.Ok? <==> Validate(config, client.bucketExists).Ok?
      ensures r.Err? ==> r.error == Validate(config, client.bucketExists).error
      ensures r.Ok? ==> fresh(r.value) && r.value.config == config && r.value.client == client
      ensures HasRequired(config) ==> client.log == old(client.log) + [Sdk.DoesBucketExist(config["bucketName"])]
      ensures !HasRequired(config) ==> client.log == old(client.log)
    {
      if !HasRequired(config) {
        return Err(MissingCredentials);
      }
      var found := client.DoesBucketExistCall(config["bucketName"]);
      if !found {
        return Err(BucketNotFound(config["bucketName"]));
      }
      var c := new Connection.Init(config, client);
      r := Ok(c);
    }

    /** `configName()`: the `name` entry, or "" when it is PHP-empty. */
    function ConfigName(): (r: string)
      ensures IsEmptyEntry(config, "name") ==> r == ""
      ensures !IsEmptyEntry(config, "name") ==> r == config["name"]
      ensures r != "0"
    {
      if IsEmptyEntry(config, "name") then "" else config["name"]
    }

    function Bucket(): string {
      config["bucketName"]
    }

    // The request each operation sends, as a function of its arguments.

    function CopyObjectRequest(srcKey: string, destKey: string, options: Params): Sdk.Request {
      Sdk.CopyObject(CopyObjectParams(Bucket(), srcKey, destKey, options))
    }

    function DeleteObjectRequest(key: string, options: Params): Sdk.Request {
      Sdk.DeleteObject(DeleteObjectParams(Bucket(), key, options))
    }

    function DeleteObjectsRequest(keys: seq<string>, options: Params): Sdk.Request {
      Sdk.DeleteObjects(DeleteObjectsParams(Bucket(), keys, options))
    }

    function DoesObjectExistRequest(key: string, options: Params): Sdk.Request {
      Sdk.DoesObjectExist(Bucket(), NormalizeKey(key), options)
    }

    function GetObjectRequest(key: string, options: Params): Sdk.Request {
      Sdk.GetObject(GetObjectParams(Bucket(), key, options))
    }

    function HeadObjectRequest(key: string, options: Params): Sdk.Request {
      Sdk.HeadObject(HeadObjectParams(Bucket(), key, options))
    }

    function PutObjectRequest(key: string, content: Val, options: Params): Sdk.Request {
      Sdk.PutObject(PutObjectParams(Bucket(), key, content, options))
    }

    method CopyObject(srcKey: string, destKey: string, options: Params) returns (r: Outcome<AwsResult>)
      modifies client
      ensures client.log == old(client.log) + [CopyObjectRequest(srcKey, destKey, options)]
      ensures r == client.respond(|old(client.log)|, CopyObjectRequest(srcKey, destKey, options))
    {
      r := client.Call(CopyObjectRequest(srcKey, destKey, options));
    }

    method DeleteObject(key: string, options: Params) returns (r: Outcome<AwsResult>)
      modifies client
      ensures client.log == old(client.log) + [DeleteObjectRequest(key, options)]
      ensures r == client.respond(|old(client.log)|, DeleteObjectRequest(key, options))
    {
      r := client.Call(DeleteObjectRequest(key, options));
    }

    /**
     * The `foreach` of `deleteObjects`: every slot of the key list is rewritten in place,
     * from the key itself to its `['Key' => normalised key]` entry.
     */
    static method RewriteKeys(keys: seq<string>) returns (objects: seq<Val>)
      ensures objects == DeleteEntries(keys)
    {
      var slots := new Val[|keys|](i requires 0 <= i < |keys| => Str(keys[i]));
      for i := 0 to |keys|
        invariant forall j :: 0 <= j < i ==> slots[j] == KeyEntry(keys[j])
      {
        slots[i] := KeyEntry(keys[i]);
      }
      objects := slots[..];
      forall j | 0 <= j < |keys| ensures objects[j] == DeleteEntries(keys)[j] {
        DeleteEntriesAt(keys, j);
      }
    }

    method DeleteObjects(keys: seq<string>, options: Params) returns (r: Outcome<AwsResult>)
      modifies client
      ensures client.log == old(client.log) + [DeleteObjectsRequest(keys, options)]
      ensures r == client.respond(|old(client.log)|, DeleteObjectsRequest(keys, options))
    {
      var objects := RewriteKeys(keys);
      var merged := Merge(options, map["Bucket" := Str(Bucket()), "Delete" := Dict(map["Objects" := List(objects)])]);
      r := client.Call(Sdk.DeleteObjects(merged));
    }

    /** The bucket and the normalised key go positionally; the options go through untouched. */
    method DoesObjectExist(key: string, options: Params) returns (r: Outcome<bool>)
      modifies client
      ensures client.log == old(client.log) + [DoesObjectExistRequest(key, options)]
      ensures r == client.objectExists(|old(client.log)|, DoesObjectExistRequest(key, options))
    {
      r := client.DoesObjectExistCall(Bucket(), NormalizeKey(key), options);
    }

    method GetObject(key: string, options: Params) returns (r: Outcome<AwsResult>)
      modifies client
      ensures client.log == old(client.log) + [GetObjectRequest(key, options)]
      ensures r == client.respond(|old(client.log)|, GetObjectRequest(key, options))
    {
      r := client.Call(GetObjectRequest(key, options));
    }

    method HeadObject(key: string, options: Params) returns (r: Outcome<AwsResult>)
      modifies client
      ensures client.log == old(client.log) + [HeadObjectRequest(key, options)]
      ensures r == client.respond(|old(client.log)|, HeadObjectRequest(key, options))
    {
      r := client.Call(HeadObjectRequest(key, options));
    }

    method PutObject(key: string, content: Val, options: Params) returns (r: Outcome<AwsResult>)
      modifies client
      ensures client.log == old(client.log) + [PutObjectRequest(key, content, options)]
      ensures r == client.respond(|old(client.log)|, PutObjectRequest(key, content, options))
    {
      r := client.Call(PutObjectRequest(key, content, options));
    }
  }
}
