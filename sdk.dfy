/**
 * The object-storage SDK client (`Aws\S3\S3Client`), which the adapter only calls.
 *
 * The client is a recorder and an oracle: it appends every request it receives to `log`,
 * and answers from fixed oracle functions of the call's position in the log and of the
 * request. What the real service returns or throws is therefore left open, while what the
 * adapter sends, and in which order, is exactly observable.
 */
module Sdk {
  import opened Values

  /** One request as the adapter hands it to the client. */
  datatype Request =
    | CopyObject(params: Params)
    | DeleteObject(params: Params)
    | DeleteObjects(params: Params)
    | GetObject(params: Params)
    | HeadObject(params: Params)
    | PutObject(params: Params)
    | DoesObjectExist(bucket: string, key: string, options: Params)
    | DoesBucketExist(bucketName: string)

  class S3Client {
    /** Every request received so far, oldest first. */
    var log: seq<Request>

    /** The answer to the n-th request when it is an API call returning a result. */
    const respond: (nat, Request) -> Outcome<AwsResult>
    /** The answer to the n-th request when it is an object-existence check. */
    const objectExists: (nat, Request) -> Outcome<bool>
    /** Whether the service reports the bucket as existing. */
    const bucketExists: string -> bool

    constructor (respond: (nat, Request) -> Outcome<AwsResult>,
                 objectExists: (nat, Request) -> Outcome<bool>,
                 bucketExists: string -> bool)
      ensures log == []
      ensures this.respond == respond && this.objectExists == objectExists
      ensures this.bucketExists == bucketExists
    {
      log := [];
      this.respond := respond;
      this.objectExists := objectExists;
      this.bucketExists := bucketExists;
    }

    /** An API call (copy, delete, delete-many, get, head, put): record it and answer it. */
    method Call(req: Request) returns (r: Outcome<AwsResult>)
      modifies this
      ensures log == old(log) + [req]
      ensures r == respond(|old(log)|, req)
    {
      r := respond(|log|, req);
      log := log + [req];
    }

    /** `doesObjectExist(bucket, key, options)`. */
    method DoesObjectExistCall(bucket: string, key: string, options: Params) returns (r: Outcome<bool>)
      modifies this
      ensures log == old(log) + [DoesObjectExist(bucket, key, options)]
      ensures r == objectExists(|old(log)|, DoesObjectExist(bucket, key, options))
    {
      r := objectExists(|log|, DoesObjectExist(bucket, key, options));
      log := log + [DoesObjectExist(bucket, key, options)];
    }

    /** `doesBucketExist(bucket)`. */
    method DoesBucketExistCall(bucket: string) returns (b: bool)
      modifies this
      ensures log == old(log) + [DoesBucketExist(bucket)]
      ensures b == bucketExists(bucket)
    {
      b := bucketExists(bucket);
      log := log + [DoesBucketExist(bucket)];
    }
  }
}
