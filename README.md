# S3 datasource adapter for CakePHP, modelled in Dafny

The repository adapts an S3 bucket to CakePHP's datasource layer. It has two parts.

- **`Connection`** holds a validated configuration (`key`, `secret`, `region`, `bucketName`,
  optional `name`) and an SDK client. Each object operation (copy, delete, delete-many,
  existence check, get, head, put) strips one leading `/` from its key or keys and hands
  exactly one request to the client. Copy, delete, delete-many, get, head and put merge the
  adapter's defaults (`Bucket`, `Key`, `CopySource`, `ACL`, `Body`, `Delete.Objects`) into the
  caller's options, with the caller's options winning. The existence check instead passes the
  bucket and the normalised key as separate arguments and leaves the caller's options
  untouched.
- **`AwsS3Table`** is a facade. It resolves one connection from the connection registry by the
  table's connection name, and forwards every operation to that connection unchanged. It adds
  two compositions: `getObjectBody` (a get, then its `Body` field) and `moveObject` (a copy, then
  a delete of the source with empty options).

The files:

- `values.dfy` (module `Values`): PHP values (`Val`), option maps (`Params`), SDK results, and
  `Outcome`, which stands for "returned a value or threw".
- `requests.dfy` (module `Requests`): the pure request shaping. It holds key normalisation,
  the left-biased merge that PHP's `+=` performs on arrays, the parameter map of each operation
  and the `Delete.Objects` list. The lemmas about them are here too.
- `sdk.dfy` (module `Sdk`): the SDK client as a recorder and oracle. Every request it receives
  is appended to `log`. Its answers come from fixed oracle functions of the call's position
  and of the request.
- `connection.dfy` (module `Datasource`): configuration validation and the `Connection` class.
  The PHP constructor can throw, so it becomes the factory `Connection.Open`, which returns a
  `Result`. Each operation method appends exactly the request given by a function of its
  arguments to the client's log.
- `table.dfy` (module `Table`): the registry as a recorder of lookups, and the `AwsS3Table`
  class. The class keeps a ghost `trace` of the calls it makes on its connection.
- `scenarios.dfy` (module `Scenarios`): the request maps that the repository's tests expect,
  derived from the model, and the repository's facade and construction tests replayed against
  a recording client, each with its observed requests and results stated in its contract:
  `ForwardingScenario` follows `testConnectionApi` (tests/TestCase/Datasource/AwsS3TableTest.php:27-68),
  `GetObjectBodyScenario` follows `testGetObjectBody` (AwsS3TableTest.php:73-107),
  `MoveObjectScenario` follows `testMoveObject` (AwsS3TableTest.php:112-132) and
  `MissingCredentialsScenario` follows `testNewInstanceMissingArguments`
  (tests/TestCase/Datasource/ConnectionTest.php:73-79). `FailedCopyScenario` covers a case the
  repository's tests do not: a move whose copy is refused. Every scenario that needs a
  connection or a table builds it with `Connection.Open` or `AwsS3Table.New`.

Two behaviours of the code worth stating plainly:

- `getObjectBody` returns `$result->get('Body')` (src/Datasource/AwsS3Table.php:195). A result
  without `Body` gives null, and there is no missing-field error.
- The table resolves its connection in its constructor (src/Datasource/AwsS3Table.php:35-38,
  63-66), not on first use.

## Model

| member | source | states |
|---|---|---|
| `Requests.NormalizeKey` | src/Datasource/Connection.php:118-125 | a key that starts with `/` is `"/"` + result; any other key, the empty key included, comes back unchanged |
| `Requests.NormalizeUndoesSlash` | src/Datasource/Connection.php:118-125 | normalising `"/" + k` gives `k` for every key `k` |
| `Requests.SlashedTwinIff` | tests/TestCase/Datasource/ConnectionTest.php:273-287 | `"/" + k` and `k` normalise to the same key exactly when `k` has no leading slash |
| `Requests.NormalizeTwiceIff` | src/Datasource/Connection.php:118-125 | normalising twice equals normalising once exactly when the key does not start with `//` |
| `Requests.NormalizeIsNotIdempotent` | src/Datasource/Connection.php:118-125 | `//k` normalises to `/k`, and a second pass gives `k` |
| `Requests.Merge` | src/Datasource/Connection.php:144-149 | left-biased union: every caller option is kept with its value; a default is added only under a name the caller left out; no other names appear |
| `Requests.MergeNoOptions` | src/Datasource/Connection.php:144-149 | with empty options the merged request is exactly the defaults |
| `Requests.MergeOverride` | tests/TestCase/Datasource/ConnectionTest.php:103-125 | setting one option changes the merged request at that name only, whether or not the name has a default |
| `Requests.MergeIdempotent` | src/Datasource/Connection.php:144-149 | merging the same defaults a second time changes nothing |
| `Requests.CopyObjectParams` | src/Datasource/Connection.php:139-151 | copy request: caller options kept; exactly Bucket, Key = normalised destination, CopySource = bucket + "/" + normalised source, and ACL = "public-read" are added where absent |
| `Requests.DeleteObjectParams` | src/Datasource/Connection.php:165-175 | delete request: caller options kept; only Bucket and normalised Key are added, so no ACL appears unless the caller passed one |
| `Requests.DeleteEntries` | src/Datasource/Connection.php:190-194 | the Delete.Objects list has as many entries as there are keys |
| `Requests.DeleteEntriesAt` | src/Datasource/Connection.php:190-194 | entry `i` of Delete.Objects is `{Key: normalised key i}` |
| `Requests.DeleteEntriesAppend` | src/Datasource/Connection.php:190-194 | the list for `a + b` is the list for `a` followed by the list for `b`, so input order is preserved |
| `Requests.DeleteObjectsParams` | src/Datasource/Connection.php:196-203 | delete-many request: caller options kept; Bucket is added where absent; without a caller `Delete`, Delete is `{Objects: entries}`; a caller `Delete` replaces the whole structure |
| `Requests.DeleteObjectsEntry` | src/Datasource/Connection.php:188-203 | without a caller `Delete`, entry `i` of the request's Delete.Objects names normalised key `i` |
| `Requests.GetObjectParams` | src/Datasource/Connection.php:239-250 | get request: caller options kept; Bucket, normalised Key and ACL = "public-read" are added where absent |
| `Requests.HeadObjectParams` | src/Datasource/Connection.php:263-273 | head request: caller options kept; only Bucket and normalised Key are added |
| `Requests.PutObjectParams` | src/Datasource/Connection.php:287-299 | put request: caller options kept; Bucket, normalised Key, ACL = "public-read" and Body = content are added where absent |
| `Requests.CopyObjectNoOptions` | tests/TestCase/Datasource/ConnectionTest.php:84-98 | with no options a copy request is exactly the four defaults |
| `Requests.CopyObjectAclOverride` | tests/TestCase/Datasource/ConnectionTest.php:103-125 | a caller ACL replaces the default ACL, and every other default stays as it was |
| `Requests.CopyObjectIgnoresOneSlash` | src/Datasource/Connection.php:141-142 | slashed and unslashed source and destination keys give the same copy request |
| `Datasource.Validate` | src/Datasource/Connection.php:27-47 | refused with the missing-credentials error exactly when one of key, secret, region and bucketName is absent, "" or "0"; accepted exactly when all are present and the bucket exists; an accepted configuration is returned unchanged |
| `Datasource.ValidateEmptyConfig` | tests/TestCase/Datasource/ConnectionTest.php:73-79 | an empty configuration is refused for missing credentials |
| `Datasource.ValidateZeroIsMissing` | src/Datasource/Connection.php:27-31 | a secret of "0" counts as missing |
| `Datasource.Connection.Open` | src/Datasource/Connection.php:25-48 | the connection is made exactly when validation accepts; the client is not called when a required entry is missing, and is asked once about the bucket otherwise; `config` is the given configuration |
| `Datasource.Connection.Init` | src/Datasource/Connection.php:69-72 | a connection keeps the configuration and the client it was made with |
| `Datasource.Connection.ConfigName` | src/Datasource/Connection.php:55-62 | "" when `name` is absent, "" or "0"; otherwise the `name` entry; never "0" |
| `Datasource.Connection.CopyObject` | src/Datasource/Connection.php:139-152 | appends exactly the copy request built from the bucket and the raw arguments to the client log, and returns the client's answer |
| `Datasource.Connection.DeleteObject` | src/Datasource/Connection.php:165-175 | appends exactly the delete request to the log and returns the client's answer |
| `Datasource.Connection.RewriteKeys` | src/Datasource/Connection.php:190-194 | the in-place rewrite of the key list yields exactly the Delete.Objects list |
| `Datasource.Connection.DeleteObjects` | src/Datasource/Connection.php:188-204 | appends exactly the delete-many request to the log and returns the client's answer |
| `Datasource.Connection.DoesObjectExist` | src/Datasource/Connection.php:217-226 | sends the bucket, the normalised key and the caller's options untouched, and returns the client's boolean answer |
| `Datasource.Connection.GetObject` | src/Datasource/Connection.php:239-250 | appends exactly the get request to the log and returns the client's answer |
| `Datasource.Connection.HeadObject` | src/Datasource/Connection.php:263-273 | appends exactly the head request to the log and returns the client's answer |
| `Datasource.Connection.PutObject` | src/Datasource/Connection.php:287-299 | appends exactly the put request to the log and returns the client's answer |
| `Table.ConnectionRegistry.Get` | src/Datasource/AwsS3Table.php:65 | records the lookup; returns the connection configured under the name, or the missing-configuration error |
| `Table.AwsS3Table.New` | src/Datasource/AwsS3Table.php:25-38 | the registry is asked exactly once, for the table's connection name, which the new table reports as its `DefaultConnectionName()`; the table holds that connection and has made no calls yet; an unknown name fails construction |
| `Table.AwsS3Table.Connection` | src/Datasource/AwsS3Table.php:47-54 | with no argument, returns the stored connection and leaves it unchanged; with a connection, stores it and returns it |
| `Table.AwsS3Table.Initialize` | src/Datasource/AwsS3Table.php:63-66 | one registry lookup by the table's connection name; on success the result is stored; on failure the stored connection is unchanged |
| `Table.AwsS3Table.CopyObject` | src/Datasource/AwsS3Table.php:80-83 | one call on the stored connection with the arguments unchanged (not normalised here); the client receives the connection's copy request for those raw arguments; its answer is returned |
| `Table.AwsS3Table.DeleteObject` | src/Datasource/AwsS3Table.php:96-99 | forwards unchanged to the connection's delete and returns its answer |
| `Table.AwsS3Table.DeleteObjects` | src/Datasource/AwsS3Table.php:112-115 | forwards unchanged to the connection's delete-many and returns its answer |
| `Table.AwsS3Table.DoesObjectExist` | src/Datasource/AwsS3Table.php:128-131 | forwards unchanged to the connection's existence check and returns its answer |
| `Table.AwsS3Table.GetObject` | src/Datasource/AwsS3Table.php:144-147 | forwards unchanged to the connection's get and returns its answer |
| `Table.AwsS3Table.HeadObject` | src/Datasource/AwsS3Table.php:160-163 | forwards unchanged to the connection's head and returns its answer |
| `Table.AwsS3Table.PutObject` | src/Datasource/AwsS3Table.php:177-180 | forwards unchanged to the connection's put and returns its answer |
| `Table.AwsS3Table.GetObjectBody` | src/Datasource/AwsS3Table.php:193-196 | exactly one get with the same arguments; returns that result's Body field (null if absent), or the get's error |
| `Table.AwsS3Table.MoveObject` | src/Datasource/AwsS3Table.php:212-218 | copy with the caller's arguments first; then, only if the copy succeeded, a delete of the source with empty options; returns the copy's result, or the copy's or the delete's error; a failed delete leaves the copy in place |
| `Table.MoveDeletesTheCopySource` | src/Datasource/AwsS3Table.php:214-215 | the delete of a move carries only Bucket and the normalised source key; when the caller passes no `CopySource`, that is the same key the copy read from |
| `Scenarios.CopyObjectVector` | tests/TestCase/Datasource/ConnectionTest.php:84-98 | `copyObject('/test-src-key', '/test-dest-key')` requests exactly the expected four-entry map |
| `Scenarios.CopyObjectOverrideVector` | tests/TestCase/Datasource/ConnectionTest.php:103-125 | for any bucket and unslashed keys, slashed keys with a caller `ACL` and an extra option give exactly the five-entry map the test expects |
| `Scenarios.MoveObjectVector` | tests/TestCase/Datasource/AwsS3TableTest.php:112-132 | the delete of `moveObject('/test-src-key', ...)` is exactly Bucket and `test-src-key`, the object named by the copy's `CopySource` |
| `Scenarios.DeleteObjectVector` | tests/TestCase/Datasource/ConnectionTest.php:147-165 | the delete request with an extra option is exactly the expected map |
| `Scenarios.DeleteObjectsVector` | tests/TestCase/Datasource/ConnectionTest.php:170-192 | three slashed keys give exactly the expected Delete.Objects list, in order |
| `Scenarios.GetObjectVector` | tests/TestCase/Datasource/ConnectionTest.php:273-287 | `'test-key'` and `'/test-key'` give the same, expected, get request |
| `Scenarios.HeadObjectVector` | tests/TestCase/Datasource/ConnectionTest.php:317-329 | the head request is exactly Bucket and Key |
| `Scenarios.PutObjectVector` | tests/TestCase/Datasource/ConnectionTest.php:377-398 | the put request with an extra option is exactly the expected map |
| `Scenarios.ForwardingScenario` | tests/TestCase/Datasource/AwsS3TableTest.php:27-68 | building the table asks the registry once; the seven forwarders each make one call on the connection with the test's raw arguments, in the test's order, and the client receives exactly the matching requests after the bucket check |
| `Scenarios.GetObjectBodyScenario` | tests/TestCase/Datasource/AwsS3TableTest.php:73-107 | one get of `/test-key` with empty options, and the `Body` of its result is the answer |
| `Scenarios.MoveObjectScenario` | tests/TestCase/Datasource/AwsS3TableTest.php:112-132 | one registry lookup; a copy with the test's keys and empty options, then a delete of `/test-src-key` with empty options; with each answer numbered by its position in the log, the answer returned is the copy's, not the delete's |
| `Scenarios.FailedCopyScenario` | src/Datasource/AwsS3Table.php:214-215 | a move whose copy is refused returns the copy's error and issues no delete |
| `Scenarios.MissingCredentialsScenario` | tests/TestCase/Datasource/ConnectionTest.php:73-79 | an empty configuration is refused for missing credentials, and the client receives no request |

## Left out

- Building the SDK client from `key`, `secret`, `region` and API version `2006-03-01`, and
  `registerStreamWrapper`: the client is passed in already built, and the stream-wrapper
  registration is a global side effect that nothing in the adapter reads back.
- The live `doesBucketExist` network call: its answer is the client's `bucketExists` oracle.
  Exceptions it might throw are not modelled.
- `Aws\Result::get`: modelled by `Values.ResultGet` as a map lookup that gives null for an
  absent field, without a contract of its own, since it belongs to the SDK.
- What the SDK returns or throws for each request (`\Aws\Result`, Guzzle streams, SDK
  exceptions): results are opaque maps and errors are opaque values, both given by the
  client's oracles.
- `transactional`, `disableConstraints`, `logQueries`, `logger`: empty method bodies that
  exist only to satisfy the host framework's interface.
- The process-wide `ConnectionManager`: it becomes an explicit registry object whose
  lookups are recorded.
- The `$config` argument of the table's constructor and of `initialize`: the source
  ignores it too.
- Configuration entries, keys and key lists of other PHP types: entries and keys are
  strings, and a key list is a sequence. An associative PHP array of keys, whose indices
  the `foreach` would keep, is not modelled.
- The order of entries inside PHP arrays: requests are compared as maps.
