/**
 * Request shaping of the S3 connection (src/Datasource/Connection.php): how an object key
 * is normalised, how the caller's options are merged with the adapter's defaults, and
 * the exact parameter map each operation hands to the SDK.
 *
 * Everything here is a total function of the bucket name and the caller's arguments.
 */
module Requests {
  import opened Values

  /** The canned ACL every copy, get and put defaults to. */
  const PublicRead: string := "public-read"

  predicate StartsWithSlash(key: string) {
    |key| > 0 && key[0] == '/'
  }

  /**
   * `__keyPreProcess`: a key that starts with '/' loses exactly that one character;
   * every other key (the empty key included) is used verbatim.
   */
  function NormalizeKey(key: string): (r: string)
    ensures StartsWithSlash(key) ==> key == "/" + r
    ensures !StartsWithSlash(key) ==> r == key
  {
    if StartsWithSlash(key) then key[1..] else key
  }

  /** Prefixing a slash is undone by normalisation, whatever the key. */
  lemma NormalizeUndoesSlash(key: string)
    ensures NormalizeKey("/" + key) == key
  {
  }

  /** `k` and `"/" + k` name the same object exactly when `k` itself has no leading slash. */
  lemma SlashedTwinIff(key: string)
    ensures NormalizeKey("/" + key) == NormalizeKey(key) <==> !StartsWithSlash(key)
  {
  }

  /**
   * Normalisation is not idempotent: a second pass changes the key exactly when the key
   * starts with two slashes ("//k" becomes "/k", then "k").
   */
  lemma NormalizeTwiceIff(key: string)
    ensures NormalizeKey(NormalizeKey(key)) == NormalizeKey(key)
            <==> !(|key| >= 2 && key[0] == '/' && key[1] == '/')
  {
  }

  lemma NormalizeIsNotIdempotent()
    ensures NormalizeKey("//k") == "/k"
    ensures NormalizeKey(NormalizeKey("//k")) == "k"
  {
  }

  /**
   * PHP's `$options += $defaults`: a left-biased union. Every option the caller passed
   * is kept with its value, a default is added only under a name the caller left out,
   * and no other name appears.
   */
  function Merge(options: Params, defaults: Params): (r: Params)
    ensures r.Keys == options.Keys + defaults.Keys
    ensures forall name :: name in options ==> r[name] == options[name]
    ensures forall name :: name in defaults && name !in options ==> r[name] == defaults[name]
  {
    defaults + options
  }

  /** With no options, the request is exactly the defaults. */
  lemma MergeNoOptions(defaults: Params)
    ensures Merge(map[], defaults) == defaults
  {
  }

  /**
   * Overriding one option changes the merged request at that name and nowhere else:
   * the caller's value wins whether or not the name has a default.
   */
  lemma MergeOverride(options: Params, defaults: Params, name: string, v: Val)
    ensures Merge(options[name := v], defaults) == Merge(options, defaults)[name := v]
  {
  }

  /** Merging the same defaults again adds nothing. */
  lemma MergeIdempotent(options: Params, defaults: Params)
    ensures Merge(Merge(options, defaults), defaults) == Merge(options, defaults)
  {
  }

  /** `copyObject`: Bucket, Key (the normalised destination), CopySource and ACL. */
  function CopyObjectParams(bucket: string, srcKey: string, destKey: string, options: Params): (r: Params)
    ensures r.Keys == options.Keys + {"Bucket", "Key", "CopySource", "ACL"}
    ensures forall name :: name in options ==> r[name] == options[name]
    ensures "Bucket" !in options ==> r["Bucket"] == Str(bucket)
    ensures "Key" !in options ==> r["Key"] == Str(NormalizeKey(destKey))
    ensures "CopySource" !in options ==> r["CopySource"] == Str(bucket + "/" + NormalizeKey(srcKey))
    ensures "ACL" !in options ==> r["ACL"] == Str(PublicRead)
  {
    Merge(options, map[
      "Bucket" := Str(bucket),
      "Key" := Str(NormalizeKey(destKey)),
      "CopySource" := Str(bucket + "/" + NormalizeKey(srcKey)),
      "ACL" := Str(PublicRead)
    ])
  }

  /** `deleteObject`: only Bucket and Key are defaulted, no ACL. */
  function DeleteObjectParams(bucket: string, key: string, options: Params): (r: Params)
    ensures r.Keys == options.Keys + {"Bucket", "Key"}
    ensures forall name :: name in options ==> r[name] == options[name]
    ensures "Bucket" !in options ==> r["Bucket"] == Str(bucket)
    ensures "Key" !in options ==> r["Key"] == Str(NormalizeKey(key))
  {
    Merge(options, map["Bucket" := Str(bucket), "Key" := Str(NormalizeKey(key))])
  }

  /** One entry of the `Delete.Objects` list: `['Key' => normalised key]`. */
  function KeyEntry(key: string): Val {
    Dict(map["Key" := Str(NormalizeKey(key))])
  }

  /** The `Delete.Objects` list: one entry per input key, in the input order. */
  function DeleteEntries(keys: seq<string>): (r: seq<Val>)
    ensures |r| == |keys|
  {
    if keys == [] then [] else [KeyEntry(keys[0])] + DeleteEntries(keys[1..])
  }

  /** Entry `i` of the list is the entry of key `i`: same length, same order. */
  lemma {:induction false} DeleteEntriesAt(keys: seq<string>, i: nat)
    requires i < |keys|
    ensures DeleteEntries(keys)[i] == KeyEntry(keys[i])
  {
    if i > 0 {
      DeleteEntriesAt(keys[1..], i - 1);
    }
  }

  /** The list of a concatenation is the concatenation of the lists. */
  lemma {:induction false} DeleteEntriesAppend(a: seq<string>, b: seq<string>)
    ensures DeleteEntries(a + b) == DeleteEntries(a) + DeleteEntries(b)
  {
    if a == [] {
      assert a + b == b;
    } else {
      assert (a + b)[1..] == a[1..] + b;
      DeleteEntriesAppend(a[1..], b);
    }
  }

  /** The `Delete` default: `['Objects' => entries]`. */
  function DeleteSpec(keys: seq<string>): Val {
    Dict(map["Objects" := List(DeleteEntries(keys))])
  }

  /**
   * `deleteObjects`: Bucket and Delete.Objects are defaulted; a caller-supplied `Delete`
   * replaces the whole structure, keys included.
   */
  function DeleteObjectsParams(bucket: string, keys: seq<string>, options: Params): (r: Params)
    ensures r.Keys == options.Keys + {"Bucket", "Delete"}
    ensures forall name :: name in options ==> r[name] == options[name]
    ensures "Bucket" !in options ==> r["Bucket"] == Str(bucket)
    ensures "Delete" !in options ==> r["Delete"] == Dict(map["Objects" := List(DeleteEntries(keys))])
  {
    Merge(options, map["Bucket" := Str(bucket), "Delete" := DeleteSpec(keys)])
  }

  /** `getObject`: Bucket, Key and ACL. */
  function GetObjectParams(bucket: string, key: string, options: Params): (r: Params)
    ensures r.Keys == options.Keys + {"Bucket", "Key", "ACL"}
    ensures forall name :: name in options ==> r[name] == options[name]
    ensures "Bucket" !in options ==> r["Bucket"] == Str(bucket)
    ensures "Key" !in options ==> r["Key"] == Str(NormalizeKey(key))
    ensures "ACL" !in options ==> r["ACL"] == Str(PublicRead)
  {
    Merge(options, map["Bucket" := Str(bucket), "Key" := Str(NormalizeKey(key)), "ACL" := Str(PublicRead)])
  }

  /** `headObject`: only Bucket and Key are defaulted, no ACL. */
  function HeadObjectParams(bucket: string, key: string, options: Params): (r: Params)
    ensures r.Keys == options.Keys + {"Bucket", "Key"}
    ensures forall name :: name in options ==> r[name] == options[name]
    ensures "Bucket" !in options ==> r["Bucket"] == Str(bucket)
    ensures "Key" !in options ==> r["Key"] == Str(NormalizeKey(key))
  {
    Merge(options, map["Bucket" := Str(bucket), "Key" := Str(NormalizeKey(key))])
  }

  /** `putObject`: Bucket, Key, ACL and the content as Body. */
  function PutObjectParams(bucket: string, key: string, content: Val, options: Params): (r: Params)
    ensures r.Keys == options.Keys + {"Bucket", "Key", "ACL", "Body"}
    ensures forall name :: name in options ==> r[name] == options[name]
    ensures "Bucket" !in options ==> r["Bucket"] == Str(bucket)
    ensures "Key" !in options ==> r["Key"] == Str(NormalizeKey(key))
    ensures "ACL" !in options ==> r["ACL"] == Str(PublicRead)
    ensures "Body" !in options ==> r["Body"] == content
  {
    Merge(options, map[
      "Bucket" := Str(bucket),
      "Key" := Str(NormalizeKey(key)),
      "ACL" := Str(PublicRead),
      "Body" := content
    ])
  }

  /** With no options, a copy request is exactly the four defaults. */
  lemma CopyObjectNoOptions(bucket: string, srcKey: string, destKey: string)
    ensures CopyObjectParams(bucket, srcKey, destKey, map[]) == map[
      "Bucket" := Str(bucket),
      "Key" := Str(NormalizeKey(destKey)),
      "CopySource" := Str(bucket + "/" + NormalizeKey(srcKey)),
      "ACL" := Str(PublicRead)
    ]
  {
  }

  /** Overriding the ACL of a copy changes the ACL and leaves the other defaults as they were. */
  lemma CopyObjectAclOverride(bucket: string, srcKey: string, destKey: string, acl: Val)
    ensures CopyObjectParams(bucket, srcKey, destKey, map["ACL" := acl])
         == CopyObjectParams(bucket, srcKey, destKey, map[])["ACL" := acl]
  {
  }

  /**
   * A key with and without one leading slash yields the same copy request, for the source
   * and for the destination.
   */
  lemma CopyObjectIgnoresOneSlash(bucket: string, srcKey: string, destKey: string, options: Params)
    requires !StartsWithSlash(srcKey) && !StartsWithSlash(destKey)
    ensures CopyObjectParams(bucket, "/" + srcKey, "/" + destKey, options)
         == CopyObjectParams(bucket, srcKey, destKey, options)
  {
  }

  /** Without a caller-supplied `Delete`, entry `i` of `Delete.Objects` names key `i`. */
  lemma DeleteObjectsEntry(bucket: string, keys: seq<string>, options: Params, i: nat)
    requires "Delete" !in options && i < |keys|
    ensures DeleteObjectsParams(bucket, keys, options)["Delete"].entries["Objects"].items[i]
         == Dict(map["Key" := Str(NormalizeKey(keys[i]))])
  {
    DeleteEntriesAt(keys, i);
  }
}
