/**
 * The string handling of the Backblaze B2 storage adapter: region patching,
 * client configuration, default object parameters, signed-URL key
 * normalisation and the public URL of an uploaded object. The S3 client, the
 * upload and the URL signing are foreign calls and stay outside the model.
 */
module Backblaze {

  import opened Wrappers
  import opened JsStrings

  const LegacyRegionPrefix: string := "s3."
  const DefaultAcl: string := "public-read"
  const DefaultExpirySeconds: int := 7200
  const UploadsFolder: string := "nc/uploads"
  const ThumbnailsFolder: string := "nc/thumbnails"

  datatype StorageInput = StorageInput(
    bucket: string,
    region: string,
    accessKey: string,
    accessSecret: string,
    acl: Option<string>)

  /** `defaultParams`: the `Bucket` and `ACL` of every object request. */
  datatype ObjectParams = ObjectParams(bucket: string, acl: string)

  /** The options handed to the S3 client in `init`. */
  datatype ClientConfig = ClientConfig(region: string, accessKeyId: string, secretAccessKey: string, endpoint: string)

  /**
   * The object-request input and expiry passed to the signer: the key, the
   * bucket, and every other path parameter carried along unchanged.
   */
  datatype SignRequest = SignRequest(key: string, bucket: string, otherParams: map<string, string>, expiresIn: int)

  /**
   * `patchRegion`: early configurations stored the region as `s3.<region>`;
   * one leading `s3.` is removed.
   */
  function PatchRegion(region: string): (r: string)
    ensures StartsWith(region, LegacyRegionPrefix) ==> region == LegacyRegionPrefix + r
    ensures !StartsWith(region, LegacyRegionPrefix) ==> r == region
  {
    if StartsWith(region, LegacyRegionPrefix) then region[|LegacyRegionPrefix|..] else region
  }

  function Endpoint(region: string): string {
    "https://s3." + PatchRegion(region) + ".backblazeb2.com"
  }

  /** `init`: the client's region and endpoint both use the patched region. */
  function Init(input: StorageInput): (c: ClientConfig)
    ensures c.endpoint == "https://s3." + c.region + ".backblazeb2.com"
    ensures !StartsWith(input.region, LegacyRegionPrefix) ==> c.region == input.region
    ensures StartsWith(input.region, LegacyRegionPrefix) ==> input.region == LegacyRegionPrefix + c.region
    ensures c.accessKeyId == input.accessKey && c.secretAccessKey == input.accessSecret
  {
    ClientConfig(PatchRegion(input.region), input.accessKey, input.accessSecret, Endpoint(input.region))
  }

  /** A legacy `s3.<region>` setting and the plain `<region>` configure the same client. */
  lemma LegacyRegionConfiguresSameClient(input: StorageInput)
    requires !StartsWith(input.region, LegacyRegionPrefix)
    ensures Init(input.(region := LegacyRegionPrefix + input.region)) == Init(input)
  {
    var legacy := LegacyRegionPrefix + input.region;
    assert StartsWith(legacy, LegacyRegionPrefix);
    assert legacy[|LegacyRegionPrefix|..] == input.region;
  }

  /** `defaultParams`: `ACL` falls back to `public-read` when the setting is absent or empty. */
  function DefaultParams(input: StorageInput): (p: ObjectParams)
    ensures p.bucket == input.bucket
    ensures Truthy(input.acl) ==> p.acl == input.acl.value
    ensures !Truthy(input.acl) ==> p.acl == DefaultAcl
  {
    ObjectParams(input.bucket, if Truthy(input.acl) then input.acl.value else DefaultAcl)
  }

  /** Every object request carries a non-empty ACL. */
  lemma DefaultParamsAclNeverEmpty(input: StorageInput)
    ensures DefaultParams(input).acl != ""
    ensures DefaultParams(input).acl == DefaultAcl || Some(DefaultParams(input).acl) == input.acl
  {
  }

  /** True when a key names an upload or thumbnail still prefixed with the bucket. */
  predicate BucketPrefixedKey(bucket: string, key: string) {
    StartsWith(key, bucket + "/" + UploadsFolder) || StartsWith(key, bucket + "/" + ThumbnailsFolder)
  }

  /**
   * The key normalisation of `getSignedUrl`: the first occurrence of the bucket
   * name and a slash is removed, only from bucket-prefixed upload and thumbnail keys.
   */
  function SignedUrlKey(bucket: string, key: string): (r: string)
    ensures BucketPrefixedKey(bucket, key) ==> key == bucket + "/" + r
    ensures !BucketPrefixedKey(bucket, key) ==> r == key
  {
    if BucketPrefixedKey(bucket, key) then
      assert StartsWith(key, bucket + "/") by {
        assert (bucket + "/") <= (bucket + "/" + UploadsFolder);
        assert (bucket + "/") <= (bucket + "/" + ThumbnailsFolder);
      }
      ReplacePrefix(key, bucket + "/");
      ReplaceFirst(key, bucket + "/", "")
    else key
  }

  /**
   * `getSignedUrl`'s request: the normalised key and the bucket, either of
   * which a `Key` or `Bucket` path parameter overrides, and the expiry.
   */
  function SignedUrlRequest(input: StorageInput, key: string, expiresInSeconds: Option<int>,
                            pathParameters: map<string, string>): (r: SignRequest)
    ensures "Key" !in pathParameters ==> r.key == SignedUrlKey(input.bucket, key)
    ensures "Bucket" !in pathParameters ==> r.bucket == input.bucket
    ensures "Key" in pathParameters ==> r.key == pathParameters["Key"]
    ensures "Bucket" in pathParameters ==> r.bucket == pathParameters["Bucket"]
    ensures expiresInSeconds.None? ==> r.expiresIn == DefaultExpirySeconds
    ensures expiresInSeconds.Some? ==> r.expiresIn == expiresInSeconds.value
    ensures r.otherParams.Keys == pathParameters.Keys - {"Key", "Bucket"}
    ensures forall p :: p in r.otherParams ==> r.otherParams[p] == pathParameters[p]
  {
    var k := if "Key" in pathParameters then pathParameters["Key"] else SignedUrlKey(input.bucket, key);
    var b := if "Bucket" in pathParameters then pathParameters["Bucket"] else input.bucket;
    SignRequest(k, b, pathParameters - {"Key", "Bucket"}, expiresInSeconds.GetOr(DefaultExpirySeconds))
  }

  /** Removing `<bucket>/` from a key under `<bucket>/<folder>` leaves a key under `<folder>`. */
  lemma DropBucketFolder(bucket: string, folder: string, key: string, r: string)
    requires StartsWith(key, bucket + "/" + folder)
    requires key == bucket + "/" + r
    ensures StartsWith(r, folder)
  {
    var p := bucket + "/" + folder;
    var b := |bucket| + 1;
    assert r == key[b..];
    assert key[..|p|] == p;
    assert p[b..] == folder;
    assert key[b..][..|folder|] == key[..|p|][b..];
  }

  /** The normalised key of an uploaded file, prefixed back with the bucket, is the original key. */
  lemma SignedUrlKeyRestoresPrefix(bucket: string, key: string)
    requires BucketPrefixedKey(bucket, key)
    ensures bucket + "/" + SignedUrlKey(bucket, key) == key
    ensures StartsWith(SignedUrlKey(bucket, key), UploadsFolder) || StartsWith(SignedUrlKey(bucket, key), ThumbnailsFolder)
  {
    var r := SignedUrlKey(bucket, key);
    if StartsWith(key, bucket + "/" + UploadsFolder) {
      DropBucketFolder(bucket, UploadsFolder, key, r);
    } else {
      DropBucketFolder(bucket, ThumbnailsFolder, key, r);
    }
  }

  /** The URL `upload` returns, built as written from the unpatched region. */
  function UploadUrl(input: StorageInput, key: string): (u: string)
    ensures StartsWith(u, "https://" + input.bucket + ".s3." + input.region + ".")
    ensures |u| >= |key| && u[|u| - |key|..] == key
  {
    var host := "https://" + input.bucket + ".s3." + input.region + ".";
    var u := host + ("backblazeb2.com/" + key);
    assert u == "https://" + input.bucket + ".s3." + input.region + ".backblazeb2.com/" + key;
    assert u[..|host|] == host;
    assert u[|u| - |key|..] == key;
    u
  }

  /**
   * With a legacy `s3.<region>` setting the written URL repeats the `s3.`
   * label (`<bucket>.s3.s3.<region>`), a host the client's endpoint never uses.
   */
  lemma UploadUrlRepeatsLegacyPrefix(input: StorageInput, key: string)
    requires StartsWith(input.region, LegacyRegionPrefix)
    ensures UploadUrl(input, key)
            == "https://" + input.bucket + ".s3.s3." + PatchRegion(input.region) + ".backblazeb2.com/" + key
    ensures |UploadUrl(input, key)| == |PatchedUploadUrl(input, key)| + 3
  {
    assert input.region == "s3." + PatchRegion(input.region);
  }

  /** The public URL built from the patched region, as the client itself is configured. */
  function PatchedUploadUrl(input: StorageInput, key: string): (u: string)
    ensures u == "https://" + input.bucket + "." + Init(input).endpoint[|"https://"|..] + "/" + key
    ensures !StartsWith(input.region, LegacyRegionPrefix) ==> u == UploadUrl(input, key)
  {
    "https://" + input.bucket + ".s3." + PatchRegion(input.region) + ".backblazeb2.com/" + key
  }

  /** Legacy and plain region settings give the same public URL once the region is patched. */
  lemma PatchedUploadUrlIgnoresLegacyPrefix(input: StorageInput, key: string)
    requires !StartsWith(input.region, LegacyRegionPrefix)
    ensures PatchedUploadUrl(input.(region := LegacyRegionPrefix + input.region), key) == PatchedUploadUrl(input, key)
  {
    LegacyRegionConfiguresSameClient(input);
  }

  /**
   * `upload`: once the transfer completes, the public URL of the key, built
   * with the patched region (the written URL is `UploadUrl`); `None` when the
   * upload resolves to nothing. Transfer errors are rethrown by the foreign
   * client and are not modelled.
   */
  function Upload(input: StorageInput, key: string, completed: bool): (r: Option<string>)
    ensures r.Some? <==> completed
    ensures r.Some? ==> r.value == "https://" + input.bucket + "." + Init(input).endpoint[|"https://"|..] + "/" + key
    ensures r.Some? && !StartsWith(input.region, LegacyRegionPrefix) ==> r.value == UploadUrl(input, key)
  {
    if completed then Some(PatchedUploadUrl(input, key)) else None
  }
}
