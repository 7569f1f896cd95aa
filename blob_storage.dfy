/**
 * The S3 storage service: how it normalises its key prefix, derives an object
 * key from the wall clock and a filename, and shapes the requests it hands to
 * the S3 client. The client itself is not modelled; each of its calls is a
 * request record that the operations return next to their own results.
 */
module BlobStorage {
  import opened Wrappers
  import opened Strftime

  newtype byte = x: int | 0 <= x < 256

  const OctetStream := "application/octet-stream"
  const ServerSideEncryption := "AES256"
  const PublicRead := "public-read"
  const DefaultPrefix := "photos"
  const DefaultGetExpiry := 3600
  const DefaultPutExpiry := 600

  /** The storage settings the service reads from the process configuration. */
  datatype Settings = Settings(
    awsAccessKeyId: string,
    awsSecretAccessKey: string,
    awsDefaultRegion: string,
    awsS3Bucket: string)

  /** The arguments the S3 client is created with. */
  datatype ClientConfig = ClientConfig(
    serviceName: string,
    accessKeyId: string,
    secretAccessKey: string,
    regionName: string)

  /** One call on the S3 client, with the arguments the service passes. */
  datatype S3Call =
    | PutObject(bucket: string, key: string, body: seq<byte>, extra: map<string, string>)
    | UploadFileobj(fileobj: seq<byte>, bucket: string, key: string,
                    extraArgs: map<string, map<string, string>>)
    | GeneratePresignedUrl(clientMethod: string, params: map<string, string>, expiresIn: int)

  /** A framework upload handle: its filename and the bytes `read()` yields. */
  datatype UploadFile = UploadFile(filename: string, content: seq<byte>)

  predicate EndsWithSlash(s: string) {
    |s| > 0 && s[|s| - 1] == '/'
  }

  /** `s.rstrip("/")`: the longest prefix of `s` that does not end with a slash. */
  function RStripSlashes(s: string): (r: string)
    ensures r <= s && !EndsWithSlash(r)
    ensures forall i | |r| <= i < |s| :: s[i] == '/'
  {
    if EndsWithSlash(s) then RStripSlashes(s[..|s| - 1]) else s
  }

  /** The contract of `RStripSlashes` pins its result down: no other string meets it. */
  lemma RStripSlashesUnique(s: string, t: string)
    requires t <= s && !EndsWithSlash(t)
    requires forall i | |t| <= i < |s| :: s[i] == '/'
    ensures t == RStripSlashes(s)
  {
  }

  lemma RStripSlashesIdempotent(s: string)
    ensures RStripSlashes(RStripSlashes(s)) == RStripSlashes(s)
  {
  }

  lemma RStripSlashesExamples()
    ensures RStripSlashes("photos//") == "photos"
    ensures RStripSlashes("/") == ""
    ensures RStripSlashes("photos") == "photos"
    ensures RStripSlashes("a/b/") == "a/b"
  {
  }

  /**
   * `_content_type`: the type `mimetypes.guess_type` guesses for the filename,
   * or the generic binary type when the guess is absent or empty (`c or ...`).
   */
  function ContentTypeOf(guess: string -> Option<string>, filename: string): (ct: string)
    ensures ct != ""
    ensures guess(filename) == Some(ct) ||
            (ct == OctetStream && guess(filename) in {None, Some("")})
  {
    match guess(filename)
    case Some(c) => if c != "" then c else OctetStream
    case None => OctetStream
  }

  /** `_key`: `{prefix}/{YYYYMMDD_HHMMSS}_{filename}`. */
  function KeyFor(prefix: string, now: DateTime, filename: string): (key: string)
    requires ValidDateTime(now)
    ensures |key| == |prefix| + 17 + |filename|
    ensures key[..|prefix|] == prefix && key[|prefix| + 17..] == filename
  {
    prefix + "/" + FormatStamp(now) + "_" + filename
  }

  /** Where each part of a key sits: the prefix first, the filename from offset `|prefix| + 17`. */
  lemma KeyLayout(prefix: string, now: DateTime, filename: string)
    requires ValidDateTime(now)
    ensures var key := KeyFor(prefix, now, filename);
      |key| == |prefix| + 17 + |filename| &&
      key[..|prefix|] == prefix &&
      key[|prefix|] == '/' &&
      key[|prefix| + 1..|prefix| + 16] == FormatStamp(now) &&
      key[|prefix| + 16] == '_' &&
      key[|prefix| + 17..] == filename
  {
  }

  /** The reading and filename a key under `prefix` was derived from, if it is such a key. */
  function SplitKey(prefix: string, key: string): (r: Option<(DateTime, string)>)
    ensures r.Some? ==> ValidDateTime(r.value.0)
  {
    var n := |prefix|;
    if n + 17 <= |key| && key[..n] == prefix && key[n] == '/' && key[n + 16] == '_' then
      match ParseStamp(key[n + 1..n + 16])
      case Some(t) => Some((t, key[n + 17..]))
      case None => None
    else None
  }

  /** Round trip: the filename and clock reading are recovered from the key. */
  lemma SplitKeyFor(prefix: string, now: DateTime, filename: string)
    requires ValidDateTime(now)
    ensures SplitKey(prefix, KeyFor(prefix, now, filename)) == Some((now, filename))
  {
    KeyLayout(prefix, now, filename);
    ParseFormatStamp(now);
  }

  /** Round trip the other way: every key `SplitKey` accepts is the key of what it returns. */
  lemma KeyForSplit(prefix: string, key: string)
    requires SplitKey(prefix, key).Some?
    ensures KeyFor(prefix, SplitKey(prefix, key).value.0, SplitKey(prefix, key).value.1) == key
  {
    var n := |prefix|;
    var (t, filename) := SplitKey(prefix, key).value;
    FormatParseStamp(key[n + 1..n + 16]);
    assert key == key[..n] + [key[n]] + key[n + 1..n + 16] + [key[n + 16]] + key[n + 17..];
  }

  /**
   * Two keys under one prefix coincide exactly when the clock second and the
   * filename coincide: the same filename in the same second collides, and
   * nothing else does.
   */
  lemma KeyCollision(prefix: string, t1: DateTime, f1: string, t2: DateTime, f2: string)
    requires ValidDateTime(t1) && ValidDateTime(t2)
    ensures KeyFor(prefix, t1, f1) == KeyFor(prefix, t2, f2) <==> t1 == t2 && f1 == f2
  {
    SplitKeyFor(prefix, t1, f1);
    SplitKeyFor(prefix, t2, f2);
  }

  /** The virtual-hosted endpoint of the bucket: an `https://` address ending in `/`. */
  function UrlBase(bucket: string, region: string): (base: string)
    ensures |base| == |bucket| + |region| + 27
    ensures base[..8] == "https://" && base[|base| - 1] == '/'
  {
    "https://" + bucket + ".s3." + region + ".amazonaws.com/"
  }

  /** The object's canonical URL: the key is appended verbatim, without percent-encoding. */
  function ObjectUrl(bucket: string, region: string, key: string): (url: string)
    ensures |url| >= 8 && url[..8] == "https://"
    ensures |url| >= |key| && url[|url| - |key|..] == key
  {
    UrlBase(bucket, region) + key
  }

  /** The URL ends with the key, and distinct keys in one bucket give distinct URLs. */
  lemma ObjectUrlKey(bucket: string, region: string, key: string, other: string)
    ensures var url := ObjectUrl(bucket, region, key);
      |url| >= |key| && url[|url| - |key|..] == key &&
      url[|UrlBase(bucket, region)|..] == key
    ensures ObjectUrl(bucket, region, key) == ObjectUrl(bucket, region, other) <==> key == other
  {
  }

  /**
   * The metadata of an upload: the content type, server-side encryption
   * `AES256`, the `public-read` ACL exactly when the upload is public, and no
   * other entry.
   */
  predicate UploadMetadata(m: map<string, string>, contentType: string, public: bool)
    ensures UploadMetadata(m, contentType, public) ==>
            m.Keys == {"ContentType", "ServerSideEncryption"} + (if public then {"ACL"} else {})
  {
    m.Keys <= {"ContentType", "ServerSideEncryption", "ACL"} &&
    "ContentType" in m && m["ContentType"] == contentType &&
    "ServerSideEncryption" in m && m["ServerSideEncryption"] == ServerSideEncryption &&
    ("ACL" in m <==> public) &&
    (public ==> m["ACL"] == PublicRead)
  }

  /** The metadata is determined by the content type and the public flag. */
  lemma UploadMetadataUnique(m1: map<string, string>, m2: map<string, string>, contentType: string, public: bool)
    requires UploadMetadata(m1, contentType, public) && UploadMetadata(m2, contentType, public)
    ensures m1 == m2
  {
  }

  /** The presigned PUT parameters: the bucket, the key and, only when a non-empty one is supplied, the content type. */
  predicate PutParams(params: map<string, string>, bucket: string, key: string, contentType: Option<string>)
    ensures PutParams(params, bucket, key, contentType) ==>
            |params| == if contentType.Some? && contentType.value != "" then 3 else 2
  {
    var typed := contentType.Some? && contentType.value != "";
    params.Keys == {"Bucket", "Key"} + (if typed then {"ContentType"} else {}) &&
    params["Bucket"] == bucket && params["Key"] == key &&
    (typed ==> params["ContentType"] == contentType.value)
  }

  class S3Storage {
    const bucket: string
    const region: string
    const prefix: string
    const s3: ClientConfig

    /** The prefix loses all its trailing slashes; bucket, region and credentials come from the settings. */
    constructor (settings: Settings, prefix: string := DefaultPrefix)
      ensures bucket == settings.awsS3Bucket && region == settings.awsDefaultRegion
      ensures this.prefix == RStripSlashes(prefix) && !EndsWithSlash(this.prefix)
      ensures s3 == ClientConfig("s3", settings.awsAccessKeyId, settings.awsSecretAccessKey, region)
    {
      bucket := settings.awsS3Bucket;
      region := settings.awsDefaultRegion;
      this.prefix := RStripSlashes(prefix);
      s3 := ClientConfig("s3", settings.awsAccessKeyId, settings.awsSecretAccessKey, settings.awsDefaultRegion);
    }

    /** `_key`, with the reading of `datetime.now()` passed in as `now`. */
    method Key(filename: string, now: DateTime) returns (key: string)
      requires ValidDateTime(now)
      ensures key == KeyFor(prefix, now, filename)
      ensures key[..|prefix|] == prefix && key[|prefix| + 17..] == filename
    {
      key := KeyFor(prefix, now, filename);
    }

    /** `upload_bytes`: one `put_object` call; the URL and key it returns name the object written. */
    method UploadBytes(data: seq<byte>, filename: string, now: DateTime,
                       guess: string -> Option<string>, public: bool := false)
      returns (call: S3Call, url: string, key: string)
      requires ValidDateTime(now)
      ensures key == KeyFor(prefix, now, filename)
      ensures call.PutObject? && call.bucket == bucket && call.key == key && call.body == data
      ensures UploadMetadata(call.extra, ContentTypeOf(guess, filename), public)
      ensures url == ObjectUrl(bucket, region, key)
    {
      key := Key(filename, now);
      var extra := map["ContentType" := ContentTypeOf(guess, filename),
                       "ServerSideEncryption" := ServerSideEncryption];
      if public {
        extra := extra["ACL" := PublicRead];
      }
      call := PutObject(bucket, key, data, extra);
      url := ObjectUrl(bucket, region, key);
    }

    /**
     * `upload_stream`: one `upload_fileobj` call whose metadata sits under
     * `ExtraArgs`; key, URL and metadata are those `UploadBytes` produces.
     */
    method UploadStream(stream: seq<byte>, filename: string, now: DateTime,
                        guess: string -> Option<string>, public: bool := false)
      returns (call: S3Call, url: string, key: string)
      requires ValidDateTime(now)
      ensures key == KeyFor(prefix, now, filename)
      ensures call.UploadFileobj? && call.fileobj == stream && call.bucket == bucket && call.key == key
      ensures call.extraArgs.Keys == {"ExtraArgs"}
      ensures UploadMetadata(call.extraArgs["ExtraArgs"], ContentTypeOf(guess, filename), public)
      ensures url == ObjectUrl(bucket, region, key)
    {
      key := Key(filename, now);
      var extra := map["ExtraArgs" := map["ContentType" := ContentTypeOf(guess, filename),
                                          "ServerSideEncryption" := ServerSideEncryption]];
      if public {
        extra := extra["ExtraArgs" := extra["ExtraArgs"]["ACL" := PublicRead]];
      }
      call := UploadFileobj(stream, bucket, key, extra);
      url := ObjectUrl(bucket, region, key);
    }

    /** `upload_uploadfile`: reads the whole upload and hands it to `UploadBytes` under its filename. */
    method UploadUploadFile(file: UploadFile, now: DateTime,
                            guess: string -> Option<string>, public: bool := false)
      returns (call: S3Call, url: string, key: string)
      requires ValidDateTime(now)
      ensures key == KeyFor(prefix, now, file.filename)
      ensures call.PutObject? && call.bucket == bucket && call.key == key && call.body == file.content
      ensures UploadMetadata(call.extra, ContentTypeOf(guess, file.filename), public)
      ensures url == ObjectUrl(bucket, region, key)
    {
      var content := file.content;
      call, url, key := UploadBytes(content, file.filename, now, guess, public);
    }

    /** `presigned_get`: asks the client to sign a `get_object` on the key; `presign` is the client's signer. */
    method PresignedGet(key: string, presign: S3Call -> string, expires: int := DefaultGetExpiry)
      returns (call: S3Call, url: string)
      ensures call.GeneratePresignedUrl? && call.clientMethod == "get_object"
      ensures call.params.Keys == {"Bucket", "Key"}
      ensures call.params["Bucket"] == bucket && call.params["Key"] == key
      ensures call.expiresIn == expires
      ensures url == presign(call)
    {
      call := GeneratePresignedUrl("get_object", map["Bucket" := bucket, "Key" := key], expires);
      url := presign(call);
    }

    /** `presigned_put`: a signed `put_object`, pinned to the content type only when one is given and non-empty. */
    method PresignedPut(key: string, presign: S3Call -> string,
                        contentType: Option<string> := None, expires: int := DefaultPutExpiry)
      returns (call: S3Call, url: string)
      ensures call.GeneratePresignedUrl? && call.clientMethod == "put_object"
      ensures PutParams(call.params, bucket, key, contentType)
      ensures call.expiresIn == expires
      ensures url == presign(call)
    {
      var params := map["Bucket" := bucket, "Key" := key];
      if contentType.Some? && contentType.value != "" {
        params := params["ContentType" := contentType.value];
      }
      call := GeneratePresignedUrl("put_object", params, expires);
      url := presign(call);
    }
  }
}
