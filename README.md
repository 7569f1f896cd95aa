# MementoBox-v2 storage keys and bearer tokens, in Dafny

This project models the two pieces of MementoBox-v2's backend whose logic can be stated once the libraries they call are made abstract.

- **The S3 storage service** (`S3Storage`). The constructor normalises the key prefix. The service derives each object key as `{prefix}/{YYYYMMDD_HHMMSS}_{filename}` from the wall clock. The upload operations build their request metadata (content type, `AES256` server-side encryption, an optional `public-read` ACL) and return the object's canonical URL together with its key. The presign operations build the parameters that the S3 client signs.
- **Bearer-token extraction** (`get_claims_and_token`). It reads the `Authorization` header, checks for a case-insensitive `bearer ` scheme and cuts out the token. It passes the token to the JWT verifier with fixed parameters and returns either a 401 outcome or the claims together with the raw token.

Outside effects are inputs:

- The wall clock (`datetime.now()`) is a `DateTime` argument.
- The MIME guess (`mimetypes.guess_type`) is a function argument `string -> Option<string>`.
- Each call on the S3 client is a returned `S3Call` request record.
- The URL signer (`generate_presigned_url`) is a function argument that maps the request to a string.
- The JWT verifier (`jose.jwt.decode`) is a function argument that maps the token and options to a `DecodeOutcome`.

Files:

- `wrappers.dfy`: the `Option` and `Result` types.
- `strftime.dfy`: the `%Y%m%d_%H%M%S` rendering with zero-padded fields, and its inverse parse.
- `blob_storage.dfy`: the `S3Storage` class, the request records, and the key, metadata and URL properties.
- `auth.dfy`: configuration loading, the scheme check, the token split and `GetClaimsAndToken`.

Errors, as the code raises them:

- A failed scheme check raises HTTP 401 with the detail `Missing bearer token`.
- A verifier error raises HTTP 401 with the detail `Invalid token: <message>`.
- The storage operations do not catch the S3 client's `ClientError`; it reaches the caller unchanged.

## Model

| member | source | states |
|---|---|---|
| Strftime.PadDigits | app/services/blob_storage.py:37 | a number below 10^w is rendered as exactly w decimal digits |
| Strftime.ParsePadDigits | app/services/blob_storage.py:37 | parsing a zero-padded rendering gives back the number |
| Strftime.PadParseDigits | app/services/blob_storage.py:37 | re-rendering a parsed digit string at its own width gives back the string |
| Strftime.FormatStamp | app/services/blob_storage.py:37 | the timestamp is 15 characters: 8 digits, `_`, 6 digits |
| Strftime.ParseFormatStamp | app/services/blob_storage.py:37 | every valid clock reading is recovered from its timestamp |
| Strftime.FormatParseStamp | app/services/blob_storage.py:37 | every string the parser accepts is exactly the timestamp of the reading it returns |
| Strftime.FormatStampInjective | app/services/blob_storage.py:37 | two readings render the same timestamp if and only if they are equal |
| Strftime.StampExample | app/services/blob_storage.py:37 | 2024-03-05 07:08:09 renders as `20240305_070809`, each field zero-padded |
| BlobStorage.RStripSlashes | app/services/blob_storage.py:28 | the normalised prefix is a prefix of the input, does not end with `/`, and only slashes were removed |
| BlobStorage.RStripSlashesUnique | app/services/blob_storage.py:28 | every string with those three properties is the normalised prefix |
| BlobStorage.RStripSlashesIdempotent | app/services/blob_storage.py:28 | normalising twice is the same as normalising once |
| BlobStorage.RStripSlashesExamples | app/services/blob_storage.py:28 | `photos//` becomes `photos`, `/` becomes the empty string, `a/b/` becomes `a/b` |
| BlobStorage.ContentTypeOf | app/services/blob_storage.py:12-14 | the content type is never empty; it is the guess, or `application/octet-stream` when the guess is None or empty |
| BlobStorage.KeyFor | app/services/blob_storage.py:38 | the key is `\|prefix\| + 17 + \|filename\|` long, starts with the prefix and ends with the filename; `KeyLayout`, `SplitKeyFor` and `KeyCollision` pin down the rest |
| BlobStorage.KeyLayout | app/services/blob_storage.py:36-38 | the key is the prefix, `/`, the 15-character timestamp, `_`, then the filename starting at offset `\|prefix\| + 17` |
| BlobStorage.SplitKeyFor | app/services/blob_storage.py:36-38 | splitting a derived key recovers the clock reading and the filename |
| BlobStorage.KeyForSplit | app/services/blob_storage.py:36-38 | every key that splits is the derived key of the parts it splits into |
| BlobStorage.KeyCollision | app/services/blob_storage.py:36-38 | under one prefix, two keys are equal if and only if the clock second and the filename are equal, so there is no collision guard |
| BlobStorage.UrlBase | app/services/blob_storage.py:51 | the bucket's endpoint is an `https://` address ending in `/`, 27 characters longer than bucket and region together |
| BlobStorage.ObjectUrl | app/services/blob_storage.py:51 | the URL starts with `https://` and ends with the key written out unencoded; `ObjectUrlKey` adds that it is injective in the key (the same URL is built at line 67) |
| BlobStorage.ObjectUrlKey | app/services/blob_storage.py:51 | the URL ends with the unencoded key, and distinct keys in one bucket and region give distinct URLs |
| BlobStorage.UploadMetadata | app/services/blob_storage.py:43-48 | the metadata's keys are exactly `ContentType` and `ServerSideEncryption`, plus `ACL` when public; `UploadMetadataUnique` shows the values are fixed too (the same dict is nested at lines 57-64) |
| BlobStorage.PutParams | app/services/blob_storage.py:93-95 | the presigned PUT parameters have 3 entries when a non-empty content type is given and 2 otherwise; `PresignedPut` states their values |
| BlobStorage.UploadMetadataUnique | app/services/blob_storage.py:43-64 | the upload metadata is determined by the content type and the public flag |
| BlobStorage.S3Storage.constructor | app/services/blob_storage.py:25-34 | the bucket and region come from the settings; the prefix is stripped of trailing slashes; the client is created with the configured credentials and region |
| BlobStorage.S3Storage.Key | app/services/blob_storage.py:36-38 | the key is the derived key; it starts with the prefix and ends with the filename |
| BlobStorage.S3Storage.UploadBytes | app/services/blob_storage.py:41-52 | one `put_object` request to the service's bucket with the key it returns and the given bytes; metadata is the content type, `AES256`, and `public-read` only when public, with no other entries; the URL is the canonical URL of the key |
| BlobStorage.S3Storage.UploadStream | app/services/blob_storage.py:55-68 | one `upload_fileobj` request with the same key, URL and metadata as `UploadBytes`, the metadata being the only entry, under `ExtraArgs` |
| BlobStorage.S3Storage.UploadUploadFile | app/services/blob_storage.py:71-73 | returns exactly what `UploadBytes` returns for the upload's filename and content |
| BlobStorage.S3Storage.PresignedGet | app/services/blob_storage.py:85-90 | a `get_object` signing request whose only parameters are the bucket and the key; expiry defaults to 3600; the URL is the signer's answer |
| BlobStorage.S3Storage.PresignedPut | app/services/blob_storage.py:92-96 | a `put_object` signing request that always has the bucket and the key, and has `ContentType` if and only if a non-empty content type is given; expiry defaults to 600 |
| Auth.LoadConfig | app/deps/auth.py:6-11 | loading succeeds if and only if the secret and the issuer are both set and non-empty; otherwise it fails with the fixed message |
| Auth.LowerAscii | app/deps/auth.py:16 | a lower-cased character is never an upper-case ASCII letter; it is the input itself or the input's upper-case letter moved down by 32 |
| Auth.Lower | app/deps/auth.py:16 | lower-casing keeps the length and maps each character on its own |
| Auth.HasBearerScheme | app/deps/auth.py:16 | a header that passes the scheme check has at least 7 characters and a space at index 6; `HasBearerSchemeIff` gives both directions |
| Auth.HasBearerSchemeIff | app/deps/auth.py:16 | the header passes the scheme check if and only if its first 7 characters lower-case to `bearer ` |
| Auth.FirstIndexOf | app/deps/auth.py:18 | the index returned is the first occurrence of the separator; None means the separator does not occur |
| Auth.SplitOnce | app/deps/auth.py:18 | a split at most once gives one part (no separator) or the parts before and after the first separator |
| Auth.BearerSplit | app/deps/auth.py:16-18 | after a passed scheme check the split always has a second part, and it is the header with its first 7 characters removed |
| Auth.DecodeOptionsFor | app/deps/auth.py:20-26 | the verifier gets the configured secret and issuer, the algorithm list `["HS256"]` and no audience check; for a loaded configuration the secret and the issuer are non-empty |
| Auth.GetClaimsAndToken | app/deps/auth.py:13-29 | a missing header counts as empty. A failed scheme check gives 401 `Missing bearer token`. Otherwise the verifier gets `header[7..]` with the secret, `["HS256"]`, the issuer and no audience check; its error gives 401 `Invalid token: ` plus the message, and its claims give `(claims, header[7..])` |
| Auth.RejectedWithoutDecoding | app/deps/auth.py:16-20 | when the scheme check fails, the outcome does not depend on the verifier |
| Auth.DecodedOnce | app/deps/auth.py:18-26 | when the scheme check passes, the outcome depends on the verifier only through its answer for this token and these options |
| Auth.TokenIsHeaderRemainder | app/deps/auth.py:18-29 | the returned token is the header after its scheme, unchanged; `Bearer ` + token rebuilds a header spelled `Bearer ` |
| Auth.AcceptedExamples | app/deps/auth.py:16 | `Bearer x`, `BEARER x` and `bEaReR x` pass the scheme check |
| Auth.RejectedExamples | app/deps/auth.py:16 | `Bearer`, `Bearerx` and `Token x` fail the scheme check |
| Auth.TokenExamples | app/deps/auth.py:18 | `Bearer  a b` yields the token ` a b`; `Bearer ` yields the empty token without an index error |
| Auth.InvalidTokenExample | app/deps/auth.py:27-28 | a verifier error becomes 401 with `Invalid token: ` followed by the message |
| Auth.MissingBearerExample | app/deps/auth.py:15-17 | an absent header and a `Token` header both get 401 `Missing bearer token` |

## Left out

- What the S3 provider does is not modelled. This covers storing, reading and deleting objects, the storage semantics of `put_object` and `upload_fileobj`, and SigV4 signing. The model covers only the requests the service sends.
- `get_object_bytes` and `delete_object` (app/services/blob_storage.py:76-82) are not modelled. Each one passes its key straight to the client, and its behaviour (not-found, idempotent delete) belongs to the provider.
- Client errors (`ClientError`, network failures) are not modelled. Every client call can raise, and the code neither catches nor retries.
- `mimetypes.guess_type` is a lookup table in the standard library. It is the `guess` argument; only the fallback to `application/octet-stream` belongs to this code.
- `datetime.now()` is the `now` argument. Time zones and microseconds do not appear in the key.
- Strftime.FormatStamp: requires a year from 1000 to 9999. `datetime` allows years from 1, but how `%Y` renders years below 1000 depends on the platform.
- BlobStorage.S3Storage.UploadUploadFile: takes the filename as a string. A framework upload whose `filename` is None is not modelled.
- BlobStorage.S3Storage.UploadUploadFile: the asynchronous read is not modelled. The upload's content is given as a value.
- `jose.jwt.decode` is the `decode` argument. Its signature, expiry and issuer checks are cryptography inside the library. Claims are a type parameter with nothing assumed about them.
- Auth.Lower, Auth.LowerAscii: lower-case ASCII letters only. Python's Unicode lower-casing of other characters (`É` to `é`, or `İ` to two characters) is not modelled. No non-ASCII character lower-cases into a character of `bearer `, so the scheme check `HasBearerScheme` accepts the same headers as Python's. This last point is not proved in Dafny.
- Auth.GetClaimsAndToken: takes the header's value, or none. The framework's case-insensitive lookup of the header name is not modelled.
- Nothing in the model states whether the verifier's error message can contain secrets. The message is copied into the 401 detail as given.
- app/routers/test.py is not part of this model. It proxies to a remote profile service: it builds a login URL, passes upstream error statuses through, and answers 400 `No valid fields` when its PATCH field filter leaves nothing. That filter (`k in payload`, line 72) depends on how pydantic models answer `in`, which is not visible here.
- app/db/models/photo.py, app/schemas/photo.py and app/core/config.py are not part of this model. They are an ORM table, data schemas and an environment loader, with no logic of their own to state.
