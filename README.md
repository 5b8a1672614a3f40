# supa storage client and URL facade, modelled in Dafny

This project models the storage client of the `supa` library: a thin
asynchronous client for a hosted storage service, organised as a
`StorageClient` (the bucket collection) and `Bucket` handles (objects inside
one bucket), plus the small facade in `supa/client.py` that derives the four
service URLs of a project.

Every storage operation builds exactly one HTTP request, sends it through the
HTTP session shared by the client and all its buckets, checks the reply, and
returns the decoded body, one of its fields, the raw bytes, records decoded
from the body, or a record synthesised locally. The one exception is `bulk_remove`: as written it raises
before anything is sent (see Findings), and the model's `Bucket.BulkRemove` is
the corrected operation. The model keeps that shape:

- `json.dfy` (`Json`): decoded JSON values.
- `http.dfy` (`Http`): requests, replies and the shared `Session` class. The
  session holds the base URL, the session headers and a ghost `log` of every
  request sent. This is the transport boundary. What the service answers is a
  parameter `reply` of each operation.
- `storage.dfy` (`Storage`): `supa/storage.py`. It contains the error kinds, the
  response check, the request builders, record decoding (`File`, `Bucket`), and
  the classes `Bucket` and `StorageClient`. Each method appends exactly one
  request to `session.log`, and its result is a function of `reply`. The
  exception is `Bucket.BulkRemoveAsWritten`, which raises before sending and
  appends nothing. Local URL
  construction (`GetPublicUrl`) is a function and sends nothing.
- `client.dfy` (`Client`): `supa/client.py`, as a function `NewSupa`, a model of
  Python's `str.replace`, and lemmas about the realtime URL.
- `wrappers.dfy` (`Wrappers`): `Option` and `Result`. An `Err` is an exception
  that escapes the operation.

A success is a status in 200..299. Any other status becomes
`StorageError(body)`, which carries the decoded body and is never retried.
Decoding problems are separate errors. Python's own exceptions become
`KeyError`, `TypeError`, `ValueError` and `FrozenInstanceError`, and nothing
translates them.

Behaviour as the code has it, where its documentation reads otherwise:

- `copy` posts to `/object/move`, the same endpoint as `move`, and sends a
  request identical to `move`'s (`MoveCopyIdentical`). The model keeps this.
- `upload` puts cache-control, content-type and upsert headers into a dict but
  never passes that dict to the request. Only the file part's content type
  (`mime_type`) and its file name (the last path segment) are sent. So
  `UploadRequest` has no cache-control or upsert input.
- The HTTP client stores its base URL with a trailing '/'
  (`NormalisedBaseUrl`). The facade's storage URL never ends in one, so
  `get_public_url` yields `.../storage/v1//object/public/{path}` with a doubled
  slash (`PublicUrlDoublesSlash`). The model keeps this.
- `create_bucket` falls back to the id when `name` is absent and also when it
  is empty (`name or id`).
- File construction always fails as written. Bucket construction fails only
  for the record `create_bucket` synthesises; the buckets decoded by
  `list_buckets` and `get_bucket` from ISO strings are built as written, through
  `BucketPostInit` (see Findings). `Bucket.List`, `Bucket.BulkRemove` and
  `StorageClient.CreateBucket` use the corrected constructions. The as-written versions sit beside them with lemmas.
  `bulk_remove` also fails earlier, on the request itself (see Findings).

## Model

Helpers without a contract of their own have no row; the rows that state
their behaviour stand for them. `Client.Replace` (Python's `str.replace`,
supa/client.py:9) and `Client.HttpToWs` are covered by the `Client.HttpToWs*`
rows and `Client.NewSupa`. `Storage.FilesOfAsWritten` (the comprehension of
supa/storage.py:212 and 233 with File built as written) is covered by
`Storage.ListingAsWrittenFailsUnlessEmpty`. The request builders from
`Storage.DeleteBucketRequest` to `Storage.CreateBucketRequest` are covered by
the routing, header and separation rows.

| member | source | states |
|---|---|---|
| `Storage.HandleResponse` | supa/storage.py:20-26 | a 2xx reply is returned as the very same value; any other status gives exactly `StorageError(body)` |
| `Storage.CheckedJson` | supa/storage.py:20-26 | `_handle_response(r).json()`: the decoded body precisely when the status is 2xx, otherwise `StorageError` with that body |
| `Storage.Subscript` | supa/storage.py:113 | `body[key]` succeeds iff the body is an object holding the key; a missing key is `KeyError(key)`, and a non-object raises `TypeError` |
| `Storage.PathOrEmpty` | supa/storage.py:227 | `path or ""`: the path when it is given and non-empty, otherwise `""` |
| `Storage.NameOrId` | supa/storage.py:323 | `name or id`: the name when it is given and non-empty, otherwise the id |
| `Storage.NatDigits` | supa/storage.py:112 | decimal digits of a natural: non-empty, only digits, no leading zero |
| `Storage.DecimalString` | supa/storage.py:112 | `str(n)`: non-empty, with a leading '-' exactly for negative `n` and only digits after it. For `n >= 0` it is the canonical digit string `NatDigits(n)`, and for `n < 0` it is '-' followed by `NatDigits(-n)` |
| `Storage.DecimalRoundTrip` | supa/storage.py:112 | the `expiresIn` string reads back as the given seconds: `ParseDecimal(DecimalString(n)) == n` for every int |
| `Storage.LastSlash` | supa/storage.py:268 | the position of the last '/' in the path, or -1 when there is none; no '/' follows it |
| `Storage.LastSegment` | supa/storage.py:268 | the upload filename has no '/' and is a suffix of the path. It is the whole path when the path has no '/', otherwise the text right after the last '/' |
| `Storage.ListBody` | supa/storage.py:11-18 | the merged list body: its keys are prefix, limit, offset, sortBy plus the caller's keys. Each caller key replaces its value wholesale, so a partial sortBy replaces the whole object. Absent keys keep limit 100, offset 0 and sortBy name/asc. The prefix is `path or ""` unless overridden |
| `Storage.ListRequest` | supa/storage.py:226-232 | POST `/object/list/{name}` with the merged body. Its headers are the session headers with `Content-Type: application/json` added or replaced. They add nothing else |
| `Storage.UploadRequest` | supa/storage.py:266-274 | the multipart body has exactly one `file` part. It carries the last path segment as filename, the bytes unchanged, and `mime_type` as its content type |
| `Storage.StringArray` | supa/storage.py:211 | the `prefixes` array lists the given paths, in order |
| `Storage.ObjectRequestsRouteByName` | supa/storage.py:112-274 | remove is DELETE `/object/{name}/{path}`. Bulk remove, in its corrected form, is DELETE `/object/{name}` with `{prefixes}`. Download is GET `/object/authenticated/{name}/{path}`. Upload is POST `/object/{name}/{path}`. Sign is POST `/object/sign/{name}/{path}` with `{expiresIn}`. List goes to `/object/list/{name}`. None of them uses the bucket id |
| `Storage.ObjectPathSeparatesBuckets` | supa/storage.py:112-274 | two different bucket names never give the same remove, upload, sign, download, bulk-remove or listing request for the same path and arguments (any listing path, given or not) |
| `Storage.LifecycleRequestsRouteById` | supa/storage.py:29-36 | delete is DELETE `/bucket/{id}`. Empty is POST `/bucket/{id}/empty` with `{}`. Get is GET `/bucket/{id}` and list is GET `/bucket`. Create is POST `/bucket` with `{id, name: name or id, public}` |
| `Storage.LifecycleRequestsSeparateIds` | supa/storage.py:29-36 | different ids give different delete requests and different empty requests |
| `Storage.SessionHeadersOnEveryRequest` | supa/storage.py:29-323 | each of the thirteen requests (sign, move, copy, remove, bulk remove, upload, download, delete, empty, get, create, list buckets, list objects) goes out with exactly the session headers, except the object listing, which also sets the JSON content type |
| `Storage.MoveCopyIdentical` | supa/storage.py:154-183 | `copy(a, b)` and `move(a, b)` send the same request: POST `/object/move` with `{bucketId: id, sourceKey: a, destinationKey: b}` |
| `Storage.FromIsoFormat` | supa/storage.py:59-61 | `datetime.fromisoformat` succeeds only on a string the ISO parser accepts, and then gives that parse. An unparseable string raises `ValueError`. A datetime or any non-string raises `TypeError` |
| `Storage.ToDateTime` | supa/storage.py:86-87 | the intended conversion keeps a datetime unchanged and parses anything else as `fromisoformat` does |
| `Storage.FileFromJson` | supa/storage.py:42-61 | `File(**i)` as intended. It succeeds iff `i` is a dict with exactly the eight fields and all three timestamps parse. The File then holds `i`'s values and the three parsed timestamps. A non-dict or wrong keys give `TypeError`. Otherwise the first timestamp that fails, in the order `created_at`, `updated_at`, `last_accessed_at`, gives its error |
| `Storage.FileFromJsonAsWritten` | supa/storage.py:42-61 | `File(**i)` as written never yields a File. For a well-formed record it raises `FrozenInstanceError` on `created_at` |
| `Storage.BucketPostInit` | supa/storage.py:85-87 | `Bucket.__post_init__` as written: succeeds iff both timestamps go through `fromisoformat`, and then stores both parses. A failing `created_at` decides the error; otherwise a failing `updated_at` does |
| `Storage.BucketPostInitFixed` | supa/storage.py:85-87 | the intended post-init keeps datetimes and parses strings. On string inputs it agrees exactly with the as-written one |
| `Storage.BucketFromJson` | supa/storage.py:77-87 | `Bucket(**i, _client=...)` succeeds iff `i` has exactly the six fields and both timestamps parse. The record then holds `i`'s id, name, owner (null for no owner), public flag and both parsed timestamps. Wrong keys give `TypeError`; otherwise the first failing timestamp gives its error |
| `Storage.MapRecords` | supa/storage.py:212 | the comprehension succeeds iff every element decodes. Its result has one record per element, in order. Otherwise the error is that of the first element that fails |
| `Storage.ForEachRecord` | supa/storage.py:233 | an array is decoded element by element. An empty dict or empty string gives `[]`, and every other non-array fails |
| `Storage.FilesOf` | supa/storage.py:211-212 | a non-2xx reply gives `StorageError(body)`. An array reply succeeds iff every element is a valid file record, and then gives exactly one File per element, in order. Otherwise the error is that of the first element that fails. A 2xx non-array body succeeds, with no Files, iff it is an empty dict or empty string |
| `Storage.ListingAsWrittenFailsUnlessEmpty` | supa/storage.py:233 | with File built as written, decoding a listing reply succeeds iff the reply is a 2xx with an empty array, dict or string |
| `Storage.BucketsOf` | supa/storage.py:292-294 | a non-2xx reply gives `StorageError`. A 2xx array reply succeeds iff every element is a valid bucket record, and then gives one record per element, in order; otherwise the error is that of the first element that fails. A 2xx non-array body succeeds, with no records, iff it is an empty dict or empty string |
| `Storage.BucketOf` | supa/storage.py:305-307 | a non-2xx reply gives `StorageError`; a 2xx reply decodes the body as one bucket |
| `Storage.SignedUrlOf` | supa/storage.py:112-113 | the signed URL is the body's `signedURL` field of a 2xx reply; otherwise `StorageError` |
| `Storage.ContentOf` | supa/storage.py:38-40 | download returns the raw bytes of a 2xx reply unmodified; otherwise `StorageError` with the decoded body |
| `Storage.CreatedBucket` | supa/storage.py:323-325 | the intended create result. It succeeds iff the status is 2xx. The bucket has the given id, `name or id` as name, no owner, the given public flag, and `now` as both timestamps |
| `Storage.CreatedBucketAsWritten` | supa/storage.py:323-325 | as written, `create_bucket` never returns. A 2xx reply ends in `TypeError`, and any other status in `StorageError(body)` |
| `Storage.DeleteBucketWith` | supa/storage.py:29-31 | `_delete_bucket` sends exactly the delete request for the id and returns the checked body |
| `Storage.EmptyBucketWith` | supa/storage.py:34-36 | `_empty_bucket` sends exactly the empty request for the id and returns the checked body |
| `Storage.DownloadContentWith` | supa/storage.py:38-40 | `_download_content` sends exactly one GET of the authenticated path and returns the raw content |
| `Storage.Bucket.constructor` | supa/storage.py:64-87 | a bucket handle holds the given metadata and the shared session |
| `Storage.Bucket.GetPublicUrl` | supa/storage.py:89-100 | the session's stored base URL, then `/object/public/`, then the path. It is a function, so no request is sent |
| `Storage.PublicUrlDoublesSlash` | supa/storage.py:100 | for a client built on a URL without a trailing '/', the public URL is that URL, then `//object/public/`, then the path |
| `Http.NormalisedBaseUrl` | supa/storage.py:283 | the stored base URL is the given URL with a '/' appended unless it already ends in one; it always ends in '/' and starts with the given URL |
| `Storage.Bucket.CreateSignedUrl` | supa/storage.py:102-113 | logs exactly `SignRequest(name, path, expires_in)` and returns the `signedURL` of the checked reply |
| `Storage.Bucket.Delete` | supa/storage.py:115-124 | logs exactly the delete request for the bucket's id |
| `Storage.Bucket.Empty` | supa/storage.py:126-133 | logs exactly the empty request for the bucket's id |
| `Storage.Bucket.Move` | supa/storage.py:135-160 | logs exactly `MoveRequest(id, from, to)` and returns the checked body |
| `Storage.Bucket.Copy` | supa/storage.py:162-184 | logs exactly `CopyRequest(id, file, target)`, which is the move request, and returns the checked body |
| `Storage.Bucket.Remove` | supa/storage.py:186-198 | logs exactly the name-routed DELETE of the path |
| `Storage.Bucket.BulkRemove` | supa/storage.py:200-212 | the corrected bulk removal: logs exactly the name-routed DELETE with the prefixes. It returns one File per element the service reports, not one per requested path |
| `Storage.Bucket.BulkRemoveAsWritten` | supa/storage.py:211 | as written, `bulk_remove` raises `TypeError` for the `json` keyword, sends nothing and returns nothing |
| `Storage.Bucket.List` | supa/storage.py:214-233 | logs exactly the listing request, built with the session's current headers, and returns the Files of the reply |
| `Storage.Bucket.Download` | supa/storage.py:235-246 | logs exactly the GET of `{name}/{path}` under `/object/authenticated/` and returns the bytes |
| `Storage.Bucket.Upload` | supa/storage.py:248-275 | logs exactly `UploadRequest(name, path, content, mime_type)`, whatever the cache-control and upsert arguments are |
| `Storage.StorageClient.constructor` | supa/storage.py:281-283 | stores the URL and creates a fresh session holding the normalised base URL and those headers, with nothing sent yet |
| `Storage.StorageClient.ListBuckets` | supa/storage.py:285-294 | logs exactly GET `/bucket`. On success it returns one fresh Bucket per decoded record, in order, each bound to the client's session; otherwise the decoding or `StorageError` |
| `Storage.StorageClient.GetBucket` | supa/storage.py:296-307 | logs exactly GET `/bucket/{id}`. It returns a fresh Bucket with the decoded record, bound to the shared session, or the error |
| `Storage.StorageClient.CreateBucket` | supa/storage.py:309-325 | logs exactly the create request. It succeeds iff the status is 2xx, and then returns a fresh handle on the shared session holding the synthesised record; otherwise `StorageError(body)` |
| `Storage.StorageClient.EmptyBucket` | supa/storage.py:327-336 | logs exactly the shared empty request for the id |
| `Storage.StorageClient.DeleteBucket` | supa/storage.py:338-349 | logs exactly the shared delete request for the id |
| `Client.NewSupa` | supa/client.py:3-11 | url and key are stored unchanged. `rest_url`, `auth_url` and `storage_url` are the url with `/rest/v1`, `/auth/v1` and `/storage/v1` appended. `realtime_url` equals the rewritten url followed by `/realtime/v1`, and it contains no "http" |
| `Client.HttpToWsRemovesHttp` | supa/client.py:9 | left-to-right, non-overlapping replacement of "http" by "ws" leaves no "http" in any string |
| `Client.HttpToWsAppend` | supa/client.py:9 | appending a suffix that starts with '/' and holds no "http" commutes with the replacement |
| `Client.HttpToWsKeepsHttpFree` | supa/client.py:9 | a string without "http" is not changed by the replacement |
| `Client.SecureSchemeExample` | supa/client.py:9 | `https://x` gives the realtime URL `wss://x/realtime/v1` |

## Left out

- Asynchrony, the connection pool and concurrent requests: each operation is one sequential step that sends one request.
- The transport itself: the service's reply is a parameter of each operation, and no network behaviour (timeouts, redirects, transport errors) is modelled.
- How httpx parses URLs and merges headers: only its trailing-slash rule for the base URL is modelled (`NormalisedBaseUrl`). URL parsing, percent-encoding, a host-only URL (whose empty path httpx reads as '/'), and how a request path is joined to the base URL are not modelled; request paths are kept as the source writes them. `Session.EffectiveHeaders` overrides keys exactly, and header names are not case-folded. httpx's default client headers (Accept, Accept-Encoding, Connection, User-Agent), which the listing request also copies, and the Content-Type and Content-Length it adds for JSON and multipart bodies are not modelled.
- Storage.DecimalString: recent CPython releases make `str(n)` raise `ValueError` for an int of more than 4300 digits; the model converts every int.
- The JSON decoding of `r.json()`: a reply carries its decoded body next to its raw bytes. A body that is not JSON, and JSON floats, are not represented. An object's key order is not kept.
- `datetime.fromisoformat` and `datetime.now`: the ISO parser is the parameter `iso` and the clock is the parameter `now`. Neither is defined here.
- Storage.FileFromJson: Python's dataclass stores any value in `name`, `bucket_id`, `owner` and `id`, and the model instead raises `TypeError` unless they are strings. `metadata` is kept as any JSON value, not `dict[str, str]`.
- Storage.BucketFromJson: likewise, the model raises `TypeError` unless `id` and `name` are strings, `owner` is a string or null and `public` is a boolean, where the dataclass would store any value.
- Storage.Bucket.Upload: the file argument is the byte content. A file-like object and the multipart wire encoding (boundary, part headers) are not modelled.
- `supa/managers.py` and `supa/context.py` are not part of this model: one wraps an external database client, the other is an import shim. `supa/exceptions.py` appears only as the `StorageError` constructor of `Storage.Error`.
- Success is taken to be a 2xx status, which is what current httpx `raise_for_status` accepts. Older httpx releases raise only for 4xx and 5xx, and that variant is not modelled.

## Findings

| source | as written | input that shows it | evidently intended | confidence | as-written member | corrected member |
|---|---|---|---|---|---|---|
| supa/storage.py:42-61 | `File` is a frozen dataclass, yet `__post_init__` assigns its timestamp fields, so building any File fails; once `created_at` parses, it fails with `FrozenInstanceError` | `list()` on a bucket holding one object | the three timestamps parsed and stored (through `object.__setattr__`), so listings return Files | high; not executed | `Storage.FileFromJsonAsWritten` | `Storage.FileFromJson` |
| supa/storage.py:323-325 | `create_bucket` builds the Bucket with `datetime.now()` for both timestamps, and `Bucket.__post_init__` passes that datetime to `datetime.fromisoformat`, which raises `TypeError` after the service has created the bucket | `create_bucket("x")` with a 2xx reply | the synthesised Bucket returned with `now` as both timestamps | high; not executed | `Storage.CreatedBucketAsWritten` | `Storage.CreatedBucket` |
| supa/storage.py:211 | `bulk_remove` calls the HTTP client's `delete` with a `json` keyword, which httpx's `delete` does not accept (the line's `# type: ignore` hides this), so it raises `TypeError` before any request is sent | `bulk_remove(["a"])` with any reply | a DELETE with the `{prefixes}` body, sent through the generic `request("DELETE", ...)`, whose reply lists the removed files | high (rests on httpx's published signature); not executed | `Storage.Bucket.BulkRemoveAsWritten` | `Storage.Bucket.BulkRemove` |
