/**
 * The storage client: the requests each bucket and object operation sends,
 * how a reply becomes a result or a StorageError, and how decoded bodies
 * become File and Bucket records.
 */
module Storage {
  import opened Wrappers
  import opened Json
  import opened Http

  // ---------------------------------------------------------------------------
  // Errors and response handling
  // ---------------------------------------------------------------------------

  /**
   * The exceptions an operation can end with.  StorageError is the library's
   * own; the others are the Python built-in exceptions that decoding raises
   * and that nothing catches.
   */
  datatype Error =
    | StorageError(payload: Json)
    | KeyError(key: string)
    | TypeError(reason: string)
    | ValueError(text: string)
    | FrozenInstanceError(field: string)

  /** Lets a successful reply through unchanged; any other status raises StorageError with the decoded body. */
  function HandleResponse(r: Response): (res: Result<Response, Error>)
    ensures res.Ok? <==> IsSuccess(r.status)
    ensures res.Ok? ==> res.value == r
    ensures res.Err? ==> res.error == StorageError(r.body)
  {
    if IsSuccess(r.status) then Ok(r) else Err(StorageError(r.body))
  }

  /** `_handle_response(r).json()`: the decoded body of a successful reply. */
  function CheckedJson(r: Response): (res: Result<Json, Error>)
    ensures res.Ok? <==> IsSuccess(r.status)
    ensures res.Ok? ==> res.value == r.body
    ensures res.Err? ==> res.error == StorageError(r.body)
  {
    match HandleResponse(r)
    case Ok(resp) => Ok(resp.body)
    case Err(e) => Err(e)
  }

  /** `body[key]` on a decoded body. */
  function Subscript(body: Json, key: string): (res: Result<Json, Error>)
    ensures res.Ok? <==> body.JObj? && key in body.fields
    ensures res.Ok? ==> res.value == body.fields[key]
    ensures body.JObj? && key !in body.fields ==> res == Err(KeyError(key))
    ensures !body.JObj? ==> res.Err? && res.error.TypeError?
  {
    match body
    case JObj(m) => if key in m then Ok(m[key]) else Err(KeyError(key))
    case JArr(_) => Err(TypeError("list indices must be integers or slices, not str"))
    case JStr(_) => Err(TypeError("string indices must be integers"))
    case _ => Err(TypeError("object is not subscriptable"))
  }

  // ---------------------------------------------------------------------------
  // Small string helpers used by the request builders
  // ---------------------------------------------------------------------------

  /** `path or ""` for an optional path. */
  function PathOrEmpty(path: Option<string>): (p: string)
    ensures path.Some? && path.value != "" ==> p == path.value
    ensures path.None? || path.value == "" ==> p == ""
  {
    if path.Some? then path.value else ""
  }

  /** `name or id`: the given name unless it is absent or empty. */
  function NameOrId(name: Option<string>, id: string): (n: string)
    ensures name.Some? && name.value != "" ==> n == name.value
    ensures name.None? || name.value == "" ==> n == id
  {
    if name.Some? && name.value != "" then name.value else id
  }

  function DigitChar(d: int): (c: char)
    requires 0 <= d < 10
    ensures '0' <= c <= '9' && c as int - '0' as int == d
  {
    ('0' as int + d) as char
  }

  /** The decimal digits of `n`, most significant first, without leading zeros. */
  function NatDigits(n: nat): (s: string)
    ensures |s| > 0
    ensures forall i :: 0 <= i < |s| ==> '0' <= s[i] <= '9'
    ensures |s| > 1 ==> s[0] != '0'
    decreases n
  {
    if n < 10 then [DigitChar(n)] else NatDigits(n / 10) + [DigitChar(n % 10)]
  }

  /** `str(n)` for a Python int. */
  function DecimalString(n: int): (s: string)
    ensures |s| > 0
    ensures n < 0 <==> s[0] == '-'
    ensures forall i :: (if n < 0 then 1 else 0) <= i < |s| ==> '0' <= s[i] <= '9'
    ensures n >= 0 ==> s == NatDigits(n)
    ensures n < 0 ==> s[1..] == NatDigits(-n)
  {
    if n < 0 then "-" + NatDigits(-n) else NatDigits(n)
  }

  /** The value of a string of decimal digits (the reading `int(s)` gives it). */
  function DigitsValue(s: string): int
  {
    if s == [] then 0 else DigitsValue(s[..|s| - 1]) * 10 + (s[|s| - 1] as int - '0' as int)
  }

  /** `int(s)` on what DecimalString produces. */
  function ParseDecimal(s: string): int
  {
    if |s| > 0 && s[0] == '-' then -DigitsValue(s[1..]) else DigitsValue(s)
  }

  lemma {:induction false} NatDigitsRoundTrip(n: nat)
    ensures DigitsValue(NatDigits(n)) == n
    decreases n
  {
    if n >= 10 {
      var s := NatDigits(n);
      NatDigitsRoundTrip(n / 10);
      assert s[..|s| - 1] == NatDigits(n / 10);
    }
  }

  /** The `expiresIn` string of a signing request reads back as the given number of seconds. */
  lemma DecimalRoundTrip(n: int)
    ensures ParseDecimal(DecimalString(n)) == n
  {
    if n < 0 {
      NatDigitsRoundTrip(-n);
      assert DecimalString(n)[1..] == NatDigits(-n);
    } else {
      NatDigitsRoundTrip(n);
    }
  }

  /** The index of the last '/' in `path`, or -1 when there is none. */
  function LastSlash(path: string): (k: int)
    ensures -1 <= k < |path|
    ensures k >= 0 ==> path[k] == '/'
    ensures forall j :: k < j < |path| ==> path[j] != '/'
    decreases |path|
  {
    if path == [] then -1
    else if path[|path| - 1] == '/' then |path| - 1
    else LastSlash(path[..|path| - 1])
  }

  /**
   * `path.rsplit("/", maxsplit=1)[-1]`: the text after the last slash, or the
   * whole path when it has none.
   */
  function LastSegment(path: string): (f: string)
    ensures forall i :: 0 <= i < |f| ==> f[i] != '/'
    ensures |f| <= |path| && path[|path| - |f|..] == f
    ensures (forall j :: 0 <= j < |path| ==> path[j] != '/') ==> f == path
    ensures (exists j :: 0 <= j < |path| && path[j] == '/') ==> |f| < |path| && path[|path| - |f| - 1] == '/'
  {
    path[LastSlash(path) + 1..]
  }

  // ---------------------------------------------------------------------------
  // Requests
  // ---------------------------------------------------------------------------

  /** `DEFAULT_SEARCH_OPTIONS`. */
  const DefaultSearchOptions: map<string, Json> :=
    map[
      "limit" := JNum(100),
      "offset" := JNum(0),
      "sortBy" := JObj(map["column" := JStr("name"), "order" := JStr("asc")])
    ]

  /** `{"prefix": path or "", **DEFAULT_SEARCH_OPTIONS, **options}`. */
  function ListBody(path: Option<string>, options: map<string, Json>): (body: map<string, Json>)
    ensures body.Keys == {"prefix", "limit", "offset", "sortBy"} + options.Keys
    ensures forall k :: k in options ==> body[k] == options[k]
    ensures forall k :: k in DefaultSearchOptions && k !in options ==> body[k] == DefaultSearchOptions[k]
    ensures "prefix" !in options ==> body["prefix"] == JStr(PathOrEmpty(path))
  {
    map["prefix" := JStr(PathOrEmpty(path))] + DefaultSearchOptions + options
  }

  function DeleteBucketRequest(id: string): Request {
    Request(Delete, "/bucket/" + id, NoBody, map[])
  }

  function EmptyBucketRequest(id: string): Request {
    Request(Post, "/bucket/" + id + "/empty", JsonBody(JObj(map[])), map[])
  }

  function DownloadRequest(fp: string): Request {
    Request(Get, "/object/authenticated/" + fp, NoBody, map[])
  }

  function SignRequest(name: string, path: string, expiresIn: int): Request {
    Request(Post, "/object/sign/" + name + "/" + path,
            JsonBody(JObj(map["expiresIn" := JStr(DecimalString(expiresIn))])), map[])
  }

  function MoveBody(id: string, source: string, destination: string): Json {
    JObj(map["bucketId" := JStr(id), "sourceKey" := JStr(source), "destinationKey" := JStr(destination)])
  }

  function MoveRequest(id: string, fromPath: string, toPath: string): Request {
    Request(Post, "/object/move", JsonBody(MoveBody(id, fromPath, toPath)), map[])
  }

  function CopyRequest(id: string, filePath: string, target: string): Request {
    Request(Post, "/object/move", JsonBody(MoveBody(id, filePath, target)), map[])
  }

  function RemoveRequest(name: string, path: string): Request {
    Request(Delete, "/object/" + name + "/" + path, NoBody, map[])
  }

  function StringArray(xs: seq<string>): (j: Json)
    ensures j.JArr? && |j.items| == |xs|
    ensures forall i :: 0 <= i < |xs| ==> j.items[i] == JStr(xs[i])
  {
    JArr(seq(|xs|, i requires 0 <= i < |xs| => JStr(xs[i])))
  }

  function BulkRemoveRequest(name: string, paths: seq<string>): Request {
    Request(Delete, "/object/" + name, JsonBody(JObj(map["prefixes" := StringArray(paths)])), map[])
  }

  /** The listing request; it is the one request that passes headers of its own. */
  function ListRequest(name: string, path: Option<string>, options: map<string, Json>,
                       sessionHeaders: map<string, string>): (r: Request)
    ensures r.verb == Post && r.path == "/object/list/" + name
    ensures r.body == JsonBody(JObj(ListBody(path, options)))
    ensures r.headers.Keys == sessionHeaders.Keys + {"Content-Type"}
    ensures r.headers["Content-Type"] == "application/json"
    ensures forall k :: k in sessionHeaders && k != "Content-Type" ==> r.headers[k] == sessionHeaders[k]
  {
    Request(Post, "/object/list/" + name, JsonBody(JObj(ListBody(path, options))),
            sessionHeaders["Content-Type" := "application/json"])
  }

  /**
   * The upload request.  The cache-control and upsert settings are computed
   * by the source into a header dict that is never passed on, so they are not
   * inputs here.
   */
  function UploadRequest(name: string, path: string, content: seq<byte>, mimeType: string): (r: Request)
    ensures r.body.Multipart? && r.body.files.Keys == {"file"}
    ensures r.body.files["file"].filename == LastSegment(path)
    ensures r.body.files["file"].content == content
    ensures r.body.files["file"].contentType == mimeType
  {
    Request(Post, "/object/" + name + "/" + path,
            Multipart(map["file" := FilePart(LastSegment(path), content, mimeType)]), map[])
  }

  function ListBucketsRequest(): Request {
    Request(Get, "/bucket", NoBody, map[])
  }

  function GetBucketRequest(id: string): Request {
    Request(Get, "/bucket/" + id, NoBody, map[])
  }

  function CreateBucketRequest(id: string, name: Option<string>, public: bool): Request {
    Request(Post, "/bucket",
            JsonBody(JObj(map["id" := JStr(id), "name" := JStr(NameOrId(name, id)), "public" := JBool(public)])),
            map[])
  }

  /** Object operations address the bucket by its name, never by its id. */
  lemma ObjectRequestsRouteByName(name: string, path: string, paths: seq<string>,
                                  lpath: Option<string>, options: map<string, Json>, h: map<string, string>,
                                  content: seq<byte>, mime: string, expiresIn: int)
    ensures RemoveRequest(name, path) == Request(Delete, "/object/" + name + "/" + path, NoBody, map[])
    ensures BulkRemoveRequest(name, paths).verb == Delete
    ensures BulkRemoveRequest(name, paths).path == "/object/" + name
    ensures BulkRemoveRequest(name, paths).body == JsonBody(JObj(map["prefixes" := StringArray(paths)]))
    ensures DownloadRequest(name + "/" + path) ==
            Request(Get, "/object/authenticated/" + name + "/" + path, NoBody, map[])
    ensures UploadRequest(name, path, content, mime).verb == Post
    ensures UploadRequest(name, path, content, mime).path == "/object/" + name + "/" + path
    ensures SignRequest(name, path, expiresIn).verb == Post
    ensures SignRequest(name, path, expiresIn).path == "/object/sign/" + name + "/" + path
    ensures SignRequest(name, path, expiresIn).body.json.fields == map["expiresIn" := JStr(DecimalString(expiresIn))]
    ensures ListRequest(name, lpath, options, h).path == "/object/list/" + name
  {
  }

  /** Lifecycle operations address the bucket by its id; the collection operations use the root path. */
  lemma LifecycleRequestsRouteById(id: string, name: Option<string>, public: bool)
    ensures DeleteBucketRequest(id) == Request(Delete, "/bucket/" + id, NoBody, map[])
    ensures EmptyBucketRequest(id) == Request(Post, "/bucket/" + id + "/empty", JsonBody(JObj(map[])), map[])
    ensures GetBucketRequest(id) == Request(Get, "/bucket/" + id, NoBody, map[])
    ensures ListBucketsRequest() == Request(Get, "/bucket", NoBody, map[])
    ensures CreateBucketRequest(id, name, public).verb == Post
    ensures CreateBucketRequest(id, name, public).path == "/bucket"
    ensures CreateBucketRequest(id, name, public).body.json.fields ==
            map["id" := JStr(id), "name" := JStr(NameOrId(name, id)), "public" := JBool(public)]
  {
  }

  /**
   * Every request goes out with the session's own headers (the API key and the
   * bearer token); only the listing request adds one, its JSON content type.
   */
  lemma SessionHeadersOnEveryRequest(s: Session, id: string, name: string, path: string,
                                     target: string, paths: seq<string>, expiresIn: int,
                                     content: seq<byte>, mime: string, bucketName: Option<string>,
                                     public: bool, lpath: Option<string>, options: map<string, Json>)
    ensures s.EffectiveHeaders(SignRequest(name, path, expiresIn)) == s.headers
    ensures s.EffectiveHeaders(MoveRequest(id, path, target)) == s.headers
    ensures s.EffectiveHeaders(CopyRequest(id, path, target)) == s.headers
    ensures s.EffectiveHeaders(RemoveRequest(name, path)) == s.headers
    ensures s.EffectiveHeaders(BulkRemoveRequest(name, paths)) == s.headers
    ensures s.EffectiveHeaders(UploadRequest(name, path, content, mime)) == s.headers
    ensures s.EffectiveHeaders(GetBucketRequest(id)) == s.headers
    ensures s.EffectiveHeaders(CreateBucketRequest(id, bucketName, public)) == s.headers
    ensures s.EffectiveHeaders(DeleteBucketRequest(id)) == s.headers
    ensures s.EffectiveHeaders(EmptyBucketRequest(id)) == s.headers
    ensures s.EffectiveHeaders(DownloadRequest(name + "/" + path)) == s.headers
    ensures s.EffectiveHeaders(ListBucketsRequest()) == s.headers
    ensures s.EffectiveHeaders(ListRequest(name, lpath, options, s.headers)) ==
            s.headers["Content-Type" := "application/json"]
  {
  }

  /** Two different texts between the same prefix and suffix give different strings. */
  lemma {:induction false} InfixSeparates(p: string, a: string, b: string, t: string)
    requires a != b
    ensures p + a + t != p + b + t
  {
    var s1, s2 := p + a + t, p + b + t;
    if |a| == |b| {
      assert s1[|p|..|p| + |a|] == a;
      assert s2[|p|..|p| + |b|] == b;
    } else {
      assert |s1| != |s2|;
    }
  }

  /** Two buckets with different names never share an object request for the same key. */
  lemma ObjectPathSeparatesBuckets(n1: string, n2: string, path: string, paths: seq<string>,
                                   content: seq<byte>, mime: string, expiresIn: int,
                                   lpath: Option<string>, options: map<string, Json>, h: map<string, string>)
    requires n1 != n2
    ensures RemoveRequest(n1, path) != RemoveRequest(n2, path)
    ensures UploadRequest(n1, path, content, mime) != UploadRequest(n2, path, content, mime)
    ensures SignRequest(n1, path, expiresIn) != SignRequest(n2, path, expiresIn)
    ensures DownloadRequest(n1 + "/" + path) != DownloadRequest(n2 + "/" + path)
    ensures BulkRemoveRequest(n1, paths) != BulkRemoveRequest(n2, paths)
    ensures ListRequest(n1, lpath, options, h) != ListRequest(n2, lpath, options, h)
  {
    var t := "/" + path;
    InfixSeparates("/object/", n1, n2, t);
    assert "/object/" + n1 + "/" + path == "/object/" + n1 + t;
    assert "/object/" + n2 + "/" + path == "/object/" + n2 + t;
    InfixSeparates("/object/sign/", n1, n2, t);
    assert "/object/sign/" + n1 + "/" + path == "/object/sign/" + n1 + t;
    assert "/object/sign/" + n2 + "/" + path == "/object/sign/" + n2 + t;
    InfixSeparates("/object/authenticated/", n1, n2, t);
    assert "/object/authenticated/" + (n1 + "/" + path) == "/object/authenticated/" + n1 + t;
    assert "/object/authenticated/" + (n2 + "/" + path) == "/object/authenticated/" + n2 + t;
    InfixSeparates("/object/", n1, n2, "");
    assert "/object/" + n1 + "" == "/object/" + n1;
    assert "/object/" + n2 + "" == "/object/" + n2;
    InfixSeparates("/object/list/", n1, n2, "");
    assert "/object/list/" + n1 + "" == "/object/list/" + n1;
    assert "/object/list/" + n2 + "" == "/object/list/" + n2;
  }

  /** Bucket lifecycle requests address the bucket by id, and different ids give different requests. */
  lemma {:induction false} LifecycleRequestsSeparateIds(id1: string, id2: string)
    requires id1 != id2
    ensures DeleteBucketRequest(id1) != DeleteBucketRequest(id2)
    ensures EmptyBucketRequest(id1) != EmptyBucketRequest(id2)
  {
    var k := |"/bucket/"|;
    var d1, d2 := DeleteBucketRequest(id1).path, DeleteBucketRequest(id2).path;
    assert d1[k..] == id1 && d2[k..] == id2;
    var e1, e2 := EmptyBucketRequest(id1).path, EmptyBucketRequest(id2).path;
    if |id1| == |id2| {
      assert e1[k..|e1| - 6] == id1 && e2[k..|e2| - 6] == id2;
    } else {
      assert |e1| != |e2|;
    }
  }

  /** `move` and `copy` send the same request to the move endpoint. */
  lemma MoveCopyIdentical(id: string, a: string, b: string)
    ensures CopyRequest(id, a, b) == MoveRequest(id, a, b)
    ensures MoveRequest(id, a, b).verb == Post && MoveRequest(id, a, b).path == "/object/move"
    ensures MoveRequest(id, a, b).body.json.fields ==
            map["bucketId" := JStr(id), "sourceKey" := JStr(a), "destinationKey" := JStr(b)]
  {
  }

  // ---------------------------------------------------------------------------
  // Timestamps and records
  // ---------------------------------------------------------------------------

  datatype DateTime = DateTime(year: int, month: int, day: int, hour: int, minute: int,
                               second: int, microsecond: int)

  /** `datetime.fromisoformat` on a string: the parse, when the string is valid ISO 8601. */
  type IsoParser = string -> Option<DateTime>

  /** A Python value handed to `datetime.fromisoformat`: decoded JSON or a datetime. */
  datatype PyValue = JsonValue(j: Json) | DateTimeValue(d: DateTime)

  /** `datetime.fromisoformat(v)`: only a valid ISO string parses; any other argument raises. */
  function FromIsoFormat(v: PyValue, iso: IsoParser): (r: Result<DateTime, Error>)
    ensures r.Ok? <==> v.JsonValue? && v.j.JStr? && iso(v.j.s).Some?
    ensures r.Ok? ==> r.value == iso(v.j.s).value
    ensures v.JsonValue? && v.j.JStr? && iso(v.j.s).None? ==> r == Err(ValueError(v.j.s))
    ensures !(v.JsonValue? && v.j.JStr?) ==> r.Err? && r.error.TypeError?
  {
    match v
    case DateTimeValue(_) => Err(TypeError("fromisoformat: argument must be str"))
    case JsonValue(j) =>
      if j.JStr? then
        match iso(j.s)
        case Some(d) => Ok(d)
        case None => Err(ValueError(j.s))
      else Err(TypeError("fromisoformat: argument must be str"))
  }

  /**
   * The timestamp conversion as intended: a value that already is a datetime
   * is kept, a string is parsed.
   */
  function ToDateTime(v: PyValue, iso: IsoParser): (r: Result<DateTime, Error>)
    ensures v.DateTimeValue? ==> r == Ok(v.d)
    ensures v.JsonValue? ==> r == FromIsoFormat(v, iso)
  {
    if v.DateTimeValue? then Ok(v.d) else FromIsoFormat(v, iso)
  }

  /** A stored object as the service describes it, with its timestamps parsed. */
  datatype File = File(name: string, bucketId: string, owner: string, id: string,
                       createdAt: DateTime, updatedAt: DateTime, lastAccessedAt: DateTime,
                       metadata: Json)

  const FileFields: set<string> :=
    {"name", "bucket_id", "owner", "id", "created_at", "updated_at", "last_accessed_at", "metadata"}

  /** The parts of `File(**i)` before `__post_init__`: `i` must be a dict naming exactly the fields. */
  predicate IsFileRecord(item: Json) {
    item.JObj? && item.fields.Keys == FileFields &&
    item.fields["name"].JStr? && item.fields["bucket_id"].JStr? &&
    item.fields["owner"].JStr? && item.fields["id"].JStr?
  }

  function KeywordError(item: Json): Error {
    if item.JObj? then TypeError("missing or unexpected keyword argument")
    else TypeError("argument after ** must be a mapping")
  }

  /**
   * `File(**i)` as intended: the three timestamps are parsed in field order
   * and stored in place (as `object.__setattr__` would).
   */
  function FileFromJson(item: Json, iso: IsoParser): (r: Result<File, Error>)
    ensures !IsFileRecord(item) ==> r == Err(KeywordError(item))
    ensures IsFileRecord(item) && FromIsoFormat(JsonValue(item.fields["created_at"]), iso).Err? ==>
            r == Err(FromIsoFormat(JsonValue(item.fields["created_at"]), iso).error)
    ensures IsFileRecord(item) && FromIsoFormat(JsonValue(item.fields["created_at"]), iso).Ok? &&
            FromIsoFormat(JsonValue(item.fields["updated_at"]), iso).Err? ==>
            r == Err(FromIsoFormat(JsonValue(item.fields["updated_at"]), iso).error)
    ensures IsFileRecord(item) && FromIsoFormat(JsonValue(item.fields["created_at"]), iso).Ok? &&
            FromIsoFormat(JsonValue(item.fields["updated_at"]), iso).Ok? &&
            FromIsoFormat(JsonValue(item.fields["last_accessed_at"]), iso).Err? ==>
            r == Err(FromIsoFormat(JsonValue(item.fields["last_accessed_at"]), iso).error)
    ensures r.Ok? <==> IsFileRecord(item) &&
                       FromIsoFormat(JsonValue(item.fields["created_at"]), iso).Ok? &&
                       FromIsoFormat(JsonValue(item.fields["updated_at"]), iso).Ok? &&
                       FromIsoFormat(JsonValue(item.fields["last_accessed_at"]), iso).Ok?
    ensures r.Ok? ==> var m := item.fields;
      && m["name"] == JStr(r.value.name) && m["bucket_id"] == JStr(r.value.bucketId)
      && m["owner"] == JStr(r.value.owner) && m["id"] == JStr(r.value.id)
      && m["metadata"] == r.value.metadata
      && FromIsoFormat(JsonValue(m["created_at"]), iso) == Ok(r.value.createdAt)
      && FromIsoFormat(JsonValue(m["updated_at"]), iso) == Ok(r.value.updatedAt)
      && FromIsoFormat(JsonValue(m["last_accessed_at"]), iso) == Ok(r.value.lastAccessedAt)
  {
    if !IsFileRecord(item) then Err(KeywordError(item))
    else
      var m := item.fields;
      match FromIsoFormat(JsonValue(m["created_at"]), iso)
      case Err(e) => Err(e)
      case Ok(created) =>
        match FromIsoFormat(JsonValue(m["updated_at"]), iso)
        case Err(e) => Err(e)
        case Ok(updated) =>
          match FromIsoFormat(JsonValue(m["last_accessed_at"]), iso)
          case Err(e) => Err(e)
          case Ok(accessed) =>
            Ok(File(m["name"].s, m["bucket_id"].s, m["owner"].s, m["id"].s,
                    created, updated, accessed, m["metadata"]))
  }

  /**
   * `File(**i)` as written: the dataclass is frozen, so the first assignment
   * in `__post_init__` raises once its right-hand side has been computed.
   * No File is ever built.
   */
  function FileFromJsonAsWritten(item: Json, iso: IsoParser): (r: Result<File, Error>)
    ensures r.Err?
    ensures !IsFileRecord(item) ==> r.error == KeywordError(item)
    ensures IsFileRecord(item) && FromIsoFormat(JsonValue(item.fields["created_at"]), iso).Ok? ==>
            r.error == FrozenInstanceError("created_at")
  {
    if !IsFileRecord(item) then Err(KeywordError(item))
    else
      match FromIsoFormat(JsonValue(item.fields["created_at"]), iso)
      case Err(e) => Err(e)
      case Ok(_) => Err(FrozenInstanceError("created_at"))
  }

  /** The metadata of a bucket, with its timestamps parsed; the session it is bound to is kept apart. */
  datatype BucketRecord = BucketRecord(id: string, name: string, owner: Option<string>, public: bool,
                                       createdAt: DateTime, updatedAt: DateTime)

  const BucketFields: set<string> := {"id", "name", "owner", "public", "created_at", "updated_at"}

  function OwnerOf(j: Json): Option<string>
    requires j.JStr? || j.JNull?
  {
    if j.JStr? then Some(j.s) else None
  }

  /** `Bucket.__post_init__` as written: both timestamps go through `fromisoformat`, creation time first. */
  function BucketPostInit(id: string, name: string, owner: Option<string>, public: bool,
                          created: PyValue, updated: PyValue, iso: IsoParser): (r: Result<BucketRecord, Error>)
    ensures r.Ok? <==> FromIsoFormat(created, iso).Ok? && FromIsoFormat(updated, iso).Ok?
    ensures r.Ok? ==> r.value == BucketRecord(id, name, owner, public,
                                              FromIsoFormat(created, iso).value, FromIsoFormat(updated, iso).value)
    ensures FromIsoFormat(created, iso).Err? ==> r == Err(FromIsoFormat(created, iso).error)
    ensures FromIsoFormat(created, iso).Ok? && FromIsoFormat(updated, iso).Err? ==>
            r == Err(FromIsoFormat(updated, iso).error)
  {
    match FromIsoFormat(created, iso)
    case Err(e) => Err(e)
    case Ok(c) =>
      match FromIsoFormat(updated, iso)
      case Err(e) => Err(e)
      case Ok(u) => Ok(BucketRecord(id, name, owner, public, c, u))
  }

  /** `Bucket.__post_init__` as intended: a datetime argument is kept as it is. */
  function BucketPostInitFixed(id: string, name: string, owner: Option<string>, public: bool,
                               created: PyValue, updated: PyValue, iso: IsoParser): (r: Result<BucketRecord, Error>)
    ensures r.Ok? <==> ToDateTime(created, iso).Ok? && ToDateTime(updated, iso).Ok?
    ensures r.Ok? ==> r.value == BucketRecord(id, name, owner, public,
                                              ToDateTime(created, iso).value, ToDateTime(updated, iso).value)
    ensures created.JsonValue? && updated.JsonValue? ==>
            r == BucketPostInit(id, name, owner, public, created, updated, iso)
  {
    match ToDateTime(created, iso)
    case Err(e) => Err(e)
    case Ok(c) =>
      match ToDateTime(updated, iso)
      case Err(e) => Err(e)
      case Ok(u) => Ok(BucketRecord(id, name, owner, public, c, u))
  }

  predicate IsBucketRecord(item: Json) {
    item.JObj? && item.fields.Keys == BucketFields &&
    item.fields["id"].JStr? && item.fields["name"].JStr? &&
    (item.fields["owner"].JStr? || item.fields["owner"].JNull?) &&
    item.fields["public"].JBool?
  }

  /** `Bucket(**i, _client=...)` on one decoded bucket description. */
  function BucketFromJson(item: Json, iso: IsoParser): (r: Result<BucketRecord, Error>)
    ensures !IsBucketRecord(item) ==> r == Err(KeywordError(item))
    ensures IsBucketRecord(item) && FromIsoFormat(JsonValue(item.fields["created_at"]), iso).Err? ==>
            r == Err(FromIsoFormat(JsonValue(item.fields["created_at"]), iso).error)
    ensures IsBucketRecord(item) && FromIsoFormat(JsonValue(item.fields["created_at"]), iso).Ok? &&
            FromIsoFormat(JsonValue(item.fields["updated_at"]), iso).Err? ==>
            r == Err(FromIsoFormat(JsonValue(item.fields["updated_at"]), iso).error)
    ensures r.Ok? <==> IsBucketRecord(item) &&
                       FromIsoFormat(JsonValue(item.fields["created_at"]), iso).Ok? &&
                       FromIsoFormat(JsonValue(item.fields["updated_at"]), iso).Ok?
    ensures r.Ok? ==> var m := item.fields;
      && m["id"] == JStr(r.value.id) && m["name"] == JStr(r.value.name)
      && m["public"] == JBool(r.value.public)
      && m["owner"] == (if r.value.owner.Some? then JStr(r.value.owner.value) else JNull)
      && FromIsoFormat(JsonValue(m["created_at"]), iso) == Ok(r.value.createdAt)
      && FromIsoFormat(JsonValue(m["updated_at"]), iso) == Ok(r.value.updatedAt)
  {
    if !IsBucketRecord(item) then Err(KeywordError(item))
    else
      var m := item.fields;
      BucketPostInit(m["id"].s, m["name"].s, OwnerOf(m["owner"]), m["public"].b,
                     JsonValue(m["created_at"]), JsonValue(m["updated_at"]), iso)
  }

  // ---------------------------------------------------------------------------
  // Decoding lists of records
  // ---------------------------------------------------------------------------

  /**
   * `[make(i) for i in items]`: every element decoded in order; the first
   * element that fails decides the error.
   */
  function MapRecords<T>(items: seq<Json>, make: Json -> Result<T, Error>): (r: Result<seq<T>, Error>)
    ensures r.Ok? <==> forall i :: 0 <= i < |items| ==> make(items[i]).Ok?
    ensures r.Ok? ==> |r.value| == |items| &&
                      forall i :: 0 <= i < |items| ==> make(items[i]) == Ok(r.value[i])
    ensures r.Err? ==> exists k :: 0 <= k < |items| && make(items[k]) == Err(r.error) &&
                                   forall i :: 0 <= i < k ==> make(items[i]).Ok?
    decreases |items|
  {
    if items == [] then Ok([])
    else
      match make(items[0])
      case Err(e) => Err(e)
      case Ok(x) =>
        match MapRecords(items[1..], make)
        case Err(e) =>
          var k :| 0 <= k < |items[1..]| && make(items[1..][k]) == Err(e) &&
                   forall i :: 0 <= i < k ==> make(items[1..][i]).Ok?;
          assert make(items[k + 1]) == Err(e);
          Err(e)
        case Ok(xs) => Ok([x] + xs)
  }

  /**
   * A comprehension over a decoded body: an array yields its elements; a dict
   * iterates over its keys and a string over its characters, and `**` refuses
   * both, so only an empty one gets through; nothing else is iterable.
   */
  function ForEachRecord<T>(body: Json, make: Json -> Result<T, Error>): (r: Result<seq<T>, Error>)
    ensures body.JArr? ==> r == MapRecords(body.items, make)
    ensures r.Ok? && !body.JArr? ==> r.value == [] && (body == JObj(map[]) || body == JStr(""))
    ensures body == JObj(map[]) || body == JStr("") ==> r == Ok([])
  {
    match body
    case JArr(items) => MapRecords(items, make)
    case JObj(m) => if m == map[] then Ok([]) else Err(TypeError("argument after ** must be a mapping, not str"))
    case JStr(s) => if s == "" then Ok([]) else Err(TypeError("argument after ** must be a mapping, not str"))
    case _ => Err(TypeError("object is not iterable"))
  }

  /** The files a listing or bulk-removal reply describes. */
  function FilesOf(reply: Response, iso: IsoParser): (r: Result<seq<File>, Error>)
    ensures !IsSuccess(reply.status) ==> r == Err(StorageError(reply.body))
    ensures IsSuccess(reply.status) && reply.body.JArr? ==>
            (r.Ok? <==> forall i :: 0 <= i < |reply.body.items| ==> FileFromJson(reply.body.items[i], iso).Ok?)
    ensures r.Ok? && reply.body.JArr? ==>
            |r.value| == |reply.body.items| &&
            forall i :: 0 <= i < |r.value| ==> FileFromJson(reply.body.items[i], iso) == Ok(r.value[i])
    ensures IsSuccess(reply.status) && reply.body.JArr? && r.Err? ==>
            exists k :: 0 <= k < |reply.body.items| && FileFromJson(reply.body.items[k], iso) == Err(r.error) &&
                        forall i :: 0 <= i < k ==> FileFromJson(reply.body.items[i], iso).Ok?
    ensures IsSuccess(reply.status) && !reply.body.JArr? ==>
            (r.Ok? <==> reply.body == JObj(map[]) || reply.body == JStr("")) && (r.Ok? ==> r.value == [])
  {
    match CheckedJson(reply)
    case Err(e) => Err(e)
    case Ok(body) => ForEachRecord(body, (j: Json) => FileFromJson(j, iso))
  }

  /** The same, with File built as written. */
  function FilesOfAsWritten(reply: Response, iso: IsoParser): Result<seq<File>, Error> {
    match CheckedJson(reply)
    case Err(e) => Err(e)
    case Ok(body) => ForEachRecord(body, (j: Json) => FileFromJsonAsWritten(j, iso))
  }

  /**
   * With File built as written, a listing or bulk removal succeeds only when
   * the reply describes no file at all.
   */
  lemma ListingAsWrittenFailsUnlessEmpty(reply: Response, iso: IsoParser)
    ensures FilesOfAsWritten(reply, iso).Ok? <==>
            IsSuccess(reply.status) &&
            (reply.body == JArr([]) || reply.body == JObj(map[]) || reply.body == JStr(""))
  {
    var make := (j: Json) => FileFromJsonAsWritten(j, iso);
    if IsSuccess(reply.status) && reply.body.JArr? && reply.body.items != [] {
      assert !make(reply.body.items[0]).Ok?;
    }
  }

  /** The buckets a bucket-listing reply describes. */
  function BucketsOf(reply: Response, iso: IsoParser): (r: Result<seq<BucketRecord>, Error>)
    ensures !IsSuccess(reply.status) ==> r == Err(StorageError(reply.body))
    ensures IsSuccess(reply.status) && reply.body.JArr? ==>
            (r.Ok? <==> forall i :: 0 <= i < |reply.body.items| ==> BucketFromJson(reply.body.items[i], iso).Ok?)
    ensures r.Ok? && reply.body.JArr? ==>
            |r.value| == |reply.body.items| &&
            forall i :: 0 <= i < |r.value| ==> BucketFromJson(reply.body.items[i], iso) == Ok(r.value[i])
    ensures IsSuccess(reply.status) && reply.body.JArr? && r.Err? ==>
            exists k :: 0 <= k < |reply.body.items| && BucketFromJson(reply.body.items[k], iso) == Err(r.error) &&
                        forall i :: 0 <= i < k ==> BucketFromJson(reply.body.items[i], iso).Ok?
    ensures IsSuccess(reply.status) && !reply.body.JArr? ==>
            (r.Ok? <==> reply.body == JObj(map[]) || reply.body == JStr("")) && (r.Ok? ==> r.value == [])
  {
    match CheckedJson(reply)
    case Err(e) => Err(e)
    case Ok(body) => ForEachRecord(body, (j: Json) => BucketFromJson(j, iso))
  }

  /** The bucket a single-bucket reply describes. */
  function BucketOf(reply: Response, iso: IsoParser): (r: Result<BucketRecord, Error>)
    ensures !IsSuccess(reply.status) ==> r == Err(StorageError(reply.body))
    ensures IsSuccess(reply.status) ==> r == BucketFromJson(reply.body, iso)
  {
    match CheckedJson(reply)
    case Err(e) => Err(e)
    case Ok(body) => BucketFromJson(body, iso)
  }

  /** The signed URL a signing reply carries. */
  function SignedUrlOf(reply: Response): (r: Result<Json, Error>)
    ensures !IsSuccess(reply.status) ==> r == Err(StorageError(reply.body))
    ensures IsSuccess(reply.status) ==> r == Subscript(reply.body, "signedURL")
  {
    match CheckedJson(reply)
    case Err(e) => Err(e)
    case Ok(body) => Subscript(body, "signedURL")
  }

  /** The raw payload of a download reply. */
  function ContentOf(reply: Response): (r: Result<seq<byte>, Error>)
    ensures r.Ok? <==> IsSuccess(reply.status)
    ensures r.Ok? ==> r.value == reply.content
    ensures r.Err? ==> r.error == StorageError(reply.body)
  {
    match HandleResponse(reply)
    case Err(e) => Err(e)
    case Ok(resp) => Ok(resp.content)
  }

  /** The record `create_bucket` synthesises, as intended: nothing of it comes from the reply. */
  function CreatedBucket(id: string, name: Option<string>, public: bool, reply: Response,
                         now: DateTime, iso: IsoParser): (r: Result<BucketRecord, Error>)
    ensures r.Ok? <==> IsSuccess(reply.status)
    ensures r.Err? ==> r.error == StorageError(reply.body)
    ensures r.Ok? ==> r.value.id == id && r.value.name == NameOrId(name, id) && r.value.owner == None &&
                      r.value.public == public && r.value.createdAt == now && r.value.updatedAt == now
  {
    match HandleResponse(reply)
    case Err(e) => Err(e)
    case Ok(_) => BucketPostInitFixed(id, NameOrId(name, id), None, public, DateTimeValue(now), DateTimeValue(now), iso)
  }

  /**
   * `create_bucket` as written: the synthesised Bucket gets `datetime.now()`
   * for both timestamps, and `__post_init__` hands that datetime to
   * `fromisoformat`, which raises.  The call fails even when the service has
   * created the bucket.
   */
  function CreatedBucketAsWritten(id: string, name: Option<string>, public: bool, reply: Response,
                                  now: DateTime, iso: IsoParser): (r: Result<BucketRecord, Error>)
    ensures r.Err?
    ensures !IsSuccess(reply.status) ==> r.error == StorageError(reply.body)
    ensures IsSuccess(reply.status) ==> r.error.TypeError?
  {
    match HandleResponse(reply)
    case Err(e) => Err(e)
    case Ok(_) => BucketPostInit(id, NameOrId(name, id), None, public, DateTimeValue(now), DateTimeValue(now), iso)
  }

  // ---------------------------------------------------------------------------
  // Operations shared by Bucket and StorageClient
  // ---------------------------------------------------------------------------

  /** `_delete_bucket`. */
  method DeleteBucketWith(session: Session, id: string, reply: Response) returns (r: Result<Json, Error>)
    modifies session
    ensures session.log == old(session.log) + [DeleteBucketRequest(id)]
    ensures r == CheckedJson(reply)
  {
    var resp := session.Send(DeleteBucketRequest(id), reply);
    r := CheckedJson(resp);
  }

  /** `_empty_bucket`. */
  method EmptyBucketWith(session: Session, id: string, reply: Response) returns (r: Result<Json, Error>)
    modifies session
    ensures session.log == old(session.log) + [EmptyBucketRequest(id)]
    ensures r == CheckedJson(reply)
  {
    var resp := session.Send(EmptyBucketRequest(id), reply);
    r := CheckedJson(resp);
  }

  /** `_download_content`. */
  method DownloadContentWith(session: Session, fp: string, reply: Response) returns (r: Result<seq<byte>, Error>)
    modifies session
    ensures session.log == old(session.log) + [DownloadRequest(fp)]
    ensures r == ContentOf(reply)
  {
    var resp := session.Send(DownloadRequest(fp), reply);
    r := ContentOf(resp);
  }

  // ---------------------------------------------------------------------------
  // Bucket
  // ---------------------------------------------------------------------------

  /**
   * A handle on one bucket.  Its metadata never changes after construction;
   * the session is shared with the StorageClient that produced it and with
   * every sibling handle.
   */
  class Bucket {
    const id: string
    const name: string
    const owner: Option<string>
    const public: bool
    const createdAt: DateTime
    const updatedAt: DateTime
    const session: Session

    constructor (rec: BucketRecord, session: Session)
      ensures Record() == rec && this.session == session
    {
      id, name, owner, public := rec.id, rec.name, rec.owner, rec.public;
      createdAt, updatedAt := rec.createdAt, rec.updatedAt;
      this.session := session;
    }

    function Record(): BucketRecord {
      BucketRecord(id, name, owner, public, createdAt, updatedAt)
    }

    /** Builds the public URL of `path` locally; nothing is sent. */
    function GetPublicUrl(path: string): (url: string)
      ensures |url| == |session.baseUrl| + |"/object/public/"| + |path|
      ensures url[..|session.baseUrl|] == session.baseUrl
      ensures url[|session.baseUrl|..|url| - |path|] == "/object/public/"
      ensures url[|url| - |path|..] == path
    {
      session.baseUrl + "/object/public/" + path
    }

    method CreateSignedUrl(path: string, expiresIn: int, nameonly reply: Response) returns (r: Result<Json, Error>)
      modifies session
      ensures session.log == old(session.log) + [SignRequest(name, path, expiresIn)]
      ensures r == SignedUrlOf(reply)
    {
      var resp := session.Send(SignRequest(name, path, expiresIn), reply);
      r := SignedUrlOf(resp);
    }

    method Delete(nameonly reply: Response) returns (r: Result<Json, Error>)
      modifies session
      ensures session.log == old(session.log) + [DeleteBucketRequest(id)]
      ensures r == CheckedJson(reply)
    {
      r := DeleteBucketWith(session, id, reply);
    }

    method Empty(nameonly reply: Response) returns (r: Result<Json, Error>)
      modifies session
      ensures session.log == old(session.log) + [EmptyBucketRequest(id)]
      ensures r == CheckedJson(reply)
    {
      r := EmptyBucketWith(session, id, reply);
    }

    method Move(fromPath: string, toPath: string, nameonly reply: Response) returns (r: Result<Json, Error>)
      modifies session
      ensures session.log == old(session.log) + [MoveRequest(id, fromPath, toPath)]
      ensures r == CheckedJson(reply)
    {
      var resp := session.Send(MoveRequest(id, fromPath, toPath), reply);
      r := CheckedJson(resp);
    }

    method Copy(filePath: string, target: string, nameonly reply: Response) returns (r: Result<Json, Error>)
      modifies session
      ensures session.log == old(session.log) + [CopyRequest(id, filePath, target)]
      ensures r == CheckedJson(reply)
    {
      var resp := session.Send(CopyRequest(id, filePath, target), reply);
      r := CheckedJson(resp);
    }

    method Remove(path: string, nameonly reply: Response) returns (r: Result<Json, Error>)
      modifies session
      ensures session.log == old(session.log) + [RemoveRequest(name, path)]
      ensures r == CheckedJson(reply)
    {
      var resp := session.Send(RemoveRequest(name, path), reply);
      r := CheckedJson(resp);
    }

    method BulkRemove(paths: seq<string>, nameonly reply: Response, nameonly iso: IsoParser)
      returns (r: Result<seq<File>, Error>)
      modifies session
      ensures session.log == old(session.log) + [BulkRemoveRequest(name, paths)]
      ensures r == FilesOf(reply, iso)
    {
      var resp := session.Send(BulkRemoveRequest(name, paths), reply);
      r := FilesOf(resp, iso);
    }

    /**
     * `bulk_remove` as written: the HTTP client's `delete` takes no body, so
     * the `json` keyword is refused before any request is sent.
     */
    method BulkRemoveAsWritten(paths: seq<string>) returns (r: Result<seq<File>, Error>)
      ensures r == Err(TypeError("delete() got an unexpected keyword argument 'json'"))
    {
      r := Err(TypeError("delete() got an unexpected keyword argument 'json'"));
    }

    method List(path: Option<string> := None, options: map<string, Json> := map[],
                nameonly reply: Response, nameonly iso: IsoParser)
      returns (r: Result<seq<File>, Error>)
      modifies session
      ensures session.log == old(session.log) + [ListRequest(name, path, options, session.headers)]
      ensures r == FilesOf(reply, iso)
    {
      var resp := session.Send(ListRequest(name, path, options, session.headers), reply);
      r := FilesOf(resp, iso);
    }

    method Download(path: string, nameonly reply: Response) returns (r: Result<seq<byte>, Error>)
      modifies session
      ensures session.log == old(session.log) + [DownloadRequest(name + "/" + path)]
      ensures r == ContentOf(reply)
    {
      r := DownloadContentWith(session, name + "/" + path, reply);
    }

    /** The cache-control and upsert arguments do not reach the request. */
    method Upload(path: string, content: seq<byte>, cacheControl: int := 3600,
                  mimeType: string := "text/plain;charset=UTF-8", upsert: bool := false,
                  nameonly reply: Response)
      returns (r: Result<Json, Error>)
      modifies session
      ensures session.log == old(session.log) + [UploadRequest(name, path, content, mimeType)]
      ensures r == CheckedJson(reply)
    {
      var resp := session.Send(UploadRequest(name, path, content, mimeType), reply);
      r := CheckedJson(resp);
    }
  }

  /**
   * A client built on a URL without a trailing '/' (the facade's storage URL
   * is one) gets public URLs with a doubled slash before `object`.
   */
  lemma PublicUrlDoublesSlash(b: Bucket, url: string, path: string)
    requires b.session.baseUrl == NormalisedBaseUrl(url)
    requires url == [] || url[|url| - 1] != '/'
    ensures b.GetPublicUrl(path) == url + "//object/public/" + path
  {
    assert NormalisedBaseUrl(url) == url + "/";
  }

  // ---------------------------------------------------------------------------
  // StorageClient
  // ---------------------------------------------------------------------------

  /** The gateway to the bucket collection; it owns the session its buckets share. */
  class StorageClient {
    const url: string
    const session: Session

    constructor (url: string, headers: map<string, string>)
      ensures this.url == url && session.baseUrl == NormalisedBaseUrl(url) && session.headers == headers
      ensures session.log == [] && fresh(session)
    {
      this.url := url;
      session := new Session(url, headers);
    }

    method ListBuckets(nameonly reply: Response, nameonly iso: IsoParser) returns (r: Result<seq<Bucket>, Error>)
      modifies session
      ensures session.log == old(session.log) + [ListBucketsRequest()]
      ensures r.Ok? <==> BucketsOf(reply, iso).Ok?
      ensures r.Err? ==> r.error == BucketsOf(reply, iso).error
      ensures r.Ok? ==> |r.value| == |BucketsOf(reply, iso).value| &&
                        forall i :: 0 <= i < |r.value| ==>
                          r.value[i].Record() == BucketsOf(reply, iso).value[i] &&
                          r.value[i].session == session && fresh(r.value[i])
    {
      var resp := session.Send(ListBucketsRequest(), reply);
      match BucketsOf(resp, iso)
      case Err(e) =>
        r := Err(e);
      case Ok(recs) =>
        var buckets: seq<Bucket> := [];
        for i := 0 to |recs|
          invariant session.log == old(session.log) + [ListBucketsRequest()]
          invariant |buckets| == i
          invariant forall j :: 0 <= j < i ==>
                      buckets[j].Record() == recs[j] && buckets[j].session == session && fresh(buckets[j])
        {
          var b := new Bucket(recs[i], session);
          buckets := buckets + [b];
        }
        r := Ok(buckets);
    }

    method GetBucket(id: string, nameonly reply: Response, nameonly iso: IsoParser) returns (r: Result<Bucket, Error>)
      modifies session
      ensures session.log == old(session.log) + [GetBucketRequest(id)]
      ensures r.Ok? <==> BucketOf(reply, iso).Ok?
      ensures r.Err? ==> r.error == BucketOf(reply, iso).error
      ensures r.Ok? ==> r.value.Record() == BucketOf(reply, iso).value &&
                        r.value.session == session && fresh(r.value)
    {
      var resp := session.Send(GetBucketRequest(id), reply);
      match BucketOf(resp, iso)
      case Err(e) =>
        r := Err(e);
      case Ok(rec) =>
        var b := new Bucket(rec, session);
        r := Ok(b);
    }

    /** Creates a bucket; the handle returned is synthesised locally with `now` as both timestamps. */
    method CreateBucket(id: string, name: Option<string> := None, public: bool := false,
                        nameonly reply: Response, nameonly now: DateTime, nameonly iso: IsoParser)
      returns (r: Result<Bucket, Error>)
      modifies session
      ensures session.log == old(session.log) + [CreateBucketRequest(id, name, public)]
      ensures r.Ok? <==> IsSuccess(reply.status)
      ensures r.Err? ==> r.error == StorageError(reply.body)
      ensures r.Ok? ==> r.value.Record() == CreatedBucket(id, name, public, reply, now, iso).value &&
                        r.value.session == session && fresh(r.value)
    {
      var resp := session.Send(CreateBucketRequest(id, name, public), reply);
      match CreatedBucket(id, name, public, resp, now, iso)
      case Err(e) =>
        r := Err(e);
      case Ok(rec) =>
        var b := new Bucket(rec, session);
        r := Ok(b);
    }

    method EmptyBucket(id: string, nameonly reply: Response) returns (r: Result<Json, Error>)
      modifies session
      ensures session.log == old(session.log) + [EmptyBucketRequest(id)]
      ensures r == CheckedJson(reply)
    {
      r := EmptyBucketWith(session, id, reply);
    }

    method DeleteBucket(id: string, nameonly reply: Response) returns (r: Result<Json, Error>)
      modifies session
      ensures session.log == old(session.log) + [DeleteBucketRequest(id)]
      ensures r == CheckedJson(reply)
    {
      r := DeleteBucketWith(session, id, reply);
    }
  }
}
