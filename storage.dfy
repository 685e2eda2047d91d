/** The storage helpers of backend/utils/supabase.py: the settings read at
    import time, the content-type guess, the URL lookups on the storage
    client's replies, and the checks around an upload. The storage client
    and `mimetypes` are inputs. */
module Storage {
  import opened Py

  // -------------------------------------------------------------- settings

  /** The environment variables the module reads; `None` when unset. */
  datatype Env = Env(projectUrl: Option<string>, serviceKey: Option<string>, bucket: Option<string>, publicRead: Option<string>)

  datatype Config = Config(url: string, key: string, bucket: string, publicRead: bool)

  const DefaultBucket := "mlify-storage"
  const MissingCredentials := "Missing Supabase credentials. Set PROJECT_URL and SERVICE_KEY."

  /** `os.getenv(name, default)` */
  function GetEnv(v: Option<string>, default: string): string
  {
    if v.Some? then v.value else default
  }

  /** The module's import: `RuntimeError` unless both credentials are set
      and non-empty. */
  function LoadConfig(env: Env): (r: Result<Config, string>)
    ensures r.Err? ==> r.error == MissingCredentials
  {
    var url := GetEnv(env.projectUrl, "");
    var key := GetEnv(env.serviceKey, "");
    if url == [] || key == [] then Err(MissingCredentials)
    else Ok(Config(url, key, GetEnv(env.bucket, DefaultBucket),
                   Lower(GetEnv(env.publicRead, "true")) == "true"))
  }

  /** Import succeeds exactly with both credentials; the bucket defaults to
      "mlify-storage"; public read is on by default and otherwise exactly
      when the setting reads "true" in any letter case. */
  lemma ConfigDefaults(env: Env)
    ensures LoadConfig(env).Ok? <==>
      env.projectUrl.Some? && env.projectUrl.value != [] && env.serviceKey.Some? && env.serviceKey.value != []
    ensures LoadConfig(env).Ok? ==>
      && (env.bucket.None? ==> LoadConfig(env).value.bucket == DefaultBucket)
      && (env.publicRead.None? ==> LoadConfig(env).value.publicRead)
      && (env.publicRead == Some("TRUE") ==> LoadConfig(env).value.publicRead)
      && (env.publicRead == Some("yes") ==> !LoadConfig(env).value.publicRead)
      && (LoadConfig(env).value.publicRead <==> env.publicRead.None? || Lower(env.publicRead.value) == "true")
  {
  }

  // ---------------------------------------------------------- content type

  /** The last index of `c` in `s`, or -1. */
  function RFind(s: string, c: char): (r: int)
    ensures -1 <= r < |s|
    ensures r >= 0 ==> s[r] == c && forall k :: r < k < |s| ==> s[k] != c
    ensures r == -1 ==> forall k :: 0 <= k < |s| ==> s[k] != c
  {
    if s == [] then -1 else if s[|s| - 1] == c then |s| - 1 else RFind(s[..|s| - 1], c)
  }

  /** `os.path.splitext(name)[1]`: from the last dot of the last path
      component, unless everything before that dot in the component is
      dots. */
  function Ext(name: string): (r: string)
    ensures r == [] || (r[0] == '.' && EndsWith(name, r) && forall k :: 1 <= k < |r| ==> r[k] != '.' && r[k] != '/')
  {
    var sep := RFind(name, '/');
    var dot := RFind(name, '.');
    if dot > sep && exists k :: sep + 1 <= k < dot && name[k] != '.' then
      assert name[dot..] == name[|name| - |name[dot..]|..];
      name[dot..]
    else []
  }

  /** The override table, looked up with the lower-cased extension. */
  const Overrides: map<string, string> := map[
    ".csv" := "text/csv", ".json" := "application/json", ".txt" := "text/plain; charset=utf-8",
    ".png" := "image/png", ".jpg" := "image/jpeg", ".jpeg" := "image/jpeg",
    ".webp" := "image/webp", ".gif" := "image/gif", ".pdf" := "application/pdf",
    ".pkl" := "application/octet-stream", ".pickle" := "application/octet-stream"]

  const OctetStream := "application/octet-stream"

  /** `_guess_content_type(name, fallback)`; `guess` is
      `mimetypes.guess_type(name)[0]`. */
  function GuessContentType(name: string, guess: string -> Option<string>, fallback: string): string
  {
    var ext := Lower(Ext(name));
    if ext in Overrides then Overrides[ext]
    else if guess(name).Some? && guess(name).value != [] then guess(name).value
    else fallback
  }

  /** The table wins over `mimetypes`, whatever the letter case of the
      extension; otherwise the guess, otherwise the fallback. */
  lemma ContentTypeOrder(name: string, guess: string -> Option<string>, fallback: string)
    ensures Lower(Ext(name)) in Overrides ==> GuessContentType(name, guess, fallback) == Overrides[Lower(Ext(name))]
    ensures Lower(Ext(name)) !in Overrides && guess(name) == None ==> GuessContentType(name, guess, fallback) == fallback
    ensures Lower(Ext(name)) !in Overrides && guess(name).Some? && guess(name).value != [] ==>
      GuessContentType(name, guess, fallback) == guess(name).value
  {
  }

  /** An upper-case ".CSV" is still "text/csv". */
  lemma ContentTypeExamples(guess: string -> Option<string>)
    ensures GuessContentType("uploads/data.CSV", guess, OctetStream) == "text/csv"
  {
    var n := "uploads/data.CSV";
    assert n[7] == '/' && forall k :: 7 < k < |n| ==> n[k] != '/';
    assert RFind(n, '/') == 7;
    assert n[12] == '.' && n[13] != '.' && n[14] != '.' && n[15] != '.';
    assert RFind(n, '.') == 12;
    assert n[8] != '.';
    assert Ext(n) == ".CSV";
    assert Lower(".CSV") == ".csv";
  }

  /** A leading dot and a dot in a directory name do not make an
      extension. */
  lemma ExtExamples()
    ensures Ext(".png") == []
    ensures Ext("graphs/plot.v2/chart") == []
  {
    var g := "graphs/plot.v2/chart";
    assert g[14] == '/' && forall k :: 14 < k < |g| ==> g[k] != '/';
    assert RFind(g, '/') == 14;
    assert g[11] == '.' && forall k :: 11 < k < |g| ==> g[k] != '.';
    assert RFind(g, '.') == 11;
  }

  // --------------------------------------------------------- URL lookups

  /** A storage client reply: a string, a dict, or another object, which
      may have a dict-like `get` and has its `str()` text. */
  datatype Reply =
    | StrReply(s: string)
    | DictReply(fields: seq<(string, Json)>)
    | ObjectReply(get: Option<seq<(string, Json)>>, text: string)

  datatype StorageError = TypeError(message: string) | RuntimeError(message: string) | AttributeError(message: string)

  /** `(res.get("data") or {}).get(key)`: a truthy `data` that is not a dict
      has no `get`. */
  function DataGet(fields: seq<(string, Json)>, key: string): Result<Json, StorageError>
  {
    var data := Get(fields, "data");
    if !Truthy(data) then Ok(JNull)
    else if data.JObj? then Ok(Get(data.fields, key))
    else Err(AttributeError("'" + TypeName(data) + "' object has no attribute 'get'"))
  }

  /** The `publicURL or publicUrl or data.publicURL or data.publicUrl` chain,
      evaluated left to right; `None` when every link is falsy. */
  function PublicChain(fields: seq<(string, Json)>): Result<Option<Json>, StorageError>
  {
    if Truthy(Get(fields, "publicURL")) then Ok(Some(Get(fields, "publicURL")))
    else if Truthy(Get(fields, "publicUrl")) then Ok(Some(Get(fields, "publicUrl")))
    else match DataGet(fields, "publicURL")
      case Err(e) => Err(e)
      case Ok(c) =>
        if Truthy(c) then Ok(Some(c))
        else match DataGet(fields, "publicUrl")
          case Err(e) => Err(e)
          case Ok(d) => if Truthy(d) then Ok(Some(d)) else Ok(None)
  }

  /** `public_url(key)` given the client's reply. A dict reply returns the
      found value as it is; the object path catches its own errors and
      turns the candidate into text. */
  function PublicUrl(res: Reply): Result<Json, StorageError>
  {
    match res
    case StrReply(s) => Ok(JStr(s))
    case DictReply(fields) =>
      (match PublicChain(fields)
       case Err(e) => Err(e)
       case Ok(None) => Ok(JStr(Str(JObj(fields))))
       case Ok(Some(v)) => Ok(v))
    case ObjectReply(get, text) =>
      if get.Some? && PublicChain(get.value).Ok? && PublicChain(get.value).value.Some? then
        Ok(JStr(Str(PublicChain(get.value).value.value)))
      else Ok(JStr(text))
  }

  /** `signed_url(key)` given the client's reply. */
  function SignedUrl(res: Reply): Json
  {
    match res
    case StrReply(s) => JStr(s)
    case DictReply(fields) =>
      if Truthy(Get(fields, "signedURL")) then Get(fields, "signedURL")
      else if Truthy(Get(fields, "signedUrl")) then Get(fields, "signedUrl")
      else JStr(Str(JObj(fields)))
    case ObjectReply(get, text) =>
      if get.Some? && Truthy(Get(get.value, "signedURL")) then JStr(Str(Get(get.value, "signedURL")))
      else if get.Some? && Truthy(Get(get.value, "signedUrl")) then JStr(Str(Get(get.value, "signedUrl")))
      else JStr(text)
  }

  /** A string reply comes back unchanged; the first truthy link of the
      chain wins; a dict reply never gives an empty value; only a truthy
      non-dict `data` that the chain reaches can raise. */
  lemma PublicUrlLookup(res: Reply)
    ensures res.StrReply? ==> PublicUrl(res) == Ok(JStr(res.s))
    ensures res.DictReply? && Truthy(Get(res.fields, "publicURL")) ==> PublicUrl(res) == Ok(Get(res.fields, "publicURL"))
    ensures res.DictReply? && !Truthy(Get(res.fields, "publicURL")) && Truthy(Get(res.fields, "publicUrl")) ==>
      PublicUrl(res) == Ok(Get(res.fields, "publicUrl"))
    ensures res.DictReply? && PublicUrl(res).Ok? ==> Truthy(PublicUrl(res).value)
    ensures PublicUrl(res).Err? ==>
      && res.DictReply?
      && !Truthy(Get(res.fields, "publicURL")) && !Truthy(Get(res.fields, "publicUrl"))
      && Truthy(Get(res.fields, "data")) && !Get(res.fields, "data").JObj?
  {
    if res.DictReply? {
      DictTextIsBraced(res.fields);
    }
  }

  /** The nested lookup only happens when the top-level keys are falsy. */
  lemma PublicUrlNested(fields: seq<(string, Json)>, url: string)
    requires !Truthy(Get(fields, "publicURL")) && !Truthy(Get(fields, "publicUrl"))
    requires Get(fields, "data") == JObj([("publicUrl", JStr(url))]) && url != []
    ensures PublicUrl(DictReply(fields)) == Ok(JStr(url))
  {
    var inner := [("publicUrl", JStr(url))];
    assert "publicUrl" != "publicURL" by { assert "publicUrl"[7] != "publicURL"[7]; }
    assert inner[..0] == [];
    assert Get(inner, "publicURL") == JNull;
    assert Get(inner, "publicUrl") == JStr(url);
  }

  lemma SignedUrlLookup(res: Reply)
    ensures res.StrReply? ==> SignedUrl(res) == JStr(res.s)
    ensures res.DictReply? && Truthy(Get(res.fields, "signedURL")) ==> SignedUrl(res) == Get(res.fields, "signedURL")
    ensures res.DictReply? && !Truthy(Get(res.fields, "signedURL")) && Truthy(Get(res.fields, "signedUrl")) ==>
      SignedUrl(res) == Get(res.fields, "signedUrl")
    ensures res.DictReply? ==> Truthy(SignedUrl(res))
  {
    if res.DictReply? {
      DictTextIsBraced(res.fields);
    }
  }

  // ---------------------------------------------------------------- upload

  /** What `upload_bytes` is given as `data`: raw bytes, or a value of
      another type. */
  datatype Data = Raw(bytes: seq<bv8>) | Other(typeName: string)

  /** `file_opts`. */
  datatype FileOptions = FileOptions(contentType: string, upsert: string)

  /** The upload's reply: its `status_code` attribute if it has one, and
      its `str()` text. */
  datatype UploadReply = UploadReply(statusCode: Option<int>, text: string)

  /** The storage client: an upload, and the replies of the two URL calls. */
  datatype Client = Client(
    upload: (string, string, seq<bv8>, FileOptions) -> UploadReply,
    publicReply: (string, string) -> Reply,
    signedReply: (string, string, int) -> Reply)

  function Options(key: string, contentType: Option<string>, upsert: bool, guess: string -> Option<string>): FileOptions
  {
    var ct := if contentType.Some? && contentType.value != [] then contentType.value else GuessContentType(key, guess, OctetStream);
    FileOptions(ct, if upsert then "true" else "false")
  }

  /** `upload_bytes(data, key, bucket_name=..., content_type=..., upsert=...,
      make_public=...)` */
  function UploadBytes(cfg: Config, client: Client, guess: string -> Option<string>, data: Data, key: string,
                       bucket: string, contentType: Option<string>, upsert: bool, makePublic: Option<bool>): Result<Json, StorageError>
  {
    match data
    case Other(_) => Err(TypeError("upload_bytes expects raw bytes or bytearray"))
    case Raw(bytes) =>
      var res := client.upload(bucket, key, bytes, Options(key, contentType, upsert, guess));
      var status := if res.statusCode.Some? then res.statusCode.value else 200;
      if status != 200 && status != 201 then Err(RuntimeError("Supabase upload failed: " + res.text))
      else
        var public := if makePublic.Some? then makePublic.value else cfg.publicRead;
        if public then PublicUrl(client.publicReply(bucket, key))
        else Ok(SignedUrl(client.signedReply(bucket, key, 3600)))
  }

  /** Data of another type is refused before the client is asked anything:
      the outcome is the same whatever the client does. */
  lemma UploadRefusesNonBytes(cfg: Config, c1: Client, c2: Client, guess: string -> Option<string>, typeName: string,
                              key: string, bucket: string, contentType: Option<string>, upsert: bool, makePublic: Option<bool>)
    ensures var r := UploadBytes(cfg, c1, guess, Other(typeName), key, bucket, contentType, upsert, makePublic);
      && r == Err(TypeError("upload_bytes expects raw bytes or bytearray"))
      && r == UploadBytes(cfg, c2, guess, Other(typeName), key, bucket, contentType, upsert, makePublic)
  {
  }

  /** The upload fails exactly on a status outside {200, 201} (a reply
      without a status counts as 200); otherwise the URL is public when
      asked, or by default when not said, and signed otherwise. */
  lemma UploadOutcome(cfg: Config, client: Client, guess: string -> Option<string>, bytes: seq<bv8>, key: string,
                      bucket: string, contentType: Option<string>, upsert: bool, makePublic: Option<bool>)
    ensures var res := client.upload(bucket, key, bytes, Options(key, contentType, upsert, guess));
      var r := UploadBytes(cfg, client, guess, Raw(bytes), key, bucket, contentType, upsert, makePublic);
      var ok := res.statusCode.None? || res.statusCode.value == 200 || res.statusCode.value == 201;
      && (!ok <==> r == Err(RuntimeError("Supabase upload failed: " + res.text)))
      && (ok && (makePublic == Some(true) || (makePublic.None? && cfg.publicRead)) ==> r == PublicUrl(client.publicReply(bucket, key)))
      && (ok && (makePublic == Some(false) || (makePublic.None? && !cfg.publicRead)) ==> r == Ok(SignedUrl(client.signedReply(bucket, key, 3600))))
  {
    var res := client.upload(bucket, key, bytes, Options(key, contentType, upsert, guess));
    var r := UploadBytes(cfg, client, guess, Raw(bytes), key, bucket, contentType, upsert, makePublic);
    var ok := res.statusCode.None? || res.statusCode.value == 200 || res.statusCode.value == 201;
    if ok {
      var public := if makePublic.Some? then makePublic.value else cfg.publicRead;
      if public {
        PublicUrlNeverRuntime(client.publicReply(bucket, key));
      }
    }
  }

  /** The client receives an explicit non-empty content type as given, so
      the key's extension and `mimetypes` play no part in the upload;
      without one the type comes from the key, a ".CSV" key going up as
      "text/csv". */
  lemma UploadContentType(cfg: Config, client: Client, g1: string -> Option<string>, g2: string -> Option<string>,
                          bytes: seq<bv8>, key: string, bucket: string, ct: string, upsert: bool, makePublic: Option<bool>)
    requires ct != []
    ensures Options(key, Some(ct), upsert, g1) == FileOptions(ct, if upsert then "true" else "false")
    ensures UploadBytes(cfg, client, g1, Raw(bytes), key, bucket, Some(ct), upsert, makePublic)
         == UploadBytes(cfg, client, g2, Raw(bytes), key, bucket, Some(ct), upsert, makePublic)
    ensures Options("uploads/data.CSV", None, upsert, g1).contentType == "text/csv"
  {
    assert Options(key, Some(ct), upsert, g1) == Options(key, Some(ct), upsert, g2);
    ContentTypeExamples(g1);
  }

  lemma PublicUrlNeverRuntime(res: Reply)
    ensures PublicUrl(res).Err? ==> PublicUrl(res).error.AttributeError?
  {
  }
}
