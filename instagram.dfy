/**
 * The Instagram publish handler: the credential and login guards, the image
 * extension taken from a URL or from a base64 header (where only jpg/jpeg pass),
 * the temporary file the image is staged in, the upload options, and the message
 * an upload failure is re-raised with.
 */
module Instagram {
  import opened Wrappers
  import opened Values
  import opened Strings

  type Bytes = seq<bv8>

  const MissingCredential := "请先配置 Instagram 账号"
  const LoginFailed := "登录 Instagram 失败"
  const NotJpeg := "传入的 base64 图片不是 jpg 或者 jpeg 格式"
  const FailurePrefix := "发布失败："
  const FailureSignature := "Request processing failed"
  const JpegHint := "请检查图片是否为 jpg 或者 jpeg 格式（注意不能直接修改文件后缀，需要进行实际转换）"

  /**
   * `image_url.split('/')[-1].split('.')[-1]`, or "jpg" when the split raises (the
   * URL is not a string). The result is the longest tail of the URL that holds
   * neither '/' nor '.'.
   */
  function UrlExtension(url: Value): (ext: string)
    ensures !url.Str? ==> ext == "jpg"
    ensures url.Str? ==>
              && |ext| <= |url.s|
              && url.s[|url.s| - |ext|..] == ext
              && '/' !in ext && '.' !in ext
              && (|ext| < |url.s| ==> url.s[|url.s| - |ext| - 1] == '/' || url.s[|url.s| - |ext| - 1] == '.')
  {
    match url
    case Str(s) =>
      var segment := AfterLast(s, '/');
      var ext := AfterLast(segment, '.');
      LastOfLast(s, segment, ext);
      ext
    case _ => "jpg"
  }

  /**
   * A last '/'-segment without a '.' is the extension as a whole; "jpg" is never
   * substituted for a string URL, even when its extension comes out empty.
   */
  lemma UrlSegmentWithoutDot(url: string)
    requires '.' !in AfterLast(url, '/')
    ensures UrlExtension(Str(url)) == AfterLast(url, '/')
  {
  }

  /** The last '.'-piece of the last '/'-piece is a tail holding neither separator. */
  lemma LastOfLast(s: string, segment: string, ext: string)
    requires IsLastPiece(s, '/', segment) && IsLastPiece(segment, '.', ext)
    ensures |ext| <= |s| && s[|s| - |ext|..] == ext && '/' !in ext
    ensures |ext| < |s| ==> s[|s| - |ext| - 1] == '/' || s[|s| - |ext| - 1] == '.'
  {
    assert s[|s| - |ext|..] == segment[|segment| - |ext|..];
    assert forall k :: 0 <= k < |ext| ==> ext[k] == segment[|segment| - |ext| + k];
    if |ext| < |segment| {
      assert s[|s| - |ext| - 1] == segment[|segment| - |ext| - 1];
    }
  }

  /**
   * `image_base64.split(';')[0].split('/')[1]`: the text between the first '/' and
   * the next '/' of the header before the first ';'. Splitting a non-string raises
   * an AttributeError, a header without '/' an IndexError.
   */
  function Base64Extension(data: Value): (r: Result<string, Error>)
    ensures !data.Str? ==> r == Err(AttributeError("split"))
    ensures data.Str? ==>
              var header := Before(data.s, ';');
              && (r.Ok? <==> '/' in header)
              && ('/' !in header ==> r == Err(IndexError))
              && ('/' in header ==> r.value == Before(header[IndexOf(header, '/') + 1..], '/'))
  {
    match data
    case Str(s) =>
      FirstPieceOfSplit(s, ';');
      var header := Split(s, ';')[0];
      var parts := Split(header, '/');
      if |parts| < 2 then Err(IndexError)
      else
        SecondPieceOfSplit(header, '/');
        Ok(parts[1])
    case _ => Err(AttributeError("split"))
  }

  /** `extension not in ['jpg', 'jpeg']` fails. */
  predicate IsJpeg(ext: string)
  {
    ext == "jpg" || ext == "jpeg"
  }

  /** `input_data.get('image_type')`. */
  function ImageType(d: map<string, Value>): Value
  {
    Get(d, "image_type", Null)
  }

  /**
   * The extension the staged file gets, or the error raised while working it out:
   * from the URL in url mode, from the base64 header (jpg/jpeg only) in base64 mode,
   * and empty in any other mode.
   */
  function StagedExtension(d: map<string, Value>): (r: Result<string, Error>)
    ensures ImageType(d) == Str("url") ==> r == Ok(UrlExtension(Get(d, "image_url", Null)))
    ensures ImageType(d) == Str("base64") && r.Ok? ==> IsJpeg(r.value)
    ensures ImageType(d) == Str("base64") ==>
              var parsed := Base64Extension(Get(d, "image_base64", Null));
              (parsed.Ok? && !IsJpeg(parsed.value) ==> r == Err(Raised(NotJpeg)))
              && (parsed.Err? ==> r == parsed)
              && (parsed.Ok? && IsJpeg(parsed.value) ==> r == parsed)
    ensures ImageType(d) != Str("url") && ImageType(d) != Str("base64") ==> r == Ok("")
  {
    var imageType := ImageType(d);
    if imageType == Str("url") then Ok(UrlExtension(Get(d, "image_url", Null)))
    else if imageType == Str("base64") then
      match Base64Extension(Get(d, "image_base64", Null))
      case Err(e) => Err(e)
      case Ok(ext) => if IsJpeg(ext) then Ok(ext) else Err(Raised(NotJpeg))
    else Ok("")
  }

  /** `Path(folder, name)` rendered as text: one '/' between a non-empty folder and the name. */
  function JoinPath(folder: string, name: string): (path: string)
  {
    if folder == "" then name
    else if folder[|folder| - 1] == '/' then folder + name
    else folder + "/" + name
  }

  /** The joined path ends with the name, after the folder and exactly one '/'. */
  lemma JoinPathParts(folder: string, name: string)
    requires folder != []
    ensures var path := JoinPath(folder, name);
            && |name| < |path| && path[|path| - |name|..] == name
            && path[|path| - |name| - 1] == '/'
            && (path[..|path| - |name|] == folder || path[..|path| - |name|] == folder + "/")
  {
  }

  /** The name of the staged file: `<uuid>.<extension>`. */
  function StagedName(uuid: string, ext: string): string
  {
    uuid + "." + ext
  }

  /**
   * The staged file's name is the text after the last '/' of its path, and the
   * extension is what follows its last '.', provided neither the uuid nor the
   * extension holds a '/' and the extension holds no '.'.
   */
  lemma StagedPathParts(folder: string, uuid: string, ext: string)
    requires '/' !in uuid && '/' !in ext && '.' !in ext
    ensures AfterLast(JoinPath(folder, StagedName(uuid, ext)), '/') == StagedName(uuid, ext)
    ensures AfterLast(StagedName(uuid, ext), '.') == ext
  {
    var name := StagedName(uuid, ext);
    var path := JoinPath(folder, name);
    assert '/' !in name by {
      assert forall k :: 0 <= k < |name| ==> name[k] == (if k < |uuid| then uuid[k] else if k == |uuid| then '.' else ext[k - |uuid| - 1]);
    }
    if folder != [] {
      JoinPathParts(folder, name);
    }
    LastPieceUnique(path, '/', AfterLast(path, '/'), name);
    LastPieceUnique(name, '.', AfterLast(name, '.'), ext);
  }

  /** The text after the last separator is determined by the string. */
  lemma LastPieceUnique(s: string, sep: char, r1: string, r2: string)
    requires IsLastPiece(s, sep, r1)
    requires |r2| <= |s| && s[|s| - |r2|..] == r2 && sep !in r2
    requires |r2| < |s| ==> s[|s| - |r2| - 1] == sep
    ensures r1 == r2
  {
  }

  /** `1 if v else 0`. */
  function Flag(v: Value): (n: int)
    ensures n == 1 <==> Truthy(v)
    ensures n == 0 <==> !Truthy(v)
  {
    if Truthy(v) then 1 else 0
  }

  /**
   * The `extra_data` of the upload: the accessibility caption as given (None by
   * default) and the two switches as 1 or 0 (off by default).
   */
  function UploadOptions(d: map<string, Value>): (extra: map<string, Value>)
    ensures extra.Keys == {"custom_accessibility_caption", "like_and_view_counts_disabled", "disable_comments"}
    ensures extra["custom_accessibility_caption"]
              == (if "custom_accessibility_caption" in d then d["custom_accessibility_caption"] else Null)
    ensures extra["like_and_view_counts_disabled"]
              == Int(if "like_and_view_counts_disabled" in d && Truthy(d["like_and_view_counts_disabled"]) then 1 else 0)
    ensures extra["disable_comments"]
              == Int(if "disable_comments" in d && Truthy(d["disable_comments"]) then 1 else 0)
  {
    map[
      "custom_accessibility_caption" := Get(d, "custom_accessibility_caption", Null),
      "like_and_view_counts_disabled" := Int(Flag(Get(d, "like_and_view_counts_disabled", Bool(false)))),
      "disable_comments" := Int(Flag(Get(d, "disable_comments", Bool(false))))
    ]
  }

  /**
   * The message an upload failure is re-raised with: the failure prefix, the
   * original message, and the jpg hint exactly when the original message holds the
   * known failure signature. (The check is made on the prefixed text; the prefix
   * cannot contribute to a match.)
   */
  function PublishFailure(message: string): (m: string)
    ensures FailurePrefix + message <= m
    ensures Contains(message, FailureSignature) ==> m == FailurePrefix + message + JpegHint
    ensures !Contains(message, FailureSignature) ==> m == FailurePrefix + message
  {
    var m := FailurePrefix + message;
    ContainsAfterPrefix(FailurePrefix, message, FailureSignature);
    if Contains(m, FailureSignature) then m + JpegHint else m
  }

  /** What the handler asks of its collaborators, in order. */
  datatype Effect =
    | NewClient(proxy: Option<string>)
    | Login(username: Value, password: Value)
    | DownloadImage(url: Value)
    | DecodeBase64(encoded: Value)
    | TmpFilesFolder
    | SaveImage(data: Option<Bytes>, path: string)
    | PhotoUpload(path: string, caption: Value, extra: map<string, Value>)

  /**
   * How the collaborators answer: an `Err` is the message of the exception a call
   * raises. `upload` is the media JSON parsed back, as the handler returns it.
   */
  datatype Script = Script(
    login: Result<bool, string>,
    download: Result<Bytes, string>,
    decode: Result<Bytes, string>,
    tmpFolder: Result<string, string>,
    uuid: string,
    saveFailure: Option<string>,
    upload: Result<Value, string>)

  /**
   * The handler's collaborators (the instagrapi client and the download, decode and
   * file helpers), answering from a script and logging every call.
   */
  class Environment {
    const proxy: Option<string>
    const script: Script
    var log: seq<Effect>

    constructor (proxy: Option<string>, script: Script)
      ensures this.proxy == proxy && this.script == script && log == []
    {
      this.proxy := proxy;
      this.script := script;
      log := [];
    }

    method NewClient()
      modifies this
      ensures log == old(log) + [Effect.NewClient(proxy)]
    {
      log := log + [Effect.NewClient(proxy)];
    }

    method Login(username: Value, password: Value) returns (r: Result<bool, string>)
      modifies this
      ensures log == old(log) + [Effect.Login(username, password)] && r == script.login
    {
      log := log + [Effect.Login(username, password)];
      r := script.login;
    }

    method DownloadImage(url: Value) returns (r: Result<Bytes, string>)
      modifies this
      ensures log == old(log) + [Effect.DownloadImage(url)] && r == script.download
    {
      log := log + [Effect.DownloadImage(url)];
      r := script.download;
    }

    method Base64ToBytes(data: Value) returns (r: Result<Bytes, string>)
      modifies this
      ensures log == old(log) + [DecodeBase64(data)] && r == script.decode
    {
      log := log + [DecodeBase64(data)];
      r := script.decode;
    }

    method TmpFilesFolder() returns (r: Result<string, string>)
      modifies this
      ensures log == old(log) + [Effect.TmpFilesFolder] && r == script.tmpFolder
    {
      log := log + [Effect.TmpFilesFolder];
      r := script.tmpFolder;
    }

    method SaveBytesToImage(data: Option<Bytes>, path: string) returns (failure: Option<string>)
      modifies this
      ensures log == old(log) + [SaveImage(data, path)] && failure == script.saveFailure
    {
      log := log + [SaveImage(data, path)];
      failure := script.saveFailure;
    }

    method PhotoUpload(path: string, caption: Value, extra: map<string, Value>)
      returns (r: Result<Value, string>)
      modifies this
      ensures log == old(log) + [Effect.PhotoUpload(path, caption, extra)] && r == script.upload
    {
      log := log + [Effect.PhotoUpload(path, caption, extra)];
      r := script.upload;
    }
  }

  // The handler's steps, each as the calls it makes and the outcome it has.

  /** Building the client and logging in: the first two calls once there is a credential. */
  function SignInCalls(credential: map<string, Value>, proxy: Option<string>): seq<Effect>
  {
    [NewClient(proxy), Login(Get(credential, "username", Null), Get(credential, "password", Null))]
  }

  /** A login that raises is passed on; one that answers false ends the task. */
  function SignInOutcome(script: Script): Result<(), Error>
  {
    match script.login
    case Err(m) => Err(Propagated(m))
    case Ok(success) => if success then Ok(()) else Err(Raised(LoginFailed))
  }

  /** The bytes fetched (url) or decoded (base64), or None in any other mode. */
  function Fetched(d: map<string, Value>, script: Script): Result<Option<Bytes>, string>
  {
    if ImageType(d) == Str("url") then
      (if script.download.Ok? then Ok(Some(script.download.value)) else Err(script.download.error))
    else if ImageType(d) == Str("base64") then
      (if script.decode.Ok? then Ok(Some(script.decode.value)) else Err(script.decode.error))
    else Ok(None)
  }

  /** The calls made while the image is fetched or decoded. */
  function AcquireCalls(d: map<string, Value>): (calls: seq<Effect>)
    ensures |calls| <= 1
    ensures forall i :: 0 <= i < |calls| ==> !calls[i].PhotoUpload?
  {
    if ImageType(d) == Str("url") then [DownloadImage(Get(d, "image_url", Null))]
    else if ImageType(d) == Str("base64") && StagedExtension(d).Ok? then [DecodeBase64(Get(d, "image_base64", Null))]
    else []
  }

  /** The image bytes and extension, or the error that ends the task. */
  function AcquireOutcome(d: map<string, Value>, script: Script): Result<(Option<Bytes>, string), Error>
  {
    if StagedExtension(d).Err? then Err(StagedExtension(d).error)
    else if Fetched(d, script).Err? then Err(Propagated(Fetched(d, script).error))
    else Ok((Fetched(d, script).value, StagedExtension(d).value))
  }

  /** Where the image is staged: `<tmp folder>/<uuid>.<extension>`. */
  function StagedPath(script: Script, ext: string): string
    requires script.tmpFolder.Ok?
  {
    JoinPath(script.tmpFolder.value, StagedName(script.uuid, ext))
  }

  /** The calls made from staging the file up to the upload. */
  function StageCalls(d: map<string, Value>, script: Script, data: Option<Bytes>, ext: string): (calls: seq<Effect>)
    ensures |calls| >= 1 && calls[0] == Effect.TmpFilesFolder
    ensures forall i :: 0 <= i < |calls| - 1 ==> !calls[i].PhotoUpload?
  {
    if script.tmpFolder.Err? then [Effect.TmpFilesFolder]
    else
      var path := StagedPath(script, ext);
      if script.saveFailure.Some? then [Effect.TmpFilesFolder, SaveImage(data, path)]
      else [Effect.TmpFilesFolder, SaveImage(data, path),
            PhotoUpload(path, Get(d, "caption", Null), UploadOptions(d))]
  }

  /**
   * Staging and uploading: the helpers' exceptions pass through, the upload's is
   * re-raised with the publish-failure message, and its JSON is returned as it is.
   */
  function StageOutcome(script: Script): Result<Value, Error>
  {
    if script.tmpFolder.Err? then Err(Propagated(script.tmpFolder.error))
    else if script.saveFailure.Some? then Err(Propagated(script.saveFailure.value))
    else match script.upload
      case Ok(media) => Ok(media)
      case Err(m) => Err(Raised(PublishFailure(m)))
  }

  /** Every call the handler makes on its collaborators, in order. */
  function HandlerTrace(task: map<string, Value>, credential: Option<map<string, Value>>,
                        proxy: Option<string>, script: Script): seq<Effect>
  {
    if credential.None? then []
    else if SignInOutcome(script).Err? || !InputData(task).Dict? then SignInCalls(credential.value, proxy)
    else
      var d := InputData(task).entries;
      var acquired := AcquireOutcome(d, script);
      SignInCalls(credential.value, proxy) + AcquireCalls(d)
        + if acquired.Err? then [] else StageCalls(d, script, acquired.value.0, acquired.value.1)
  }

  /** What the handler returns or raises. */
  function HandlerOutcome(task: map<string, Value>, credential: Option<map<string, Value>>,
                          script: Script): Result<Value, Error>
  {
    if credential.None? then Err(Raised(MissingCredential))
    else if SignInOutcome(script).Err? then Err(SignInOutcome(script).error)
    else if !InputData(task).Dict? then Err(AttributeError("get"))
    else match AcquireOutcome(InputData(task).entries, script)
      case Err(e) => Err(e)
      case Ok(_) => StageOutcome(script)
  }

  /** The handler gets past the credential, the login and the read of the image fields. */
  predicate ReachesMedia(task: map<string, Value>, credential: Option<map<string, Value>>, script: Script)
  {
    credential.Some? && script.login == Ok(true) && InputData(task).Dict?
  }

  /** Every step before the upload succeeds, so the handler reaches it. */
  predicate ReachesUpload(task: map<string, Value>, credential: Option<map<string, Value>>, script: Script)
  {
    && ReachesMedia(task, credential, script)
    && StagedExtension(InputData(task).entries).Ok?
    && Fetched(InputData(task).entries, script).Ok?
    && script.tmpFolder.Ok?
    && script.saveFailure.None?
  }

  method SignIn(env: Environment, username: Value, password: Value) returns (r: Result<(), Error>)
    modifies env
    ensures env.log == old(env.log) + [NewClient(env.proxy), Login(username, password)]
    ensures r == SignInOutcome(env.script)
  {
    env.NewClient();
    var login := env.Login(username, password);
    if login.Err? {
      return Err(Propagated(login.error));
    }
    if !login.value {
      return Err(Raised(LoginFailed));
    }
    r := Ok(());
  }

  /**
   * The url/base64 branch: download then take the extension from the URL, or take
   * the extension from the header, refuse anything but jpg/jpeg, then decode.
   */
  method AcquireImage(env: Environment, d: map<string, Value>)
    returns (r: Result<(Option<Bytes>, string), Error>)
    modifies env
    ensures env.log == old(env.log) + AcquireCalls(d)
    ensures r == AcquireOutcome(d, env.script)
  {
    var imageType := ImageType(d);
    var imageUrl := Get(d, "image_url", Null);
    var imageBase64 := Get(d, "image_base64", Null);
    var imageBuffer: Option<Bytes> := None;
    var extension := "";
    if imageType == Str("url") {
      var downloaded := env.DownloadImage(imageUrl);
      if downloaded.Err? {
        return Err(Propagated(downloaded.error));
      }
      imageBuffer := Some(downloaded.value);
      extension := UrlExtension(imageUrl);
    } else if imageType == Str("base64") {
      var parsed := Base64Extension(imageBase64);
      if parsed.Err? {
        return Err(parsed.error);
      }
      extension := parsed.value;
      if !IsJpeg(extension) {
        return Err(Raised(NotJpeg));
      }
      var decoded := env.Base64ToBytes(imageBase64);
      if decoded.Err? {
        return Err(Propagated(decoded.error));
      }
      imageBuffer := Some(decoded.value);
    }
    r := Ok((imageBuffer, extension));
  }

  /** Save the image to a fresh temporary file and upload that file. */
  method StageAndUpload(env: Environment, d: map<string, Value>, data: Option<Bytes>, ext: string)
    returns (out: Result<Value, Error>)
    modifies env
    ensures env.log == old(env.log) + StageCalls(d, env.script, data, ext)
    ensures out == StageOutcome(env.script)
  {
    var folder := env.TmpFilesFolder();
    if folder.Err? {
      return Err(Propagated(folder.error));
    }
    var filePath := JoinPath(folder.value, StagedName(env.script.uuid, ext));
    var saveFailure := env.SaveBytesToImage(data, filePath);
    if saveFailure.Some? {
      return Err(Propagated(saveFailure.value));
    }
    var caption := Get(d, "caption", Null);
    var extra := UploadOptions(d);
    var media := env.PhotoUpload(filePath, caption, extra);
    match media
    case Ok(json) =>
      out := Ok(json);
    case Err(message) =>
      out := Err(Raised(PublishFailure(message)));
  }

  /**
   * The handler. `proxy` is the process-wide proxy setting and `script` how the
   * collaborators answer; `trace` is every call made on them, in order.
   */
  method Handler(task: map<string, Value>, credential: Option<map<string, Value>>,
                 proxy: Option<string>, script: Script)
    returns (out: Result<Value, Error>, trace: seq<Effect>)
    ensures out == HandlerOutcome(task, credential, script)
    ensures trace == HandlerTrace(task, credential, proxy, script)
  {
    var inputData := InputData(task);
    if credential.None? {
      return Err(Raised(MissingCredential)), [];
    }
    var username := Get(credential.value, "username", Null);
    var password := Get(credential.value, "password", Null);
    var env := new Environment(proxy, script);
    var signedIn := SignIn(env, username, password);
    ghost var signInCalls := SignInCalls(credential.value, proxy);
    assert env.log == signInCalls;
    if signedIn.Err? {
      return Err(signedIn.error), env.log;
    }
    if !inputData.Dict? {
      return Err(AttributeError("get")), env.log;
    }
    var d := inputData.entries;
    var acquired := AcquireImage(env, d);
    assert env.log == signInCalls + AcquireCalls(d);
    if acquired.Err? {
      return Err(acquired.error), env.log;
    }
    var imageBuffer, extension := acquired.value.0, acquired.value.1;
    out := StageAndUpload(env, d, imageBuffer, extension);
    trace := env.log;
    assert trace == signInCalls + AcquireCalls(d) + StageCalls(d, script, imageBuffer, extension);
  }

  // Properties of the handler, stated over its trace and outcome.

  /** Without a credential nothing is built or called. */
  lemma NoCallWithoutCredential(task: map<string, Value>, proxy: Option<string>, script: Script)
    ensures HandlerTrace(task, None, proxy, script) == []
    ensures HandlerOutcome(task, None, script) == Err(Raised(MissingCredential))
  {
  }

  /** With a credential the client is built and the login made before anything else. */
  lemma SignInComesFirst(task: map<string, Value>, credential: map<string, Value>,
                         proxy: Option<string>, script: Script)
    ensures var trace := HandlerTrace(task, Some(credential), proxy, script);
            |trace| >= 2 && trace[..2] == SignInCalls(credential, proxy)
  {
  }

  /** A login that fails or raises ends the task: no fetch, no file, no upload. */
  lemma FailedLoginStops(task: map<string, Value>, credential: map<string, Value>,
                         proxy: Option<string>, script: Script)
    requires script.login != Ok(true)
    ensures HandlerTrace(task, Some(credential), proxy, script) == SignInCalls(credential, proxy)
    ensures script.login == Ok(false) ==> HandlerOutcome(task, Some(credential), script) == Err(Raised(LoginFailed))
    ensures script.login.Err? ==> HandlerOutcome(task, Some(credential), script) == Err(Propagated(script.login.error))
  {
  }

  /**
   * A base64 image whose header does not name jpg or jpeg is refused right after the
   * login: it is neither decoded nor saved nor uploaded.
   */
  lemma NonJpegRefusedEarly(task: map<string, Value>, credential: map<string, Value>,
                            proxy: Option<string>, script: Script)
    requires ReachesMedia(task, Some(credential), script)
    requires ImageType(InputData(task).entries) == Str("base64")
    requires Base64Extension(Get(InputData(task).entries, "image_base64", Null)).Ok?
    requires !IsJpeg(Base64Extension(Get(InputData(task).entries, "image_base64", Null)).value)
    ensures HandlerTrace(task, Some(credential), proxy, script) == SignInCalls(credential, proxy)
    ensures HandlerOutcome(task, Some(credential), script) == Err(Raised(NotJpeg))
  {
  }

  /**
   * A base64 value whose header cannot be split (not a string, or no '/' before the
   * first ';') ends the task with that error right after the login.
   */
  lemma UnparsableBase64RefusedEarly(task: map<string, Value>, credential: map<string, Value>,
                                     proxy: Option<string>, script: Script)
    requires ReachesMedia(task, Some(credential), script)
    requires ImageType(InputData(task).entries) == Str("base64")
    requires Base64Extension(Get(InputData(task).entries, "image_base64", Null)).Err?
    ensures HandlerTrace(task, Some(credential), proxy, script) == SignInCalls(credential, proxy)
    ensures HandlerOutcome(task, Some(credential), script)
              == Err(Base64Extension(Get(InputData(task).entries, "image_base64", Null)).error)
  {
  }

  /** No call but possibly the last one is the upload. */
  ghost predicate UploadOnlyLast(trace: seq<Effect>)
  {
    forall i :: 0 <= i < |trace| - 1 ==> !trace[i].PhotoUpload?
  }

  /** Calls without an upload, followed by calls that upload only last, upload only last. */
  lemma UploadOnlyLastAppend(a: seq<Effect>, b: seq<Effect>)
    requires forall i :: 0 <= i < |a| ==> !a[i].PhotoUpload?
    requires UploadOnlyLast(b)
    requires b == [] ==> UploadOnlyLast(a)
    ensures UploadOnlyLast(a + b)
  {
    forall i | 0 <= i < |a + b| - 1
      ensures !(a + b)[i].PhotoUpload?
    {
      if i >= |a| {
        assert (a + b)[i] == b[i - |a|];
      }
    }
  }

  /** The upload is made at most once, and only as the last call. */
  lemma UploadIsLast(task: map<string, Value>, credential: Option<map<string, Value>>,
                     proxy: Option<string>, script: Script)
    ensures UploadOnlyLast(HandlerTrace(task, credential, proxy, script))
  {
    if credential.Some? && SignInOutcome(script).Ok? && InputData(task).Dict? {
      var d := InputData(task).entries;
      var acquired := AcquireOutcome(d, script);
      var before := SignInCalls(credential.value, proxy) + AcquireCalls(d);
      var after := if acquired.Err? then [] else StageCalls(d, script, acquired.value.0, acquired.value.1);
      assert HandlerTrace(task, credential, proxy, script) == before + after;
      UploadOnlyLastAppend(SignInCalls(credential.value, proxy), AcquireCalls(d));
      UploadOnlyLastAppend(before, after);
    }
  }

  /**
   * The upload happens exactly when every earlier step succeeds. The image is saved
   * at `<tmp folder>/<uuid>.<extension>` just before, and that same path is uploaded
   * with the caption and the mapped options.
   */
  lemma StagedFileIsUploaded(task: map<string, Value>, credential: Option<map<string, Value>>,
                             proxy: Option<string>, script: Script)
    ensures var trace := HandlerTrace(task, credential, proxy, script);
            ReachesUpload(task, credential, script) <==> |trace| > 0 && trace[|trace| - 1].PhotoUpload?
    ensures ReachesUpload(task, credential, script) ==>
              var trace := HandlerTrace(task, credential, proxy, script);
              var d := InputData(task).entries;
              var path := StagedPath(script, StagedExtension(d).value);
              && |trace| >= 3
              && trace[|trace| - 1] == PhotoUpload(path, Get(d, "caption", Null), UploadOptions(d))
              && trace[|trace| - 2] == SaveImage(Fetched(d, script).value, path)
              && trace[|trace| - 3] == Effect.TmpFilesFolder
  {
  }

  /**
   * The file the handler uploads is named `<uuid>.<extension>`: the last '/'-piece of the
   * uploaded path is that name, and its last '.'-piece is the extension worked out from
   * the input (for a uuid without '/', as `uuid4()` renders it).
   */
  lemma UploadedFileName(task: map<string, Value>, credential: Option<map<string, Value>>,
                         proxy: Option<string>, script: Script)
    requires ReachesUpload(task, credential, script) && '/' !in script.uuid
    ensures var trace := HandlerTrace(task, credential, proxy, script);
            var ext := StagedExtension(InputData(task).entries).value;
            && |trace| > 0 && trace[|trace| - 1].PhotoUpload?
            && AfterLast(trace[|trace| - 1].path, '/') == StagedName(script.uuid, ext)
            && AfterLast(StagedName(script.uuid, ext), '.') == ext
  {
    var d := InputData(task).entries;
    var ext := StagedExtension(d).value;
    StagedFileIsUploaded(task, credential, proxy, script);
    assert '/' !in ext && '.' !in ext;
    StagedPathParts(script.tmpFolder.value, script.uuid, ext);
  }

  /**
   * A successful upload returns the provider's JSON unchanged; a failed one is
   * re-raised with the publish-failure message.
   */
  lemma UploadOutcome(task: map<string, Value>, credential: Option<map<string, Value>>, script: Script)
    ensures HandlerOutcome(task, credential, script).Ok? ==>
              ReachesUpload(task, credential, script) && script.upload == Ok(HandlerOutcome(task, credential, script).value)
    ensures ReachesUpload(task, credential, script) && script.upload.Err? ==>
              HandlerOutcome(task, credential, script) == Err(Raised(PublishFailure(script.upload.error)))
  {
  }
}
