# Social-media publish handlers, modelled in Dafny

This project models the two publish handlers of the vines social-media worker. Each handler is
the per-task decision logic that turns one workflow task into a post.

- **Xiaohongshu** (`xiaohongshu.dfy`, module `Xiaohongshu`). The handler refuses a falsy
  credential. Otherwise it reads the note fields of `inputData` with their defaults and wraps
  a lone `images` string into a one-element list. It then builds an `XhsClient` from the
  cookie and makes one `create_image_note` or `create_video_note` call, chosen by
  `note_type`. The provider's `id` and `score` come back together with the explore link
  `https://www.xiaohongshu.com/explore/<id>`.
- **Instagram** (`instagram.dfy`, module `Instagram`). The handler refuses a missing
  credential. It builds the client and logs in, then reads the image, either downloaded from
  a URL or decoded from base64. The file extension is taken from the URL's last segment, or
  from the base64 header's mime subtype, where only `jpg`/`jpeg` pass. The image is saved as
  `<tmp folder>/<uuid>.<extension>` and that same path is uploaded. The caption and three
  `extra_data` options go with it, and the switches are sent as 1/0. The media JSON comes
  back as it is. An upload failure is re-raised as `发布失败：<message>`, followed by a jpg
  conversion hint exactly when the message holds `Request processing failed`.

Shared modules:

- `Values` holds the loosely typed payload values (`None`, bool, int, str, list, dict),
  `dict.get`, truthiness and `str()`. It also holds the exceptions a handler ends with.
- `Strings` holds `str.split` and `in` for one-character separators and proves their round
  trips.
- `Wrappers` holds `Option` and `Result`.

The collaborators are, in Xiaohongshu, the client, and in Instagram, the instagrapi client
and the download, decode, temp-folder and save helpers. Each group is a class that logs every
call made on it and answers from a given reply, or from a `Script` of replies. A reply of
`Err(m)` stands for the exception with message `m` that the call raises.

Each handler is a `method`. It builds its collaborators itself and returns the outcome (a
value or the `Error` it raises) together with the log of calls. This lets ordering facts
("no call before the credential check", "the upload is the last call") be stated over that
log:

- The Xiaohongshu handler states these facts directly in its `ensures`.
- The Instagram handler is proved equal to two specification functions, `HandlerOutcome`
  and `HandlerTrace`, and the properties are lemmas about those functions.

Three facts about the code are worth stating outright, since the model follows them:

- The Instagram handler refuses only a `None` credential, so an empty mapping goes on to the
  login.
- The Xiaohongshu handler does not check the fields that its `BLOCK_DEF` declares
  `"required": True` (for example src/worker/xiaohongshu.py:19, 36, 43); a missing one is read
  as its default or as None.
- The Instagram `block_def` (src/worker/instagram.py:15-161) declares the Xiaohongshu note
  fields, none of which the Instagram handler reads. The fields it does read (`image_type`,
  `image_url`, `image_base64`, `caption`, `custom_accessibility_caption`,
  `like_and_view_counts_disabled`, `disable_comments`, src/worker/instagram.py:189-221) are
  not declared there, so nothing requires them; a missing one is read as None or as its
  default.
- A Xiaohongshu `note_type` other than the two options `BLOCK_DEF` offers
  (src/worker/xiaohongshu.py:20-29) reaches `result['id']` with `result` still `None`, and so
  ends in a `TypeError` with no publish call.

## Model

| member | source | states |
|---|---|---|
| Values.Truthy | src/worker/instagram.py:229-230 | Python's `bool(v)`: None, False, 0, "", [] and {} are false, everything else true |
| Values.Digits | src/worker/xiaohongshu.py:197 | the decimal numeral of a natural number: non-empty, all digits |
| Values.DigitsValue | src/worker/xiaohongshu.py:197 | the numeral reads back as the number it was made from |
| Values.DigitsInjective | src/worker/xiaohongshu.py:197 | distinct numbers have distinct numerals |
| Values.PyStr | src/worker/xiaohongshu.py:197 | `str(v)` as an f-string renders it: "None", "True"/"False", the signed decimal numeral, the string itself; a list or dict gets a placeholder (see Left out) |
| Values.IntTextSign | src/worker/xiaohongshu.py:197 | `str(i)` is non-empty and starts with '-' exactly for negative `i` |
| Values.IntTextInjective | src/worker/xiaohongshu.py:197 | `str()` of two integers is equal only when the integers are |
| Values.InputData | src/worker/xiaohongshu.py:156 | `task.get("inputData")` (also src/worker/instagram.py:170): the task's input when present, None otherwise |
| Values.Get | src/worker/xiaohongshu.py:159-170 | `dict.get(key, default)`: the stored value when the key is present, the default otherwise |
| Xiaohongshu.HasCredential | src/worker/xiaohongshu.py:147 | `not credential_data` fails exactly for None or an empty mapping |
| Xiaohongshu.Files | src/worker/xiaohongshu.py:165-167 | a string `s` becomes exactly `[s]`; any other value is passed through unchanged |
| Xiaohongshu.Normalize | src/worker/xiaohongshu.py:159-170 | each field is the input value when present, else its default: is_private False, note_type "image", ats/topics [], video_url/video_cover_url None, images [] (then coerced), title/post_time/desc None |
| Xiaohongshu.Link | src/worker/xiaohongshu.py:197 | the link is the explore prefix followed by exactly `str(id)` |
| Xiaohongshu.ExploreId | src/worker/xiaohongshu.py:197 | inverse of the link template: defined exactly on texts with the explore prefix, and the text is prefix + id |
| Xiaohongshu.LinkRoundTrip | src/worker/xiaohongshu.py:197 | reading the id back from a link gives `str(id)`, and a string id verbatim |
| Xiaohongshu.LinkInjective | src/worker/xiaohongshu.py:197 | distinct string ids give distinct links |
| Xiaohongshu.IntLinkInjective | src/worker/xiaohongshu.py:197 | distinct integer ids give distinct links |
| Xiaohongshu.MapResult | src/worker/xiaohongshu.py:196-202 | a non-dict result is a TypeError, a missing `id` (checked first) or `score` a KeyError; success exactly when both are present, and then the output has exactly the keys id, score, link, the first two verbatim and link = prefix + str(id) |
| Xiaohongshu.XhsClient.constructor | src/worker/xiaohongshu.py:172 | the client is built from the cookie; its log starts with that construction |
| Xiaohongshu.XhsClient.CreateImageNote | src/worker/xiaohongshu.py:175-183 | logs one image-note call with its arguments and answers the provider's reply |
| Xiaohongshu.XhsClient.CreateVideoNote | src/worker/xiaohongshu.py:185-194 | logs one video-note call with its arguments and answers the provider's reply |
| Xiaohongshu.PublishCount | src/worker/xiaohongshu.py:174-194 | the number of publish calls in a log: zero exactly when the log holds none |
| Xiaohongshu.Handler | src/worker/xiaohongshu.py:146-202 | a falsy credential raises "请先配置小红书账号" with no client built; a non-dict input raises AttributeError before the client; note_type image gives exactly [client, image note] with files = coerced images and the other fields verbatim; video gives exactly [client, video note] with video_path = video_url and cover_path = video_cover_url; any other type makes no publish call and ends in TypeError; a provider exception passes through, a reply goes through MapResult; at most one publish call, and success implies exactly one |
| Instagram.UrlExtension | src/worker/instagram.py:199-203 | for a string URL: the longest tail holding neither '/' nor '.', i.e. the last '.'-piece of the last '/'-segment; "jpg" only when the split raises (non-string URL) |
| Instagram.UrlSegmentWithoutDot | src/worker/instagram.py:200 | a last segment without '.' is the extension as a whole |
| Instagram.LastOfLast | src/worker/instagram.py:200 | the last '.'-piece of the last '/'-piece is a tail of the URL holding neither separator and preceded by one of them |
| Instagram.IsJpeg | src/worker/instagram.py:206 | the extension passes exactly when it is "jpg" or "jpeg" |
| Instagram.ImageType | src/worker/instagram.py:189 | `input_data.get('image_type')`: the mode that selects url, base64 or neither |
| Instagram.Base64Extension | src/worker/instagram.py:205 | the text between the first '/' and the next '/' of the header before the first ';'; IndexError exactly when the header holds no '/'; AttributeError for a non-string |
| Instagram.StagedExtension | src/worker/instagram.py:194-210 | url mode: the URL extension; base64 mode: the parsed subtype when it is jpg/jpeg, "传入的 base64 图片不是 jpg 或者 jpeg 格式" when it is anything else, the parse error when parsing fails; any other mode: "" |
| Instagram.JoinPath | src/worker/instagram.py:212 | `Path(folder, name)` as text: the name alone for an empty folder, otherwise folder and name with one '/' between |
| Instagram.StagedName | src/worker/instagram.py:212 | the staged file name `<uuid>.<extension>` |
| Instagram.StagedPath | src/worker/instagram.py:211-212 | the staged path: `Path(base_folder, name)` for the scripted temp folder and the staged name |
| Instagram.JoinPathParts | src/worker/instagram.py:212 | `Path(folder, name)` ends with the name, after the folder and one '/' |
| Instagram.StagedPathParts | src/worker/instagram.py:211-212 | for any folder (empty or not), the staged path's last segment is `<uuid>.<ext>` and that name's extension is `ext` |
| Instagram.Flag | src/worker/instagram.py:229-230 | `1 if v else 0`: 1 exactly when v is truthy, 0 exactly when it is not |
| Instagram.UploadOptions | src/worker/instagram.py:219-231 | extra_data has exactly the three keys; the accessibility caption is the input's or None; each switch is 1 exactly when present and truthy, else 0 |
| Instagram.PublishFailure | src/worker/instagram.py:237-241 | the message starts with "发布失败：" + the error text; the jpg hint follows if and only if the error text holds "Request processing failed" |
| Instagram.Environment.constructor | src/worker/instagram.py:181-184 | the collaborators start with an empty log |
| Instagram.Environment.NewClient | src/worker/instagram.py:181-184 | logs the client construction with the proxy setting |
| Instagram.Environment.Login | src/worker/instagram.py:185 | logs the login with the credential's username and password and answers the scripted result |
| Instagram.Environment.DownloadImage | src/worker/instagram.py:196-198 | logs the download of the URL and answers the scripted bytes or exception |
| Instagram.Environment.Base64ToBytes | src/worker/instagram.py:208-210 | logs the decode and answers the scripted bytes or exception |
| Instagram.Environment.TmpFilesFolder | src/worker/instagram.py:211 | logs the temp-folder lookup and answers the scripted folder or exception |
| Instagram.Environment.SaveBytesToImage | src/worker/instagram.py:214-217 | logs the save of the buffer at the path and answers the scripted failure, if any |
| Instagram.Environment.PhotoUpload | src/worker/instagram.py:224-232 | logs the upload of the path with caption and options and answers the scripted media JSON or exception |
| Instagram.SignInCalls | src/worker/instagram.py:181-185 | the client construction with the proxy, then the login with the credential's username and password |
| Instagram.SignInOutcome | src/worker/instagram.py:185-187 | a raising login passes its exception on, false raises "登录 Instagram 失败", true goes on |
| Instagram.Fetched | src/worker/instagram.py:193-210 | the downloaded bytes in url mode, the decoded bytes in base64 mode, None in any other mode, or the helper's exception |
| Instagram.AcquireCalls | src/worker/instagram.py:195-210 | the download call in url mode, the decode call in base64 mode only when the extension passed, nothing otherwise; never an upload |
| Instagram.AcquireOutcome | src/worker/instagram.py:194-210 | the extension error first, then the fetch exception, else the image buffer and its extension |
| Instagram.StageCalls | src/worker/instagram.py:211-232 | the temp-folder lookup first, the save of the buffer at the staged path, then the upload of that path; stops at the first exception, and only the last call can be the upload |
| Instagram.StageOutcome | src/worker/instagram.py:211-241 | the folder or save exception passes through; the upload's JSON is returned unchanged, its exception re-raised through PublishFailure |
| Instagram.HandlerTrace | src/worker/instagram.py:163-241 | every call of a run in order: none without a credential, the sign-in calls, then the fetch calls, then the staging and upload calls, each part only when the one before succeeded |
| Instagram.HandlerOutcome | src/worker/instagram.py:163-241 | the credential error, then the login error, then AttributeError for non-dict input, then the image error, else the staging and upload outcome |
| Instagram.SignIn | src/worker/instagram.py:175-187 | makes exactly the client and login calls; a raising login passes its exception on, a false one raises "登录 Instagram 失败" |
| Instagram.AcquireImage | src/worker/instagram.py:189-210 | makes exactly the download (url) or decode (base64, only after the jpg check passed) call, and returns the bytes and extension or the error that ends the task |
| Instagram.StageAndUpload | src/worker/instagram.py:211-241 | makes the temp-folder, save and upload calls in that order, stopping at the first exception; the upload's exception goes through PublishFailure, its JSON is returned as it is |
| Instagram.Handler | src/worker/instagram.py:163-241 | the outcome and the full call log are HandlerOutcome and HandlerTrace, about which the lemmas below state the handler's promises |
| Instagram.NoCallWithoutCredential | src/worker/instagram.py:172-173 | a None credential raises "请先配置 Instagram 账号" with no call at all |
| Instagram.SignInComesFirst | src/worker/instagram.py:175-185 | with a credential the first two calls are the client construction and the login with its username and password |
| Instagram.FailedLoginStops | src/worker/instagram.py:185-187 | a login that fails or raises is the last call: no fetch, save or upload; false raises the login message, an exception passes through |
| Instagram.NonJpegRefusedEarly | src/worker/instagram.py:205-210 | a base64 header naming another subtype raises the jpg message right after the login: no decode, save or upload |
| Instagram.UnparsableBase64RefusedEarly | src/worker/instagram.py:205 | a base64 value whose header cannot be split ends the task with that error right after the login: no decode, save or upload |
| Instagram.UploadIsLast | src/worker/instagram.py:223-236 | in every run the upload can only be the last call |
| Instagram.StagedFileIsUploaded | src/worker/instagram.py:211-232 | the upload happens exactly when every earlier step succeeds; then the last three calls are the temp-folder, the save of the image at `<folder>/<uuid>.<ext>` and the upload of that same path with the caption and UploadOptions |
| Instagram.UploadedFileName | src/worker/instagram.py:211-224 | when the upload is reached (and the uuid holds no '/'), the uploaded path's last segment is `<uuid>.<ext>` and its extension is the one worked out from the input |
| Instagram.UploadOutcome | src/worker/instagram.py:235-241 | success only when the upload is reached, returning the provider's JSON unchanged; an upload exception is re-raised with PublishFailure of its message |
| Strings.IndexOf | src/worker/instagram.py:205 | the position of the first occurrence of a separator |
| Strings.Split | src/worker/instagram.py:200 | at least one piece, none holding the separator, and two or more exactly when the separator occurs |
| Strings.JoinSplit | src/worker/instagram.py:200 | joining the pieces of a split gives back the string |
| Strings.SplitJoin | src/worker/instagram.py:205 | splitting a join of separator-free pieces gives back the pieces |
| Strings.AfterLast | src/worker/instagram.py:200 | `split(sep)[-1]` is the longest tail free of the separator, and is the whole string exactly when it holds none |
| Strings.LastPieceOfSplit | src/worker/instagram.py:200 | the last piece of a split is the longest separator-free tail |
| Strings.LastPieceExtends | src/worker/instagram.py:200 | a last piece of the text after a separator is a last piece of the whole text |
| Strings.Before | src/worker/instagram.py:205 | a prefix free of the separator, shorter than the string exactly when the separator occurs, and then followed by it |
| Strings.FirstPieceOfSplit | src/worker/instagram.py:205 | `split(sep)[0]` is the text before the first separator |
| Strings.SecondPieceOfSplit | src/worker/instagram.py:205 | `split(sep)[1]` is the text between the first and the next separator |
| Strings.Join | src/worker/instagram.py:200 | `sep.join(pieces)`, the partner of Split in the round trips |
| Strings.Contains | src/worker/instagram.py:239 | Python's `needle in s`: the needle starts at some position of `s` |
| Strings.ContainsAfterPrefix | src/worker/instagram.py:238-239 | a prefix that cannot start the needle does not change whether the text holds it, so testing the prefixed message equals testing the error text |

## Left out

- Logging, `print` and `beauty_print` are not modelled; they do not affect the outcome.
- The `BLOCK_DEF`/`block_def` dictionaries are not modelled: they are static UI metadata.
- `src/worker/__init__.py` and `main.py` (environment reads, worker registration, polling)
  are not part of this model.
- The `XhsClient` signing and HTTP, the instagrapi `Client`, `download_image`,
  `base64_to_bytes`, `get_and_ensure_exists_tmp_files_folder` and `save_bytes_to_image` are
  not modelled. They are network and file operations. Each is a logged call answered by a
  given reply or script entry.
- Constructing `XhsClient` or the instagrapi `Client` is taken to succeed. A failure inside
  a constructor is not modelled.
- `uuid.uuid4()` is not modelled as random. The generated name is a script value, and the
  path properties assume only that it holds no '/'.
- A task and a credential are typed as mappings. A credential that is truthy but not a
  mapping would raise AttributeError on `.get` (src/worker/xiaohongshu.py:158,
  src/worker/instagram.py:175); the model cannot express such a credential.
- `PROXY_URL` is a process-wide setting, so it is a parameter of the Instagram handler.
- Instagram.JoinPath: only tells apart an empty folder, a folder ending in '/' and any other
  folder. The rest of `pathlib` normalisation is not modelled.
- Values.PyStr: exact for None, bool, int and str. A list or dict id renders as a fixed
  placeholder, because Python's `repr` of containers is not modelled.
- Floating-point payload values are not modelled. A float switch would go through Python
  truthiness (src/worker/instagram.py:229-230) and a float id through `str()`
  (src/worker/xiaohongshu.py:197), and `Values.Truthy` and `Values.PyStr` do not cover floats.
- `media.json()` and `json.loads` are folded into the scripted upload reply. Their own
  failure is an upload exception like any other.
- Topic extraction from note text and removal of the staged file are not modelled: neither
  happens in the handlers.
