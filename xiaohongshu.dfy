/**
 * The Xiaohongshu publish handler: the credential guard, the defaults filled into
 * the task's input, the coercion of a lone image into a list, the dispatch on the
 * note type to the client, and the `{id, score, link}` result.
 */
module Xiaohongshu {
  import opened Wrappers
  import opened Values
  import opened Strings

  const MissingCredential := "请先配置小红书账号"
  const ExplorePrefix := "https://www.xiaohongshu.com/explore/"

  /** The handler's locals after it has read the input mapping. */
  datatype NoteInput = NoteInput(
    isPrivate: Value, noteType: Value, ats: Value, topics: Value,
    videoUrl: Value, videoCoverUrl: Value, images: Value,
    title: Value, postTime: Value, desc: Value)

  /** What the handler asks of the client: its construction and its two publish calls. */
  datatype XhsCall =
    | NewClient(cookie: Value)
    | ImageNote(title: Value, desc: Value, files: Value, isPrivate: Value,
                      topics: Value, postTime: Value, ats: Value)
    | VideoNote(title: Value, desc: Value, videoPath: Value, isPrivate: Value,
                      topics: Value, postTime: Value, ats: Value, coverPath: Value)
  {
    predicate IsPublish() { ImageNote? || VideoNote? }
  }

  /** `not credential_data` fails: the credential is None or an empty mapping. */
  predicate HasCredential(credential: Option<map<string, Value>>)
  {
    credential.Some? && credential.value != map[]
  }

  /** A lone string becomes a one-element list; anything else is kept as it is. */
  function Files(images: Value): (files: Value)
    ensures images.Str? ==> files == List([images])
    ensures !images.Str? ==> files == images
  {
    match images
    case Str(_) => List([images])
    case _ => images
  }

  /** The handler's reads of the input mapping, with their defaults, and the `images` coercion. */
  function Normalize(d: map<string, Value>): (n: NoteInput)
    ensures n.isPrivate == (if "is_private" in d then d["is_private"] else Bool(false))
    ensures n.noteType == (if "note_type" in d then d["note_type"] else Str("image"))
    ensures n.ats == (if "ats" in d then d["ats"] else List([]))
    ensures n.topics == (if "topics" in d then d["topics"] else List([]))
    ensures n.videoUrl == (if "video_url" in d then d["video_url"] else Null)
    ensures n.videoCoverUrl == (if "video_cover_url" in d then d["video_cover_url"] else Null)
    ensures "images" !in d ==> n.images == List([])
    ensures "images" in d && d["images"].Str? ==> n.images == List([d["images"]])
    ensures "images" in d && !d["images"].Str? ==> n.images == d["images"]
    ensures n.title == (if "title" in d then d["title"] else Null)
    ensures n.postTime == (if "post_time" in d then d["post_time"] else Null)
    ensures n.desc == (if "desc" in d then d["desc"] else Null)
  {
    NoteInput(
      isPrivate := Get(d, "is_private", Bool(false)),
      noteType := Get(d, "note_type", Str("image")),
      ats := Get(d, "ats", List([])),
      topics := Get(d, "topics", List([])),
      videoUrl := Get(d, "video_url", Null),
      videoCoverUrl := Get(d, "video_cover_url", Null),
      images := Files(Get(d, "images", List([]))),
      title := Get(d, "title", Null),
      postTime := Get(d, "post_time", Null),
      desc := Get(d, "desc", Null))
  }

  /** The public link of a note: the explore prefix followed by `str(id)`. */
  function Link(id: Value): (link: string)
    ensures ExplorePrefix <= link
    ensures link[|ExplorePrefix|..] == PyStr(id)
  {
    ExplorePrefix + PyStr(id)
  }

  /** The note id a link points at, or None for a text that is not an explore link. */
  function ExploreId(link: string): (id: Option<string>)
    ensures id.Some? <==> ExplorePrefix <= link
    ensures id.Some? ==> link == ExplorePrefix + id.value
  {
    if ExplorePrefix <= link then Some(link[|ExplorePrefix|..]) else None
  }

  /** A link gives back the id it was made from; so two ids with the same link render alike. */
  lemma LinkRoundTrip(id: Value)
    ensures ExploreId(Link(id)) == Some(PyStr(id))
    ensures id.Str? ==> ExploreId(Link(id)) == Some(id.s)
  {
  }

  lemma LinkInjective(a: string, b: string)
    requires Link(Str(a)) == Link(Str(b))
    ensures a == b
  {
    LinkRoundTrip(Str(a));
    LinkRoundTrip(Str(b));
  }

  /** Distinct integer ids give distinct links too. */
  lemma IntLinkInjective(a: int, b: int)
    requires Link(Int(a)) == Link(Int(b))
    ensures a == b
  {
    LinkRoundTrip(Int(a));
    LinkRoundTrip(Int(b));
    IntTextInjective(a, b);
  }

  /**
   * `result['id']`, `result['score']` and the output dict. Indexing anything but a
   * dict is a TypeError, a missing key a KeyError (`id` is read first).
   */
  function MapResult(result: Value): (out: Result<map<string, Value>, Error>)
    ensures !result.Dict? ==> out == Err(TypeError)
    ensures result.Dict? && "id" !in result.entries ==> out == Err(KeyError("id"))
    ensures (result.Dict? && "id" in result.entries && "score" !in result.entries)
              ==> out == Err(KeyError("score"))
    ensures out.Ok? <==> result.Dict? && "id" in result.entries && "score" in result.entries
    ensures out.Ok? ==>
              && out.value.Keys == {"id", "score", "link"}
              && out.value["id"] == result.entries["id"]
              && out.value["score"] == result.entries["score"]
              && out.value["link"] == Str(ExplorePrefix + PyStr(result.entries["id"]))
  {
    match result
    case Dict(entries) =>
      if "id" !in entries then Err(KeyError("id"))
      else if "score" !in entries then Err(KeyError("score"))
      else
        var id := entries["id"];
        Ok(map["id" := id, "score" := entries["score"], "link" := Str(Link(id))])
    case _ => Err(TypeError)
  }

  /**
   * The Xiaohongshu client (signing and HTTP are not modelled). `reply` is what the
   * provider answers to a publish call: the result dict, or the message of the
   * exception the call raises. `calls` logs what was asked of it.
   */
  class XhsClient {
    const cookie: Value
    const reply: Result<Value, string>
    var calls: seq<XhsCall>

    constructor (cookie: Value, reply: Result<Value, string>)
      ensures this.cookie == cookie && this.reply == reply
      ensures calls == [NewClient(cookie)]
    {
      this.cookie := cookie;
      this.reply := reply;
      calls := [NewClient(cookie)];
    }

    method CreateImageNote(title: Value, desc: Value, files: Value, isPrivate: Value,
                           topics: Value, postTime: Value, ats: Value)
      returns (r: Result<Value, string>)
      modifies this
      ensures calls == old(calls) + [ImageNote(title, desc, files, isPrivate, topics, postTime, ats)]
      ensures r == reply
    {
      calls := calls + [ImageNote(title, desc, files, isPrivate, topics, postTime, ats)];
      r := reply;
    }

    method CreateVideoNote(title: Value, desc: Value, videoPath: Value, isPrivate: Value,
                           topics: Value, postTime: Value, ats: Value, coverPath: Value)
      returns (r: Result<Value, string>)
      modifies this
      ensures calls == old(calls) + [VideoNote(title, desc, videoPath, isPrivate, topics, postTime, ats, coverPath)]
      ensures r == reply
    {
      calls := calls + [VideoNote(title, desc, videoPath, isPrivate, topics, postTime, ats, coverPath)];
      r := reply;
    }
  }

  /** The number of publish calls in a log. */
  function PublishCount(calls: seq<XhsCall>): (n: nat)
    ensures n <= |calls|
    ensures n == 0 <==> forall i :: 0 <= i < |calls| ==> !calls[i].IsPublish()
  {
    if calls == [] then 0
    else PublishCount(calls[..|calls| - 1]) + (if calls[|calls| - 1].IsPublish() then 1 else 0)
  }

  /**
   * The handler. `reply` is the provider's answer to whichever publish call is made;
   * `calls` is the log of the client, empty when none was built.
   */
  method Handler(task: map<string, Value>, credential: Option<map<string, Value>>,
                 reply: Result<Value, string>)
    returns (out: Result<map<string, Value>, Error>, calls: seq<XhsCall>)
    // No client and no call before the credential and the input mapping are there.
    ensures !HasCredential(credential) ==> out == Err(Raised(MissingCredential)) && calls == []
    ensures (HasCredential(credential) && !InputData(task).Dict?)
              ==> out == Err(AttributeError("get")) && calls == []
    ensures HasCredential(credential) && InputData(task).Dict? ==>
              var n := Normalize(InputData(task).entries);
              var cookie := Get(credential.value, "cookie", Null);
              && (n.noteType == Str("image") ==>
                    calls == [NewClient(cookie),
                              ImageNote(n.title, n.desc, n.images, n.isPrivate,
                                        n.topics, n.postTime, n.ats)])
              && (n.noteType == Str("video") ==>
                    calls == [NewClient(cookie),
                              VideoNote(n.title, n.desc, n.videoUrl, n.isPrivate,
                                        n.topics, n.postTime, n.ats, n.videoCoverUrl)])
              && (n.noteType != Str("image") && n.noteType != Str("video") ==>
                    calls == [NewClient(cookie)] && out == Err(TypeError))
              && (n.noteType == Str("image") || n.noteType == Str("video") ==>
                    out == match reply
                           case Err(m) => Err(Propagated(m))
                           case Ok(result) => MapResult(result))
    // At most one publish call, and none unless the note type is image or video.
    ensures PublishCount(calls) <= 1
    ensures out.Ok? ==> PublishCount(calls) == 1 && reply.Ok?
  {
    if !HasCredential(credential) {
      return Err(Raised(MissingCredential)), [];
    }
    var inputData := InputData(task);
    if !inputData.Dict? {
      return Err(AttributeError("get")), [];
    }
    var n := Normalize(inputData.entries);
    var cookie := Get(credential.value, "cookie", Null);
    var client := new XhsClient(cookie, reply);
    var result := Null;
    if n.noteType == Str("image") {
      var r := client.CreateImageNote(n.title, n.desc, n.images, n.isPrivate,
                                      n.topics, n.postTime, n.ats);
      if r.Err? {
        return Err(Propagated(r.error)), client.calls;
      }
      result := r.value;
    } else if n.noteType == Str("video") {
      var r := client.CreateVideoNote(n.title, n.desc, n.videoUrl, n.isPrivate,
                                      n.topics, n.postTime, n.ats, n.videoCoverUrl);
      if r.Err? {
        return Err(Propagated(r.error)), client.calls;
      }
      result := r.value;
    }
    out := MapResult(result);
    calls := client.calls;
    assert calls[..|calls| - 1] == [NewClient(cookie)] || calls == [NewClient(cookie)];
  }
}
