/**
 * The `MessageForwarder` plugin object: its configuration fields, the
 * forward gate, the card preprocessing done in place on the message record,
 * and the handlers the host dispatches each kind of message to.
 *
 * The host API client is a `Bot` that records every send operation invoked on
 * it. Whether an operation raises is up to the host and is a parameter
 * (`hostRaises`); the plugin catches it, so it changes nothing the plugin does
 * afterwards. The temporary-file and thumbnail steps of the video path are
 * parameters too: `saved` (the Base64 video was decoded and written) and
 * `thumb` (the first frame, Base64-encoded, or `None`).
 */
module Plugin {
  import opened Values
  import opened Strings
  import opened Filter
  import opened CardXml
  import opened CardPreprocess

  /** A host send operation and the arguments after the target. */
  datatype Payload =
    | Text(content: Value)                                          // send_text_message
    | Image(data: Value)                                            // send_image_message
    | Video(video: string, image: string)                           // send_video_message(video=, image=)
    | CdnVideo(xml: string)                                         // send_cdn_video_msg(xml=)
    | ShareCard(cardWxid: string, cardNickname: string, cardAlias: string)  // the ShareCard API

  /** One invocation of a send operation: the forwarding target first, then the payload. */
  datatype Call = Call(target: string, payload: Payload)

  /** The sections `[forwarder]` and `[listen_source]` of `config.toml`, as parsed; a missing key is `None`. */
  datatype ConfigFile = ConfigFile(
    targetType: Option<string>,
    targetUserWxid: Option<string>,
    targetGroupWxid: Option<string>,
    listenType: Option<string>,
    listenUserWxids: Option<seq<string>>,
    listenGroupWxids: Option<seq<string>>)

  /** The plugin's configuration fields. */
  datatype Settings = Settings(targetType: Option<string>, targetWxid: Option<string>, listen: ListenConfig)

  /** The fields as `__init__` sets them before loading the configuration. */
  const InitialSettings := Settings(None, None, ListenConfig("all", [], []))

  /**
   * `_load_config` on a configuration file that is absent (`None`) or parsed.
   * `target_type` defaults to "user"; the target wxid is read from the key
   * that matches it, and an unknown target type leaves the target as it was.
   */
  function ApplyConfig(s: Settings, file: Option<ConfigFile>): (r: Settings)
    ensures file.Some? ==> r.targetType == Some(file.value.targetType.GetOr("user"))
    ensures file.Some? ==> r.targetWxid == s.targetWxid || r.targetWxid == file.value.targetUserWxid ||
                           r.targetWxid == file.value.targetGroupWxid
  {
    match file
    case None => s
    case Some(f) =>
      var targetType := f.targetType.GetOr("user");
      var targetWxid :=
        if targetType == "user" then f.targetUserWxid
        else if targetType == "group" then f.targetGroupWxid
        else s.targetWxid;
      Settings(Some(targetType), targetWxid,
               ListenConfig(f.listenType.GetOr("all"), f.listenUserWxids.GetOr([]), f.listenGroupWxids.GetOr([])))
  }

  /** Loading the same file twice is the same as loading it once. */
  lemma ApplyConfigIdempotent(s: Settings, file: Option<ConfigFile>)
    ensures ApplyConfig(ApplyConfig(s, file), file) == ApplyConfig(s, file)
  {
  }

  /** A missing file changes nothing; a present one sets every listen setting, with defaults. */
  lemma ApplyConfigListenSettings(s: Settings, file: Option<ConfigFile>)
    ensures file.None? ==> ApplyConfig(s, file) == s
    ensures file.Some? ==>
              && ApplyConfig(s, file).listen.listenType == file.value.listenType.GetOr("all")
              && ApplyConfig(s, file).listen.userWxids == file.value.listenUserWxids.GetOr([])
              && ApplyConfig(s, file).listen.groupWxids == file.value.listenGroupWxids.GetOr([])
  {
  }

  /** The target follows the target type; with an unknown type the previous target stays. */
  lemma ApplyConfigTarget(s: Settings, f: ConfigFile)
    ensures f.targetType.GetOr("user") == "user" ==> ApplyConfig(s, Some(f)).targetWxid == f.targetUserWxid
    ensures f.targetType == Some("group") ==> ApplyConfig(s, Some(f)).targetWxid == f.targetGroupWxid
    ensures f.targetType.Some? && f.targetType.value !in {"user", "group"} ==>
              ApplyConfig(s, Some(f)).targetWxid == s.targetWxid
  {
  }

  /** A target that `if not self.target_wxid` lets through: present and non-empty. */
  predicate HasTarget(target: Option<string>) {
    target.Some? && target.value != ""
  }

  /**
   * The send operations the forward gate invokes: the filter first, then the
   * target, then one send with the target as its first argument.
   */
  function ForwardCalls(listen: ListenConfig, target: Option<string>, m: Dict, p: Payload): (calls: seq<Call>)
    ensures |calls| <= 1
    ensures calls != [] <==> IsMessageAllowed(listen, m) && HasTarget(target)
    ensures calls != [] ==> calls[0] == Call(target.value, p)
  {
    if !IsMessageAllowed(listen, m) then []
    else if !HasTarget(target) then []
    else [Call(target.value, p)]
  }

  /** The calls of a handler that forwards `p` when it has one. */
  function HandlerCalls(listen: ListenConfig, target: Option<string>, m: Dict, p: Option<Payload>): seq<Call> {
    match p
    case None => []
    case Some(payload) => ForwardCalls(listen, target, m, payload)
  }

  /** A text message forwards its `Content` when that is truthy. */
  function TextPayload(m: Dict): (r: Option<Payload>)
    ensures r.Some? <==> Truthy(Get(m, "Content"))
    ensures r.Some? ==> r.value == Text(Get(m, "Content"))
  {
    var content := Get(m, "Content");
    if Truthy(content) then Some(Text(content)) else None
  }

  /** An image message forwards `Image or Content` when that is truthy. */
  function ImagePayload(m: Dict): (r: Option<Payload>)
    ensures r.Some? <==> Truthy(Get(m, "Image")) || Truthy(Get(m, "Content"))
    ensures r.Some? && Truthy(Get(m, "Image")) ==> r.value == Image(Get(m, "Image"))
    ensures r.Some? && !Truthy(Get(m, "Image")) ==> r.value == Image(Get(m, "Content"))
  {
    var data := OrElse(Get(m, "Image"), Get(m, "Content"));
    if Truthy(data) then Some(Image(data)) else None
  }

  /**
   * The XML of a CDN video message: `Xml or Content`, when it is a string
   * holding `<msg>` and, case-insensitively, `cdnvideourl`. A falsy value, or
   * a dictionary without the key `"<msg>"`, fails the test; a truthy integer
   * or boolean, or a dictionary with that key, makes it raise, which the
   * plugin catches. Either way the message is not a CDN video.
   */
  function CdnVideoXml(m: Dict): (r: Option<string>)
    ensures r.Some? ==> Contains(r.value, "<msg>") && Contains(Lower(r.value), "cdnvideourl")
    ensures r.Some? ==> OrElse(Get(m, "Xml"), Get(m, "Content")) == VStr(r.value)
    ensures r.Some? <==>
              var x := OrElse(Get(m, "Xml"), Get(m, "Content"));
              x.VStr? && Contains(x.s, "<msg>") && Contains(Lower(x.s), "cdnvideourl")
  {
    match OrElse(Get(m, "Xml"), Get(m, "Content"))
    case VStr(s) => if Contains(s, "<msg>") && Contains(Lower(s), "cdnvideourl") then Some(s) else None
    case _ => None
  }

  /** The `image` argument of `send_video_message`: the thumbnail, or the string "None" without one. */
  function ThumbnailArg(thumb: Option<string>): (r: string)
    ensures thumb.None? ==> r == "None"
    ensures thumb.Some? && thumb.value != "" ==> r == thumb.value
    ensures r == "None" <==> thumb.None? || thumb.value == "" || thumb.value == "None"
  {
    if thumb.Some? && thumb.value != "" then thumb.value else "None"
  }

  /**
   * The Base64 path of a video message: `Video or Content` must be a
   * non-empty string (anything else fails before a send) that was saved to a
   * temporary file.
   */
  function Base64VideoPayload(m: Dict, saved: bool, thumb: Option<string>): (r: Option<Payload>)
    ensures r.Some? ==> saved && r.value.Video? && r.value.video != "" &&
                        OrElse(Get(m, "Video"), Get(m, "Content")) == VStr(r.value.video) &&
                        r.value.image == ThumbnailArg(thumb)
    ensures (saved && OrElse(Get(m, "Video"), Get(m, "Content")).VStr? &&
             OrElse(Get(m, "Video"), Get(m, "Content")).s != "") ==> r.Some?
  {
    match OrElse(Get(m, "Video"), Get(m, "Content"))
    case VStr(v) => if v != "" && saved then Some(Video(v, ThumbnailArg(thumb))) else None
    case _ => None
  }

  /** A video message: the CDN path when it applies, else the Base64 path. */
  function VideoPayload(m: Dict, saved: bool, thumb: Option<string>): (r: Option<Payload>)
    ensures CdnVideoXml(m).Some? ==> r == Some(CdnVideo(CdnVideoXml(m).value))
    ensures CdnVideoXml(m).None? ==> r == Base64VideoPayload(m, saved, thumb)
    ensures r.Some? && !r.value.CdnVideo? ==> saved && r.value.Video?
  {
    match CdnVideoXml(m)
    case Some(xml) => Some(CdnVideo(xml))
    case None => Base64VideoPayload(m, saved, thumb)
  }

  /**
   * A card message (already preprocessed): its card text, when truthy and a
   * string, parsed into a card.
   */
  function CardPayload(m: Dict, xmlRoot: XmlRootParser): (r: Option<Payload>)
    ensures r.Some? ==> ContentXml(m).VStr? && ContentXml(m).s != "" && r.value.ShareCard? &&
                        r.value.cardWxid != "" && r.value.cardNickname != ""
    ensures ContentXml(m).VStr? && ContentXml(m).s != "" ==>
              match ParseCardXml(ContentXml(m).s, xmlRoot)
              case None => r.None?
              case Some(card) => r == Some(ShareCard(card.wxid, card.nickname, card.alias))
  {
    var xml := ContentXml(m);
    if !Truthy(xml) || !xml.VStr? then None
    else
      match ParseCardXml(xml.s, xmlRoot)
      case None => None
      case Some(card) => Some(ShareCard(card.wxid, card.nickname, card.alias))
  }

  /**
   * `handle_card_message` raises, outside its `try`, when the card text is
   * truthy but not a string: it slices the text for its debug line.
   */
  predicate CardTextRaises(m: Dict)
    ensures CardTextRaises(m) ==> "Content" in m && m["Content"].VDict? && HasKey(m["Content"].entries, "string")
  {
    var xml := ContentXml(m);
    Truthy(xml) && !xml.VStr?
  }

  /** The `MsgType` of a contact card. */
  const CardMsgType := 42

  /** What `handle_other_message` does to a message record and which sends it makes. */
  datatype OtherOutcome = OtherOutcome(fields: Dict, raised: bool, calls: seq<Call>)

  /**
   * Only a card message is handled: preprocessed, then parsed and forwarded
   * unless preprocessing raised; `raised` when either step raises.
   */
  function HandleOther(listen: ListenConfig, target: Option<string>, m: Dict, xmlRoot: XmlRootParser): (r: OtherOutcome)
    ensures |r.calls| <= 1
    ensures r.raised ==> r.calls == []
    ensures r.calls != [] ==> r.calls[0].payload.ShareCard? && IsMessageAllowed(listen, r.fields) &&
                              HasTarget(target) && r.calls[0].target == target.value
    ensures Get(m, "MsgType") == VInt(CardMsgType) ==> r.fields == Preprocess(m).fields
  {
    if Get(m, "MsgType") != VInt(CardMsgType) then OtherOutcome(m, false, [])
    else
      var o := Preprocess(m);
      if o.raised then OtherOutcome(o.fields, true, [])
      else OtherOutcome(o.fields, CardTextRaises(o.fields),
                        HandlerCalls(listen, target, o.fields, CardPayload(o.fields, xmlRoot)))
  }

  /** A message the filter rejects causes no send, whatever the handler would forward. */
  lemma FilteredMessageSendsNothing(listen: ListenConfig, target: Option<string>, m: Dict, p: Option<Payload>)
    requires !IsMessageAllowed(listen, m)
    ensures HandlerCalls(listen, target, m, p) == []
  {
  }

  /** An allowed text message with non-empty content is sent to the target once, unchanged. */
  lemma TextForwardedOnce(listen: ListenConfig, t: string, m: Dict, c: string)
    requires IsMessageAllowed(listen, m) && t != ""
    requires "Content" in m && m["Content"] == VStr(c) && c != ""
    ensures HandlerCalls(listen, Some(t), m, TextPayload(m)) == [Call(t, Text(VStr(c)))]
  {
  }

  /** An image message without `Image` forwards its `Content`; with neither, nothing is sent. */
  lemma ImageFallsBackToContent(m: Dict)
    ensures !Truthy(Get(m, "Image")) && Truthy(Get(m, "Content")) ==> ImagePayload(m) == Some(Image(Get(m, "Content")))
    ensures !Truthy(Get(m, "Image")) && !Truthy(Get(m, "Content")) ==> ImagePayload(m).None?
  {
  }

  /**
   * A CDN video is forwarded as such and never falls through to the Base64
   * path, even when the filter or the target stops it.
   */
  lemma CdnVideoPreemptsBase64(listen: ListenConfig, target: Option<string>, m: Dict, saved: bool,
                               thumb: Option<string>)
    requires CdnVideoXml(m).Some?
    ensures VideoPayload(m, saved, thumb) == Some(CdnVideo(CdnVideoXml(m).value))
    ensures forall c :: c in HandlerCalls(listen, target, m, VideoPayload(m, saved, thumb)) ==> c.payload.CdnVideo?
  {
  }

  /**
   * A Base64 video whose first frame could not be extracted is still sent,
   * with the string "None" as its thumbnail.
   */
  lemma VideoWithoutThumbnail(listen: ListenConfig, t: string, m: Dict, v: string)
    requires IsMessageAllowed(listen, m) && t != ""
    requires CdnVideoXml(m).None?
    requires OrElse(Get(m, "Video"), Get(m, "Content")) == VStr(v) && v != ""
    ensures HandlerCalls(listen, Some(t), m, VideoPayload(m, true, None)) == [Call(t, Video(v, "None"))]
  {
  }

  /** A video that could not be saved to a temporary file is not sent. */
  lemma UnsavedVideoNotSent(m: Dict, thumb: Option<string>)
    requires CdnVideoXml(m).None?
    ensures VideoPayload(m, false, thumb).None?
  {
  }

  /** A message that is not a card is left as it is, and nothing is sent. */
  lemma OtherNonCardIgnored(listen: ListenConfig, target: Option<string>, m: Dict, xmlRoot: XmlRootParser)
    requires Get(m, "MsgType") != VInt(CardMsgType)
    ensures HandleOther(listen, target, m, xmlRoot) == OtherOutcome(m, false, [])
  {
  }

  /** When preprocessing raises, the card is not forwarded. */
  lemma RaisingPreprocessSendsNothing(listen: ListenConfig, target: Option<string>, m: Dict, xmlRoot: XmlRootParser)
    requires Get(m, "MsgType") == VInt(CardMsgType) && Preprocess(m).raised
    ensures HandleOther(listen, target, m, xmlRoot).raised
    ensures HandleOther(listen, target, m, xmlRoot).calls == []
  {
  }

  /**
   * A card shared in a listened group, `"<sender>:\n<document>"` (as plain
   * `Content` or as the `"string"` entry of a `Content` dictionary) from a
   * record whose preprocessed `FromWxid` is a `@chatroom` wxid (given
   * directly or built from `FromUserName`), reaches the target as exactly one ShareCard call with
   * the card's root attributes (whatever other attributes the root has); the
   * record is marked as a group message from that sender.
   */
  lemma {:induction false} GroupCardForwarded(listen: ListenConfig, t: string, m: Dict, xmlRoot: XmlRootParser,
                                              room: string, sender: string, doc: string, attrs: Attributes)
    requires t != ""
    requires Get(m, "MsgType") == VInt(CardMsgType)
    requires Preprocess(m).fields["FromWxid"] == VStr(room) && EndsWith(room, ChatroomSuffix)
    requires ContentXml(m) == VStr(sender + SenderSeparator + doc)
    requires !Contains(sender, SenderSeparator)
    requires SecondPassKeeps(Strip(doc))
    requires xmlRoot(Strip(doc)) == Some(attrs)
    requires Attr(attrs, "username") != "" && Attr(attrs, "nickname") != ""
    requires || listen.listenType == "all"
             || (listen.listenType == "user" && Strip(sender) in listen.userWxids)
             || (listen.listenType == "group" && room in listen.groupWxids)
    ensures var o := HandleOther(listen, Some(t), m, xmlRoot);
            && !o.raised
            && o.fields["IsGroup"] == VBool(true)
            && o.fields["SenderWxid"] == VStr(Strip(sender))
            && o.calls == [Call(t, ShareCard(Attr(attrs, "username"), Attr(attrs, "nickname"), Attr(attrs, "alias")))]
  {
    GroupCardSender(m, sender, doc);
    PreprocessKeepsCardText(m);
    var r := Preprocess(m).fields;
    var card := ShareCard(Attr(attrs, "username"), Attr(attrs, "nickname"), Attr(attrs, "alias"));
    PrefixedCardPayload(r, xmlRoot, sender, doc, attrs);
    assert IsMessageAllowed(listen, r);
    CardMessageForwarded(listen, t, m, xmlRoot, card);
  }

  /**
   * The card text `"<sender>:\n<document>"` of a record yields the card of the
   * document's root attributes, whatever other attributes the root has.
   */
  lemma PrefixedCardPayload(r: Dict, xmlRoot: XmlRootParser, sender: string, doc: string, attrs: Attributes)
    requires ContentXml(r) == VStr(sender + SenderSeparator + doc)
    requires !Contains(sender, SenderSeparator)
    requires SecondPassKeeps(Strip(doc))
    requires xmlRoot(Strip(doc)) == Some(attrs)
    requires Attr(attrs, "username") != "" && Attr(attrs, "nickname") != ""
    ensures !CardTextRaises(r)
    ensures CardPayload(r, xmlRoot) ==
            Some(ShareCard(Attr(attrs, "username"), Attr(attrs, "nickname"), Attr(attrs, "alias")))
  {
    ParsePrefixedCard(sender, doc, xmlRoot, attrs);
  }

  /** A card message that preprocesses cleanly and parses, from an allowed source, is sent to the target once. */
  lemma CardMessageForwarded(listen: ListenConfig, t: string, m: Dict, xmlRoot: XmlRootParser, p: Payload)
    requires t != ""
    requires Get(m, "MsgType") == VInt(CardMsgType)
    requires !Preprocess(m).raised && !CardTextRaises(Preprocess(m).fields)
    requires CardPayload(Preprocess(m).fields, xmlRoot) == Some(p)
    requires IsMessageAllowed(listen, Preprocess(m).fields)
    ensures HandleOther(listen, Some(t), m, xmlRoot) == OtherOutcome(Preprocess(m).fields, false, [Call(t, p)])
  {
  }

  /** The host API client: it records each send operation the plugin invokes on it. */
  class Bot {
    var calls: seq<Call>

    constructor()
      ensures calls == []
    {
      calls := [];
    }

    /** Invoke a send operation; `ok` is false when it raised. */
    method Send(target: string, payload: Payload, raises: bool) returns (ok: bool)
      modifies this
      ensures calls == old(calls) + [Call(target, payload)]
      ensures ok == !raises
    {
      calls := calls + [Call(target, payload)];
      ok := !raises;
    }
  }

  /** A message record as the host hands it over: a dictionary that handlers may change. */
  class MessageRecord {
    var fields: Dict

    constructor(fields: Dict)
      ensures this.fields == fields
    {
      this.fields := fields;
    }
  }

  /** The plugin object. */
  class MessageForwarder {
    var targetType: Option<string>
    var targetWxid: Option<string>
    var listenType: string
    var listenUserWxids: seq<string>
    var listenGroupWxids: seq<string>

    /** The configuration fields as one value. */
    function Current(): Settings
      reads this
    {
      Settings(targetType, targetWxid, ListenConfig(listenType, listenUserWxids, listenGroupWxids))
    }

    /** `__init__`: default fields, then the configuration file. */
    constructor(file: Option<ConfigFile>)
      ensures Current() == ApplyConfig(InitialSettings, file)
    {
      targetType := None;
      targetWxid := None;
      listenType := "all";
      listenUserWxids := [];
      listenGroupWxids := [];
      new;
      LoadConfig(file);
    }

    /** `_load_config`. */
    method LoadConfig(file: Option<ConfigFile>)
      modifies this
      ensures Current() == ApplyConfig(old(Current()), file)
    {
      if file.Some? {
        var f := file.value;
        targetType := Some(f.targetType.GetOr("user"));
        if targetType.value == "user" {
          targetWxid := f.targetUserWxid;
        } else if targetType.value == "group" {
          targetWxid := f.targetGroupWxid;
        }
        listenType := f.listenType.GetOr("all");
        listenUserWxids := f.listenUserWxids.GetOr([]);
        listenGroupWxids := f.listenGroupWxids.GetOr([]);
      }
    }

    /** `on_enable`: reload the configuration. */
    method OnEnable(file: Option<ConfigFile>)
      modifies this
      ensures Current() == ApplyConfig(old(Current()), file)
    {
      LoadConfig(file);
    }

    /** `_forward_message`: filter, target check, then one send whose failure is absorbed. */
    method ForwardMessage(bot: Bot, message: MessageRecord, payload: Payload, hostRaises: bool)
      modifies bot
      ensures bot.calls == old(bot.calls) + ForwardCalls(Current().listen, targetWxid, message.fields, payload)
    {
      if !IsMessageAllowed(Current().listen, message.fields) {
        return;
      }
      if targetWxid.None? || targetWxid.value == "" {
        return;
      }
      var ok := bot.Send(targetWxid.value, payload, hostRaises);
    }

    /** `_forward_card_message_direct`: the same gate in front of the ShareCard call. */
    method ForwardCardMessageDirect(bot: Bot, message: MessageRecord, card: Card, hostRaises: bool)
      modifies bot
      ensures bot.calls == old(bot.calls) +
                ForwardCalls(Current().listen, targetWxid, message.fields,
                             ShareCard(card.wxid, card.nickname, card.alias))
    {
      if !IsMessageAllowed(Current().listen, message.fields) {
        return;
      }
      if targetWxid.None? || targetWxid.value == "" {
        return;
      }
      var ok := bot.Send(targetWxid.value, ShareCard(card.wxid, card.nickname, card.alias), hostRaises);
    }

    /** One wxid field of `_preprocess_card_message`, in place: synthesised when absent, then made a string. */
    static method NormaliseWxidField(message: MessageRecord, wxidKey: string, nameKey: string)
      modifies message
      ensures message.fields == NormaliseWxid(old(message.fields), wxidKey, nameKey)
    {
      if wxidKey !in message.fields {
        var user := GetOr(message.fields, nameKey, VDict([]));
        message.fields := message.fields[wxidKey := WxidFromUserName(user)];
      }
      if !message.fields[wxidKey].VStr? {
        message.fields := message.fields[wxidKey := VStr(Str(message.fields[wxidKey]))];
      }
    }

    /** `_preprocess_card_message`, in place; `raised` when it stops with an exception. */
    method PreprocessCardMessage(message: MessageRecord) returns (raised: bool)
      modifies message
      ensures Outcome(message.fields, raised) == Preprocess(old(message.fields))
    {
      NormaliseWxidField(message, "FromWxid", "FromUserName");
      NormaliseWxidField(message, "ToWxid", "ToUserName");
      assert message.fields == NormaliseWxids(old(message.fields));
      var fromWxid := message.fields["FromWxid"].s;
      if EndsWith(fromWxid, ChatroomSuffix) {
        message.fields := message.fields["IsGroup" := VBool(true)];
        var sender := GroupSender(ContentXml(message.fields), fromWxid);
        if sender.None? {
          return true;
        }
        message.fields := message.fields["SenderWxid" := VStr(sender.value)];
      } else {
        message.fields := message.fields["IsGroup" := VBool(false)];
        message.fields := message.fields["SenderWxid" := VStr(fromWxid)];
      }
      raised := false;
    }

    /** `handle_text_message`. */
    method HandleTextMessage(bot: Bot, message: MessageRecord, hostRaises: bool)
      modifies bot
      ensures bot.calls == old(bot.calls) +
                HandlerCalls(Current().listen, targetWxid, message.fields, TextPayload(message.fields))
    {
      var content := Get(message.fields, "Content");
      if Truthy(content) {
        ForwardMessage(bot, message, Text(content), hostRaises);
      }
    }

    /** `handle_image_message`. */
    method HandleImageMessage(bot: Bot, message: MessageRecord, hostRaises: bool)
      modifies bot
      ensures bot.calls == old(bot.calls) +
                HandlerCalls(Current().listen, targetWxid, message.fields, ImagePayload(message.fields))
    {
      var data := OrElse(Get(message.fields, "Image"), Get(message.fields, "Content"));
      if Truthy(data) {
        ForwardMessage(bot, message, Image(data), hostRaises);
      }
    }

    /** `_try_cdn_video_forward`: `handled` when the message is a CDN video, forwarded or filtered. */
    method TryCdnVideoForward(bot: Bot, message: MessageRecord, hostRaises: bool) returns (handled: bool)
      modifies bot
      ensures handled == CdnVideoXml(message.fields).Some?
      ensures bot.calls == old(bot.calls) +
                (if handled then ForwardCalls(Current().listen, targetWxid, message.fields,
                                              CdnVideo(CdnVideoXml(message.fields).value))
                 else [])
    {
      var xml := OrElse(Get(message.fields, "Xml"), Get(message.fields, "Content"));
      if xml.VStr? && Contains(xml.s, "<msg>") && Contains(Lower(xml.s), "cdnvideourl") {
        ForwardMessage(bot, message, CdnVideo(xml.s), hostRaises);
        return true;
      }
      return false;
    }

    /** `_handle_video_with_base64`, with the file and thumbnail steps as `saved` and `thumb`. */
    method HandleVideoWithBase64(bot: Bot, message: MessageRecord, saved: bool, thumb: Option<string>,
                                 hostRaises: bool)
      modifies bot
      ensures bot.calls == old(bot.calls) +
                HandlerCalls(Current().listen, targetWxid, message.fields,
                             Base64VideoPayload(message.fields, saved, thumb))
    {
      var video := OrElse(Get(message.fields, "Video"), Get(message.fields, "Content"));
      if !Truthy(video) || !video.VStr? || !saved {
        return;
      }
      var image := if thumb.Some? && thumb.value != "" then thumb.value else "None";
      ForwardMessage(bot, message, Video(video.s, image), hostRaises);
    }

    /** `handle_video_message`: the CDN path first, the Base64 path otherwise. */
    method HandleVideoMessage(bot: Bot, message: MessageRecord, saved: bool, thumb: Option<string>,
                              hostRaises: bool)
      modifies bot
      ensures bot.calls == old(bot.calls) +
                HandlerCalls(Current().listen, targetWxid, message.fields,
                             VideoPayload(message.fields, saved, thumb))
    {
      var handled := TryCdnVideoForward(bot, message, hostRaises);
      if handled {
        return;
      }
      HandleVideoWithBase64(bot, message, saved, thumb, hostRaises);
    }

    /** `handle_card_message`: parse the card text and forward the card. */
    method HandleCardMessage(bot: Bot, message: MessageRecord, xmlRoot: XmlRootParser, hostRaises: bool)
      returns (raised: bool)
      modifies bot
      ensures raised == CardTextRaises(message.fields)
      ensures bot.calls == old(bot.calls) +
                HandlerCalls(Current().listen, targetWxid, message.fields, CardPayload(message.fields, xmlRoot))
    {
      var xml := ContentXml(message.fields);
      if !Truthy(xml) {
        return false;
      }
      if !xml.VStr? {
        return true;
      }
      raised := false;
      var card := ParseCardXml(xml.s, xmlRoot);
      if card.None? {
        return;
      }
      ForwardCardMessageDirect(bot, message, card.value, hostRaises);
    }

    /** `handle_other_message`: a card message is preprocessed in place, then handled. */
    method HandleOtherMessage(bot: Bot, message: MessageRecord, xmlRoot: XmlRootParser, hostRaises: bool)
      returns (raised: bool)
      modifies bot, message
      ensures var o := HandleOther(Current().listen, targetWxid, old(message.fields), xmlRoot);
              && message.fields == o.fields
              && raised == o.raised
              && bot.calls == old(bot.calls) + o.calls
    {
      if Get(message.fields, "MsgType") != VInt(CardMsgType) {
        return false;
      }
      raised := PreprocessCardMessage(message);
      if raised {
        return;
      }
      raised := HandleCardMessage(bot, message, xmlRoot, hostRaises);
    }
  }
}
